/**
 * DataStore: a key/value store for configuration values addressed by typed keys.
 * Values are kept under the key's name; reads fall back to the key's default
 * unless the store is strict.
 */
module DataStores {
  import opened Wrappers
  import opened DataKeys
  import NormalKeys

  /** The failures the store's operations raise. */
  datatype StoreError =
    | TypeMismatch(keyName: string)       // setRaw: the value is not an instance of the key's class
    | NoDecoder(message: string)          // setString: the key has no decoder
    | AlreadyPresent(message: string)     // add: the key already has a value
    | NotPresent(message: string)         // replace: the key has no value yet
    | StrictMissing(keyName: string)      // get in strict mode: nothing stored
    | NoValue(keyName: string)            // get: nothing stored and no default

  class DataStore {
    const name: string
    var values: map<string, Value>
    var strict: bool

    /** A new, empty, non-strict store with the given name. */
    constructor (name: string)
      ensures this.name == name && values == map[] && !strict
    {
      this.name := name;
      values := map[];
      strict := false;
    }

    /** hasValue: a non-null value is stored under the key's name; defaults do not count. */
    function HasValue(key: DataKey): (b: bool)
      reads this
      ensures b <==> key.name in values && !values[key.name].Null?
    {
      key.name in values && !values[key.name].Null?
    }

    /** get(key): the stored value; else, unless strict, the key's default; never null. */
    function Get(key: DataKey): (r: Result<Value, StoreError>)
      reads this
      ensures r.Success? ==> !r.value.Null?
      ensures HasValue(key) ==> r == Success(values[key.name])
      ensures !HasValue(key) && strict ==> r == Failure(StrictMissing(key.name))
      ensures !HasValue(key) && !strict ==>
        (r.Success? <==> HasDefaultValue(key)) && (r.Success? ==> GetDefault(key) == Some(r.value))
    {
      if HasValue(key) then Success(values[key.name])
      else if strict then Failure(StrictMissing(key.name))
      else
        match GetDefault(key)
        case Some(d) => Success(d)
        case None => Failure(NoValue(key.name))
    }

    /** getTry: empty exactly when there is no stored value; otherwise what get returns. */
    function GetTry(key: DataKey): (r: Option<Value>)
      reads this
      ensures r.None? <==> !HasValue(key)
      ensures r.Some? ==> Get(key) == Success(r.value)
    {
      if !HasValue(key) then None else Some(Get(key).value)
    }

    /** get(String id): the raw entry for the name, or null. */
    function GetById(id: string): (r: Value)
      reads this
      ensures id in values ==> r == values[id]
      ensures forall k: DataKey | k.name == id :: HasValue(k) <==> !r.Null?
    {
      if id in values then values[id] else Null
    }

    /** getKeysWithValues: the names that currently have a stored value. */
    function KeysWithValues(): (r: set<string>)
      reads this
      ensures forall k: DataKey :: HasValue(k) <==> k.name in r
      ensures r <= values.Keys
    {
      set id | id in values && !values[id].Null?
    }

    /**
     * set: store the value under the key's name; returns the value it replaces.
     * The value fits the key's class (`E extends T`), so get can only return an
     * object of the key's type.
     */
    method Set(key: DataKey, value: Value) returns (previous: Option<Value>)
      requires Fits(key, value)
      modifies this
      ensures values == old(values)[key.name := value] && strict == old(strict)
      ensures previous == old(GetTry(key))
      ensures !value.Null? ==> Get(key) == Success(value) && IsInstance(key.valueClass, Get(key).value)
    {
      previous := GetTry(key);
      values := values[key.name := value];
    }

    /** setIfNotPresent: a no-op when the key already has a value, otherwise set. */
    method SetIfNotPresent(key: DataKey, value: Value)
      requires Fits(key, value)
      modifies this
      ensures strict == old(strict)
      ensures old(HasValue(key)) ==> values == old(values)
      ensures !old(HasValue(key)) ==> values == old(values)[key.name := value]
    {
      if HasValue(key) {
        return;
      }
      var _ := Set(key, value);
    }

    /** setRaw(key, value): refuses a value that is not an instance of the key's class, else set. */
    method SetRaw(key: DataKey, value: Value) returns (r: Result<Option<Value>, StoreError>)
      modifies this
      ensures strict == old(strict)
      ensures r.Failure? <==> !IsInstance(key.valueClass, value)
      ensures r.Failure? ==> values == old(values) && r.error == TypeMismatch(key.name)
      ensures r.Success? ==> values == old(values)[key.name := value] && r.value == old(GetTry(key))
      ensures r.Success? ==> Get(key) == Success(value)
    {
      if !IsInstance(key.valueClass, value) {
        return Failure(TypeMismatch(key.name));
      }
      var previous := Set(key, value);
      return Success(previous);
    }

    /** setString: decodes the text with the key's decoder and stores it; fails without a decoder. */
    method SetString(key: DataKey, text: string) returns (r: Result<Option<Value>, StoreError>)
      requires key.decoder.Some? ==> Fits(key, ScalarValue(key.decoder.value.decode(text)))
      modifies this
      ensures strict == old(strict)
      ensures r.Failure? <==> key.decoder.None?
      ensures r.Failure? ==>
        values == old(values) && r.error == NoDecoder("No decoder set for key '" + KeyToString(key) + "'")
      ensures r.Success? ==>
        && values == old(values)[key.name := ScalarValue(key.decoder.value.decode(text))]
        && r.value == old(GetTry(key))
      ensures r.Success? && !ScalarValue(key.decoder.value.decode(text)).Null? ==>
        Get(key) == Success(ScalarValue(key.decoder.value.decode(text)))
    {
      if key.decoder.None? {
        return Failure(NoDecoder("No decoder set for key '" + KeyToString(key) + "'"));
      }
      var previous := Set(key, ScalarValue(key.decoder.value.decode(text)));
      return Success(previous);
    }

    /** add: fails, leaving the store as it was, when the key already has a value; otherwise set. */
    method Add(key: DataKey, value: Value) returns (r: Outcome<StoreError>)
      requires Fits(key, value)
      modifies this
      ensures strict == old(strict)
      ensures r.Fail? <==> old(HasValue(key))
      ensures r.Fail? ==>
        values == old(values) && r.error == AlreadyPresent("Attempting to add value already in PassData: " + KeyToString(key))
      ensures r.Pass? ==> values == old(values)[key.name := value]
      ensures r.Pass? && !value.Null? ==> Get(key) == Success(value) && IsInstance(key.valueClass, value)
    {
      if HasValue(key) {
        return Fail(AlreadyPresent("Attempting to add value already in PassData: " + KeyToString(key)));
      }
      var _ := Set(key, value);
      return Pass;
    }

    /** replace: fails, leaving the store as it was, when the key has no value yet; otherwise set. */
    method Replace(key: DataKey, value: Value) returns (r: Outcome<StoreError>)
      requires Fits(key, value)
      modifies this
      ensures strict == old(strict)
      ensures r.Fail? <==> !old(HasValue(key))
      ensures r.Fail? ==>
        && values == old(values)
        && r.error == NotPresent("Attempting to replace value for key not yet in PassData: " + KeyToString(key))
      ensures r.Pass? ==> values == old(values)[key.name := value]
    {
      if !HasValue(key) {
        return Fail(NotPresent("Attempting to replace value for key not yet in PassData: " + KeyToString(key)));
      }
      var _ := Set(key, value);
      return Pass;
    }

    /** remove: detaches the value stored for the key and returns it, if there was one. */
    method Remove(key: DataKey) returns (previous: Option<Value>)
      modifies this
      ensures strict == old(strict)
      ensures values == old(values) - {key.name}
      ensures previous == old(GetTry(key)) && !HasValue(key)
    {
      previous := GetTry(key);
      values := values - {key.name};
    }

    /** setStrict */
    method SetStrict(value: bool)
      modifies this
      ensures strict == value && values == old(values)
    {
      strict := value;
    }

    /**
     * addAll: copies every raw entry of the source, under an Object-typed key of
     * the same name, so each source name ends up with the source's value.
     */
    method AddAll(source: DataStore)
      modifies this
      ensures strict == old(strict)
      ensures values == old(values) + old(source.values)
    {
      var raw := source.values;
      var pending := raw.Keys;
      while pending != {}
        invariant pending <= raw.Keys
        invariant strict == old(strict)
        invariant values == old(values) + map id | id in raw && id !in pending :: raw[id]
        decreases pending
      {
        var id :| id in pending;
        var _ := Set(NormalKeys.NewKey(id, ObjectClass), raw[id]);
        pending := pending - {id};
      }
      assert (map id | id in raw && id !in pending :: raw[id]) == raw;
    }
  }

  /** Keys are identified by name: stored values do not depend on a key's class or default. */
  lemma {:induction false} StoredValuesFollowName(s: DataStore, a: DataKey, b: DataKey)
    requires SameKey(a, b)
    ensures s.HasValue(a) == s.HasValue(b) && s.GetTry(a) == s.GetTry(b)
  {
  }
}
