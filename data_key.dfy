/**
 * Typed configuration keys (DataKey): a named slot with a value class, an optional
 * lazily evaluated default, an optional string decoder and further optional
 * capabilities. Keys are immutable values; every "set" returns a new key.
 */
module DataKeys {
  import opened Wrappers
  import opened Strings

  /** A Java class as keys use it: its qualified name, which instance checks compare, and its simple name. */
  datatype JClass = JClass(name: string, simpleName: string)

  /** A reference to an object of a collaborator that is not modelled (custom getter, panel provider, ...). */
  datatype Handle = Handle(id: nat)

  /**
   * A runtime value: null, a plain object, or a DataStore used as a value.
   * `types` holds the qualified names of every class and interface the object is an
   * instance of; `text` is what its toString() returns.
   */
  datatype Value =
    | Null
    | Obj(types: set<string>, text: string)
    | Store(types: set<string>, text: string, definition: Option<StoreDefinition>)

  /** What a string decoder produces: null or a plain object. */
  datatype Scalar = ScalarNull | ScalarObj(types: set<string>, text: string)

  /** The schema of a store: a name and its keys, in order. */
  datatype StoreDefinition = StoreDefinition(name: string, keys: seq<DataKey>)

  /** A string decoder (StringCodec): turns text into a value of the key's type. */
  datatype StringCodec = StringCodec(decode: string -> Scalar)

  /** A default-value supplier: a fixed value, or a decoding deferred until the default is asked for. */
  datatype Supplier = Const(value: Value) | DecodeLater(codec: StringCodec, text: string)

  /** A key: its name (its identity), value class, and the optional parts a key may carry. */
  datatype DataKey = DataKey(
    name: string,
    valueClass: JClass,
    defaultValue: Option<Supplier>,
    decoder: Option<StringCodec>,
    customGetter: Option<Handle>,
    panelProvider: Option<Handle>,
    displayLabel: Option<string>,
    definition: Option<StoreDefinition>,
    copyFunction: Option<Handle>,
    customSetter: Option<Handle>,
    extraData: Option<Handle>)

  /** A decoded result as a value: null stays null, and a decoder never yields a store. */
  function ScalarValue(x: Scalar): (v: Value)
    ensures v.Null? <==> x.ScalarNull?
    ensures !v.Store?
  {
    match x
    case ScalarNull => Null
    case ScalarObj(types, text) => Obj(types, text)
  }

  /** java.lang.Object, of which every object is an instance. */
  const ObjectClass := JClass("java.lang.Object", "Object")

  /** The DataStore interface, which `instanceof DataStore` tests. */
  const DataStoreClass := JClass("org.suikasoft.jOptions.Interfaces.DataStore", "DataStore")

  /** Class.isInstance: the value is not null and is an instance of the class (every object is an Object). */
  predicate IsInstance(c: JClass, v: Value)
  {
    match v
    case Null => false
    case Obj(types, _) => c == ObjectClass || c.name in types
    case Store(types, _, _) => c == ObjectClass || c.name in types
  }

  /** The `Store` constructor stands for exactly the objects that are instances of DataStore. */
  predicate WellFormed(v: Value)
  {
    match v
    case Null => true
    case Obj(types, _) => DataStoreClass.name !in types
    case Store(types, _, _) => DataStoreClass.name in types
  }

  /** For well-formed values, `instanceof DataStore` is the `Store` constructor. */
  lemma {:induction false} StoreIsDataStoreInstance(v: Value)
    requires WellFormed(v)
    ensures v.Store? <==> IsInstance(DataStoreClass, v)
  {
  }

  /** A value a key of this class may hold: null, or an instance of its value class (the bound `E extends T`). */
  predicate Fits(k: DataKey, v: Value)
  {
    v.Null? || IsInstance(k.valueClass, v)
  }

  /** What String.valueOf renders for a value. */
  function ValueText(v: Value): string
  {
    match v
    case Null => "null"
    case Obj(_, text) => text
    case Store(_, text, _) => text
  }

  /** Runs a supplier: only now is a deferred decoding carried out. */
  function Supply(s: Supplier): Value
  {
    match s
    case Const(v) => v
    case DecodeLater(codec, text) => ScalarValue(codec.decode(text))
  }

  /** Two keys are the same key exactly when their names are equal. */
  predicate SameKey(a: DataKey, b: DataKey)
  {
    a.name == b.name
  }

  /** getTypeName: the simple name of the value class. */
  function GetTypeName(k: DataKey): (r: string)
    ensures r == k.valueClass.simpleName
  {
    k.valueClass.simpleName
  }

  /** getDefault: the supplied value, if a supplier is installed and it does not yield null. */
  function GetDefault(k: DataKey): (r: Option<Value>)
    ensures r.Some? ==> !r.value.Null?
    ensures k.defaultValue.None? ==> r.None?
  {
    match k.defaultValue
    case None => None
    case Some(s) => var v := Supply(s); if v.Null? then None else Some(v)
  }

  /** hasDefaultValue: a default is present, which needs an installed supplier that does not yield null. */
  function HasDefaultValue(k: DataKey): (b: bool)
    ensures b <==> GetDefault(k).Some?
    ensures b <==> k.defaultValue.Some? && !Supply(k.defaultValue.value).Null?
  {
    GetDefault(k).Some?
  }

  /** Everything but the default supplier is the same in both keys. */
  ghost predicate SameButDefault(a: DataKey, b: DataKey)
  {
    a.(defaultValue := b.defaultValue) == b
  }

  /** setDefault: a copy of the key with a new default supplier. */
  function SetDefault(k: DataKey, s: Supplier): (r: DataKey)
    ensures SameButDefault(r, k) && SameKey(r, k)
    ensures GetDefault(r) == if Supply(s).Null? then None else Some(Supply(s))
  {
    k.(defaultValue := Some(s))
  }

  /** setDecoder: a copy of the key with a decoder. */
  function SetDecoder(k: DataKey, d: StringCodec): (r: DataKey)
    ensures r.(decoder := k.decoder) == k && r.decoder == Some(d)
    ensures GetDefault(r) == GetDefault(k)
  {
    k.(decoder := Some(d))
  }

  const NoDecoderMessage := "Can only use this method if a decoder was set before"

  /**
   * setDefaultString: fails when the key has no decoder; otherwise a copy whose
   * default decodes `text`, but only when the default is asked for.
   */
  function SetDefaultString(k: DataKey, text: string): (r: Result<DataKey, string>)
    ensures r.Failure? <==> k.decoder.None?
    ensures r.Failure? ==> r.error == NoDecoderMessage
    ensures r.Success? ==> SameButDefault(r.value, k)
    ensures r.Success? ==> r.value.defaultValue == Some(DecodeLater(k.decoder.value, text))
    ensures r.Success? ==>
      var decoded := ScalarValue(k.decoder.value.decode(text));
      GetDefault(r.value) == if decoded.Null? then None else Some(decoded)
  {
    if k.decoder.None? then Failure(NoDecoderMessage)
    else Success(SetDefault(k, DecodeLater(k.decoder.value, text)))
  }

  /*
   * TO STRING
   */

  /** The text every rendering of a key starts with. */
  function Header(k: DataKey): string
  {
    k.name + " (" + GetTypeName(k)
  }

  /** What Optional.toString() gives for Optional.of(v). */
  function OptionalText(v: Value): string
  {
    "Optional[" + ValueText(v) + "]"
  }

  /** Each line preceded by a newline and three spaces. */
  function Indent(ls: seq<string>): string
  {
    if ls == [] then "" else "\n" + "   " + ls[0] + Indent(ls[1..])
  }

  /** The lines, each preceded by three spaces. */
  function Prefixed(ls: seq<string>): seq<string>
  {
    if ls == [] then [] else ["   " + ls[0]] + Prefixed(ls[1..])
  }

  /** DataKey.toString(key) */
  function KeyToString(k: DataKey): (r: string)
    ensures Header(k) <= r
    decreases k, 1
  {
    match GetDefault(k)
    case None => Header(k) + ")"
    case Some(v) =>
      if v.Store? then
        if v.definition.Some? then
          assert k.defaultValue.value == Const(v);
          Header(k) + ")" + Indent(Lines(KeysToString(v.definition.value.keys)))
        else
          Header(k) + " - Undefined DataStore)"
      else if |Lines(OptionalText(v))| == 1 then
        Header(k) + " = " + OptionalText(v) + ")"
      else
        Header(k) + " - has default value, but spans several lines)"
  }

  /** DataKey.toString(keys): each key's text followed by a newline, in order. */
  function KeysToString(ks: seq<DataKey>): (r: string)
    ensures ks == [] <==> r == ""
    ensures ks != [] ==> KeyToString(ks[0]) + "\n" <= r
    decreases ks, 0
  {
    if ks == [] then "" else KeyToString(ks[0]) + "\n" + KeysToString(ks[1..])
  }

  /** The lines of each key's text, one key after another. */
  function KeyLines(ks: seq<DataKey>): seq<string>
  {
    if ks == [] then [] else Lines(KeyToString(ks[0])) + KeyLines(ks[1..])
  }

  /** A key with no default renders as `name (TypeName)`. */
  lemma {:induction false} NoDefaultRendering(k: DataKey)
    requires !HasDefaultValue(k)
    ensures KeyToString(k) == k.name + " (" + k.valueClass.simpleName + ")"
  {
  }

  /** A DataStore default without a definition renders as `name (TypeName - Undefined DataStore)`. */
  lemma {:induction false} UndefinedStoreRendering(k: DataKey, types: set<string>, text: string)
    requires GetDefault(k) == Some(Store(types, text, None))
    ensures KeyToString(k) == k.name + " (" + k.valueClass.simpleName + " - Undefined DataStore)"
  {
  }

  /**
   * A plain default is shown inline, wrapped as Optional, exactly when its text
   * has no newline; otherwise the key says the default spans several lines.
   */
  lemma {:induction false} PlainDefaultRendering(k: DataKey, v: Value)
    requires GetDefault(k) == Some(v) && WellFormed(v) && !IsInstance(DataStoreClass, v)
    ensures NoNewline(ValueText(v)) ==>
      KeyToString(k) == Header(k) + " = Optional[" + ValueText(v) + "])"
    ensures !NoNewline(ValueText(v)) ==>
      KeyToString(k) == Header(k) + " - has default value, but spans several lines)"
  {
    StoreIsDataStoreInstance(v);
    var o := OptionalText(v);
    assert |Lines(o)| == 1 <==> NoNewline(ValueText(v)) by {
      LinesCountOne(o);
      assert o[..|o| - 1] == "Optional[" + ValueText(v);
      assert forall c :: c in "Optional[" + ValueText(v) <==> c in "Optional[" || c in ValueText(v);
    }
  }

  /** Indenting newline-free lines after a line-ended prefix adds them as indented lines. */
  lemma {:induction false} LinesIndent(p: string, ls: seq<string>)
    requires p != [] && p[|p| - 1] != '\n'
    requires AllNoNewline(ls)
    ensures Lines(p + Indent(ls)) == Lines(p) + Prefixed(ls)
    decreases ls
  {
    if ls == [] {
      assert p + Indent(ls) == p;
    } else {
      var first := "   " + ls[0];
      assert NoNewline(first) by {
        assert forall c :: c in first <==> c in "   " || c in ls[0];
      }
      assert first[..|first|] == first;
      NewlineIndexIs(first, |first|);
      LinesWhole(first);
      assert first[|first| - 1] != '\n' by {
        assert first[|first| - 1] in first;
      }
      calc {
        Lines(p + Indent(ls));
      == { assert p + Indent(ls) == p + "\n" + (first + Indent(ls[1..])); }
        Lines(p + "\n" + (first + Indent(ls[1..])));
      == { LinesSplit(p, first + Indent(ls[1..])); }
        Lines(p) + Lines(first + Indent(ls[1..]));
      == { LinesIndent(first, ls[1..]); }
        Lines(p) + ([first] + Prefixed(ls[1..]));
      }
    }
  }

  /** An indented block of at least one newline-free line does not end in a newline. */
  lemma {:induction false} IndentEnd(ls: seq<string>)
    requires ls != [] && AllNoNewline(ls)
    ensures |Indent(ls)| > 0 && Indent(ls)[|Indent(ls)| - 1] != '\n'
  {
    if |ls| == 1 {
      assert Indent(ls) == "\n   " + ls[0];
      var last := Indent(ls)[|Indent(ls)| - 1];
      assert ls[0] == [] ==> last == ' ';
      assert ls[0] != [] ==> last == ls[0][|ls[0]| - 1] && ls[0][|ls[0]| - 1] in ls[0];
    } else {
      IndentEnd(ls[1..]);
      assert Indent(ls) == "\n" + "   " + ls[0] + Indent(ls[1..]);
    }
  }

  /** A key's text is never empty and never ends in a newline. */
  lemma {:induction false} KeyToStringEnd(k: DataKey)
    ensures |KeyToString(k)| > 0 && KeyToString(k)[|KeyToString(k)| - 1] != '\n'
  {
    match GetDefault(k)
    case None =>
    case Some(v) =>
      if v.Store? && v.definition.Some? {
        var ls := Lines(KeysToString(v.definition.value.keys));
        var p := Header(k) + ")";
        if ls != [] {
          IndentEnd(ls);
          assert KeyToString(k) == p + Indent(ls);
        } else {
          assert KeyToString(k) == p;
        }
      }
  }

  /**
   * A DataStore default with a definition renders as `name (TypeName)` followed by
   * every line of the nested key listing, each on its own line behind three spaces.
   */
  lemma {:induction false} NestedStoreRendering(k: DataKey, types: set<string>, text: string, def: StoreDefinition)
    requires GetDefault(k) == Some(Store(types, text, Some(def)))
    ensures Lines(KeyToString(k)) == Lines(Header(k) + ")") + Prefixed(Lines(KeysToString(def.keys)))
  {
    LinesIndent(Header(k) + ")", Lines(KeysToString(def.keys)));
  }

  /** The listing of keys reads back as each key's lines in turn, and is exactly those lines written out. */
  lemma {:induction false} KeysToStringLines(ks: seq<DataKey>)
    ensures Lines(KeysToString(ks)) == KeyLines(ks)
    ensures KeysToString(ks) == JoinLines(KeyLines(ks))
  {
    if ks != [] {
      var first, rest := KeyToString(ks[0]), KeysToString(ks[1..]);
      KeyToStringEnd(ks[0]);
      KeysToStringLines(ks[1..]);
      calc {
        Lines(KeysToString(ks));
      == { LinesSplit(first, rest); }
        Lines(first) + Lines(rest);
      }
      calc {
        JoinLines(KeyLines(ks));
      == { JoinLinesAppend(Lines(first), KeyLines(ks[1..])); }
        JoinLines(Lines(first)) + JoinLines(KeyLines(ks[1..]));
      == { JoinLinesOfLine(first); }
        first + "\n" + rest;
      }
    }
  }
}
