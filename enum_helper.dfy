/**
 * EnumHelper: a table from strings to the constants of an enum, seeded from each
 * constant's string, minus an exclude list, and extensible with aliases. The enum
 * is its constants in declaration order together with their `getString`.
 */
module EnumHelpers {
  import opened Wrappers
  import opened Strings
  import opened Iteration

  /** The exceptions the lookups throw. */
  datatype EnumError<T> =
    | UnknownName(enumName: string, name: string, table: map<string, T>)   // valueOf(String): IllegalArgumentException
    | IndexTooLarge(index: int, size: nat)                                 // valueOf(int): the explicit bound check
    | NegativeIndex(index: int)                                            // valueOf(int): the array access itself

  /** Strings of the given constants. */
  function StringsOf<T>(getString: T -> string, es: seq<T>): set<string>
  {
    set i | 0 <= i < |es| :: getString(es[i])
  }

  /**
   * The table built from an enum: every constant's string leads to a constant
   * with that string, the later constant when two share one.
   */
  function BuildMap<T>(constants: seq<T>, getString: T -> string): (m: map<string, T>)
    ensures m.Keys == StringsOf(getString, constants)
    ensures forall s :: s in m ==> m[s] in constants && getString(m[s]) == s
  {
    if constants == [] then map[]
    else
      var init, last := constants[..|constants| - 1], constants[|constants| - 1];
      var m := BuildMap(init, getString);
      assert constants == init + [last];
      assert StringsOf(getString, constants) == StringsOf(getString, init) + {getString(last)} by {
        forall s | s in StringsOf(getString, constants) ensures s in StringsOf(getString, init) + {getString(last)} {
          var i :| 0 <= i < |constants| && getString(constants[i]) == s;
          if i < |init| {
            assert init[i] == constants[i];
          }
        }
        forall s | s in StringsOf(getString, init) ensures s in StringsOf(getString, constants) {
          var i :| 0 <= i < |init| && getString(init[i]) == s;
          assert constants[i] == init[i];
        }
      }
      m[getString(last) := last]
  }

  /** The table a new helper starts from: the built table without the excluded constants' strings. */
  function InitialTable<T>(constants: seq<T>, getString: T -> string, excludeList: seq<T>): map<string, T>
  {
    BuildMap(constants, getString) - StringsOf(getString, excludeList)
  }

  /** No two constants share a string. */
  predicate DistinctStrings<T>(constants: seq<T>, getString: T -> string)
  {
    forall i, j :: 0 <= i < |constants| && 0 <= j < |constants| && getString(constants[i]) == getString(constants[j]) ==> i == j
  }

  /**
   * A new helper knows exactly the strings of the constants that are not excluded,
   * each leading to a constant with that string; when strings are distinct, to the
   * very constant it came from.
   */
  lemma {:induction false} InitialTableSpec<T>(constants: seq<T>, getString: T -> string, excludeList: seq<T>)
    ensures forall s :: s in InitialTable(constants, getString, excludeList) <==>
      s in StringsOf(getString, constants) && s !in StringsOf(getString, excludeList)
    ensures forall e :: e in excludeList ==> getString(e) !in InitialTable(constants, getString, excludeList)
    ensures DistinctStrings(constants, getString) ==>
      forall i :: 0 <= i < |constants| && getString(constants[i]) !in StringsOf(getString, excludeList) ==>
        InitialTable(constants, getString, excludeList)[getString(constants[i])] == constants[i]
  {
    var m := BuildMap(constants, getString);
    forall e | e in excludeList ensures getString(e) in StringsOf(getString, excludeList) {
      var i :| 0 <= i < |excludeList| && excludeList[i] == e;
    }
    if DistinctStrings(constants, getString) {
      forall i | 0 <= i < |constants| && getString(constants[i]) !in StringsOf(getString, excludeList)
        ensures m[getString(constants[i])] == constants[i]
      {
        var s := getString(constants[i]);
        assert s in StringsOf(getString, constants);
        var j :| 0 <= j < |constants| && constants[j] == m[s];
      }
    }
  }

  class EnumHelper<T(==)> {
    /** enumClass.getSimpleName() */
    const enumName: string
    /** enumClass.getEnumConstants(), in declaration order */
    const constants: seq<T>
    /** StringProvider.getString of each constant */
    const getString: T -> string
    var translationMap: map<string, T>

    /** Every entry of the table leads to a constant of the enum. */
    ghost predicate Valid()
      reads this
    {
      forall s :: s in translationMap ==> translationMap[s] in constants
    }

    /** new EnumHelper(enumClass): the full table. */
    constructor (enumName: string, constants: seq<T>, getString: T -> string)
      ensures this.enumName == enumName && this.constants == constants && this.getString == getString
      ensures translationMap == InitialTable(constants, getString, [])
      ensures Valid()
    {
      this.enumName := enumName;
      this.constants := constants;
      this.getString := getString;
      translationMap := BuildMap(constants, getString);
      new;
      assert StringsOf(getString, []) == {};
      assert translationMap == InitialTable(constants, getString, []);
    }

    /** new EnumHelper(enumClass, excludeList): the table with each excluded constant's string removed. */
    constructor WithExclusions(enumName: string, constants: seq<T>, getString: T -> string, excludeList: seq<T>)
      ensures this.enumName == enumName && this.constants == constants && this.getString == getString
      ensures translationMap == InitialTable(constants, getString, excludeList)
      ensures Valid()
    {
      this.enumName := enumName;
      this.constants := constants;
      this.getString := getString;
      translationMap := BuildMap(constants, getString);
      new;
      var i := 0;
      while i < |excludeList|
        invariant 0 <= i <= |excludeList|
        invariant translationMap == BuildMap(constants, getString) - StringsOf(getString, excludeList[..i])
        invariant Valid()
      {
        assert StringsOf(getString, excludeList[..i + 1]) == StringsOf(getString, excludeList[..i]) + {getString(excludeList[i])} by {
          forall s | s in StringsOf(getString, excludeList[..i + 1])
            ensures s in StringsOf(getString, excludeList[..i]) + {getString(excludeList[i])}
          {
            var j :| 0 <= j < i + 1 && getString(excludeList[..i + 1][j]) == s;
            if j < i {
              assert excludeList[..i + 1][j] == excludeList[..i][j];
            }
          }
          forall s | s in StringsOf(getString, excludeList[..i]) ensures s in StringsOf(getString, excludeList[..i + 1]) {
            var j :| 0 <= j < i && getString(excludeList[..i][j]) == s;
            assert excludeList[..i + 1][j] == excludeList[..i][j];
          }
        }
        translationMap := translationMap - {getString(excludeList[i])};
        i := i + 1;
      }
      assert excludeList[..i] == excludeList;
    }

    /** valueOfTry: the constant the table maps the name to, if any. */
    function ValueOfTry(name: string): (r: Option<T>)
      reads this
      ensures r.Some? <==> name in translationMap
      ensures r.Some? ==> r.value == translationMap[name]
      ensures Valid() && r.Some? ==> r.value in constants
    {
      if name in translationMap then Some(translationMap[name]) else None
    }

    /** valueOf(String): the same constant as valueOfTry, or an error naming the enum, the input and the table. */
    function ValueOf(name: string): (r: Result<T, EnumError<T>>)
      reads this
      ensures r.Success? <==> ValueOfTry(name).Some?
      ensures r.Success? ==> ValueOfTry(name) == Some(r.value)
      ensures r.Failure? ==> r.error == UnknownName(enumName, name, translationMap)
    {
      match ValueOfTry(name)
      case Some(e) => Success(e)
      case None => Failure(UnknownName(enumName, name, translationMap))
    }

    /**
     * valueOf(int): the constant at that position. An index at or past the number
     * of constants fails the explicit check; a negative one fails the array access.
     */
    function ValueOfIndex(index: int): (r: Result<T, EnumError<T>>)
      ensures r.Success? <==> 0 <= index < |constants|
      ensures r.Success? ==> r.value == constants[index]
      ensures index >= |constants| ==> r == Failure(IndexTooLarge(index, |constants|))
      ensures index < 0 ==> r == Failure(NegativeIndex(index))
    {
      if index >= |constants| then Failure(IndexTooLarge(index, |constants|))
      else if index < 0 then Failure(NegativeIndex(index))
      else Success(constants[index])
    }

    /**
     * valueOf(List): each name translated in turn, giving a list of the same length;
     * the first unknown name makes the whole call fail with that name's error.
     */
    function ValueOfList(names: seq<string>): (r: Result<seq<T>, EnumError<T>>)
      reads this
      ensures r.Success? <==> forall i :: 0 <= i < |names| ==> names[i] in translationMap
      ensures r.Success? ==>
        |r.value| == |names| && forall i :: 0 <= i < |names| ==> ValueOf(names[i]) == Success(r.value[i])
      ensures r.Failure? ==> exists i :: 0 <= i < |names| && FirstUnknown(names, i) && r.error == ValueOf(names[i]).error
      decreases |names|
    {
      if names == [] then Success([])
      else
        match ValueOf(names[0])
        case Failure(e) =>
          assert FirstUnknown(names, 0);
          Failure(e)
        case Success(v) =>
          match ValueOfList(names[1..])
          case Failure(e) =>
            var i :| 0 <= i < |names[1..]| && FirstUnknown(names[1..], i) && e == ValueOf(names[1..][i]).error;
            assert FirstUnknown(names, i + 1);
            Failure(e)
          case Success(vs) =>
            assert forall i :: 1 <= i < |names| ==> names[i] == names[1..][i - 1];
            Success([v] + vs)
    }

    /** `names[i]` is the first name the table does not know. */
    predicate FirstUnknown(names: seq<string>, i: nat)
      reads this
      requires i < |names|
    {
      names[i] !in translationMap && forall j :: 0 <= j < i ==> names[j] in translationMap
    }

    /** getAvailableOptions: the table's strings, in the order the map visits them, joined with ", ". */
    method GetAvailableOptions() returns (s: string, ghost order: seq<string>)
      ensures Enumerates(order, translationMap.Keys)
      ensures s == JoinWith(", ", order)
      ensures translationMap == map[] ==> s == ""
      ensures |translationMap| == 1 ==> s in translationMap
    {
      var pending := translationMap.Keys;
      s, order := "", [];
      var first := true;
      while pending != {}
        invariant pending <= translationMap.Keys
        invariant Enumerates(order, translationMap.Keys - pending)
        invariant |order| + |pending| == |translationMap|
        invariant first <==> order == []
        invariant s == JoinWith(", ", order)
        decreases pending
      {
        var k :| k in pending;
        if first {
          s := k;
          assert JoinWith(", ", [k]) == k;
        } else {
          JoinWithSnoc(", ", order, k);
          s := s + ", " + k;
        }
        order, first := order + [k], false;
        pending := pending - {k};
      }
      assert translationMap.Keys - pending == translationMap.Keys;
      if |translationMap| == 1 {
        assert order == [order[0]];
      }
    }

    /** addAlias: the alias now leads to the given constant, replacing any earlier entry; returns this helper. */
    method AddAlias(alias: string, anEnum: T) returns (r: EnumHelper<T>)
      modifies this
      ensures r == this
      ensures translationMap == old(translationMap)[alias := anEnum]
      ensures ValueOf(alias) == Success(anEnum)
      ensures old(Valid()) && anEnum in constants ==> Valid()
    {
      translationMap := translationMap[alias := anEnum];
      return this;
    }

    /** getSize: the number of constants, whatever was excluded or aliased; exactly the valid indices. */
    function GetSize(): (n: nat)
      ensures forall i :: 0 <= i < n <==> ValueOfIndex(i).Success?
    {
      |constants|
    }
  }
}
