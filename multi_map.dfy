/**
 * MultiMap: each key is associated with an ordered list of values. The backing
 * map is updated in place; the order in which its keys are visited is the hash
 * map's and is left open, so the walks below return the order they used.
 */
module MultiMaps {
  import opened Wrappers
  import opened Strings
  import opened Iteration

  /** The lists of the keys in `order`, one after the other. */
  function Flatten<K, V>(order: seq<K>, m: map<K, seq<V>>): seq<V>
    requires forall k :: k in order ==> k in m
  {
    if order == [] then [] else m[order[0]] + Flatten(order[1..], m)
  }

  /** The number of values held, summed over all keys in no particular order. */
  ghost function TotalSize<K, V>(m: map<K, seq<V>>): nat
    decreases |m|
  {
    if m == map[] then 0
    else
      var k :| k in m;
      |m[k]| + TotalSize(m - {k})
  }

  /** The values rendered one by one. */
  function Shown<V>(showValue: V -> string, vs: seq<V>): (r: seq<string>)
    ensures |r| == |vs|
  {
    seq(|vs|, i requires 0 <= i < |vs| => showValue(vs[i]))
  }

  /** The text after "key: " on a key's line: its values separated by ", ", or "(empty)". */
  function ValuesText<V>(showValue: V -> string, vs: seq<V>): string
  {
    if vs == [] then "(empty)" else JoinWith(", ", Shown(showValue, vs))
  }

  /** The line toString writes for each key of `order`, without its final '\n'. */
  function EntryLines<K, V>(order: seq<K>, m: map<K, seq<V>>, show: K -> string, showValue: V -> string): (r: seq<string>)
    requires forall k :: k in order ==> k in m
    ensures |r| == |order|
    ensures forall i :: 0 <= i < |order| ==> r[i] == show(order[i]) + ": " + ValuesText(showValue, m[order[i]])
  {
    seq(|order|, i requires 0 <= i < |order| => show(order[i]) + ": " + ValuesText(showValue, m[order[i]]))
  }

  class MultiMap<K(==,!new), V(==)> {
    var lists: map<K, seq<V>>

    /** new MultiMap(): no keys. */
    constructor ()
      ensures lists == map[]
    {
      lists := map[];
    }

    /** new MultiMap(provider): starts from the map the provider builds. */
    constructor FromProvider(initial: map<K, seq<V>>)
      ensures lists == initial
    {
      lists := initial;
    }

    /** get: the key's list, or an empty list for a key that is not present. */
    function Get(key: K): (r: seq<V>)
      reads this
      ensures key in lists ==> r == lists[key]
      ensures key !in lists ==> r == []
    {
      if key in lists then lists[key] else []
    }

    /** containsKey: a key with an empty list is still present. */
    function ContainsKey(key: K): (b: bool)
      reads this
      ensures b <==> key in lists
      ensures !b ==> Get(key) == []
    {
      key in lists
    }

    /** put(key, value): appends the value to the key's list, creating the list when absent. */
    method Put(key: K, value: V)
      modifies this
      ensures lists == old(lists)[key := old(Get(key)) + [value]]
      ensures ContainsKey(key) && Get(key) == old(Get(key)) + [value]
      ensures forall k :: k != key ==> Get(k) == old(Get(k)) && ContainsKey(k) == old(ContainsKey(k))
    {
      var values := Get(key);
      lists := lists[key := values + [value]];
    }

    /** put(key, values): the key's list becomes a copy of `values`, whatever it was before. */
    method PutList(key: K, values: seq<V>)
      modifies this
      ensures lists == old(lists)[key := values]
      ensures ContainsKey(key) && Get(key) == values
    {
      lists := lists[key := values];
    }

    /** remove: drops the key and returns its list, or None (Java's null) when it was absent. */
    method Remove(key: K) returns (previous: Option<seq<V>>)
      modifies this
      ensures lists == old(lists) - {key}
      ensures previous == if key in old(lists) then Some(old(lists)[key]) else None
      ensures !ContainsKey(key) && Get(key) == []
    {
      previous := if key in lists then Some(lists[key]) else None;
      lists := lists - {key};
    }

    /** clear: afterwards no key is present. */
    method Clear()
      modifies this
      ensures lists == map[]
      ensures forall k :: !ContainsKey(k)
    {
      lists := map[];
    }

    /** flatValues: every key's list, in the order the keys are visited, concatenated. */
    method FlatValues() returns (r: seq<V>, ghost order: seq<K>)
      ensures Enumerates(order, lists.Keys) && |order| == |lists|
      ensures r == Flatten(order, lists)
      ensures |r| == TotalSize(lists)
    {
      var pending := lists.Keys;
      r, order := [], [];
      while pending != {}
        invariant pending <= lists.Keys
        invariant Enumerates(order, lists.Keys - pending)
        invariant |order| + |pending| == |lists|
        invariant r == Flatten(order, lists)
        decreases pending
      {
        var k :| k in pending;
        FlattenSnoc(order, k, lists);
        r, order := r + lists[k], order + [k];
        pending := pending - {k};
      }
      assert lists.Keys - pending == lists.Keys;
      FlattenLength(order, lists);
    }

    /**
     * toString: one line per key, "key: " followed by its values separated by ", "
     * (or "(empty)"), each line ended by '\n'.
     */
    method ToString(show: K -> string, showValue: V -> string) returns (s: string, ghost order: seq<K>)
      ensures Enumerates(order, lists.Keys) && |order| == |lists|
      ensures s == JoinLines(EntryLines(order, lists, show, showValue))
      ensures s == "" <==> lists == map[]
    {
      var pending := lists.Keys;
      s, order := "", [];
      while pending != {}
        invariant pending <= lists.Keys
        invariant Enumerates(order, lists.Keys - pending)
        invariant |order| + |pending| == |lists|
        invariant s == JoinLines(EntryLines(order, lists, show, showValue))
        decreases pending
      {
        var k :| k in pending;
        var line := ValuesLine(show(k) + ": ", lists[k], showValue);
        JoinLinesAppend(EntryLines(order, lists, show, showValue), [line]);
        assert EntryLines(order + [k], lists, show, showValue)
            == EntryLines(order, lists, show, showValue) + [line];
        s, order := s + line + "\n", order + [k];
        pending := pending - {k};
      }
      assert lists.Keys - pending == lists.Keys;
      if lists != map[] {
        var k :| k in lists;
        assert k in order;
        var ls := EntryLines(order, lists, show, showValue);
        assert s == ls[0] + "\n" + JoinLines(ls[1..]);
      }
    }

    /** equals: the same keys, each with an equal list. */
    function Equals(other: MultiMap?<K, V>): (b: bool)
      reads this, other
      ensures b <==> other != null && lists == other.lists
      ensures b ==> forall k :: ContainsKey(k) == other.ContainsKey(k) && Get(k) == other.Get(k)
      ensures other != null && (forall k :: ContainsKey(k) == other.ContainsKey(k) && Get(k) == other.Get(k)) ==> b
    {
      if other == null then false
      else
        EntriesDetermineMap(other);
        lists == other.lists
    }

    /** What get and containsKey report determines the backing map. */
    lemma {:induction false} EntriesDetermineMap(other: MultiMap<K, V>)
      ensures (forall k :: ContainsKey(k) == other.ContainsKey(k) && Get(k) == other.Get(k)) ==> lists == other.lists
    {
      if forall k :: ContainsKey(k) == other.ContainsKey(k) && Get(k) == other.Get(k) {
        forall k ensures (k in lists <==> k in other.lists) && (k in lists ==> lists[k] == other.lists[k]) {
          assert ContainsKey(k) == other.ContainsKey(k) && Get(k) == other.Get(k);
        }
        SameEntriesSameMap(lists, other.lists);
      }
    }
  }

  /** Two maps with the same keys and the same value at each key are equal. */
  lemma {:induction false} SameEntriesSameMap<K(!new), W>(a: map<K, W>, b: map<K, W>)
    requires forall k :: (k in a <==> k in b) && (k in a ==> a[k] == b[k])
    ensures a == b
  {
    assert a.Keys == b.Keys;
  }

  /** One key's line of toString: the prefix, then the first value or "(empty)", then ", " and each further value. */
  method ValuesLine<V>(prefix: string, values: seq<V>, showValue: V -> string) returns (line: string)
    ensures line == prefix + ValuesText(showValue, values)
  {
    if |values| == 0 {
      return prefix + "(empty)";
    }
    line := prefix + showValue(values[0]);
    var i := 1;
    assert Shown(showValue, values[..1]) == [showValue(values[0])];
    while i < |values|
      invariant 1 <= i <= |values|
      invariant line == prefix + JoinWith(", ", Shown(showValue, values[..i]))
    {
      assert Shown(showValue, values[..i + 1]) == Shown(showValue, values[..i]) + [showValue(values[i])];
      JoinWithSnoc(", ", Shown(showValue, values[..i]), showValue(values[i]));
      line := line + ", " + showValue(values[i]);
      i := i + 1;
    }
    assert values[..i] == values;
  }

  /** Extending the order by one key appends that key's list. */
  lemma {:induction false} FlattenSnoc<K, V>(order: seq<K>, k: K, m: map<K, seq<V>>)
    requires forall x :: x in order ==> x in m
    requires k in m
    ensures Flatten(order + [k], m) == Flatten(order, m) + m[k]
  {
    if order == [] {
      assert order + [k] == [k];
    } else {
      assert (order + [k])[1..] == order[1..] + [k];
      FlattenSnoc(order[1..], k, m);
    }
  }

  /** TotalSize may start from any key. */
  lemma {:induction false} TotalSizeAnyKey<K, V>(m: map<K, seq<V>>, k: K)
    requires k in m
    ensures TotalSize(m) == |m[k]| + TotalSize(m - {k})
    decreases |m|
  {
    var j :| j in m && TotalSize(m) == |m[j]| + TotalSize(m - {j});
    if j != k {
      var mj, mk := m - {j}, m - {k};
      assert |mj| < |m|;
      TotalSizeAnyKey(mj, k);
      TotalSizeAnyKey(mk, j);
      assert mj - {k} == mk - {j};
    }
  }

  /** Only the keys in the order are read. */
  lemma {:induction false} FlattenRestrict<K, V>(order: seq<K>, m: map<K, seq<V>>, x: K)
    requires forall k :: k in order ==> k in m
    requires x !in order
    ensures Flatten(order, m - {x}) == Flatten(order, m)
  {
    if order != [] {
      FlattenRestrict(order[1..], m, x);
    }
  }

  /** Whatever the order the keys are visited in, the flattening holds every value once. */
  lemma {:induction false} FlattenLength<K(!new), V>(order: seq<K>, m: map<K, seq<V>>)
    requires Enumerates(order, m.Keys)
    ensures |Flatten(order, m)| == TotalSize(m)
  {
    if order == [] {
      assert m.Keys == {};
      assert m == map[];
    } else {
      var k := order[0];
      var rest := m - {k};
      assert Enumerates(order[1..], rest.Keys) by {
        forall x ensures x in order[1..] <==> x in rest.Keys {
          if x in order[1..] {
            var j :| 0 <= j < |order[1..]| && order[1..][j] == x;
            assert order[j + 1] == x;
          } else if x in m.Keys {
            var j :| 0 <= j < |order| && order[j] == x;
          }
        }
      }
      TotalSizeAnyKey(m, k);
      FlattenLength(order[1..], rest);
      assert k !in order[1..];
      FlattenRestrict(order[1..], m, k);
    }
  }

  /**
   * When no key of the map and no value in its lists renders with a newline, the
   * text of toString reads back as exactly one line per key, in the order the keys
   * were visited.
   */
  lemma {:induction false} ToStringLines<K(!new), V>(order: seq<K>, m: map<K, seq<V>>, show: K -> string, showValue: V -> string)
    requires Enumerates(order, m.Keys)
    requires forall k :: k in m ==> NoNewline(show(k))
    requires forall k, v :: k in m && v in m[k] ==> NoNewline(showValue(v))
    ensures Lines(JoinLines(EntryLines(order, m, show, showValue))) == EntryLines(order, m, show, showValue)
    ensures |Lines(JoinLines(EntryLines(order, m, show, showValue)))| == |order|
  {
    var ls := EntryLines(order, m, show, showValue);
    forall i | 0 <= i < |ls| ensures NoNewline(ls[i]) {
      var vs := m[order[i]];
      assert forall j :: 0 <= j < |vs| ==> vs[j] in m[order[i]];
      if vs != [] {
        JoinWithNoNewline(", ", Shown(showValue, vs));
      }
      assert ls[i] == show(order[i]) + ": " + ValuesText(showValue, vs);
    }
    LinesOfJoinLines(ls, "");
    assert JoinLines(ls) + "" == JoinLines(ls);
  }
}
