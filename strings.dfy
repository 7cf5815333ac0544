/**
 * Text helpers shared by the renderings: splitting a string into lines the way a
 * line reader does (StringLines in the source library), and joining pieces.
 */
module Strings {

  predicate NoNewline(s: string)
  {
    '\n' !in s
  }

  predicate AllNoNewline(ls: seq<string>)
  {
    forall i :: 0 <= i < |ls| ==> NoNewline(ls[i])
  }

  /** Index of the first '\n' in `s`, or |s| when there is none. */
  function NewlineIndex(s: string): (i: nat)
    ensures i <= |s|
    ensures i < |s| ==> s[i] == '\n'
    ensures NoNewline(s[..i])
    decreases |s|
  {
    if s == [] || s[0] == '\n' then 0
    else
      var i := 1 + NewlineIndex(s[1..]);
      assert s[..i] == [s[0]] + s[1..][..i - 1];
      i
  }

  /**
   * The lines of `s`: the pieces between '\n' characters, where a final '\n'
   * ends the last line rather than starting an empty one.
   */
  function Lines(s: string): (ls: seq<string>)
    ensures AllNoNewline(ls)
    ensures s != [] <==> ls != []
    decreases |s|
  {
    if s == [] then []
    else
      var i := NewlineIndex(s);
      if i == |s| then
        assert s[..i] == s;
        [s]
      else
        [s[..i]] + Lines(s[i + 1..])
  }

  /** Each line followed by '\n': the text a line-per-entry builder produces. */
  function JoinLines(ls: seq<string>): string
  {
    if ls == [] then "" else ls[0] + "\n" + JoinLines(ls[1..])
  }

  /** The pieces separated by `sep`, as Collectors.joining(sep) builds them. */
  function JoinWith(sep: string, parts: seq<string>): string
  {
    if parts == [] then ""
    else if |parts| == 1 then parts[0]
    else parts[0] + sep + JoinWith(sep, parts[1..])
  }

  /** No character before `k` is a newline. */
  lemma {:induction false} NoNewlineAt(s: string, k: nat)
    requires k <= |s| && NoNewline(s[..k])
    ensures forall j :: 0 <= j < k ==> s[j] != '\n'
  {
    forall j | 0 <= j < k ensures s[j] != '\n' {
      assert s[..k][j] in s[..k];
    }
  }

  /** The first newline is the one position before which there is none. */
  lemma {:induction false} NewlineIndexIs(s: string, k: nat)
    requires k <= |s| && NoNewline(s[..k]) && (k < |s| ==> s[k] == '\n')
    ensures NewlineIndex(s) == k
  {
    var i := NewlineIndex(s);
    NoNewlineAt(s, k);
    NoNewlineAt(s, i);
  }

  /** The first newline of `p + x` is the first of `p`, or the first of `x` shifted by |p|. */
  lemma {:induction false} NewlineIndexAppend(p: string, x: string)
    ensures NewlineIndex(p) < |p| ==> NewlineIndex(p + x) == NewlineIndex(p)
    ensures NewlineIndex(p) == |p| ==> NewlineIndex(p + x) == |p| + NewlineIndex(x)
  {
    var i, m := NewlineIndex(p), NewlineIndex(x);
    if i < |p| {
      assert (p + x)[..i] == p[..i];
      NewlineIndexIs(p + x, i);
    } else {
      assert (p + x)[..i + m] == p[..i] + x[..m];
      NewlineIndexIs(p + x, i + m);
    }
  }

  /** A text with no newline is a single line. */
  lemma {:induction false} LinesWhole(s: string)
    requires s != [] && NewlineIndex(s) == |s|
    ensures Lines(s) == [s]
  {
  }

  /** The line that starts a text, and the text after its '\n', when it has one. */
  lemma {:induction false} LinesUnfold(s: string)
    requires NewlineIndex(s) < |s|
    ensures Lines(s) == [s[..NewlineIndex(s)]] + Lines(s[NewlineIndex(s) + 1..])
  {
  }

  /** Splitting after a line that does not end in '\n' splits the two parts apart. */
  lemma {:induction false} LinesSplit(p: string, q: string)
    requires p != [] && p[|p| - 1] != '\n'
    ensures Lines(p + "\n" + q) == Lines(p) + Lines(q)
    decreases |p|
  {
    var s := p + "\n" + q;
    var i := NewlineIndex(p);
    NewlineIndexAppend(p, "\n" + q);
    assert s == p + ("\n" + q);
    assert s[..i] == p[..i];
    if i == |p| {
      assert NewlineIndex("\n" + q) == 0;
      LinesWhole(p);
      LinesUnfold(s);
      assert s[|p| + 1..] == q;
    } else {
      var rest := p[i + 1..];
      assert rest[|rest| - 1] == p[|p| - 1];
      assert s == p[..i + 1] + (rest + "\n" + q) by {
        assert p == p[..i + 1] + rest;
      }
      calc {
        Lines(s);
      == { LinesUnfold(s); }
        [s[..i]] + Lines(s[i + 1..]);
      == { assert s[i + 1..] == rest + "\n" + q; }
        [p[..i]] + Lines(rest + "\n" + q);
      == { LinesSplit(rest, q); }
        [p[..i]] + (Lines(rest) + Lines(q));
      == { LinesUnfold(p); }
        Lines(p) + Lines(q);
      }
    }
  }

  /** The first line written is the first line read back. */
  lemma {:induction false} LinesOfLineThen(head: string, tail: string)
    requires NoNewline(head)
    ensures Lines(head + "\n" + tail) == [head] + Lines(tail)
  {
    var s := head + "\n" + tail;
    assert s == head + ("\n" + tail);
    assert head[..|head|] == head;
    NewlineIndexIs(head, |head|);
    NewlineIndexAppend(head, "\n" + tail);
    assert NewlineIndex("\n" + tail) == 0;
    assert s[..|head|] == head;
    assert s[|head| + 1..] == tail;
    LinesUnfold(s);
  }

  /** Reading back lines that were written one per line gives the same lines, then whatever follows. */
  lemma {:induction false} LinesOfJoinLines(ls: seq<string>, rest: string)
    requires AllNoNewline(ls)
    ensures Lines(JoinLines(ls) + rest) == ls + Lines(rest)
  {
    if ls == [] {
      assert JoinLines(ls) + rest == rest;
    } else {
      calc {
        Lines(JoinLines(ls) + rest);
      == { assert JoinLines(ls) + rest == ls[0] + "\n" + (JoinLines(ls[1..]) + rest); }
        Lines(ls[0] + "\n" + (JoinLines(ls[1..]) + rest));
      == { LinesOfLineThen(ls[0], JoinLines(ls[1..]) + rest); }
        [ls[0]] + Lines(JoinLines(ls[1..]) + rest);
      == { LinesOfJoinLines(ls[1..], rest); }
        [ls[0]] + (ls[1..] + Lines(rest));
      == { assert ls == [ls[0]] + ls[1..]; }
        ls + Lines(rest);
      }
    }
  }

  /** Lines round trip: text ending at a line boundary is exactly its lines written one per line. */
  lemma {:induction false} JoinLinesOfLines(s: string)
    requires s == [] || s[|s| - 1] == '\n'
    ensures JoinLines(Lines(s)) == s
    decreases |s|
  {
    if s != [] {
      var i := NewlineIndex(s);
      assert i < |s|;
      JoinLinesOfLines(s[i + 1..]);
      assert s == s[..i] + "\n" + s[i + 1..];
    }
  }

  /** A text that does not end in a newline, written as lines, gains just a final newline. */
  lemma {:induction false} JoinLinesOfLine(s: string)
    requires s != [] && s[|s| - 1] != '\n'
    ensures JoinLines(Lines(s)) == s + "\n"
  {
    var t := s + "\n";
    assert Lines(t) == Lines(s) by {
      LinesSplit(s, "");
      assert s + "\n" + "" == t;
      assert Lines("") == [];
      assert Lines(s) + [] == Lines(s);
    }
    assert t[|t| - 1] == '\n';
    JoinLinesOfLines(t);
  }

  /** A string is a single line exactly when it is non-empty and has no '\n' before its last character. */
  lemma {:induction false} LinesCountOne(s: string)
    ensures |Lines(s)| == 1 <==> s != [] && NoNewline(s[..|s| - 1])
  {
    if s != [] {
      var i := NewlineIndex(s);
      if NoNewline(s[..|s| - 1]) {
        NoNewlineAt(s, |s| - 1);
      } else {
        var j :| 0 <= j < |s| - 1 && s[..|s| - 1][j] == '\n';
        assert s[j] == '\n';
        assert i <= j;
        assert s[i + 1..] != [];
      }
    }
  }

  /** Writing two runs of lines one after the other. */
  lemma {:induction false} JoinLinesAppend(a: seq<string>, b: seq<string>)
    ensures JoinLines(a + b) == JoinLines(a) + JoinLines(b)
  {
    if a != [] {
      assert (a + b)[1..] == a[1..] + b;
      JoinLinesAppend(a[1..], b);
    } else {
      assert a + b == b;
    }
  }

  /** Appending one more piece to a non-empty joining adds the separator and the piece. */
  lemma {:induction false} JoinWithSnoc(sep: string, parts: seq<string>, x: string)
    requires parts != []
    ensures JoinWith(sep, parts + [x]) == JoinWith(sep, parts) + sep + x
  {
    if |parts| > 1 {
      assert (parts + [x])[1..] == parts[1..] + [x];
      JoinWithSnoc(sep, parts[1..], x);
    } else {
      assert (parts + [x])[1..] == [x];
    }
  }

  /** Joining newline-free pieces with a newline-free separator gives a newline-free string. */
  lemma {:induction false} JoinWithNoNewline(sep: string, parts: seq<string>)
    requires NoNewline(sep) && AllNoNewline(parts)
    ensures NoNewline(JoinWith(sep, parts))
  {
    if |parts| > 1 {
      JoinWithNoNewline(sep, parts[1..]);
    }
  }
}
