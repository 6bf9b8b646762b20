/**
 * Go's `strings.Split` on a one-character separator and `strings.Join`,
 * the only string primitives the flag parser and the IPv4 checks need.
 */
module Strings {

  /** Position of the first `c` in `s` (Go's `strings.IndexByte`). */
  function IndexOf(s: string, c: char): (i: nat)
    requires c in s
    ensures i < |s| && s[i] == c && c !in s[..i]
  {
    if s[0] == c then 0 else 1 + IndexOf(s[1..], c)
  }

  /**
   * `strings.Split(s, string(sep))`: the pieces between separators, in order.
   * Like Go, the empty string splits into one empty piece, and a separator at
   * either end yields an empty piece there.
   */
  function Split(s: string, sep: char): (r: seq<string>)
    ensures |r| >= 1
    ensures forall k :: 0 <= k < |r| ==> sep !in r[k]
    ensures sep !in s ==> r == [s]
    decreases |s|
  {
    if sep !in s then [s]
    else
      var i := IndexOf(s, sep);
      [s[..i]] + Split(s[i + 1..], sep)
  }

  /** `strings.Join(parts, sep)`. */
  function Join(parts: seq<string>, sep: string): (r: string)
  {
    if |parts| == 0 then ""
    else if |parts| == 1 then parts[0]
    else parts[0] + sep + Join(parts[1..], sep)
  }

  /** Joining the pieces of a split with the separator gives back the input. */
  lemma {:induction false} JoinSplit(s: string, sep: char)
    ensures Join(Split(s, sep), [sep]) == s
    decreases |s|
  {
    if sep in s {
      var i := IndexOf(s, sep);
      var a, b := s[..i], s[i + 1..];
      assert s == a + [sep] + b;
      SplitCons(a, sep, b);
      JoinSplit(b, sep);
      JoinCons(a, Split(b, sep), [sep]);
    }
  }

  /** The first separator sits right after a separator-free prefix. */
  lemma IndexOfAfterPrefix(a: string, sep: char, b: string)
    requires sep !in a
    ensures sep in a + [sep] + b && IndexOf(a + [sep] + b, sep) == |a|
  {
    var s := a + [sep] + b;
    assert s[|a|] == sep;
  }

  /** A separator-free prefix followed by the separator is split off as one piece. */
  lemma SplitCons(a: string, sep: char, b: string)
    requires sep !in a
    ensures Split(a + [sep] + b, sep) == [a] + Split(b, sep)
  {
    var s := a + [sep] + b;
    IndexOfAfterPrefix(a, sep, b);
    assert s[..|a|] == a;
    assert s[|a| + 1..] == b;
  }

  /** Splitting a join of separator-free pieces gives back the pieces. */
  lemma {:induction false} SplitJoin(parts: seq<string>, sep: char)
    requires |parts| >= 1
    requires forall k :: 0 <= k < |parts| ==> sep !in parts[k]
    ensures Split(Join(parts, [sep]), sep) == parts
  {
    if |parts| > 1 {
      var tail := Join(parts[1..], [sep]);
      var s := parts[0] + [sep] + tail;
      assert Join(parts, [sep]) == s;
      IndexOfAfterPrefix(parts[0], sep, tail);
      assert s[..|parts[0]|] == parts[0];
      assert s[|parts[0]| + 1..] == tail;
      SplitJoin(parts[1..], sep);
      assert Split(s, sep) == [parts[0]] + parts[1..];
    }
  }

  /** Splitting at a separator splits each side on its own. */
  lemma {:induction false} SplitConcat(a: string, sep: char, b: string)
    ensures Split(a + [sep] + b, sep) == Split(a, sep) + Split(b, sep)
    decreases |a|
  {
    if sep !in a {
      SplitCons(a, sep, b);
    } else {
      var i := IndexOf(a, sep);
      var a1, a2 := a[..i], a[i + 1..];
      assert a == a1 + [sep] + a2;
      SplitConcat(a2, sep, b);
      SplitConcatStep(a1, a2, sep, b);
    }
  }

  lemma ConcatAround(a1: string, a2: string, sep: char, b: string)
    ensures a1 + [sep] + a2 + [sep] + b == a1 + [sep] + (a2 + [sep] + b)
  {
  }

  lemma ConcatAssoc<T>(p: seq<T>, q: seq<T>, r: seq<T>)
    ensures p + (q + r) == (p + q) + r
  {
  }

  /** The step of SplitConcat: a leading separator-free piece comes off both sides alike. */
  lemma SplitConcatStep(a1: string, a2: string, sep: char, b: string)
    requires sep !in a1
    requires Split(a2 + [sep] + b, sep) == Split(a2, sep) + Split(b, sep)
    ensures Split(a1 + [sep] + a2 + [sep] + b, sep) == Split(a1 + [sep] + a2, sep) + Split(b, sep)
  {
    var c := a2 + [sep] + b;
    var x, y, z := Split(a2, sep), Split(b, sep), Split(c, sep);
    ConcatAround(a1, a2, sep, b);
    assert Split(a1 + [sep] + c, sep) == [a1] + z by { SplitCons(a1, sep, c); }
    assert Split(a1 + [sep] + a2, sep) == [a1] + x by { SplitCons(a1, sep, a2); }
    ConcatAssoc([a1], x, y);
  }

  /** A separator-free piece of a join is one of the pieces its split gives back, whatever the others hold. */
  lemma {:induction false} PieceSurvivesSplit(parts: seq<string>, sep: char, j: nat)
    requires j < |parts| && sep !in parts[j]
    ensures parts[j] in Split(Join(parts, [sep]), sep)
    decreases |parts|
  {
    if |parts| == 1 {
      assert Join(parts, [sep]) == parts[0];
    } else {
      var head, rest := parts[0], parts[1..];
      assert Join(parts, [sep]) == head + [sep] + Join(rest, [sep]);
      SplitConcat(head, sep, Join(rest, [sep]));
      var front, back := Split(head, sep), Split(Join(rest, [sep]), sep);
      if j == 0 {
        assert parts[j] in front;
      } else {
        assert rest[j - 1] == parts[j];
        PieceSurvivesSplit(rest, sep, j - 1);
        assert parts[j] in back;
      }
      assert parts[j] in front + back;
    }
  }

  /** Text splits into two or more pieces exactly when it holds the separator. */
  lemma SeparatorMeansTwoPieces(s: string, sep: char)
    ensures |Split(s, sep)| >= 2 <==> sep in s
  {
    if sep in s {
      var i := IndexOf(s, sep);
      var a, b := s[..i], s[i + 1..];
      assert s == a + [sep] + b;
      SplitCons(a, sep, b);
    }
  }

  /** A separator-free prefix followed by nothing or by a separator is the first piece. */
  lemma SplitHead(a: string, sep: char, b: string)
    requires sep !in a && (b == [] || b[0] == sep)
    ensures Split(a + b, sep)[0] == a
  {
    if b == [] {
      assert a + b == a;
    } else {
      assert a + b == a + [sep] + b[1..];
      SplitCons(a, sep, b[1..]);
    }
  }

  /** Joining one more leading piece puts it and a separator in front. */
  lemma JoinCons(x: string, parts: seq<string>, sep: string)
    requires |parts| >= 1
    ensures Join([x] + parts, sep) == x + sep + Join(parts, sep)
  {
    assert ([x] + parts)[1..] == parts;
  }
}
