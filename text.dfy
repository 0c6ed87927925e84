/** Python's `str.split(sep)` on strings, and its inverse `sep.join(parts)`. */
module Text {

  /** The number of occurrences of `c` in `s`. */
  function Occurrences(s: string, c: char): nat
  {
    if s == [] then 0 else (if s[0] == c then 1 else 0) + Occurrences(s[1..], c)
  }

  /** `sep.join(parts)`: the parts with one separator between neighbours. */
  function Join(parts: seq<string>, sep: char): string
    requires |parts| >= 1
  {
    if |parts| == 1 then parts[0] else parts[0] + [sep] + Join(parts[1..], sep)
  }

  /**
   * `s.split(sep)`: the maximal separator-free pieces of `s`, in order. There is
   * always one more piece than there are separators, and joining the pieces
   * again gives back `s`.
   */
  function Split(s: string, sep: char): (parts: seq<string>)
    ensures |parts| == Occurrences(s, sep) + 1
    ensures forall i :: 0 <= i < |parts| ==> sep !in parts[i]
    ensures Join(parts, sep) == s
  {
    if s == [] then [""]
    else if s[0] == sep then [""] + Split(s[1..], sep)
    else
      var rest := Split(s[1..], sep);
      assert Join(rest, sep) == s[1..];
      JoinConsFirst(s[0], rest, sep);
      [[s[0]] + rest[0]] + rest[1..]
  }

  /** Prepending a character to the first part prepends it to the joined string. */
  lemma {:induction false} JoinConsFirst(c: char, parts: seq<string>, sep: char)
    requires |parts| >= 1
    ensures Join([[c] + parts[0]] + parts[1..], sep) == [c] + Join(parts, sep)
  {
    var q := [[c] + parts[0]] + parts[1..];
    if |parts| > 1 {
      assert q[1..] == parts[1..];
    }
  }

  /**
   * An address made of a separator-free head, one separator and a
   * separator-free tail splits into exactly those two pieces.
   */
  lemma {:induction false} SplitAround(head: string, tail: string, sep: char)
    requires sep !in head && sep !in tail
    ensures Split(head + [sep] + tail, sep) == [head, tail]
  {
    var s := head + [sep] + tail;
    var parts := Split(s, sep);
    assert s == head + ([sep] + tail);
    OccurrencesAppend(head, [sep] + tail, sep);
    assert ([sep] + tail)[1..] == tail;
    OccurrencesAbsent(head, sep);
    OccurrencesAbsent(tail, sep);
    assert |parts| == 2 && parts[1..] == [parts[1]];
    assert parts[0] + [sep] + parts[1] == Join(parts, sep) == s;
    JoinPrefixUnique(parts[0], parts[1], head, tail, sep);
  }

  /**
   * A separator-free head followed by a separator splits off as the first
   * piece; the rest splits as it would on its own.
   */
  lemma {:induction false} SplitAfterHead(head: string, rest: string, sep: char)
    requires sep !in head
    ensures Split(head + [sep] + rest, sep) == [head] + Split(rest, sep)
  {
    var s := head + [sep] + rest;
    if head == [] {
      assert s[0] == sep && s[1..] == rest;
    } else {
      assert s[0] == head[0] != sep;
      assert s[1..] == head[1..] + [sep] + rest;
      SplitAfterHead(head[1..], rest, sep);
      assert [head[0]] + head[1..] == head;
    }
  }

  /** Occurrences of `c` add up over a concatenation. */
  lemma {:induction false} OccurrencesAppend(a: string, b: string, c: char)
    ensures Occurrences(a + b, c) == Occurrences(a, c) + Occurrences(b, c)
  {
    if a != [] {
      assert (a + b)[0] == a[0] && (a + b)[1..] == a[1..] + b;
      OccurrencesAppend(a[1..], b, c);
    } else {
      assert a + b == b;
    }
  }

  /** A string without `c` has no occurrence of it. */
  lemma {:induction false} OccurrencesAbsent(a: string, c: char)
    requires c !in a
    ensures Occurrences(a, c) == 0
  {
    if a != [] {
      OccurrencesAbsent(a[1..], c);
    }
  }

  /** `x + sep + y == u + sep + v` with no separator in x or u forces x == u and y == v. */
  lemma {:induction false} JoinPrefixUnique(x: string, y: string, u: string, v: string, sep: char)
    requires sep !in x && sep !in u
    requires x + [sep] + y == u + [sep] + v
    ensures x == u && y == v
  {
    var s := x + [sep] + y;
    assert forall i :: 0 <= i < |u| ==> s[i] == u[i] != sep;
    assert forall i :: 0 <= i < |x| ==> s[i] == x[i] != sep;
    assert s[|x|] == sep && s[|u|] == sep;
    assert x == s[..|x|] == u;
    assert y == s[|x| + 1..] == v;
  }
}
