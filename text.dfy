/** String helpers standing in for the Python `str` operations the scraper uses:
    `startswith`, `in`, `lower`, `replace`, `join`, slicing and `str(int)`.
    A Python `str` is a sequence of code points; here it is `string`, whose
    `char` is a Unicode scalar value, so `len` is `|s|`. */
module Text {

  /** `s.startswith(p)` */
  predicate StartsWith(s: string, p: string) {
    |p| <= |s| && s[..|p|] == p
  }

  /** `p in s` for strings: `p` occurs in `s` at some offset. */
  predicate Contains(s: string, p: string)
    decreases |s|
  {
    StartsWith(s, p) || (|s| > 0 && Contains(s[1..], p))
  }

  /** `p` occurs in `s` at offset `i`. */
  predicate OccursAt(s: string, p: string, i: nat) {
    i + |p| <= |s| && s[i..i + |p|] == p
  }

  /** An occurrence at some offset is an occurrence. */
  lemma {:induction false} ContainsAt(s: string, p: string, i: nat)
    requires OccursAt(s, p, i)
    ensures Contains(s, p)
    decreases i
  {
    if i == 0 {
      assert s[..|p|] == p;
    } else {
      assert s[1..][i - 1..i - 1 + |p|] == s[i..i + |p|];
      ContainsAt(s[1..], p, i - 1);
    }
  }

  function LowerChar(c: char): (d: char)
    ensures 'A' <= c <= 'Z' ==> d as int == c as int + 32
    ensures !('A' <= c <= 'Z') ==> d == c
  {
    if 'A' <= c <= 'Z' then (c as int + 32) as char else c
  }

  /** `s.lower()`, restricted to the ASCII letters. For the substring test the
      scraper makes (`'explore' in href.lower()`) this agrees with Python:
      no other code point lower-cases to one of the letters of "explore". */
  function Lower(s: string): (r: string)
    ensures |r| == |s|
    ensures forall i | 0 <= i < |s| :: r[i] == LowerChar(s[i])
  {
    if s == [] then [] else [LowerChar(s[0])] + Lower(s[1..])
  }

  /** `s.replace(from, to)` for one-character `from` and `to`. */
  function ReplaceChar(s: string, from: char, to: char): (r: string)
    ensures |r| == |s|
    ensures forall i | 0 <= i < |s| :: r[i] == (if s[i] == from then to else s[i])
  {
    if s == [] then [] else [if s[0] == from then to else s[0]] + ReplaceChar(s[1..], from, to)
  }

  /** `sep.join(parts)` */
  function Join(parts: seq<string>, sep: string): (r: string)
    ensures parts == [] ==> r == ""
    ensures |parts| == 1 ==> r == parts[0]
    ensures |parts| > 0 ==> StartsWith(r, parts[0])
    decreases |parts|
  {
    if parts == [] then ""
    else if |parts| == 1 then parts[0]
    else parts[0] + sep + Join(parts[1..], sep)
  }

  /** Total length of a list of strings. */
  function TotalLength(parts: seq<string>): nat {
    if parts == [] then 0 else |parts[0]| + TotalLength(parts[1..])
  }

  /** Offset of the `i`-th part in the join of `parts`: the parts before it
      and one separator after each of them. */
  function PartOffset(parts: seq<string>, sep: string, i: nat): nat
    requires i <= |parts|
  {
    TotalLength(parts[..i]) + i * |sep|
  }

  /** An occurrence in `b` is an occurrence in `a + b`, shifted by `|a|`. */
  lemma OccursShift(a: string, b: string, p: string, i: nat)
    requires OccursAt(b, p, i)
    ensures OccursAt(a + b, p, |a| + i)
  {
  }

  /** Offsets in the join of `parts` past its first part are offsets in the
      join of the rest, shifted by the first part and one separator. */
  lemma PartOffsetRest(parts: seq<string>, sep: string, i: nat)
    requires 1 <= i <= |parts|
    ensures PartOffset(parts, sep, i) == |parts[0]| + |sep| + PartOffset(parts[1..], sep, i - 1)
  {
    assert parts[..i][0] == parts[0] && parts[..i][1..] == parts[1..][..i - 1];
  }

  /** The `i`-th part occurs in the join at its offset. */
  lemma {:induction false} JoinPartAt(parts: seq<string>, sep: string, i: nat)
    requires i < |parts|
    ensures OccursAt(Join(parts, sep), parts[i], PartOffset(parts, sep, i))
    decreases i
  {
    assert parts[..0] == [];
    if i > 0 {
      var rest := parts[1..];
      JoinPartAt(rest, sep, i - 1);
      PartOffsetRest(parts, sep, i);
      OccursShift(parts[0] + sep, Join(rest, sep), rest[i - 1], PartOffset(rest, sep, i - 1));
    }
  }

  /** A separator follows every part but the last. */
  lemma {:induction false} JoinSeparatorAt(parts: seq<string>, sep: string, i: nat)
    requires i < |parts| - 1
    ensures OccursAt(Join(parts, sep), sep, PartOffset(parts, sep, i) + |parts[i]|)
    decreases i
  {
    var rest := parts[1..];
    if i == 0 {
      assert parts[..0] == [];
      assert (parts[0] + sep + Join(rest, sep))[|parts[0]|..|parts[0]| + |sep|] == sep;
    } else {
      JoinSeparatorAt(rest, sep, i - 1);
      PartOffsetRest(parts, sep, i);
      OccursShift(parts[0] + sep, Join(rest, sep), sep, PartOffset(rest, sep, i - 1) + |rest[i - 1]|);
    }
  }

  /** The join holds every character of every part plus one separator between
      each two neighbours. */
  lemma {:induction false} JoinLength(parts: seq<string>, sep: string)
    requires parts != []
    ensures |Join(parts, sep)| == TotalLength(parts) + (|parts| - 1) * |sep|
    decreases |parts|
  {
    if |parts| > 1 {
      JoinLength(parts[1..], sep);
    }
  }

  /** The layout of the joined string: every part in order at its offset, one
      separator right after each part but the last, and no other character. */
  lemma JoinLayout(parts: seq<string>, sep: string)
    requires parts != []
    ensures |Join(parts, sep)| == TotalLength(parts) + (|parts| - 1) * |sep|
    ensures forall i | 0 <= i < |parts| :: OccursAt(Join(parts, sep), parts[i], PartOffset(parts, sep, i))
    ensures forall i | 0 <= i < |parts| - 1 ::
      OccursAt(Join(parts, sep), sep, PartOffset(parts, sep, i) + |parts[i]|)
  {
    JoinLength(parts, sep);
    forall i | 0 <= i < |parts| ensures OccursAt(Join(parts, sep), parts[i], PartOffset(parts, sep, i)) {
      JoinPartAt(parts, sep, i);
    }
    forall i | 0 <= i < |parts| - 1 ensures OccursAt(Join(parts, sep), sep, PartOffset(parts, sep, i) + |parts[i]|) {
      JoinSeparatorAt(parts, sep, i);
    }
  }

  function DigitChar(d: nat): (c: char)
    requires d < 10
    ensures '0' <= c <= '9'
  {
    ['0', '1', '2', '3', '4', '5', '6', '7', '8', '9'][d]
  }

  /** `str(n)` for a non-negative integer: its decimal digits, no leading zero. */
  function NatToString(n: nat): (r: string)
    ensures |r| > 0
    ensures forall i | 0 <= i < |r| :: '0' <= r[i] <= '9'
    ensures |r| > 1 ==> r[0] != '0'
    decreases n
  {
    if n < 10 then [DigitChar(n)] else NatToString(n / 10) + [DigitChar(n % 10)]
  }

  /** Appending four strings one after another is appending their concatenation. */
  lemma AppendFour(s: string, a: string, b: string, c: string, d: string)
    ensures s + a + b + c + d == s + (a + b + c + d)
  {
  }

  lemma AppendAssoc(a: string, b: string, c: string)
    ensures (a + b) + c == a + (b + c)
  {
  }

  /** Every string occurs in itself. */
  lemma ContainsSelf(s: string)
    ensures Contains(s, s)
  {
  }

  /** An occurrence has an offset. */
  lemma {:induction false} ContainsOffset(s: string, p: string)
    requires Contains(s, p)
    ensures exists i: nat :: OccursAt(s, p, i)
    decreases |s|
  {
    if StartsWith(s, p) {
      assert OccursAt(s, p, 0);
    } else {
      ContainsOffset(s[1..], p);
      var i: nat :| OccursAt(s[1..], p, i);
      assert s[1..][i..i + |p|] == s[i + 1..i + 1 + |p|];
      assert OccursAt(s, p, i + 1);
    }
  }

  /** What occurs in `b` occurs in any string that has `b` inside it. */
  lemma ContainsWithin(a: string, b: string, c: string, p: string)
    requires Contains(b, p)
    ensures Contains(a + b + c, p)
  {
    ContainsOffset(b, p);
    var i: nat :| OccursAt(b, p, i);
    assert (a + b + c)[|a| + i..|a| + i + |p|] == b[i..i + |p|];
    ContainsAt(a + b + c, p, |a| + i);
  }

  /** The images of the first `n` elements of `xs` under `f`, one after another. */
  function ConcatMap<T>(f: T -> string, xs: seq<T>, n: nat): string
    requires n <= |xs|
  {
    if n == 0 then "" else ConcatMap(f, xs, n - 1) + f(xs[n - 1])
  }

  /** The image of each of the first `n` elements occurs in their concatenation. */
  lemma {:induction false} ConcatMapShowsEach<T>(f: T -> string, xs: seq<T>, n: nat, k: nat)
    requires k < n <= |xs|
    ensures Contains(ConcatMap(f, xs, n), f(xs[k]))
    decreases n
  {
    var front := ConcatMap(f, xs, n - 1);
    var last := f(xs[n - 1]);
    if k == n - 1 {
      assert (front + last)[|front|..|front| + |last|] == last;
      ContainsAt(front + last, last, |front|);
    } else {
      ConcatMapShowsEach(f, xs, n - 1, k);
      ContainsWithin("", front, last, f(xs[k]));
      assert "" + front + last == front + last;
    }
  }

  /** What occurs in an occurrence occurs. */
  lemma ContainsTransitive(s: string, q: string, p: string)
    requires Contains(s, q) && Contains(q, p)
    ensures Contains(s, p)
  {
  }
}
