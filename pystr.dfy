/**
 * The pieces of Python's `str` that the script uses, with Python's own
 * rules for indices: slicing `s[i:j]`, `s.find(sub, start)`, `s.rfind(sub)`
 * and `s.split(sep)` for a one-character separator.
 */
module PyStr {

  /** `sub` occurs in `s` starting at index `i`. */
  predicate OccursAt(s: string, sub: string, i: int) {
    0 <= i && i + |sub| <= |s| && s[i..i + |sub|] == sub
  }

  /** A negative index counts from the end of a string of length `n`; below 0 it sticks at 0. */
  function FromEnd(i: int, n: nat): nat {
    if i >= 0 then i else if i + n >= 0 then i + n else 0
  }

  /** A slice bound: counted from the end when negative, then clamped into 0..n. */
  function Bound(i: int, n: nat): (b: nat)
    ensures b <= n
  {
    var k := FromEnd(i, n);
    if k <= n then k else n
  }

  /** Python's `s[i:j]`: never fails, empty when the bounds cross. */
  function Slice(s: string, i: int, j: int): (r: string)
    ensures |r| <= |s|
    ensures Bound(i, |s|) <= Bound(j, |s|) ==> r == s[Bound(i, |s|)..Bound(j, |s|)]
    ensures Bound(j, |s|) <= Bound(i, |s|) ==> r == []
  {
    var a, b := Bound(i, |s|), Bound(j, |s|);
    if a < b then s[a..b] else []
  }

  /** Adjacent slices join: `s[i:j] + s[j:k] == s[i:k]` whenever the bounds, once resolved, are in order. */
  lemma SliceConcat(s: string, i: int, j: int, k: int)
    requires Bound(i, |s|) <= Bound(j, |s|) <= Bound(k, |s|)
    ensures Slice(s, i, j) + Slice(s, j, k) == Slice(s, i, k)
  {
    var a, b, c := Bound(i, |s|), Bound(j, |s|), Bound(k, |s|);
    assert s[a..b] + s[b..c] == s[a..c];
  }

  /** A negative stop `-k` ends the slice `k` characters before the end. */
  lemma SliceFromEnd(s: string, i: int, k: int)
    requires 0 <= i && 0 < k && i + k <= |s|
    ensures Slice(s, i, -k) == s[i..|s| - k] && |Slice(s, i, -k)| == |s| - k - i
  {
  }

  /** Python's `s[:j]`. */
  function Prefix(s: string, j: int): string {
    Slice(s, 0, j)
  }

  /** Python's `s[i:]`. */
  function Suffix(s: string, i: int): string {
    Slice(s, i, |s|)
  }

  /** The first occurrence of `sub` at or after index `i`, or -1. */
  function FindFrom(s: string, sub: string, i: nat): (r: int)
    ensures r == -1 || (i <= r && OccursAt(s, sub, r))
    ensures forall k :: i <= k && (r == -1 || k < r) ==> !OccursAt(s, sub, k)
    decreases |s| - i
  {
    if i + |sub| > |s| then -1
    else if s[i..i + |sub|] == sub then i
    else FindFrom(s, sub, i + 1)
  }

  /** Python's `s.find(sub, start)`: the start is counted from the end when negative. */
  function Find(s: string, sub: string, start: int): (r: int)
    ensures r == -1 || (FromEnd(start, |s|) <= r && OccursAt(s, sub, r))
    ensures forall k :: FromEnd(start, |s|) <= k && (r == -1 || k < r) ==> !OccursAt(s, sub, k)
  {
    FindFrom(s, sub, FromEnd(start, |s|))
  }

  /** The last occurrence of `sub` starting at or before index `i`, or -1. */
  function RFindBelow(s: string, sub: string, i: int): (r: int)
    ensures r == -1 || (r <= i && OccursAt(s, sub, r))
    ensures forall k :: r < k <= i ==> !OccursAt(s, sub, k)
    decreases i + 1
  {
    if i < 0 then -1
    else if OccursAt(s, sub, i) then i
    else RFindBelow(s, sub, i - 1)
  }

  /** Python's `s.rfind(sub)`. */
  function RFind(s: string, sub: string): (r: int)
    ensures r == -1 || OccursAt(s, sub, r)
    ensures forall k :: r < k ==> !OccursAt(s, sub, k)
  {
    RFindBelow(s, sub, |s| - |sub|)
  }

  /** If `sub` starts at `k` and its first character does not appear after `k`, `rfind` finds `k`. */
  lemma RFindAt(s: string, sub: string, k: int)
    requires |sub| > 0 && OccursAt(s, sub, k)
    requires sub[0] !in s[k + 1..]
    ensures RFind(s, sub) == k
  {
    forall j | k < j < |s| ensures s[j] in s[k + 1..] {
      assert s[j] == s[k + 1..][j - k - 1];
    }
  }

  /** If the first character of `sub` does not appear in `s`, `rfind` gives -1. */
  lemma RFindNone(s: string, sub: string)
    requires |sub| > 0 && sub[0] !in s
    ensures RFind(s, sub) == -1
  {
  }

  /** If `sub` starts at `k` and its first character does not appear in `s[st..k]`, `find` from `st` gives `k`. */
  lemma FindAt(s: string, sub: string, st: int, k: int)
    requires |sub| > 0 && 0 <= st <= k && OccursAt(s, sub, k)
    requires sub[0] !in s[st..k]
    ensures Find(s, sub, st) == k
  {
    forall j | st <= j < k ensures s[j] in s[st..k] {
      assert s[j] == s[st..k][j - st];
    }
  }

  /** If the first character of `sub` does not appear in `s[st..]`, `find` from `st` gives -1. */
  lemma FindNone(s: string, sub: string, st: int)
    requires |sub| > 0 && 0 <= st <= |s|
    requires sub[0] !in s[st..]
    ensures Find(s, sub, st) == -1
  {
  }

  /** In `a + [c] + b` with no `c` in `a`, `find` locates the `c` right after `a`, and slicing around it gives back `a` and `b`. */
  lemma FindSeparator(a: string, c: char, b: string)
    ensures Find(a + [c] + b, [c], 0) == |a| || c in a
    ensures Prefix(a + [c] + b, |a|) == a
    ensures Suffix(a + [c] + b, |a| + 1) == b
  {
    var s := a + [c] + b;
    assert s[..|a|] == a;
    assert s[|a| + 1..] == b;
    if c !in a {
      assert s[|a|..|a| + 1] == [c];
      assert s[0..|a|] == a;
      FindAt(s, [c], 0, |a|);
    }
  }

  /** Python's `s.split(sep)` for a one-character separator. */
  function Split(s: string, sep: char): (r: seq<string>)
    ensures |r| >= 1
  {
    if s == [] then [[]]
    else
      var rest := Split(s[1..], sep);
      if s[0] == sep then [[]] + rest else [[s[0]] + rest[0]] + rest[1..]
  }

  /** `sep.join(parts)`: the inverse of `Split`. */
  function Join(parts: seq<string>, sep: char): string
    requires |parts| >= 1
  {
    if |parts| == 1 then parts[0] else parts[0] + [sep] + Join(parts[1..], sep)
  }

  /** Joining the pieces of a split with the same separator gives back the string. */
  lemma {:induction false} JoinSplit(s: string, sep: char)
    ensures Join(Split(s, sep), sep) == s
  {
    if s != [] {
      var rest := Split(s[1..], sep);
      JoinSplit(s[1..], sep);
      if s[0] == sep {
        assert Split(s, sep) == [[]] + rest;
        assert ([[]] + rest)[1..] == rest;
      } else if |rest| == 1 {
        assert Split(s, sep) == [[s[0]] + rest[0]];
      } else {
        assert Split(s, sep)[1..] == rest[1..];
        assert Join(rest, sep) == rest[0] + [sep] + Join(rest[1..], sep);
      }
    }
  }

  /** A string without the separator splits into itself alone. */
  lemma {:induction false} SplitWhole(a: string, sep: char)
    requires sep !in a
    ensures Split(a, sep) == [a]
  {
    if a != [] {
      assert a[0] != sep;
      SplitWhole(a[1..], sep);
      assert [a[0]] + a[1..] == a;
    }
  }

  /** The text before the first separator is the first field; the rest is split on its own. */
  lemma {:induction false} SplitField(a: string, sep: char, b: string)
    requires sep !in a
    ensures Split(a + [sep] + b, sep) == [a] + Split(b, sep)
  {
    if a == [] {
      assert a + [sep] + b == [sep] + b;
      assert ([sep] + b)[1..] == b;
    } else {
      var s := a + [sep] + b;
      assert s[0] == a[0] && s[0] != sep;
      assert s[1..] == a[1..] + [sep] + b;
      SplitField(a[1..], sep, b);
      assert [a[0]] + a[1..] == a;
    }
  }
}
