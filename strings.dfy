/** The JavaScript string and array primitives the two pages rely on:
    `Array.prototype.join`, `String.prototype.split(c)[0]` and
    `String.prototype.replace(c, '')` with a one-character string pattern. */
module Strings {

  /** Number of occurrences of `c` in `s`. */
  function Count(c: char, s: string): (n: nat)
    ensures n <= |s|
    ensures n == 0 <==> c !in s
  {
    if s == [] then 0 else (if s[0] == c then 1 else 0) + Count(c, s[1..])
  }

  lemma {:induction false} CountAppend(c: char, a: string, b: string)
    ensures Count(c, a + b) == Count(c, a) + Count(c, b)
  {
    if a == [] {
      assert a + b == b;
    } else {
      assert (a + b)[1..] == a[1..] + b;
      CountAppend(c, a[1..], b);
    }
  }

  /** Occurrences of `c` summed over all the parts. */
  function CountAll(c: char, parts: seq<string>): nat
  {
    if parts == [] then 0 else Count(c, parts[0]) + CountAll(c, parts[1..])
  }

  /** `parts.join(sep)`: the parts with `sep` between neighbours and
      nothing before the first part or after the last one. */
  function Join(parts: seq<string>, sep: string): string
  {
    if |parts| == 0 then ""
    else if |parts| == 1 then parts[0]
    else parts[0] + sep + Join(parts[1..], sep)
  }

  /** Joining never drops or adds characters other than the separators:
      a part-by-part count plus one separator between each neighbouring pair. */
  lemma {:induction false} CountJoin(c: char, parts: seq<string>, sep: string)
    requires |parts| > 0
    ensures Count(c, Join(parts, sep)) == CountAll(c, parts) + (|parts| - 1) * Count(c, sep)
  {
    if |parts| > 1 {
      var n, k, rest := |parts|, Count(c, sep), Join(parts[1..], sep);
      assert Count(c, Join(parts, sep)) == Count(c, parts[0]) + k + Count(c, rest) by {
        assert Join(parts, sep) == parts[0] + sep + rest;
        CountAppend(c, parts[0], sep);
        CountAppend(c, parts[0] + sep, rest);
      }
      assert Count(c, rest) == CountAll(c, parts[1..]) + (n - 2) * k by {
        CountJoin(c, parts[1..], sep);
      }
      OneMoreGap(n, k);
    }
  }

  lemma OneMoreGap(n: int, k: int)
    ensures (n - 2) * k + k == (n - 1) * k
  {
  }

  /** The length of a join: every part plus one separator per gap. */
  function TotalLength(parts: seq<string>): nat
  {
    if parts == [] then 0 else |parts[0]| + TotalLength(parts[1..])
  }

  lemma {:induction false} JoinLength(parts: seq<string>, sep: string)
    requires |parts| > 0
    ensures |Join(parts, sep)| == TotalLength(parts) + (|parts| - 1) * |sep|
  {
    if |parts| > 1 {
      JoinLength(parts[1..], sep);
    }
  }

  /** `s.split(c)[0]`: the part of `s` before the first `c`, or all of `s`
      when it holds no `c` (the empty string for the empty string). */
  function Before(s: string, c: char): (r: string)
    ensures r <= s
    ensures c !in r
    ensures |r| < |s| ==> s[|r|] == c
  {
    if s == [] || s[0] == c then [] else [s[0]] + Before(s[1..], c)
  }

  /** `Before` stops at the FIRST `c`: a `c`-free `d` followed by `c` and
      anything at all splits back to `d`. */
  lemma {:induction false} BeforeUnique(d: string, c: char, rest: string)
    requires c !in d
    ensures Before(d + [c] + rest, c) == d
  {
    var s := d + [c] + rest;
    if d != [] {
      assert s[0] == d[0] != c;
      assert s[1..] == d[1..] + [c] + rest;
      BeforeUnique(d[1..], c, rest);
    }
  }

  /** `s.replace(c, '')` with a string pattern: only the FIRST `c` is removed,
      and `s` is returned unchanged when it holds none. */
  function RemoveFirst(s: string, c: char): (r: string)
    ensures c !in s <==> r == s
    ensures c in s ==> exists k :: 0 <= k < |s| && s[k] == c && c !in s[..k] && r == s[..k] + s[k + 1..]
  {
    var p := Before(s, c);
    if |p| == |s| then
      assert p == s;
      s
    else
      assert s[..|p|] == p;
      p + s[|p| + 1..]
  }

  /** Exactly one occurrence of `c` disappears when there is one; every other
      character is kept. */
  lemma RemoveFirstCount(s: string, c: char)
    requires c in s
    ensures |RemoveFirst(s, c)| + 1 == |s|
    ensures Count(c, RemoveFirst(s, c)) + 1 == Count(c, s)
  {
    var p := Before(s, c);
    var k := |p|;
    assert k < |s| && p == s[..k] && RemoveFirst(s, c) == p + s[k + 1..];
    assert s == p + [c] + s[k + 1..];
    CountAppend(c, p + [c], s[k + 1..]);
    CountAppend(c, p, [c]);
    CountAppend(c, p, s[k + 1..]);
  }
}
