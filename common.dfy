/** Small definitions shared by every module of the model. */
module Common {

  /** Python's `Optional[T]`: `None` or a present value. */
  datatype Option<+T> = None | Some(value: T)

  /**
   * An instant, as whole microseconds since the Unix epoch in UTC (Python's
   * `datetime` has microsecond resolution).
   */
  type Timestamp = int

  /** Microseconds in one minute. */
  const MicrosPerMinute: int := 60_000_000

  /** The characters of `s`, lower-cased on the ASCII letters A-Z. */
  function AsciiLower(s: string): (r: string)
    ensures |r| == |s|
    ensures forall i :: 0 <= i < |s| ==> r[i] == LowerChar(s[i])
  {
    if s == [] then [] else [LowerChar(s[0])] + AsciiLower(s[1..])
  }

  function LowerChar(c: char): char {
    if 'A' <= c <= 'Z' then (c as int + 32) as char else c
  }

  /** True when every character of `s` satisfies `p`. */
  predicate All(s: string, p: char -> bool) {
    forall i :: 0 <= i < |s| ==> p(s[i])
  }

  /** The characters of `s` that satisfy `keep`, in their original order. */
  function Filter(s: string, keep: char -> bool): (r: string)
    ensures |r| <= |s|
    ensures All(r, keep)
  {
    if s == [] then []
    else (if keep(s[0]) then [s[0]] else []) + Filter(s[1..], keep)
  }

  /** Filtering distributes over concatenation: it only drops characters. */
  lemma {:induction false} FilterConcat(a: string, b: string, keep: char -> bool)
    ensures Filter(a + b, keep) == Filter(a, keep) + Filter(b, keep)
  {
    if a != [] {
      assert (a + b)[1..] == a[1..] + b;
      FilterConcat(a[1..], b, keep);
    } else {
      assert a + b == b;
    }
  }

  /** A string is its own filtering exactly when it has nothing to drop. */
  lemma {:induction false} FilterIdentity(s: string, keep: char -> bool)
    ensures Filter(s, keep) == s <==> All(s, keep)
  {
    if s != [] {
      FilterIdentity(s[1..], keep);
      if !keep(s[0]) {
        assert |Filter(s, keep)| < |s|;
      }
    }
  }

  /** Filtering twice is filtering once. */
  lemma FilterIdempotent(s: string, keep: char -> bool)
    ensures Filter(Filter(s, keep), keep) == Filter(s, keep)
  {
    FilterIdentity(Filter(s, keep), keep);
  }

  /** A character survives filtering exactly when it occurs and is kept. */
  lemma {:induction false} FilterMembers(s: string, keep: char -> bool, c: char)
    ensures c in Filter(s, keep) <==> c in s && keep(c)
  {
    if s != [] {
      FilterMembers(s[1..], keep, c);
      assert s == [s[0]] + s[1..];
    }
  }

  /** `s` without its leading characters satisfying `ws`: the longest
      suffix that does not start with one. */
  function TrimStart(s: string, ws: char -> bool): (r: string)
    ensures |r| <= |s| && r == s[|s| - |r|..]
    ensures r == [] || !ws(r[0])
    ensures All(s[..|s| - |r|], ws)
  {
    if s == [] || !ws(s[0]) then s
    else
      var r := TrimStart(s[1..], ws);
      assert s[1..][..|s| - 1 - |r|] == s[1..|s| - |r|];
      r
  }

  /** `s` without its trailing characters satisfying `ws`: the longest
      prefix that does not end with one. */
  function TrimEnd(s: string, ws: char -> bool): (r: string)
    ensures |r| <= |s| && r == s[..|r|]
    ensures r == [] || !ws(r[|r| - 1])
    ensures All(s[|r|..], ws)
  {
    if s == [] || !ws(s[|s| - 1]) then s
    else
      var r := TrimEnd(s[..|s| - 1], ws);
      assert s[..|s| - 1][|r|..] == s[|r|..|s| - 1];
      r
  }

  /** `s.strip()`: both ends trimmed. */
  function Strip(s: string, ws: char -> bool): (r: string)
    ensures r == [] || (!ws(r[0]) && !ws(r[|r| - 1]))
  {
    TrimEnd(TrimStart(s, ws), ws)
  }

  /** The stripped string is a slice of `s` with only `ws` characters around it. */
  lemma StripSlice(s: string, ws: char -> bool)
    ensures var r := Strip(s, ws);
      exists i :: 0 <= i <= i + |r| <= |s| && r == s[i..i + |r|]
        && All(s[..i], ws) && All(s[i + |r|..], ws)
  {
    var t := TrimStart(s, ws);
    var r := TrimEnd(t, ws);
    var i := |s| - |t|;
    assert t == s[i..];
    assert s[i..i + |r|] == t[..|r|];
    assert s[i + |r|..] == t[|r|..];
    assert All(s[..i], ws) && All(s[i + |r|..], ws);
  }

  /** Stripping only removes characters. */
  lemma StripOmits(s: string, ws: char -> bool, c: char)
    requires c !in s
    ensures c !in Strip(s, ws)
  {
    StripSlice(s, ws);
  }

  /** Characters Python's `str.isspace()` accepts. */
  predicate PyWhitespace(c: char) {
    c == ' ' || ('\t' <= c <= '\r') || ('\U{1c}' <= c <= '\U{1f}') || c == '\U{85}' || c == '\U{a0}'
    || c == '\U{1680}' || ('\U{2000}' <= c <= '\U{200a}') || c == '\U{2028}' || c == '\U{2029}'
    || c == '\U{202f}' || c == '\U{205f}' || c == '\U{3000}'
  }

  /** Where a Python slice starting at `start` begins in a sequence of
      length `len`: negative starts count from the end, and both ends clamp. */
  function SliceStart(len: nat, start: int): (i: nat)
    ensures i <= len
  {
    if start < 0 then (if start + len < 0 then 0 else start + len)
    else if start > len then len
    else start
  }

  /** Python's `xs[-n:]`. */
  function NegSlice<T>(xs: seq<T>, n: int): seq<T> {
    xs[SliceStart(|xs|, -n)..]
  }

  /** `xs[-n:]` is the last `n` items for 0 < n <= len, but the WHOLE list
      for n == 0, and drops the first `-n` items for negative n. */
  lemma NegSliceSpec<T>(xs: seq<T>, n: int)
    ensures 0 < n <= |xs| ==> NegSlice(xs, n) == xs[|xs| - n..] && |NegSlice(xs, n)| == n
    ensures n > |xs| ==> NegSlice(xs, n) == xs
    ensures n == 0 ==> NegSlice(xs, n) == xs
    ensures n < 0 ==> NegSlice(xs, n) == if -n <= |xs| then xs[-n..] else []
  {
  }
}
