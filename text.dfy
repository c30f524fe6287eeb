/** The string operations of Python that the scraper relies on: substring
    tests, `lower`, `strip`, `split`, `join`, `replace` and `isdigit`. */
module Text {

  /** `c.isspace()`: the characters for which Python's `str.isspace`
      holds, the whitespace that `str.split()` splits on and `str.strip()`
      removes (29 code points, written as ranges). */
  predicate IsSpace(c: char) {
    || c == ' ' || '\t' <= c <= '\r' || '\U{1c}' <= c <= '\U{1f}'
    || c == '\U{85}' || c == '\U{a0}' || c == '\U{1680}'
    || '\U{2000}' <= c <= '\U{200a}' || c == '\U{2028}' || c == '\U{2029}'
    || c == '\U{202f}' || c == '\U{205f}' || c == '\U{3000}'
  }

  /** `s.startswith(p)` */
  predicate StartsWith(s: string, p: string) {
    p <= s
  }

  /** `s.endswith(p)` */
  predicate EndsWith(s: string, p: string) {
    |p| <= |s| && s[|s| - |p|..] == p
  }

  /** `sub` occurs in `s` starting at index `i`. */
  predicate OccursAt(s: string, sub: string, i: nat) {
    i <= |s| && sub <= s[i..]
  }

  /** `sub in s` */
  predicate Contains(s: string, sub: string) {
    exists i: nat | i <= |s| :: OccursAt(s, sub, i)
  }

  /** Only a string at least as long as `sub` contains it. */
  lemma ContainsLength(s: string, sub: string)
    requires Contains(s, sub)
    ensures |sub| <= |s|
  {
    var i: nat :| i <= |s| && OccursAt(s, sub, i);
  }

  /** `s[:n]` */
  function Prefix(s: string, n: nat): (r: string)
    ensures |r| <= n && r <= s
    ensures |s| <= n ==> r == s
    ensures |s| > n ==> |r| == n
  {
    if |s| <= n then s else s[..n]
  }

  function LowerChar(c: char): char {
    if 'A' <= c <= 'Z' then (c as int + 32) as char else c
  }

  /** `s.lower()`, for the ASCII letters. */
  function Lower(s: string): (r: string)
    ensures |r| == |s|
    ensures forall i :: 0 <= i < |s| ==> r[i] == LowerChar(s[i])
  {
    seq(|s|, i requires 0 <= i < |s| => LowerChar(s[i]))
  }

  /** `s.lstrip()` */
  function TrimStart(s: string): (r: string)
    ensures |r| <= |s|
    ensures r == [] || !IsSpace(r[0])
  {
    if s != [] && IsSpace(s[0]) then TrimStart(s[1..]) else s
  }

  /** `s.rstrip()` */
  function TrimEnd(s: string): (r: string)
    ensures r <= s
    ensures r == [] || !IsSpace(r[|r| - 1])
  {
    if s != [] && IsSpace(s[|s| - 1]) then TrimEnd(s[..|s| - 1]) else s
  }

  /** `s.strip()`: the result neither starts nor ends with whitespace, and
      what was removed was whitespace at the two ends. */
  function Strip(s: string): (r: string)
    ensures |r| <= |s|
    ensures r == [] || (!IsSpace(r[0]) && !IsSpace(r[|r| - 1]))
    ensures s == [] ==> r == []
  {
    TrimEnd(TrimStart(s))
  }

  /** The number of whitespace characters `s` starts with. */
  function SpaceRun(s: string): (n: nat)
    ensures n <= |s|
    decreases |s|
  {
    if s != [] && IsSpace(s[0]) then 1 + SpaceRun(s[1..]) else 0
  }

  /** `lstrip()` removes exactly the leading whitespace. */
  lemma {:induction false} TrimStartSpec(s: string)
    ensures TrimStart(s) == s[SpaceRun(s)..]
    ensures forall k :: 0 <= k < SpaceRun(s) ==> IsSpace(s[k])
    decreases |s|
  {
    if s != [] && IsSpace(s[0]) {
      TrimStartSpec(s[1..]);
      assert s[1..][SpaceRun(s[1..])..] == s[SpaceRun(s)..];
      forall k | 1 <= k < SpaceRun(s) ensures IsSpace(s[k]) {
        assert s[k] == s[1..][k - 1];
      }
    }
  }

  /** `rstrip()` removes exactly the trailing whitespace. */
  lemma {:induction false} TrimEndSpec(s: string)
    ensures var r := TrimEnd(s);
      r == s[..|r|] && forall k :: |r| <= k < |s| ==> IsSpace(s[k])
    decreases |s|
  {
    if s != [] && IsSpace(s[|s| - 1]) {
      TrimEndSpec(s[..|s| - 1]);
    }
  }

  /** `strip()` cuts `s` into its leading whitespace, the result, and
      whitespace; with the ends of the result not being whitespace, this
      determines the result. */
  lemma StripSpec(s: string)
    ensures var r, a := Strip(s), SpaceRun(s);
      a + |r| <= |s| && r == s[a..a + |r|]
      && (forall k :: 0 <= k < a ==> IsSpace(s[k]))
      && (forall k :: a + |r| <= k < |s| ==> IsSpace(s[k]))
  {
    var t, r, a := TrimStart(s), Strip(s), SpaceRun(s);
    assert t == s[a..] by {
      TrimStartSpec(s);
    }
    assert r == t[..|r|] && forall k :: |r| <= k < |t| ==> IsSpace(t[k]) by {
      TrimEndSpec(t);
    }
    assert r == s[a..a + |r|];
    forall k | a + |r| <= k < |s| ensures IsSpace(s[k]) {
      assert s[k] == t[k - a];
    }
    TrimStartSpec(s);
  }

  /** The length of the run of non-space characters that `s` starts with. */
  function RunLength(s: string): (n: nat)
    ensures n <= |s|
    ensures forall k :: 0 <= k < n ==> !IsSpace(s[k])
    ensures n == |s| || IsSpace(s[n])
  {
    if s == [] || IsSpace(s[0]) then 0 else 1 + RunLength(s[1..])
  }

  /** `s.split()` with no argument: the maximal runs of non-space
      characters, in order. */
  function Words(s: string): (r: seq<string>)
    ensures forall w :: w in r ==> w != [] && forall c :: c in w ==> !IsSpace(c)
    decreases |s|
  {
    if s == [] then []
    else if IsSpace(s[0]) then Words(s[1..])
    else
      var n := RunLength(s);
      [s[..n]] + Words(s[n..])
  }

  /** `split()` the way a scanner does it: characters accumulate into the
      current word, and whitespace closes the word if one was started. */
  function SplitScan(s: string, cur: string): seq<string>
    decreases |s|
  {
    if s == [] then (if cur == [] then [] else [cur])
    else if IsSpace(s[0]) then (if cur == [] then [] else [cur]) + SplitScan(s[1..], [])
    else SplitScan(s[1..], cur + [s[0]])
  }

  /** The scanner with a word in progress: it completes that word with the
      run `s` starts with, then splits the rest. */
  lemma {:induction false} SplitScanFrom(s: string, cur: string)
    ensures var n := RunLength(s);
      SplitScan(s, cur) == if cur == [] then Words(s) else [cur + s[..n]] + Words(s[n..])
    decreases |s|
  {
    if s == [] {
      assert RunLength(s) == 0 && s[..0] == [] && cur + [] == cur;
    } else if IsSpace(s[0]) {
      SplitScanFrom(s[1..], []);
      assert RunLength(s) == 0 && s[..0] == [] && s[0..] == s && cur + [] == cur;
      assert Words(s) == Words(s[1..]);
      assert SplitScan(s, cur) == (if cur == [] then [] else [cur]) + Words(s[1..]);
    } else {
      var t := s[1..];
      var m := RunLength(t);
      var next := cur + [s[0]];
      SplitScanFrom(t, next);
      assert RunLength(s) == 1 + m;
      assert next + t[..m] == cur + s[..1 + m];
      assert t[m..] == s[1 + m..];
      assert SplitScan(s, cur) == SplitScan(t, next) == [cur + s[..1 + m]] + Words(s[1 + m..]);
      if cur == [] {
        assert cur + s[..1 + m] == s[..1 + m];
        assert Words(s) == [s[..1 + m]] + Words(s[1 + m..]);
      }
    }
  }

  /** `s.split()` is the one-pass scan that collects runs of
      non-whitespace characters. */
  lemma WordsScan(s: string)
    ensures Words(s) == SplitScan(s, [])
  {
    SplitScanFrom(s, []);
  }

  /** `sep.join(parts)` */
  function Join(sep: string, parts: seq<string>): string {
    if |parts| == 0 then ""
    else if |parts| == 1 then parts[0]
    else parts[0] + sep + Join(sep, parts[1..])
  }

  /** A join with a non-empty separator is empty exactly when there is
      nothing to join, or one empty part. */
  lemma JoinEmpty(sep: string, parts: seq<string>)
    requires sep != ""
    ensures Join(sep, parts) == "" <==> (|parts| == 0 || parts == [""])
  {
    if |parts| >= 2 {
      assert |Join(sep, parts)| >= |sep|;
    }
  }

  /** `s.replace(c, "")` for a one-character pattern. */
  function Remove(s: string, c: char): (r: string)
    ensures |r| <= |s|
    ensures c !in r
    ensures forall x :: x in r <==> x in s && x != c
  {
    if s == [] then []
    else (if s[0] == c then [] else [s[0]]) + Remove(s[1..], c)
  }

  /** `s.isdigit()` for the ASCII digits: non-empty and digits only. */
  predicate IsDigits(s: string) {
    |s| > 0 && forall k :: 0 <= k < |s| ==> '0' <= s[k] <= '9'
  }
}
