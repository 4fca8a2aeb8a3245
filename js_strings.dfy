/**
 * The string operations of the JavaScript standard library that the blog code uses:
 * ASCII case mapping, the whitespace class shared by `trim`, `\s` and `split(/\s+/)`,
 * `includes`, `replace(/\s+/g, rep)` and decimal rendering of naturals.
 */
module JsStrings {

  /** The characters that `String.prototype.trim` removes and the regular expression `\s` matches. */
  predicate IsWs(c: char) {
    c == ' ' || c == '\t' || c == '\n' || c == '\r' || c == '\U{000B}' || c == '\U{000C}' ||
    c == '\U{00A0}' || c == '\U{1680}' || ('\U{2000}' <= c <= '\U{200A}') ||
    c == '\U{2028}' || c == '\U{2029}' || c == '\U{202F}' || c == '\U{205F}' ||
    c == '\U{3000}' || c == '\U{FEFF}'
  }

  predicate NoWs(s: string) {
    forall i :: 0 <= i < |s| ==> !IsWs(s[i])
  }

  predicate AllWs(s: string) {
    forall i :: 0 <= i < |s| ==> IsWs(s[i])
  }

  function LowerChar(c: char): (r: char)
    ensures !('A' <= r <= 'Z')
    ensures IsWs(r) <==> IsWs(c)
  {
    if 'A' <= c <= 'Z' then (c as int + 32) as char else c
  }

  function UpperChar(c: char): (r: char)
    ensures !('a' <= r <= 'z')
    ensures IsWs(r) <==> IsWs(c)
  {
    if 'a' <= c <= 'z' then (c as int - 32) as char else c
  }

  /** `toLowerCase`, restricted to the ASCII letters. */
  function Lower(s: string): (r: string)
    ensures |r| == |s|
    ensures forall i :: 0 <= i < |s| ==> r[i] == LowerChar(s[i])
  {
    seq(|s|, i requires 0 <= i < |s| => LowerChar(s[i]))
  }

  /** `toUpperCase`, restricted to the ASCII letters. */
  function Upper(s: string): (r: string)
    ensures |r| == |s|
    ensures forall i :: 0 <= i < |s| ==> r[i] == UpperChar(s[i])
  {
    seq(|s|, i requires 0 <= i < |s| => UpperChar(s[i]))
  }

  lemma LowerIdempotent(s: string)
    ensures Lower(Lower(s)) == Lower(s)
  {
  }

  /** `trimStart`: drops the leading whitespace run (see `TrimStartSpec`). */
  function TrimStart(s: string): (r: string)
    ensures |r| <= |s|
    ensures |s| > 0 && IsWs(s[0]) ==> |r| < |s|
    ensures r == [] || !IsWs(r[0])
    decreases |s|
  {
    if |s| > 0 && IsWs(s[0]) then TrimStart(s[1..]) else s
  }

  /** `trimStart` keeps a suffix and removes only whitespace. */
  lemma {:induction false} TrimStartSpec(s: string)
    ensures TrimStart(s) == s[|s| - |TrimStart(s)|..]
    ensures AllWs(s[..|s| - |TrimStart(s)|])
    decreases |s|
  {
    if |s| > 0 && IsWs(s[0]) {
      TrimStartSpec(s[1..]);
      var k := |s| - |TrimStart(s)|;
      assert s[1..][..k - 1] == s[1..k];
      assert forall i :: 1 <= i < k ==> s[i] == s[1..k][i - 1];
    }
  }

  /** `trimEnd`: drops the trailing whitespace run (see `TrimEndSpec`). */
  function TrimEnd(s: string): (r: string)
    ensures |r| <= |s|
    ensures r == [] || !IsWs(r[|r| - 1])
    decreases |s|
  {
    if |s| > 0 && IsWs(s[|s| - 1]) then TrimEnd(s[..|s| - 1]) else s
  }

  /** `trimEnd` keeps a prefix and removes only whitespace. */
  lemma {:induction false} TrimEndSpec(s: string)
    ensures TrimEnd(s) == s[..|TrimEnd(s)|]
    ensures AllWs(s[|TrimEnd(s)|..])
    decreases |s|
  {
    if |s| > 0 && IsWs(s[|s| - 1]) {
      var p := s[..|s| - 1];
      TrimEndSpec(p);
      var k := |TrimEnd(s)|;
      assert p[..k] == s[..k];
      assert forall i :: k <= i < |s| - 1 ==> s[i] == p[k..][i - k];
    }
  }

  /** `trim`. */
  function Trim(s: string): string {
    TrimEnd(TrimStart(s))
  }

  /** A string that `trim` leaves alone: it neither starts nor ends with whitespace. */
  predicate IsTrimmed(s: string) {
    s == [] || (!IsWs(s[0]) && !IsWs(s[|s| - 1]))
  }

  lemma TrimStartOfTrimmed(s: string)
    requires IsTrimmed(s)
    ensures TrimStart(s) == s
  {
  }

  lemma TrimEndOfTrimmed(s: string)
    requires IsTrimmed(s)
    ensures TrimEnd(s) == s
  {
  }

  /** `trim` yields a trimmed string, is a no-op on one, and hence is idempotent. */
  lemma {:induction false} TrimIsTrimmed(s: string)
    ensures IsTrimmed(Trim(s))
    ensures Trim(Trim(s)) == Trim(s)
  {
    var t := TrimStart(s);
    var r := TrimEnd(t);
    TrimEndSpec(t);
    if r != [] {
      assert r[0] == t[0];
    }
    TrimStartOfTrimmed(r);
    TrimEndOfTrimmed(r);
  }

  /** `trim` of a string is empty exactly when the string is whitespace only. */
  lemma {:induction false} TrimEmptyIffAllWs(s: string)
    ensures Trim(s) == [] <==> AllWs(s)
  {
    var t := TrimStart(s);
    TrimStartSpec(s);
    TrimEndSpec(t);
    if Trim(s) == [] {
      assert AllWs(t[0..]) && t[0..] == t;
      assert t == [];
      assert s[..|s|] == s;
    } else {
      assert t[0] == s[|s| - |t|];
    }
  }

  /** `s.includes(sub)`. */
  predicate Includes(s: string, sub: string) {
    exists i :: 0 <= i <= |s| && sub <= s[i..]
  }

  /** The length of the leading whitespace run is removed by TrimStart; the first whitespace index otherwise. */
  function FirstWs(s: string): (i: nat)
    ensures i <= |s|
    ensures forall j :: 0 <= j < i ==> !IsWs(s[j])
    ensures i < |s| ==> IsWs(s[i])
    decreases |s|
  {
    if s == [] then 0 else if IsWs(s[0]) then 0 else 1 + FirstWs(s[1..])
  }

  /** `s.split(/\s+/)`: the pieces between maximal whitespace runs (empty pieces at the ends kept). */
  function SplitWs(s: string): (parts: seq<string>)
    ensures |parts| >= 1
    decreases |s|
  {
    var i := FirstWs(s);
    if i == |s| then [s] else [s[..i]] + SplitWs(TrimStart(s[i..]))
  }

  /** On a trimmed, non-empty string every piece of `split(/\s+/)` is a non-empty word. */
  lemma {:induction false} SplitTrimmedWords(s: string)
    requires IsTrimmed(s) && s != []
    ensures forall k :: 0 <= k < |SplitWs(s)| ==> SplitWs(s)[k] != [] && NoWs(SplitWs(s)[k])
    ensures SplitWs(s)[0] == s[..FirstWs(s)]
    decreases |s|
  {
    var i := FirstWs(s);
    if i < |s| {
      var rest := TrimStart(s[i..]);
      TrimStartSpec(s[i..]);
      assert rest == s[|s| - |rest|..];
      assert s[i..][|s| - i - 1] == s[|s| - 1];
      assert rest != [];
      assert IsTrimmed(rest);
      SplitTrimmedWords(rest);
      assert i > 0;
    }
  }

  /** `s.replace(/\s+/g, rep)`: every maximal whitespace run becomes one copy of `rep`. */
  function ReplaceWsRuns(s: string, rep: string): (r: string)
    decreases |s|
  {
    if s == [] then []
    else if IsWs(s[0]) then rep + ReplaceWsRuns(TrimStart(s), rep)
    else [s[0]] + ReplaceWsRuns(s[1..], rep)
  }

  /** With a whitespace-free replacement, the result holds no whitespace at all. */
  lemma {:induction false} ReplaceWsRunsNoWs(s: string, rep: string)
    requires NoWs(rep)
    ensures NoWs(ReplaceWsRuns(s, rep))
    decreases |s|
  {
    if s == [] {
    } else if IsWs(s[0]) {
      ReplaceWsRunsNoWs(TrimStart(s), rep);
    } else {
      ReplaceWsRunsNoWs(s[1..], rep);
    }
  }

  /** Leading whitespace before a part that does not start with whitespace is dropped entirely. */
  lemma {:induction false} TrimStartWsPrefix(w: string, b: string)
    requires AllWs(w)
    requires b == [] || !IsWs(b[0])
    ensures TrimStart(w + b) == b
    decreases |w|
  {
    if w != [] {
      assert (w + b)[1..] == w[1..] + b;
      TrimStartWsPrefix(w[1..], b);
    }
  }

  /** Trimming the start of a text that ends in a non-whitespace character leaves any suffix alone. */
  lemma {:induction false} TrimStartAppend(a: string, c: string)
    requires a != [] && !IsWs(a[|a| - 1])
    ensures TrimStart(a + c) == TrimStart(a) + c
    decreases |a|
  {
    if IsWs(a[0]) {
      assert (a + c)[1..] == a[1..] + c;
      TrimStartAppend(a[1..], c);
    }
  }

  /** A text made of one whitespace run and a part that does not start with whitespace. */
  lemma ReplaceWsRunsAfterRun(w: string, b: string, rep: string)
    requires w != [] && AllWs(w)
    requires b == [] || !IsWs(b[0])
    ensures ReplaceWsRuns(w + b, rep) == rep + ReplaceWsRuns(b, rep)
  {
    assert IsWs((w + b)[0]);
    TrimStartWsPrefix(w, b);
  }

  /** The step at a leading whitespace run of a part that ends in a non-whitespace character. */
  lemma ReplaceWsRunsWsStep(a: string, c: string, rep: string)
    requires a != [] && IsWs(a[0]) && !IsWs(a[|a| - 1])
    requires ReplaceWsRuns(TrimStart(a) + c, rep) == ReplaceWsRuns(TrimStart(a), rep) + ReplaceWsRuns(c, rep)
    ensures ReplaceWsRuns(a + c, rep) == ReplaceWsRuns(a, rep) + ReplaceWsRuns(c, rep)
  {
    TrimStartAppend(a, c);
    assert IsWs((a + c)[0]);
  }

  /** What is left after a leading whitespace run is shorter and still ends in the same character. */
  lemma TrimStartKeepsLast(a: string)
    requires a != [] && IsWs(a[0]) && !IsWs(a[|a| - 1])
    ensures var t := TrimStart(a); t != [] && !IsWs(t[|t| - 1]) && |t| < |a|
  {
    var t := TrimStart(a);
    TrimStartSpec(a);
    assert t != [] && t[|t| - 1] == a[|a| - 1];
  }

  /** The step at a leading non-whitespace character. */
  lemma ReplaceWsRunsCharStep(a: string, c: string, rep: string)
    requires a != [] && !IsWs(a[0])
    requires ReplaceWsRuns(a[1..] + c, rep) == ReplaceWsRuns(a[1..], rep) + ReplaceWsRuns(c, rep)
    ensures ReplaceWsRuns(a + c, rep) == ReplaceWsRuns(a, rep) + ReplaceWsRuns(c, rep)
  {
    assert (a + c)[0] == a[0] && (a + c)[1..] == a[1..] + c;
  }

  /** A part that ends in a non-whitespace character is replaced independently of what follows it. */
  lemma {:induction false} ReplaceWsRunsAppend(a: string, c: string, rep: string)
    requires a == [] || !IsWs(a[|a| - 1])
    ensures ReplaceWsRuns(a + c, rep) == ReplaceWsRuns(a, rep) + ReplaceWsRuns(c, rep)
    decreases |a|
  {
    if a == [] {
      assert a + c == c;
    } else if IsWs(a[0]) {
      TrimStartKeepsLast(a);
      ReplaceWsRunsAppend(TrimStart(a), c, rep);
      ReplaceWsRunsWsStep(a, c, rep);
    } else {
      assert a[1..] == [] || a[1..][|a[1..]| - 1] == a[|a| - 1];
      ReplaceWsRunsAppend(a[1..], c, rep);
      ReplaceWsRunsCharStep(a, c, rep);
    }
  }

  /**
   * One whitespace run between two parts that do not touch it with whitespace of their
   * own becomes exactly one copy of `rep`, and the parts are replaced independently.
   */
  lemma ReplaceWsRunsSplit(a: string, w: string, b: string, rep: string)
    requires w != [] && AllWs(w)
    requires a == [] || !IsWs(a[|a| - 1])
    requires b == [] || !IsWs(b[0])
    ensures ReplaceWsRuns(a + w + b, rep) == ReplaceWsRuns(a, rep) + rep + ReplaceWsRuns(b, rep)
  {
    assert a + w + b == a + (w + b);
    ReplaceWsRunsAppend(a, w + b, rep);
    ReplaceWsRunsAfterRun(w, b, rep);
  }

  function DigitChar(d: nat): (c: char)
    requires d < 10
    ensures '0' <= c <= '9'
  {
    ('0' as int + d) as char
  }

  /** Decimal rendering of a natural, as template literals render integers. */
  function NatToString(n: nat): (r: string)
    ensures |r| >= 1
    ensures forall i :: 0 <= i < |r| ==> '0' <= r[i] <= '9'
  {
    if n < 10 then [DigitChar(n)] else NatToString(n / 10) + [DigitChar(n % 10)]
  }

  /** Decimal rendering of an integer, with a leading `-` for negatives. */
  function IntToString(n: int): (r: string)
    ensures |r| >= 1
  {
    if n < 0 then "-" + NatToString(-n) else NatToString(n)
  }
}
