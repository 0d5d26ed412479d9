/** The few string operations of the host language that the models below rely on. */
module Text {

  datatype Option<+T> = None | Some(value: T)

  /** White space as `str.strip` and `str.isspace` understand it. */
  predicate IsSpace(c: char) {
    || '\t' <= c <= '\r'
    || '\U{1c}' <= c <= ' '
    || c == '\U{85}' || c == '\U{a0}' || c == '\U{1680}'
    || '\U{2000}' <= c <= '\U{200a}'
    || c == '\U{2028}' || c == '\U{2029}' || c == '\U{202f}' || c == '\U{205f}' || c == '\U{3000}'
  }

  /** True when `s.strip()` is empty. */
  predicate IsBlank(s: string) {
    forall i | 0 <= i < |s| :: IsSpace(s[i])
  }

  function LStrip(s: string): string {
    if s != "" && IsSpace(s[0]) then LStrip(s[1..]) else s
  }

  function RStrip(s: string): string {
    if s != "" && IsSpace(s[|s| - 1]) then RStrip(s[..|s| - 1]) else s
  }

  function Strip(s: string): string {
    RStrip(LStrip(s))
  }

  predicate Stripped(s: string) {
    s == "" || (!IsSpace(s[0]) && !IsSpace(s[|s| - 1]))
  }

  predicate StartsWith(s: string, prefix: string) {
    |prefix| <= |s| && s[..|prefix|] == prefix
  }

  predicate OccursAt(s: string, pattern: string, k: int) {
    0 <= k <= |s| - |pattern| && s[k..k + |pattern|] == pattern
  }

  predicate Contains(s: string, pattern: string) {
    exists k | 0 <= k <= |s| :: OccursAt(s, pattern, k)
  }

  const DIGITS := "0123456789"

  function NatToString(n: nat): string {
    if n < 10 then [DIGITS[n]] else NatToString(n / 10) + [DIGITS[n % 10]]
  }

  function IntToString(n: int): string {
    if n < 0 then "-" + NatToString(-n) else NatToString(n)
  }

  function Concat(parts: seq<string>): string {
    if parts == [] then "" else parts[0] + Concat(parts[1..])
  }

  /** `sep.join(parts)`. */
  function Join(parts: seq<string>, sep: string): string {
    if parts == [] then "" else if |parts| == 1 then parts[0] else parts[0] + sep + Join(parts[1..], sep)
  }

  lemma {:induction false} ConcatAppend(a: seq<string>, b: seq<string>)
    ensures Concat(a + b) == Concat(a) + Concat(b)
  {
    if a == [] {
      AppendNone(b);
      AppendNone(Concat(b));
    } else {
      AppendTail(a, b);
      ConcatAppend(a[1..], b);
      Assoc(a[0], Concat(a[1..]), Concat(b));
    }
  }

  // ----- what the string operations mean -----

  lemma AsciiSpaces(c: char)
    requires c < '\U{80}'
    ensures IsSpace(c) <==>
              || c == ' ' || c == '\t' || c == '\n' || c == '\r' || c == '\U{b}' || c == '\U{c}'
              || '\U{1c}' <= c <= '\U{1f}'
  {
  }

  /** Stripping takes white space off both ends, and all of it. */
  lemma StripIsTrimmed(s: string) returns (before: string, after: string)
    ensures s == before + Strip(s) + after && IsBlank(before) && IsBlank(after) && Stripped(Strip(s))
  {
    before := LeftTrimmed(s);
    after := RightTrimmed(LStrip(s));
    Assoc(before, Strip(s), after);
  }

  lemma {:induction false} LeftTrimmed(s: string) returns (before: string)
    ensures s == before + LStrip(s) && IsBlank(before) && (LStrip(s) == "" || !IsSpace(LStrip(s)[0]))
    decreases |s|
  {
    before := "";
    if s != "" && IsSpace(s[0]) {
      before := LeftTrimmed(s[1..]);
      before := [s[0]] + before;
      assert s == [s[0]] + s[1..];
    }
  }

  lemma {:induction false} RightTrimmed(s: string) returns (after: string)
    ensures s == RStrip(s) + after && IsBlank(after)
    ensures RStrip(s) == "" || (RStrip(s)[0] == s[0] && !IsSpace(RStrip(s)[|RStrip(s)| - 1]))
    decreases |s|
  {
    after := "";
    if s != "" && IsSpace(s[|s| - 1]) {
      after := RightTrimmed(s[..|s| - 1]);
      after := after + [s[|s| - 1]];
    }
  }

  /** The separator stands between the parts, and only there. */
  lemma {:induction false} JoinSnoc(parts: seq<string>, last: string, sep: string)
    ensures Join([], sep) == "" && Join([last], sep) == last
    ensures parts != [] ==> Join(parts + [last], sep) == Join(parts, sep) + sep + last
  {
    if parts != [] {
      AppendTail(parts, [last]);
      assert parts[1..] == [] ==> [] + [last] == [last];
      JoinSnoc(parts[1..], last, sep);
      if parts[1..] != [] {
        Assoc(parts[0] + sep, Join(parts[1..], sep), sep + last);
        Assoc(Join(parts[1..], sep), sep, last);
        Assoc(parts[0] + sep + Join(parts[1..], sep), sep, last);
      }
    }
  }

  /** The number that decimal digits stand for. */
  function Value(digits: string): int {
    if digits == "" then 0 else Value(digits[..|digits| - 1]) * 10 + (digits[|digits| - 1] as int - '0' as int)
  }

  lemma {:induction false} PrintedInDecimal(n: nat)
    ensures Value(NatToString(n)) == n
    ensures NatToString(n) != "" && forall k | 0 <= k < |NatToString(n)| :: '0' <= NatToString(n)[k] <= '9'
  {
    if n < 10 {
      assert [DIGITS[n]][..0] == "";
    } else {
      PrintedInDecimal(n / 10);
      var s := NatToString(n);
      assert s[..|s| - 1] == NatToString(n / 10);
    }
  }

  // ----- sequences -----

  ghost predicate Distinct<T>(s: seq<T>) {
    forall i, j | 0 <= i < j < |s| :: s[i] != s[j]
  }

  ghost predicate Rising(s: seq<nat>) {
    forall i, j | 0 <= i < j < |s| :: s[i] < s[j]
  }

  lemma Assoc<T>(a: seq<T>, b: seq<T>, c: seq<T>)
    ensures a + (b + c) == a + b + c
  {
  }

  lemma AppendTail<T>(a: seq<T>, b: seq<T>)
    requires a != []
    ensures (a + b)[0] == a[0] && (a + b)[1..] == a[1..] + b
  {
  }

  lemma AppendNone<T>(a: seq<T>)
    ensures a + [] == a && [] + a == a
  {
  }
}
