/** Slack timestamps and text orders: the pure helpers of src/harvest.rs and the
    identifier checks of src/slackbot/user_session/state.rs. */
module Harvest {

  datatype Option<+T> = None | Some(value: T)

  /** Last second chrono 0.4 can represent: 262142-12-31T23:59:59Z. It is below
      the i64 bound, so the range check also covers the integer overflow check. */
  const MAX_SECOND: nat := 8210266876799

  predicate IsDigit(c: char) { '0' <= c <= '9' }

  predicate AllDigits(s: string) { forall i :: 0 <= i < |s| ==> IsDigit(s[i]) }

  function Value(s: string): nat
    requires AllDigits(s)
  {
    if s == "" then 0 else 10 * Value(s[..|s| - 1]) + (s[|s| - 1] as int - '0' as int)
  }

  function Decimal(n: nat): string {
    if n < 10 then ['0' + n as char] else Decimal(n / 10) + ['0' + (n % 10) as char]
  }

  lemma {:induction false} ValueOfDecimal(n: nat)
    ensures Decimal(n) != "" && AllDigits(Decimal(n)) && Value(Decimal(n)) == n
  {
    var s := Decimal(n);
    if n < 10 {
      assert s[..0] == "";
    } else {
      ValueOfDecimal(n / 10);
      assert s[..|s| - 1] == Decimal(n / 10);
    }
  }

  /** Position of the first `c`, or |s|. */
  function Find(s: string, c: char): (i: nat)
    ensures i <= |s|
    ensures i < |s| ==> s[i] == c
    ensures forall k :: 0 <= k < i ==> s[k] != c
  {
    if s == "" then 0 else if s[0] == c then 0 else 1 + Find(s[1..], c)
  }

  function MessageTimestamp(ts: string): Option<nat> {
    var dot := Find(ts, '.');
    var seconds := ts[..dot];
    if seconds == "" || !AllDigits(seconds) then None
    else if dot < |ts| && (ts[dot + 1..] == "" || !AllDigits(ts[dot + 1..])) then None
    else if Value(seconds) > MAX_SECOND then None
    else Some(Value(seconds))
  }

  predicate Digits(s: string) { s != "" && AllDigits(s) }

  /** Seconds, and digits after a point if there is a point. */
  ghost predicate Written(ts: string, seconds: string) {
    Digits(seconds) && (ts == seconds || exists fraction :: Digits(fraction) && ts == seconds + "." + fraction)
  }

  lemma FindAfterDigits(seconds: string, rest: string)
    requires AllDigits(seconds) && (rest == "" || rest[0] == '.')
    ensures Find(seconds + rest, '.') == |seconds| && (seconds + rest)[..|seconds|] == seconds
  {
  }

  lemma FractionSplits(seconds: string, fraction: string)
    requires AllDigits(seconds)
    ensures var ts := seconds + "." + fraction;
      Find(ts, '.') == |seconds| && ts[..|seconds|] == seconds && ts[|seconds| + 1..] == fraction
  {
    FindAfterDigits(seconds, "." + fraction);
    assert seconds + ("." + fraction) == seconds + "." + fraction;
  }

  lemma WrittenSplits(ts: string, seconds: string)
    requires Written(ts, seconds)
    ensures Find(ts, '.') == |seconds| && ts[..|seconds|] == seconds
    ensures |seconds| < |ts| ==> Digits(ts[|seconds| + 1..])
  {
    if ts == seconds {
      FindAfterDigits(seconds, "");
      assert seconds + "" == ts;
    } else {
      var fraction :| Digits(fraction) && ts == seconds + "." + fraction;
      FractionSplits(seconds, fraction);
    }
  }

  /** A timestamp parses to `n` exactly when it is written that way, with a second that
      can be represented; in particular every such second survives printing. */
  lemma TimestampMeans(ts: string, n: nat)
    ensures MessageTimestamp(ts) == Some(n) <==>
      n <= MAX_SECOND && exists seconds :: Written(ts, seconds) && Value(seconds) == n
    ensures n <= MAX_SECOND ==> MessageTimestamp(Decimal(n)) == Some(n)
  {
    if MessageTimestamp(ts) == Some(n) {
      var dot := Find(ts, '.');
      assert dot < |ts| ==> ts == ts[..dot] + "." + ts[dot + 1..];
      assert dot == |ts| ==> ts == ts[..dot];
      assert Written(ts, ts[..dot]) && Value(ts[..dot]) == n;
    }
    forall seconds | Written(ts, seconds) && Value(seconds) == n && n <= MAX_SECOND
      ensures MessageTimestamp(ts) == Some(n)
    {
      WrittenSplits(ts, seconds);
    }
    ValueOfDecimal(n);
    assert Written(Decimal(n), Decimal(n));
    WrittenSplits(Decimal(n), Decimal(n));
  }

  predicate ValidTs(ts: string) { |ts| <= 32 && MessageTimestamp(ts).Some? }

  predicate IsAlphanumeric(c: char) { IsDigit(c) || 'a' <= c <= 'z' || 'A' <= c <= 'Z' }

  predicate ValidId(id: string) {
    id != "" && |id| <= 64 && forall i :: 0 <= i < |id| ==> IsAlphanumeric(id[i])
  }

  /** A timestamp never contains a character that JSON would escape. */
  lemma TimestampAlphabet(ts: string)
    requires MessageTimestamp(ts).Some?
    ensures forall i :: 0 <= i < |ts| ==> IsDigit(ts[i]) || ts[i] == '.'
  {
  }
}
