/**
 * The mining screen: the countdown it shows (`updateTimer`), the `h:mm:ss` /
 * `m:ss` clock text (`formatTime`), and the start button that is disabled while
 * a session is active.
 */
module MiningView {
  import opened Wrappers
  import opened Numbers
  import opened Types
  import opened Text
  import Mining

  /** `Math.floor((now - start) / 1000)`; Dafny's `/` with a positive divisor floors. */
  function WholeSecondsSince(start: int, now: int): int {
    (now - start) / 1000
  }

  /** `Math.max(0, duration - elapsed)` (MiningView.tsx:27-28). */
  function Remaining(duration: int, start: int, now: int): (r: int)
    ensures r >= 0
    ensures now >= start && duration >= 0 ==> r <= duration
    ensures r == 0 <==> WholeSecondsSince(start, now) >= duration
  {
    Max(0, duration - WholeSecondsSince(start, now))
  }

  /** The countdown never goes up as time passes. */
  lemma RemainingNonIncreasing(duration: int, start: int, now1: int, now2: int)
    requires now1 <= now2
    ensures Remaining(duration, start, now2) <= Remaining(duration, start, now1)
  {
    assert WholeSecondsSince(start, now1) <= WholeSecondsSince(start, now2) by {
      ThousandthsMonotone(now1 - start, now2 - start);
    }
  }

  lemma ThousandthsMonotone(a: int, b: int)
    requires a <= b
    ensures a / 1000 <= b / 1000
  {
    var qa, qb := a / 1000, b / 1000;
    assert qa * 1000 <= a && b < qb * 1000 + 1000;
  }

  /** The display reaches 0 exactly when the engine's poll would credit the
      session: flooring the elapsed seconds does not shift the moment. */
  lemma DisplayZeroIffEngineCompletes(duration: int, start: int, now: int)
    ensures Remaining(duration, start, now) == 0 <==> Mining.ElapsedSeconds(start, now) >= duration as real
  {
    var q := WholeSecondsSince(start, now);
    var t := now - start;
    assert q * 1000 <= t < q * 1000 + 1000;
    assert Mining.ElapsedSeconds(start, now) * 1000.0 == t as real;
    if q >= duration {
      assert t as real >= (duration * 1000) as real;
    } else {
      assert t < duration * 1000;
      assert (t as real) < (duration * 1000) as real;
    }
  }

  /** The `timeLeft` shown (MiningView.tsx:23-37): the countdown while the session
      runs, 0 when it is inactive or has no truthy start time. */
  function TimeLeft(s: MiningSession, duration: int, now: int): (r: int)
    ensures r >= 0
    ensures !Mining.EngineRunning(s) ==> r == 0
    ensures Mining.EngineRunning(s) ==> r == Remaining(duration, s.startTime.value, now)
  {
    if s.isActive && s.startTime.Some? && s.startTime.value != 0
    then Remaining(duration, s.startTime.value, now) else 0
  }

  /** The button at MiningView.tsx:165-167 is disabled while a session is active,
      so through the screen a running session is never restarted. */
  function HandleStart(u: UserState, now: int): (r: UserState)
    ensures u.miningSession.isActive ==> r == u
    ensures !u.miningSession.isActive ==> r == Mining.StartMining(u, now)
  {
    if u.miningSession.isActive then u else Mining.StartMining(u, now)
  }

  // ----- formatTime -----

  /** A two-digit field, or the bare number when `pad` is false (`${m < 10 && h > 0 ? '0' : ''}${m}`). */
  function Field(n: nat, pad: bool): (r: string)
    ensures AllDigits(r) && |r| >= 1 && DecimalValue(r) == n
    ensures pad && n < 100 ==> |r| == 2
  {
    NatToStringValue(n);
    if pad && n < 10 then
      var r := "0" + NatToString(n);
      assert r[..|r| - 1] == "0" && r[|r| - 1] == NatToString(n)[0];
      r
    else NatToString(n)
  }

  /** The text for `h` hours, `m` minutes and `s` seconds (MiningView.tsx:63): the
      hours and their ':' only when there are any, the minutes padded only after
      hours, the seconds always padded. */
  function ClockText(h: nat, m: nat, s: nat): string {
    (if h > 0 then NatToString(h) + ":" else "") + Field(m, h > 0) + ":" + Field(s, true)
  }

  /** `formatTime` (MiningView.tsx:59-64). */
  function FormatTime(seconds: nat): string {
    ClockText(seconds / 3600, (seconds % 3600) / 60, seconds % 60)
  }

  /** The clock text's fields, split at ':'. */
  function SplitColons(s: string): (r: seq<string>)
    ensures |r| >= 1
  {
    if s == [] then [[]]
    else if s[0] == ':' then [[]] + SplitColons(s[1..])
    else
      var t := SplitColons(s[1..]);
      [[s[0]] + t[0]] + t[1..]
  }

  /** Digit fields read as a base-60 number, most significant first. */
  function Sexagesimal(fields: seq<string>): nat
    requires forall i :: 0 <= i < |fields| ==> AllDigits(fields[i])
  {
    if fields == [] then 0
    else Sexagesimal(fields[..|fields| - 1]) * 60 + DecimalValue(fields[|fields| - 1])
  }

  /** Reads a clock text back into seconds; `None` if a field is not a number. */
  function ParseClock(s: string): Option<nat> {
    var f := SplitColons(s);
    if forall i :: 0 <= i < |f| ==> AllDigits(f[i]) then Some(Sexagesimal(f)) else None
  }

  lemma {:induction false} SplitDigits(a: string)
    requires AllDigits(a)
    ensures SplitColons(a) == [a]
  {
    if a != [] {
      SplitDigits(a[1..]);
      assert [a[0]] + a[1..] == a;
    }
  }

  lemma {:induction false} SplitJoin(a: string, b: string)
    requires AllDigits(a)
    ensures SplitColons(a + ":" + b) == [a] + SplitColons(b)
  {
    if a == [] {
      assert a + ":" + b == [':'] + b;
      assert ([':'] + b)[1..] == b;
    } else {
      var s := a + ":" + b;
      assert s[0] == a[0] && s[1..] == a[1..] + ":" + b;
      SplitJoin(a[1..], b);
      assert [a[0]] + a[1..] == a;
    }
  }

  lemma SexagesimalTwo(a: string, b: string)
    requires AllDigits(a) && AllDigits(b)
    ensures Sexagesimal([a, b]) == DecimalValue(a) * 60 + DecimalValue(b)
  {
    assert [a, b][..1] == [a] && [a][..0] == [];
    assert Sexagesimal([a]) == Sexagesimal([]) * 60 + DecimalValue(a);
  }

  lemma SexagesimalThree(a: string, b: string, c: string)
    requires AllDigits(a) && AllDigits(b) && AllDigits(c)
    ensures Sexagesimal([a, b, c]) == (DecimalValue(a) * 60 + DecimalValue(b)) * 60 + DecimalValue(c)
  {
    assert [a, b, c][..2] == [a, b];
    SexagesimalTwo(a, b);
  }

  lemma SplitTwo(a: string, b: string)
    requires AllDigits(a) && AllDigits(b)
    ensures SplitColons(a + ":" + b) == [a, b]
  {
    SplitDigits(b);
    SplitJoin(a, b);
  }

  lemma SplitThree(a: string, b: string, c: string)
    requires AllDigits(a) && AllDigits(b) && AllDigits(c)
    ensures SplitColons(a + ":" + b + ":" + c) == [a, b, c]
  {
    assert a + ":" + b + ":" + c == a + ":" + (b + ":" + c);
    SplitTwo(b, c);
    SplitJoin(a, b + ":" + c);
  }

  /** A text whose fields are all digits reads back as those fields in base 60. */
  lemma ParseFields(s: string, f: seq<string>)
    requires SplitColons(s) == f
    requires forall i :: 0 <= i < |f| ==> AllDigits(f[i])
    ensures ParseClock(s) == Some(Sexagesimal(f))
  {
  }

  /** Two digit fields joined by ':' read back in base 60. */
  lemma ParseTwo(a: string, b: string)
    requires AllDigits(a) && AllDigits(b)
    ensures ParseClock(a + ":" + b).Some?
    ensures ParseClock(a + ":" + b).value == DecimalValue(a) * 60 + DecimalValue(b)
  {
    var s, f := a + ":" + b, [a, b];
    SplitTwo(a, b);
    assert forall i :: 0 <= i < |f| ==> AllDigits(f[i]);
    ParseFields(s, f);
    SexagesimalTwo(a, b);
  }

  /** Three digit fields joined by ':' read back in base 60. */
  lemma ParseThree(a: string, b: string, c: string)
    requires AllDigits(a) && AllDigits(b) && AllDigits(c)
    ensures ParseClock(a + ":" + b + ":" + c).Some?
    ensures ParseClock(a + ":" + b + ":" + c).value == (DecimalValue(a) * 60 + DecimalValue(b)) * 60 + DecimalValue(c)
  {
    var s, f := a + ":" + b + ":" + c, [a, b, c];
    SplitThree(a, b, c);
    assert forall i :: 0 <= i < |f| ==> AllDigits(f[i]);
    ParseFields(s, f);
    SexagesimalThree(a, b, c);
  }

  /** The hours, minutes and seconds `formatTime` shows make up the given seconds,
      with minutes and seconds below 60. */
  lemma ClockDecomposition(seconds: nat)
    ensures var h, m, s := seconds / 3600, (seconds % 3600) / 60, seconds % 60;
            seconds == h * 3600 + m * 60 + s == (h * 60 + m) * 60 + s && m < 60 && s < 60
  {
    var r := seconds % 3600;
    assert seconds == (seconds / 3600) * 3600 + r;
    assert r == (r / 60) * 60 + r % 60;
    assert r % 60 == seconds % 60;
  }

  /** The clock text splits into its hour (when there is one), minute and second fields. */
  lemma ClockTextFields(h: nat, m: nat, s: nat)
    ensures SplitColons(ClockText(h, m, s))
            == if h > 0 then [NatToString(h), Field(m, true), Field(s, true)] else [Field(m, false), Field(s, true)]
  {
    var fm, fs := Field(m, h > 0), Field(s, true);
    if h > 0 {
      var fh := NatToString(h);
      assert ClockText(h, m, s) == fh + ":" + fm + ":" + fs;
      SplitThree(fh, fm, fs);
    } else {
      assert ClockText(h, m, s) == fm + ":" + fs;
      SplitTwo(fm, fs);
    }
  }

  /** The clock text reads back, in base 60, as the time it shows. */
  lemma ClockTextRoundTrip(h: nat, m: nat, s: nat)
    ensures ParseClock(ClockText(h, m, s)) == Some((h * 60 + m) * 60 + s)
  {
    var fm, fs := Field(m, h > 0), Field(s, true);
    if h > 0 {
      var fh := NatToString(h);
      NatToStringValue(h);
      assert ClockText(h, m, s) == fh + ":" + fm + ":" + fs;
      ParseThree(fh, fm, fs);
    } else {
      assert ClockText(h, m, s) == fm + ":" + fs;
      ParseTwo(fm, fs);
    }
  }

  /** The clock text reads back as the number of seconds it was made from. */
  lemma FormatTimeRoundTrip(seconds: nat)
    ensures ParseClock(FormatTime(seconds)) == Some(seconds)
  {
    ClockDecomposition(seconds);
    ClockTextRoundTrip(seconds / 3600, (seconds % 3600) / 60, seconds % 60);
  }

  /** The seconds field is always two digits after a ':', and the hours field and
      its ':' appear exactly when there is at least an hour. */
  lemma FormatTimeShape(seconds: nat)
    ensures var r := FormatTime(seconds);
            && |r| >= 4 && r[|r| - 3] == ':' && IsDigit(r[|r| - 2]) && IsDigit(r[|r| - 1])
            && |SplitColons(r)| == (if seconds >= 3600 then 3 else 2)
            && (seconds >= 3600 ==> |SplitColons(r)[1]| == 2)
  {
    var h, m, s := seconds / 3600, (seconds % 3600) / 60, seconds % 60;
    ClockDecomposition(seconds);
    ClockTextFields(h, m, s);
    var fs := Field(s, true);
    var r := ClockText(h, m, s);
    var pre := (if h > 0 then NatToString(h) + ":" else "") + Field(m, h > 0);
    assert r == pre + ":" + fs;
    assert |fs| == 2;
    assert r[|r| - 3] == ':' && r[|r| - 2] == fs[0] && r[|r| - 1] == fs[1];
  }

  /** A single-digit field, padded and not. */
  lemma FieldOneDigit(n: nat, pad: bool)
    requires n < 10
    ensures Field(n, pad) == if pad then ['0', DigitChar(n)] else [DigitChar(n)]
  {
  }

  /** A two-digit field. */
  lemma FieldTwoDigits(n: nat, pad: bool)
    requires 10 <= n < 100
    ensures Field(n, pad) == [DigitChar(n / 10), DigitChar(n % 10)]
  {
    assert NatToString(n / 10) == [DigitChar(n / 10)];
  }

  lemma ClockTextUnderMinute()
    ensures ClockText(0, 0, 59) == "0:59"
  {
    FieldOneDigit(0, false);
    FieldTwoDigits(59, true);
    assert DigitChar(0) == '0' && DigitChar(5) == '5' && DigitChar(9) == '9';
  }

  lemma ClockTextOverHour()
    ensures ClockText(1, 2, 5) == "1:02:05"
  {
    FieldOneDigit(2, true);
    FieldOneDigit(5, true);
    assert NatToString(1) == [DigitChar(1)];
    assert DigitChar(1) == '1' && DigitChar(2) == '2' && DigitChar(5) == '5';
  }

  /** 59 seconds show as "0:59", and 3725 seconds as "1:02:05". */
  lemma FormatTimeExamples()
    ensures FormatTime(59) == "0:59"
    ensures FormatTime(3725) == "1:02:05"
  {
    ClockTextUnderMinute();
    ClockTextOverHour();
    assert 59 / 3600 == 0 && (59 % 3600) / 60 == 0 && 59 % 60 == 59;
    assert 3725 / 3600 == 1 && (3725 % 3600) / 60 == 2 && 3725 % 60 == 5;
  }
}
