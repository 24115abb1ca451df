/**
 * The focus timer: a countdown of `durationMinutes * 60` seconds that is started and
 * paused by a toggle, restored by reset, and shown as `mm:ss`.
 */
module FocusTimer {

  const DEFAULT_DURATION_MINUTES: int := 25
  const SECONDS_PER_MINUTE: int := 60

  /** `Number.MAX_SAFE_INTEGER`, 2^53 - 1: up to here a JavaScript number holds every integer
      exactly and `toString` prints it in plain digits. */
  const MAX_SAFE_INTEGER: int := 9007199254740991

  // ---------------------------------------------------------------- mm:ss

  predicate IsDigit(c: char)
  {
    '0' <= c <= '9'
  }

  predicate AllDigits(s: string)
  {
    forall i :: 0 <= i < |s| ==> IsDigit(s[i])
  }

  function DigitValue(c: char): nat
    requires IsDigit(c)
  {
    c as int - '0' as int
  }

  function DigitChar(d: nat): (c: char)
    requires d < 10
    ensures IsDigit(c) && DigitValue(c) == d
  {
    ('0' as int + d) as char
  }

  /** The number a string of decimal digits denotes (leading zeros allowed). */
  function ValueOf(s: string): nat
    requires AllDigits(s)
    decreases |s|
  {
    if s == [] then 0 else ValueOf(s[..|s| - 1]) * 10 + DigitValue(s[|s| - 1])
  }

  /** `n.toString()` for a non-negative integer: its decimal digits, no leading zero. */
  function Decimal(n: nat): (s: string)
    ensures 1 <= |s| && AllDigits(s)
    ensures n < 10 <==> |s| == 1
    ensures n < 100 ==> |s| <= 2
    ensures |s| > 1 ==> s[0] != '0'
    decreases n
  {
    if n < 10 then [DigitChar(n)] else Decimal(n / 10) + [DigitChar(n % 10)]
  }

  /** `i.toString()` for any integer. */
  function IntToString(i: int): string
  {
    if i < 0 then "-" + Decimal(-i) else Decimal(i)
  }

  function Zeros(k: nat): (z: string)
    ensures |z| == k && AllDigits(z)
  {
    seq(k, _ => '0')
  }

  /** `s.padStart(2, '0')` */
  function PadStart2(s: string): (r: string)
    ensures |r| == if |s| >= 2 then |s| else 2
    ensures r == Zeros(|r| - |s|) + s
    decreases 2 - |s|
  {
    if |s| >= 2 then s else PadStart2("0" + s)
  }

  /** JavaScript's `%`, whose result takes the sign of the dividend. */
  function JsRem(a: int, b: int): (r: int)
    requires b > 0
    ensures a >= 0 ==> 0 <= r < b && r == a % b
    ensures a < 0 ==> -b < r <= 0 && r == -((-a) % b)
  {
    if a >= 0 then a % b else -((-a) % b)
  }

  /** formatTime: `Math.floor(s / 60)` and `s % 60`, each padded to two digits. */
  function FormatTime(seconds: int): (t: string)
    ensures |t| >= 5
    ensures seconds >= 0 ==> t[|t| - 3] == ':'
  {
    PadStart2(IntToString(seconds / SECONDS_PER_MINUTE)) + ":" +
    PadStart2(IntToString(JsRem(seconds, SECONDS_PER_MINUTE)))
  }

  /** The digits of a safe integer read back as that integer. */
  lemma {:induction false} DecimalValue(n: nat)
    requires n <= MAX_SAFE_INTEGER
    ensures ValueOf(Decimal(n)) == n
    decreases n
  {
    if n >= 10 {
      DecimalValue(n / 10);
      var s := Decimal(n);
      assert s[..|s| - 1] == Decimal(n / 10);
    }
  }

  lemma {:induction false} LeadingZerosDoNotCount(k: nat, s: string)
    requires AllDigits(s)
    ensures AllDigits(Zeros(k) + s) && ValueOf(Zeros(k) + s) == ValueOf(s)
    decreases k + |s|
  {
    var z := Zeros(k) + s;
    if s == [] {
      if k > 0 {
        assert z[..|z| - 1] == Zeros(k - 1) + [];
        LeadingZerosDoNotCount(k - 1, []);
        assert Zeros(k - 1) + [] == Zeros(k - 1);
      }
    } else {
      var init := s[..|s| - 1];
      assert z[..|z| - 1] == Zeros(k) + init;
      LeadingZerosDoNotCount(k, init);
    }
  }

  /** A padded field of a non-negative safe integer reads back as that integer. */
  lemma PaddedFieldValue(n: nat)
    requires n <= MAX_SAFE_INTEGER
    ensures AllDigits(PadStart2(Decimal(n))) && ValueOf(PadStart2(Decimal(n))) == n
  {
    var d := Decimal(n);
    LeadingZerosDoNotCount(|PadStart2(d)| - |d|, d);
    DecimalValue(n);
  }

  /** A padded field has at least two characters, and exactly two below 100. */
  lemma PaddedFieldWidth(n: nat)
    ensures |PadStart2(Decimal(n))| >= 2
    ensures n < 100 ==> |PadStart2(Decimal(n))| == 2
  {
  }

  /** The minutes field of an `m:ss` text: everything before the colon. */
  function MinutesField(t: string): string
    requires |t| >= 3
  {
    t[..|t| - 3]
  }

  /** The seconds field of an `m:ss` text: its last two characters. */
  function SecondsField(t: string): string
    requires |t| >= 3
  {
    t[|t| - 2..]
  }

  /** Joining two fields with a colon and splitting them again gives the fields back. */
  lemma FieldsSplit(t: string, m: string, c: string)
    requires |c| == 2 && t == m + ":" + c
    ensures |t| == |m| + 3 && t[|t| - 3] == ':'
    ensures MinutesField(t) == m && SecondsField(t) == c
  {
    assert t[..|t| - 3] == m;
    assert t[|t| - 2..] == c;
  }

  /** For a non-negative count the sign branch of `toString` is never taken. */
  lemma FormatTimeOfNatural(s: int)
    requires s >= 0
    ensures s / SECONDS_PER_MINUTE >= 0 && 0 <= JsRem(s, SECONDS_PER_MINUTE) < SECONDS_PER_MINUTE
    ensures s / SECONDS_PER_MINUTE <= s
    ensures s / SECONDS_PER_MINUTE * SECONDS_PER_MINUTE + JsRem(s, SECONDS_PER_MINUTE) == s
    ensures FormatTime(s) == PadStart2(Decimal(s / SECONDS_PER_MINUTE)) + ":"
                             + PadStart2(Decimal(JsRem(s, SECONDS_PER_MINUTE)))
  {
  }

  /** Both fields of a safe count read back as its minutes and its seconds. */
  lemma FieldsReadBack(s: int)
    requires 0 <= s <= MAX_SAFE_INTEGER
    ensures s / SECONDS_PER_MINUTE >= 0 && 0 <= JsRem(s, SECONDS_PER_MINUTE) < SECONDS_PER_MINUTE
    ensures AllDigits(PadStart2(Decimal(s / SECONDS_PER_MINUTE)))
    ensures ValueOf(PadStart2(Decimal(s / SECONDS_PER_MINUTE))) == s / SECONDS_PER_MINUTE
    ensures AllDigits(PadStart2(Decimal(JsRem(s, SECONDS_PER_MINUTE))))
    ensures ValueOf(PadStart2(Decimal(JsRem(s, SECONDS_PER_MINUTE)))) == JsRem(s, SECONDS_PER_MINUTE)
  {
    FormatTimeOfNatural(s);
    PaddedFieldValue(s / SECONDS_PER_MINUTE);
    PaddedFieldValue(JsRem(s, SECONDS_PER_MINUTE));
  }

  /** formatTime round trip: for a count that is a non-negative safe integer the text is a
      minutes field of at least two digits, ':', and two digits of seconds; read back,
      minutes * 60 + seconds == s with seconds below 60. */
  lemma FormatTimeRoundTrip(s: int)
    requires 0 <= s <= MAX_SAFE_INTEGER
    ensures |FormatTime(s)| >= 5 && FormatTime(s)[|FormatTime(s)| - 3] == ':'
    ensures AllDigits(MinutesField(FormatTime(s))) && AllDigits(SecondsField(FormatTime(s)))
    ensures ValueOf(SecondsField(FormatTime(s))) < SECONDS_PER_MINUTE
    ensures ValueOf(MinutesField(FormatTime(s))) * SECONDS_PER_MINUTE
            + ValueOf(SecondsField(FormatTime(s))) == s
  {
    FormatTimeOfNatural(s);
    var mins := s / SECONDS_PER_MINUTE;
    var secs := JsRem(s, SECONDS_PER_MINUTE);
    var m := PadStart2(Decimal(mins));
    var c := PadStart2(Decimal(secs));
    PaddedFieldWidth(mins);
    PaddedFieldWidth(secs);
    FieldsReadBack(s);
    var t := FormatTime(s);
    FieldsSplit(t, m, c);
    assert ValueOf(MinutesField(t)) == mins && ValueOf(SecondsField(t)) == secs;
  }

  /** Below 100 minutes the text is exactly five characters, `mm:ss`. */
  lemma FormatTimeWidth(s: int)
    requires 0 <= s < 100 * SECONDS_PER_MINUTE
    ensures |FormatTime(s)| == 5 && FormatTime(s)[2] == ':'
  {
    FormatTimeOfNatural(s);
    var mins := s / SECONDS_PER_MINUTE;
    var secs := JsRem(s, SECONDS_PER_MINUTE);
    PaddedFieldWidth(mins);
    PaddedFieldWidth(secs);
    FieldsSplit(FormatTime(s), PadStart2(Decimal(mins)), PadStart2(Decimal(secs)));
  }

  /** The default timer starts by showing 25:00. */
  lemma DefaultStartShows2500()
    ensures FormatTime(DEFAULT_DURATION_MINUTES * SECONDS_PER_MINUTE) == "25:00"
  {
    assert Decimal(25) == "25";
    assert Decimal(0) == "0";
  }

  // ---------------------------------------------------------------- countdown state

  /** The component's state: seconds left, running or not, and how often the completion
      callback has fired. */
  class Timer {
    const durationMinutes: int
    var timeLeft: int
    var isActive: bool
    var completions: nat

    /** The count never leaves [0, duration]; a negative duration never counts at all. */
    ghost predicate Valid()
      reads this
    {
      if durationMinutes >= 0 then 0 <= timeLeft <= durationMinutes * SECONDS_PER_MINUTE
      else timeLeft == durationMinutes * SECONDS_PER_MINUTE
    }

    constructor (durationMinutes: int)
      ensures Valid()
      ensures this.durationMinutes == durationMinutes
      ensures timeLeft == durationMinutes * SECONDS_PER_MINUTE && !isActive && completions == 0
    {
      this.durationMinutes := durationMinutes;
      timeLeft := durationMinutes * SECONDS_PER_MINUTE;
      isActive := false;
      completions := 0;
    }

    /** One run of the effect: while running with time left, one interval elapses and the
        count drops by one; at zero the timer stops and the completion callback fires. */
    method Tick()
      requires Valid()
      modifies this
      ensures Valid()
      ensures old(isActive) && old(timeLeft) > 0 ==>
                timeLeft == old(timeLeft) - 1 && isActive && completions == old(completions)
      ensures !(old(isActive) && old(timeLeft) > 0) && old(timeLeft) == 0 ==>
                timeLeft == 0 && !isActive && completions == old(completions) + 1
      ensures !(old(isActive) && old(timeLeft) > 0) && old(timeLeft) != 0 ==>
                timeLeft == old(timeLeft) && isActive == old(isActive) && completions == old(completions)
    {
      if isActive && timeLeft > 0 {
        timeLeft := timeLeft - 1;
      } else if timeLeft == 0 {
        isActive := false;
        completions := completions + 1;
      }
    }

    /** toggleTimer: flips running/paused and nothing else. */
    method Toggle()
      requires Valid()
      modifies this
      ensures Valid()
      ensures isActive == !old(isActive) && timeLeft == old(timeLeft) && completions == old(completions)
    {
      isActive := !isActive;
    }

    /** resetTimer: stopped, with the full duration back. */
    method Reset()
      requires Valid()
      modifies this
      ensures Valid()
      ensures !isActive && timeLeft == durationMinutes * SECONDS_PER_MINUTE && completions == old(completions)
    {
      isActive := false;
      timeLeft := durationMinutes * SECONDS_PER_MINUTE;
    }
  }

  /** A started timer of `minutes` runs down in exactly `minutes * 60` ticks without firing,
      and the next run stops it and fires the completion callback. Stopping changes
      `isActive`, one of the effect's dependencies, so the effect runs once more and, the count
      still being 0, fires the callback a second time. */
  method RunToCompletion(minutes: nat) returns (ticks: nat, left: int, active: bool, fired: nat, refired: nat)
    ensures ticks == minutes * SECONDS_PER_MINUTE + 1
    ensures left == 0 && !active && fired == 1
    ensures refired == 2
  {
    var timer := new Timer(minutes);
    timer.Toggle();
    ticks := 0;
    while timer.timeLeft > 0
      invariant timer.Valid() && timer.durationMinutes == minutes
      invariant timer.isActive && timer.completions == 0
      invariant timer.timeLeft + ticks == minutes * SECONDS_PER_MINUTE
      decreases timer.timeLeft
    {
      timer.Tick();
      ticks := ticks + 1;
    }
    timer.Tick();
    ticks := ticks + 1;
    left, active, fired := timer.timeLeft, timer.isActive, timer.completions;
    timer.Tick();
    refired := timer.completions;
  }
}
