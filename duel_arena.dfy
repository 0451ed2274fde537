/** The duel page's own logic: the `mm:ss` clock formatter, the 15-minute
    countdown that auto-submits once at expiry, and the mapping from a
    submission's outcome to the status message shown. */
module DuelArena {
  import opened Wrappers
  import opened Strings

  // ---------------------------------------------------------------------------
  // formatTime
  // ---------------------------------------------------------------------------

  /** `padStart(2, "0")` */
  function PadStart2(s: string): string
  {
    if |s| >= 2 then s else seq(2 - |s|, _ => '0') + s
  }

  /** `formatTime(seconds)` for a non-negative whole number of seconds. */
  function FormatTime(seconds: nat): string
  {
    PadStart2(Decimal(seconds / 60)) + ":" + PadStart2(Decimal(seconds % 60))
  }

  /** Reads `m:ss` back: digits before the colon, exactly two digits below 60 after it. */
  function ParseClock(t: string): Option<nat>
  {
    var i := IndexOf(t, ':');
    if 0 < i < |t| && AllDigits(t[..i]) && |t| - i - 1 == 2 && AllDigits(t[i + 1..])
       && ParseDecimal(t[i + 1..]) < 60
    then Some(60 * ParseDecimal(t[..i]) + ParseDecimal(t[i + 1..]))
    else None
  }

  /** Padding keeps the digits and their value and widens to at least two. */
  lemma PadKeepsValue(s: string)
    requires 1 <= |s| && AllDigits(s)
    ensures AllDigits(PadStart2(s))
    ensures ParseDecimal(PadStart2(s)) == ParseDecimal(s)
    ensures |PadStart2(s)| == if |s| >= 2 then |s| else 2
  {
    if |s| < 2 {
      ParseLeadingZero(s);
    }
  }

  /** The minutes field: the padded decimal of the whole minutes. */
  function MinutesField(seconds: nat): string { PadStart2(Decimal(seconds / 60)) }

  /** The seconds field: the padded decimal of the remaining seconds. */
  function SecondsField(seconds: nat): string { PadStart2(Decimal(seconds % 60)) }

  /** The formatted text is the minutes field, a colon and a two-digit
      seconds field in `00..59`. */
  lemma FieldsOfFormatTime(seconds: nat)
    ensures FormatTime(seconds) == MinutesField(seconds) + [':'] + SecondsField(seconds)
    ensures AllDigits(MinutesField(seconds)) && |MinutesField(seconds)| >= 2
    ensures ParseDecimal(MinutesField(seconds)) == seconds / 60
    ensures |SecondsField(seconds)| == 2 && AllDigits(SecondsField(seconds))
    ensures ParseDecimal(SecondsField(seconds)) == seconds % 60
    ensures '0' <= SecondsField(seconds)[0] <= '5'
  {
    DecimalRoundTrip(seconds / 60);
    DecimalRoundTrip(seconds % 60);
    PadKeepsValue(Decimal(seconds / 60));
    PadKeepsValue(Decimal(seconds % 60));
    var sec := SecondsField(seconds);
    assert ParseDecimal(sec) == ParseDecimal(sec[..1]) * 10 + DigitValue(sec[1]);
    assert sec[..1][..0] == [];
    assert ParseDecimal(sec[..1]) == DigitValue(sec[0]);
  }

  /** Parsing the formatted text gives the seconds back, for every input:
      the minutes field is padded but never cut. */
  lemma FormatTimeRoundTrip(seconds: nat)
    ensures ParseClock(FormatTime(seconds)) == Some(seconds)
  {
    FieldsOfFormatTime(seconds);
    var m, sec := MinutesField(seconds), SecondsField(seconds);
    var t := FormatTime(seconds);
    assert forall i :: 0 <= i < |m| ==> m[i] != ':';
    IndexOfAfter(m, ':', sec);
    assert t[..|m|] == m;
    assert t[|m| + 1..] == sec;
  }

  /** Below 6000 seconds the text is `mm:ss`: five characters, colon in the middle. */
  lemma FormatTimeShape(seconds: nat)
    requires seconds < 6000
    ensures |FormatTime(seconds)| == 5 && FormatTime(seconds)[2] == ':'
  {
    FieldsOfFormatTime(seconds);
    DecimalRoundTrip(seconds / 60);
  }

  /** From 6000 seconds the minutes field has all its digits, three or more. */
  lemma MinutesNotTruncated(seconds: nat)
    requires seconds >= 6000
    ensures MinutesField(seconds) == Decimal(seconds / 60)
    ensures |MinutesField(seconds)| >= 3
  {
    DecimalRoundTrip(seconds / 60);
  }

  /** The starting display. */
  lemma FifteenMinutes()
    ensures FormatTime(900) == "15:00"
  {
  }

  // ---------------------------------------------------------------------------
  // The countdown
  // ---------------------------------------------------------------------------

  /** 15 minutes, in seconds. */
  const Duration: nat := 15 * 60

  /** The countdown: seconds left, whether the interval is still live, and how
      many times expiry has triggered the automatic submission. */
  datatype Clock = Clock(timeLeft: int, live: bool, autoSubmits: nat)

  /** The state right after the page mounts: the interval starts at once. */
  const Mounted := Clock(Duration, true, 0)

  /** One firing of the interval: at one second or less, clear the interval,
      submit and show 0; otherwise count down by one. */
  function ArenaTick(c: Clock): (r: Clock)
    requires c.live
    ensures r.timeLeft >= 0
    ensures r.autoSubmits == c.autoSubmits + (if c.timeLeft <= 1 then 1 else 0)
    ensures r.live <==> c.timeLeft > 1
  {
    if c.timeLeft <= 1 then Clock(0, false, c.autoSubmits + 1)
    else Clock(c.timeLeft - 1, true, c.autoSubmits)
  }

  /** `k` seconds of wall time. */
  function ArenaRun(c: Clock, k: nat): Clock
    decreases k
  {
    if k == 0 || !c.live then c else ArenaRun(ArenaTick(c), k - 1)
  }

  lemma {:induction false} ArenaCountdown(n: int, a: nat, k: nat)
    requires n >= 1
    ensures ArenaRun(Clock(n, true, a), k) ==
      if k < n then Clock(n - k, true, a) else Clock(0, false, a + 1)
    decreases k
  {
    if k > 0 {
      if n == 1 {
        assert ArenaRun(Clock(1, true, a), k) == ArenaRun(Clock(0, false, a + 1), k - 1);
      } else {
        ArenaCountdown(n - 1, a, k - 1);
      }
    }
  }

  /** From mount, the display counts down from 900 and the code is submitted
      automatically exactly once, at the 900th second; no tick runs afterwards. */
  lemma AutoSubmitExactlyOnce(k: nat)
    ensures ArenaRun(Mounted, k).autoSubmits == if k < Duration then 0 else 1
    ensures ArenaRun(Mounted, k).timeLeft == if k < Duration then Duration - k else 0
    ensures ArenaRun(Mounted, k).live <==> k < Duration
  {
    ArenaCountdown(Duration, 0, k);
  }

  // ---------------------------------------------------------------------------
  // The submission outcome
  // ---------------------------------------------------------------------------

  /** How the submit request settled: a response whose `correct` field may be
      true, false or absent, or a thrown error. */
  datatype SubmitOutcome = Answered(correct: Option<bool>) | Threw

  const CorrectMessage := "\U{2705} Correct! Proceed to the next question."
  const IncorrectMessage := "\U{274C} Incorrect. Try again."
  const FailedMessage := "\U{274C} Submission failed. Please try again."

  /** The status line for an outcome; an absent `correct` is falsy. */
  function SubmissionMessage(o: SubmitOutcome): (m: string)
    ensures m == CorrectMessage || m == IncorrectMessage || m == FailedMessage
    ensures m == CorrectMessage <==> o == Answered(Some(true))
    ensures m == FailedMessage <==> o == Threw
  {
    match o
    case Threw => FailedMessage
    case Answered(correct) => if correct == Some(true) then CorrectMessage else IncorrectMessage
  }

  /** The page's countdown and status line. */
  class Arena {
    var timeLeft: int
    var live: bool
    ghost var autoSubmits: nat
    var submissionStatus: string

    ghost function State(): Clock
      reads this
    {
      Clock(timeLeft, live, autoSubmits)
    }

    /** Mounting: 900 seconds, the interval started, no status yet. */
    constructor ()
      ensures State() == Mounted && submissionStatus == ""
    {
      timeLeft := Duration;
      live := true;
      autoSubmits := 0;
      submissionStatus := "";
    }

    /** The interval callback; `submit` says whether it fires the automatic submission. */
    method OnTick() returns (submit: bool)
      requires live
      modifies this
      ensures State() == ArenaTick(old(State()))
      ensures submit <==> old(timeLeft) <= 1
      ensures submissionStatus == old(submissionStatus)
    {
      if timeLeft <= 1 {
        live := false;
        autoSubmits := autoSubmits + 1;
        timeLeft := 0;
        submit := true;
      } else {
        timeLeft := timeLeft - 1;
        submit := false;
      }
    }

    /** A submission, manual or automatic, settles. */
    method OnSubmitSettled(o: SubmitOutcome)
      modifies this
      ensures submissionStatus == SubmissionMessage(o)
      ensures State() == old(State())
    {
      match o
      case Threw =>
        submissionStatus := FailedMessage;
      case Answered(correct) =>
        if correct == Some(true) {
          submissionStatus := CorrectMessage;
        } else {
          submissionStatus := IncorrectMessage;
        }
    }

    /** The effect cleanup on unmount clears the interval. */
    method Unmount()
      modifies this
      ensures State() == Clock(old(timeLeft), false, old(autoSubmits))
      ensures submissionStatus == old(submissionStatus)
    {
      live := false;
    }

    /** What the timer line shows. */
    method Display() returns (text: string)
      requires timeLeft >= 0
      ensures text == FormatTime(timeLeft)
      ensures ParseClock(text) == Some(timeLeft)
    {
      text := FormatTime(timeLeft);
      FormatTimeRoundTrip(timeLeft);
    }
  }
}
