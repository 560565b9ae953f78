/**
 * The timed test page (frontend/src/pages/TestTaker.js): loading the test by
 * id, the answers map, the one-second countdown with automatic submission,
 * and the `m:ss` clock display.
 */
module TestTaker {
  import opened Wrappers
  import opened Text
  import opened Mcq

  // ---------------------------------------------------------------------------
  // formatTime

  /** `a % b` as JavaScript computes it: the remainder takes the sign of `a`. */
  function JsRem(a: int, b: int): (r: int)
    requires b > 0
    ensures a >= 0 ==> 0 <= r < b
    ensures a < 0 ==> -b < r <= 0
  {
    if a >= 0 then a % b else -((-a) % b)
  }

  /**
   * `formatTime(seconds)`: `Math.floor(seconds / 60)`, a colon, and
   * `seconds % 60` left-padded with '0' to two characters. (Dafny's `/` rounds
   * down when the divisor is positive, as `Math.floor` does.)
   */
  function FormatTime(seconds: int): string {
    IntToString(seconds / 60) + ":" + PadStart(IntToString(JsRem(seconds, 60)), 2, '0')
  }

  /** Reads an `m:ss` display back: the minutes, a colon, and exactly two digits of seconds. */
  function ParseTime(t: string): Option<nat> {
    match LastIndexOf(t, ':')
    case None => None
    case Some(k) => ParseFields(t[..k], t[k + 1..])
  }

  /** The value of the two fields around the colon, when both are digits and the seconds have two. */
  function ParseFields(mins: string, secs: string): Option<nat> {
    if AllDigits(mins) && AllDigits(secs) && |secs| == 2
    then Some(ParseDigits(mins) * 60 + ParseDigits(secs))
    else None
  }

  /** The seconds field of a non-negative time is two digits between "00" and "59". */
  lemma SecondsField(seconds: nat)
    ensures var f := PadStart(NatToString(seconds % 60), 2, '0');
            |f| == 2 && AllDigits(f) && ParseDigits(f) == seconds % 60 && ParseDigits(f) < 60
  {
    var s := seconds % 60;
    var digits := NatToString(s);
    ParseNatToString(s);
    if s < 10 {
      assert digits == [DigitChar(s)];
      var f := PadStart(digits, 2, '0');
      assert f == ['0'] + digits;
      assert f[..1] == ['0'];
    } else {
      assert digits == NatToString(s / 10) + [DigitChar(s % 10)];
      assert |digits| == 2;
    }
  }

  /** In `mins:secs` with digit-only fields, the only colon is the one between them. */
  lemma ColonSplits(mins: string, secs: string)
    requires AllDigits(mins) && AllDigits(secs)
    ensures var t := mins + ":" + secs;
            LastIndexOf(t, ':') == Some(|mins|) && t[..|mins|] == mins && t[|mins| + 1..] == secs
  {
    var t := mins + ":" + secs;
    var k := |mins|;
    forall j | k < j < |t| ensures t[j] != ':' {
      assert t[j] == secs[j - k - 1];
    }
    assert t[k] == ':';
  }

  /** For a non-negative time the display reads back as the same number of seconds. */
  lemma FormatTimeRoundTrip(seconds: nat)
    ensures ParseTime(FormatTime(seconds)) == Some(seconds)
  {
    var mins := NatToString(seconds / 60);
    var secs := PadStart(NatToString(seconds % 60), 2, '0');
    FormatTimeFields(seconds);
    SecondsField(seconds);
    ParseNatToString(seconds / 60);
    ReadBack(FormatTime(seconds), mins, secs, seconds);
  }

  /** A display whose fields hold the whole minutes and the remaining seconds reads back as the time. */
  lemma ReadBack(t: string, mins: string, secs: string, seconds: nat)
    requires t == mins + ":" + secs
    requires AllDigits(mins) && AllDigits(secs) && |secs| == 2
    requires ParseDigits(mins) == seconds / 60 && ParseDigits(secs) == seconds % 60
    ensures ParseTime(t) == Some(seconds)
  {
    ParseTimeOf(mins, secs);
    Recombine(seconds, ParseDigits(mins), ParseDigits(secs));
  }

  /** A non-negative time prints as its whole minutes, a colon and its padded remaining seconds. */
  lemma FormatTimeFields(seconds: nat)
    ensures FormatTime(seconds) == NatToString(seconds / 60) + ":" + PadStart(NatToString(seconds % 60), 2, '0')
  {
  }

  lemma Recombine(seconds: nat, q: nat, r: nat)
    requires q == seconds / 60 && r == seconds % 60
    ensures q * 60 + r == seconds
  {
  }

  /** A display with digit-only fields and two-digit seconds reads as minutes * 60 + seconds. */
  lemma ParseTimeOf(mins: string, secs: string)
    requires AllDigits(mins) && AllDigits(secs) && |secs| == 2
    ensures ParseTime(mins + ":" + secs) == Some(ParseDigits(mins) * 60 + ParseDigits(secs))
  {
    var t := mins + ":" + secs;
    var k := |mins|;
    ColonSplits(mins, secs);
    ParseTimeAt(t, k);
    var f := ParseFields(t[..k], t[k + 1..]);
    assert f == ParseFields(mins, secs);
    assert ParseFields(mins, secs) == Some(ParseDigits(mins) * 60 + ParseDigits(secs));
  }

  /** A display is read around its last colon. */
  lemma ParseTimeAt(t: string, k: nat)
    requires LastIndexOf(t, ':') == Some(k)
    ensures k < |t| && ParseTime(t) == ParseFields(t[..k], t[k + 1..])
  {
  }

  // ---------------------------------------------------------------------------
  // The countdown

  /** The state the countdown effect looks at: `timeLeft`, `submitted`, and whether a test is loaded. */
  datatype Clock = Clock(timeLeft: int, submitted: bool, loaded: bool)

  /**
   * One run of the countdown effect: while time is left and the test is not
   * submitted, one second passes; at zero, a loaded test is submitted.
   */
  function Tick(c: Clock): Clock {
    if c.timeLeft > 0 && !c.submitted then c.(timeLeft := c.timeLeft - 1)
    else if c.timeLeft == 0 && c.loaded && !c.submitted then c.(submitted := true)
    else c
  }

  /** `n` successive runs of the effect. */
  function Run(c: Clock, n: nat): Clock
    decreases n
  {
    if n == 0 then c else Run(Tick(c), n - 1)
  }

  /** Once submitted, nothing moves: no countdown and no way back to unsubmitted. */
  lemma {:induction false} SubmittedIsFinal(c: Clock, n: nat)
    requires c.submitted
    ensures Run(c, n) == c
    decreases n
  {
    if n > 0 {
      SubmittedIsFinal(Tick(c), n - 1);
    }
  }

  /** Before reaching zero, each tick takes exactly one second off and submits nothing. */
  lemma {:induction false} CountsDown(c: Clock, k: nat)
    requires !c.submitted && k <= c.timeLeft
    ensures Run(c, k) == c.(timeLeft := c.timeLeft - k)
    decreases k
  {
    if k > 0 {
      CountsDown(Tick(c), k - 1);
    }
  }

  /** A loaded, unsubmitted test with `t >= 0` seconds left is submitted after exactly `t + 1` ticks. */
  lemma AutoSubmit(c: Clock)
    requires c.loaded && !c.submitted && c.timeLeft >= 0
    ensures Run(c, c.timeLeft + 1) == Clock(0, true, true)
    ensures forall k: nat :: k <= c.timeLeft ==> !Run(c, k).submitted
  {
    CountsDown(c, c.timeLeft);
    var z := c.(timeLeft := 0);
    assert Run(z, 1) == Tick(z);
    RunSplit(c, c.timeLeft, 1);
    forall k: nat | k <= c.timeLeft ensures !Run(c, k).submitted {
      CountsDown(c, k);
    }
  }

  lemma {:induction false} RunSplit(c: Clock, m: nat, n: nat)
    ensures Run(c, m + n) == Run(Run(c, m), n)
    decreases m
  {
    if m > 0 {
      RunSplit(Tick(c), m - 1, n);
    }
  }

  /** Without a loaded test the countdown never submits. */
  lemma {:induction false} NoTestNeverSubmits(c: Clock, n: nat)
    requires !c.loaded && !c.submitted
    ensures !Run(c, n).submitted
    decreases n
  {
    if n > 0 {
      NoTestNeverSubmits(Tick(c), n - 1);
    }
  }

  // ---------------------------------------------------------------------------
  // The page

  /** The position of the first test at or after `k` whose id is `testId`. */
  function FindFrom(tests: seq<McqTest>, testId: string, k: nat): (r: Option<nat>)
    requires k <= |tests|
    ensures r.Some? ==> k <= r.value < |tests| && tests[r.value].id == testId
    ensures r.Some? ==> forall j :: k <= j < r.value ==> tests[j].id != testId
    ensures r.None? <==> forall j :: k <= j < |tests| ==> tests[j].id != testId
    decreases |tests| - k
  {
    if k == |tests| then None
    else if tests[k].id == testId then Some(k)
    else FindFrom(tests, testId, k + 1)
  }

  /** The first test whose id equals `testId` (`tests.find(t => t._id === testId)`). */
  function FindTest(tests: seq<McqTest>, testId: string): (r: Option<McqTest>)
    ensures r.None? <==> forall j :: 0 <= j < |tests| ==> tests[j].id != testId
    ensures r.Some? ==> r.value.id == testId && r.value in tests
    ensures r.Some? ==> exists i :: 0 <= i < |tests| && r.value == tests[i] && forall j :: 0 <= j < i ==> tests[j].id != testId
  {
    match FindFrom(tests, testId, 0)
    case None => None
    case Some(i) => Some(tests[i])
  }

  class TestTakerPage {
    const testId: string
    var test: Option<McqTest>
    var answers: map<nat, string>
    var timeLeft: int
    var submitted: bool
    var loading: bool

    constructor (testId: string)
      ensures this.testId == testId
      ensures test == None && answers == map[] && timeLeft == 0 && !submitted && loading
    {
      this.testId := testId;
      test, answers, timeLeft, submitted, loading := None, map[], 0, false, true;
    }

    function ClockState(): Clock
      reads this
    {
      Clock(timeLeft, submitted, test.Some?)
    }

    /**
     * `loadTest`: the test with the page's id is selected from the list and
     * its clock set to `timeLimit * 60` seconds; no match leaves no test.
     * Loading ends in every case.
     */
    method LoadTest(response: Outcome<seq<McqTest>>)
      modifies this`test, this`timeLeft, this`loading
      ensures !loading
      ensures response.Rejected? ==> test == old(test) && timeLeft == old(timeLeft)
      ensures response.Resolved? ==> test == FindTest(response.value, testId)
      ensures response.Resolved? && test.Some? ==> timeLeft == test.value.timeLimit * 60
      ensures response.Resolved? && test.None? ==> timeLeft == old(timeLeft)
    {
      match response {
        case Rejected(_) =>
          loading := false;
        case Resolved(tests) =>
          var found := FindTest(tests, testId);
          if found.None? {
            test := None;
            loading := false;
            return;
          }
          test := found;
          timeLeft := found.value.timeLimit * 60;
          loading := false;
      }
    }

    /** `handleAnswerChange(i, a)`: question `i` now has answer `a`; every other entry is kept. */
    method HandleAnswerChange(i: nat, a: string)
      modifies this`answers
      ensures i in answers && answers[i] == a
      ensures answers.Keys == old(answers).Keys + {i}
      ensures forall j :: j in old(answers) && j != i ==> answers[j] == old(answers)[j]
    {
      answers := answers[i := a];
    }

    /** `handleSubmit` */
    method HandleSubmit()
      modifies this`submitted
      ensures submitted
    {
      submitted := true;
    }

    /** One run of the countdown effect on the page state. */
    method Step()
      modifies this`timeLeft, this`submitted
      ensures ClockState() == Tick(old(ClockState()))
      ensures old(submitted) ==> submitted && timeLeft == old(timeLeft)
    {
      if timeLeft > 0 && !submitted {
        timeLeft := timeLeft - 1;
      } else if timeLeft == 0 && test.Some? && !submitted {
        HandleSubmit();
      }
    }
  }
}
