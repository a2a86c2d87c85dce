/**
 * The tracking screen of components/GoalTracker.tsx: the countdown display,
 * the gating of the prove button, and the proof submission. Each async
 * handler is split at its await; the file encoder `read` and the model
 * `generate` are inputs.
 */
module GoalTrackerComponent {
  import opened Wrappers
  import opened Text
  import opened Browser
  import opened Types
  import opened Countdown
  import opened Gemini

  const VerificationFailedError := "Verification failed. The AI could not confirm your goal completion. Please try again with a clearer image."
  const ReadError := "Could not read the image. Please try again."

  /** `String(value).padStart(2, '0')` in CountdownSegment. */
  function Segment(value: int): string {
    PadStart(NumberString(value), 2, '0')
  }

  /**
   * A segment is at least two digits; a value of 10 or more is shown as is,
   * a smaller one behind a '0', and the digits always read back as the value.
   */
  lemma SegmentPadding(value: int)
    requires value >= 0
    ensures |Segment(value)| >= 2
    ensures value >= 10 ==> Segment(value) == DecimalString(value)
    ensures value < 10 ==> Segment(value) == ['0', DigitChar(value)]
    ensures forall i :: 0 <= i < |Segment(value)| ==> IsDigit(Segment(value)[i])
    ensures DigitsValue(Segment(value)) == value
  {
    DecimalStringValue(value);
    if value < 10 {
      assert Segment(value) == ['0'] + [DigitChar(value)];
      LeadingZeroValue([DigitChar(value)]);
    }
  }

  /** The "Time Remaining" panel: "Time's Up!", or the four segments. */
  datatype Clock = TimesUp | Segments(days: string, hours: string, minutes: string, seconds: string)

  function ClockFace(t: TimeLeft): Clock {
    if t.isOver then TimesUp
    else Segments(Segment(t.days), Segment(t.hours), Segment(t.minutes), Segment(t.seconds))
  }

  /** Below the panel: the spinner while verifying, otherwise the prove button, disabled once time is up. */
  datatype Controls = Spinner | ProveButton(disabled: bool)

  function ControlsFor(isLoading: bool, isOver: bool): Controls {
    if isLoading then Spinner else ProveButton(isOver)
  }

  /** From the deadline on, the panel says "Time's Up!" and the prove button is disabled. */
  lemma ExpiredTracker(deadline: int, now: int)
    requires now >= deadline
    ensures ClockFace(CalculateTimeLeft(deadline, now)) == TimesUp
    ensures ControlsFor(false, CalculateTimeLeft(deadline, now).isOver) == ProveButton(true)
  {
  }

  /**
   * Before the deadline the button is enabled and the panel shows the
   * countdown fields, hours, minutes and seconds as exactly two digits each.
   */
  lemma RunningTracker(deadline: int, now: int)
    requires now < deadline
    ensures ControlsFor(false, CalculateTimeLeft(deadline, now).isOver) == ProveButton(false)
    ensures ShowsTimeLeft(ClockFace(CalculateTimeLeft(deadline, now)), CalculateTimeLeft(deadline, now))
  {
    RunningClock(CalculateTimeLeft(deadline, now));
  }

  /** The panel shows every field of `t` in digits that read back as the field, the clock fields as two. */
  predicate ShowsTimeLeft(c: Clock, t: TimeLeft) {
    && c.Segments?
    && |c.days| >= 2 && |c.hours| == 2 && |c.minutes| == 2 && |c.seconds| == 2
    && (forall i :: 0 <= i < |c.days| ==> IsDigit(c.days[i]))
    && (forall i :: 0 <= i < 2 ==> IsDigit(c.hours[i]) && IsDigit(c.minutes[i]) && IsDigit(c.seconds[i]))
    && DigitsValue(c.days) == t.days && DigitsValue(c.hours) == t.hours
    && DigitsValue(c.minutes) == t.minutes && DigitsValue(c.seconds) == t.seconds
  }

  lemma RunningClock(t: TimeLeft)
    requires InRange(t) && !t.isOver
    ensures ShowsTimeLeft(ClockFace(t), t)
  {
    var c := ClockFace(t);
    assert c == Segments(Segment(t.days), Segment(t.hours), Segment(t.minutes), Segment(t.seconds));
    SegmentPadding(t.days);
    ClockSegment(t.hours);
    ClockSegment(t.minutes);
    ClockSegment(t.seconds);
    assert forall i :: 0 <= i < 2 ==> IsDigit(c.hours[i]) && IsDigit(c.minutes[i]) && IsDigit(c.seconds[i]);
  }

  /** A clock field below 60 is shown as exactly two digits that read back as the field. */
  lemma ClockSegment(value: int)
    requires 0 <= value < 60
    ensures |Segment(value)| == 2 && forall i :: 0 <= i < 2 ==> IsDigit(Segment(value)[i])
    ensures DigitsValue(Segment(value)) == value
  {
    SegmentPadding(value);
    if value >= 10 {
      assert DecimalString(value) == DecimalString(value / 10) + [DigitChar(value % 10)];
      assert |DecimalString(value / 10)| == 1;
    }
  }

  /** The GoalTracker component: its goal prop, its countdown, and its loading and error state. */
  class GoalTracker {
    const goal: Goal
    const countdown: CountdownHook
    var isLoading: bool
    var error: string

    constructor(goal: Goal, mountTime: int)
      ensures this.goal == goal && fresh(countdown)
      ensures countdown.timeLeft == CalculateTimeLeft(goal.deadline, mountTime)
      ensures !isLoading && error == ""
    {
      this.goal := goal;
      countdown := new CountdownHook(goal.deadline, mountTime);
      isLoading, error := false, "";
    }

    /** `handleVerificationSubmit` up to the await: loading, error cleared. */
    method BeginVerification()
      modifies this`isLoading, this`error
      ensures isLoading && error == ""
    {
      isLoading := true;
      error := "";
    }

    /** `handleVerificationSubmit` after the await: loading over; `onGoalSuccess` is called iff `success`. */
    method SettleVerification(success: bool) returns (goalAchieved: bool)
      modifies this`isLoading, this`error
      ensures !isLoading && goalAchieved == success
      ensures error == if success then old(error) else VerificationFailedError
    {
      isLoading := false;
      if success {
        goalAchieved := true;
      } else {
        error := VerificationFailedError;
        goalAchieved := false;
      }
    }

    /**
     * `handleVerificationSubmit(imageBase64)`: `goalAchieved` says whether
     * `onGoalSuccess` was called, `sent` what reached the model.
     */
    method HandleVerificationSubmit(imageBase64: string, envKey: Option<string>, generate: Request -> Reply)
      returns (goalAchieved: bool, sent: Option<Request>)
      modifies this`isLoading, this`error
      ensures goalAchieved == Confirms(envKey, goal.goal, imageBase64, generate)
      ensures !isLoading && error == if goalAchieved then "" else VerificationFailedError
      ensures sent == if Truthy(envKey) then Some(RequestFor(envKey.value, goal.goal, imageBase64)) else None
    {
      BeginVerification();
      var success;
      success, sent := VerifyGoal(envKey, goal.goal, imageBase64, generate);
      goalAchieved := SettleVerification(success);
    }

    /** `handleFileChange`: read the first picked file, then submit it. */
    method HandleFileChange(files: seq<File>, read: File -> Encoding, envKey: Option<string>, generate: Request -> Reply)
      returns (goalAchieved: bool, sent: Option<Request>)
      modifies this`isLoading, this`error
      ensures files == [] ==> !goalAchieved && sent == None && isLoading == old(isLoading) && error == old(error)
      ensures files != [] && read(files[0]).EncodeFailed? ==> !goalAchieved && sent == None && !isLoading && error == ReadError
      ensures files != [] && read(files[0]).Encoded? ==>
        && goalAchieved == Confirms(envKey, goal.goal, read(files[0]).dataUri, generate)
        && !isLoading && error == (if goalAchieved then "" else VerificationFailedError)
        && (sent.Some? <==> Truthy(envKey))
    {
      goalAchieved, sent := false, None;
      if |files| > 0 {
        match read(files[0])
        case Encoded(base64) =>
          goalAchieved, sent := HandleVerificationSubmit(base64, envKey, generate);
        case EncodeFailed =>
          error := ReadError;
          isLoading := false;
      }
    }

    /** `handleVerifyClick`: clears the error before the file picker opens. */
    method HandleVerifyClick()
      modifies this`error
      ensures error == ""
    {
      error := "";
    }
  }
}
