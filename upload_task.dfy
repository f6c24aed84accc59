/** The self-cancelling upload task that the share handler schedules every
    500 ms: it waits for the rendered image, uploads it at most three times and
    stops itself on success, at the period after the third attempt, or once
    more than 30 seconds have passed.

    The task is modelled twice: `Step` is the pure transition of one call of
    `run`, and the class `UploadTask` holds the same state in fields that its
    `Run` method updates in place.  The scheduler that calls `run` is modelled
    by `Tick` (a cancelled task is not called again) and `Ticks` (a sequence of
    scheduler periods). */
module UploadTasks {
  import opened Common

  /** `run` gives up once more than this many milliseconds have passed. */
  const TIMEOUT_MS: int := 30000
  /** `run` gives up before a fourth upload attempt. */
  const MAX_UPLOADS: int := 3
  /** The fixed rate at which the share handler schedules the task. */
  const PERIOD_MS: int := 500

  /** The task's view of its `ScheduledFuture`: not yet handed over by
      `setFuture` (the field is still null), live, or cancelled. */
  datatype Future = Unset | Live | Cancelled

  datatype Task = Task(
    fileName: string,
    suffix: string,
    startTime: int,
    uploadTimes: int,
    future: Future)

  /** The state right after `new UploadTask(fileName, suffix)` at time `now`. */
  function NewTask(fileName: string, suffix: string, now: int): Task {
    Task(fileName, suffix, now, 0, Unset)
  }

  /** The response body of an upload as the task reads it: not parsable to a
      JSON object (`parseObject` gives null), or an object with an optional
      `code` entry. */
  datatype Body = NotJson | Json(code: Option<Value>)

  /** What the upload call does: it answers with a body or throws
      `QiniuException`. */
  datatype UploadOutcome = Responded(body: Body) | QiniuFailure

  /** The success test of the task: the body is a JSON object whose `code` is
      the string "0" (a numeric code is not equal to the string "0"). */
  predicate UploadSucceeded(o: UploadOutcome): (r: bool)
    ensures r ==> o == Responded(Json(Some(StrVal("0"))))
    ensures o == Responded(Json(Some(StrVal("0")))) ==> r
    ensures o == QiniuFailure || o == Responded(NotJson) || o == Responded(Json(None)) ==> !r
    ensures forall i :: o == Responded(Json(Some(IntVal(i)))) ==> !r
  {
    o.Responded? && o.body.Json? && o.body.code == Some(StrVal("0"))
  }

  /** What one scheduler period supplies: the clock, whether the rendered file
      exists, and what the upload would return if one is made. */
  datatype TickInput = TickInput(now: int, fileExists: bool, outcome: UploadOutcome)

  datatype Reason = Timeout | TooManyUploads | UploadSuccess

  /** What one call of `run` did. `CancelOnNullFuture` is a call that wanted to
      cancel before `setFuture` ran: `future.cancel` throws a
      NullPointerException and the task stays scheduled. */
  datatype Action =
    | Stopped(reason: Reason)
    | CancelOnNullFuture(reason: Reason)
    | Waited
    | AttemptFailed(attempt: int)
    | Skipped

  /** Whether the call made an upload attempt. */
  predicate Attempted(a: Action) {
    a.AttemptFailed? || a == Stopped(UploadSuccess) || a == CancelOnNullFuture(UploadSuccess)
  }

  /** `future.cancel(true)`. */
  function CancelFor(t: Task, why: Reason): (r: (Task, Action))
    ensures r.0 == (if t.future == Unset then t else t.(future := Cancelled))
    ensures r.1 == (if t.future == Unset then CancelOnNullFuture(why) else Stopped(why))
  {
    if t.future == Unset then (t, CancelOnNullFuture(why)) else (t.(future := Cancelled), Stopped(why))
  }

  /** One call of `run`. */
  function Step(t: Task, input: TickInput): (r: (Task, Action))
    // the name, suffix and start time never change
    ensures r.0.fileName == t.fileName && r.0.suffix == t.suffix && r.0.startTime == t.startTime
    // an upload is attempted exactly when the task has not timed out, has made
    // fewer than three attempts and finds the file; each attempt counts once
    ensures Attempted(r.1) <==>
              input.now - t.startTime <= TIMEOUT_MS && t.uploadTimes < MAX_UPLOADS && input.fileExists
    ensures r.0.uploadTimes == if Attempted(r.1) then t.uploadTimes + 1 else t.uploadTimes
    // the call cancels on a timeout, on a fourth attempt or on a successful upload, and only then
    ensures (r.1.Stopped? || r.1.CancelOnNullFuture?) <==>
              (input.now - t.startTime > TIMEOUT_MS || t.uploadTimes >= MAX_UPLOADS ||
               (Attempted(r.1) && UploadSucceeded(input.outcome)))
    ensures input.now - t.startTime > TIMEOUT_MS ==> r.1.reason == Timeout
    ensures (r.1.Stopped? || r.1.CancelOnNullFuture?) && input.now - t.startTime <= TIMEOUT_MS ==>
              r.1.reason == if t.uploadTimes >= MAX_UPLOADS then TooManyUploads else UploadSuccess
    // the cancel takes effect exactly when the future has been set; before
    // `setFuture` it throws and the future stays unset
    ensures r.1.CancelOnNullFuture? <==> (r.1.Stopped? || r.1.CancelOnNullFuture?) && t.future == Unset
    ensures r.1.Stopped? ==> r.0.future == Cancelled
    ensures !r.1.Stopped? ==> r.0.future == t.future
    // an absent file leaves the task exactly as it was
    ensures (input.now - t.startTime <= TIMEOUT_MS && t.uploadTimes < MAX_UPLOADS && !input.fileExists)
            ==> r == (t, Waited)
  {
    if input.now - t.startTime > TIMEOUT_MS then
      CancelFor(t, Timeout)
    else if t.uploadTimes >= MAX_UPLOADS then
      CancelFor(t, TooManyUploads)
    else if !input.fileExists then
      (t, Waited)
    else
      var attempted := t.(uploadTimes := t.uploadTimes + 1);
      if UploadSucceeded(input.outcome) then CancelFor(attempted, UploadSuccess)
      else (attempted, AttemptFailed(attempted.uploadTimes))
  }

  /** One scheduler period: a cancelled task is not invoked. */
  function Tick(t: Task, input: TickInput): (r: (Task, Action))
    ensures t.future == Cancelled ==> r == (t, Skipped)
    ensures t.future != Cancelled ==> r == Step(t, input)
  {
    if t.future == Cancelled then (t, Skipped) else Step(t, input)
  }

  /** A run of scheduler periods, one per input, with the action of each. */
  function Ticks(t: Task, inputs: seq<TickInput>): (r: (Task, seq<Action>))
    ensures |r.1| == |inputs|
    decreases |inputs|
  {
    if |inputs| == 0 then (t, [])
    else
      var first := Tick(t, inputs[0]);
      var rest := Ticks(first.0, inputs[1..]);
      (rest.0, [first.1] + rest.1)
  }

  /** The number of upload attempts in a run. */
  function CountAttempts(actions: seq<Action>): nat {
    if |actions| == 0 then 0
    else (if Attempted(actions[0]) then 1 else 0) + CountAttempts(actions[1..])
  }

  /** The number of periods in which the rendered file exists. */
  function CountPresent(inputs: seq<TickInput>): nat {
    if |inputs| == 0 then 0
    else (if inputs[0].fileExists then 1 else 0) + CountPresent(inputs[1..])
  }

  /** The counter grows by exactly the number of attempts and never passes three. */
  lemma {:induction false} TicksCountAttempts(t: Task, inputs: seq<TickInput>)
    requires 0 <= t.uploadTimes <= MAX_UPLOADS
    ensures Ticks(t, inputs).0.uploadTimes == t.uploadTimes + CountAttempts(Ticks(t, inputs).1)
    ensures Ticks(t, inputs).0.uploadTimes <= MAX_UPLOADS
    decreases |inputs|
  {
    if |inputs| > 0 {
      var first := Tick(t, inputs[0]);
      TicksCountAttempts(first.0, inputs[1..]);
      assert Ticks(t, inputs).1 == [first.1] + Ticks(first.0, inputs[1..]).1;
      assert ([first.1] + Ticks(first.0, inputs[1..]).1)[1..] == Ticks(first.0, inputs[1..]).1;
    }
  }

  /** A new task makes at most three upload attempts, however long it is run. */
  lemma AtMostThreeUploads(fileName: string, suffix: string, now: int, future: Future, inputs: seq<TickInput>)
    ensures CountAttempts(Ticks(NewTask(fileName, suffix, now).(future := future), inputs).1) <= MAX_UPLOADS
  {
    TicksCountAttempts(NewTask(fileName, suffix, now).(future := future), inputs);
  }

  /** Once cancelled, every later period is a no-op. */
  lemma {:induction false} NoStepAfterCancel(t: Task, inputs: seq<TickInput>)
    requires t.future == Cancelled
    ensures Ticks(t, inputs).0 == t
    ensures forall i :: 0 <= i < |inputs| ==> Ticks(t, inputs).1[i] == Skipped
    decreases |inputs|
  {
    if |inputs| > 0 {
      NoStepAfterCancel(t, inputs[1..]);
    }
  }

  /** A task that has had its future does not lose it: the future stays live
      until it is cancelled, and a cancelled one stays cancelled. */
  lemma {:induction false} TicksKeepFuture(t: Task, inputs: seq<TickInput>)
    requires t.future != Unset
    ensures Ticks(t, inputs).0.future != Unset
    ensures t.future == Cancelled ==> Ticks(t, inputs).0.future == Cancelled
    decreases |inputs|
  {
    if |inputs| > 0 {
      TicksKeepFuture(Tick(t, inputs[0]).0, inputs[1..]);
    }
  }

  /** The task is cancelled by the end of any run that contains one period more
      than 30 seconds after its start. */
  lemma {:induction false} TimeoutTerminates(t: Task, inputs: seq<TickInput>, i: nat)
    requires t.future != Unset
    requires i < |inputs| && inputs[i].now - t.startTime > TIMEOUT_MS
    ensures Ticks(t, inputs).0.future == Cancelled
    decreases |inputs|
  {
    var first := Tick(t, inputs[0]);
    if i == 0 {
      TicksKeepFuture(first.0, inputs[1..]);
    } else {
      TimeoutTerminates(first.0, inputs[1..], i - 1);
    }
  }

  /** After as many periods with the file present as attempts remain, the next
      period cancels the task at the latest. */
  lemma {:induction false} ExhaustionTerminates(t: Task, inputs: seq<TickInput>)
    requires t.future != Unset && 0 <= t.uploadTimes <= MAX_UPLOADS
    requires |inputs| > 0 && CountPresent(inputs[..|inputs| - 1]) >= MAX_UPLOADS - t.uploadTimes
    ensures Ticks(t, inputs).0.future == Cancelled
    decreases |inputs|
  {
    var first := Tick(t, inputs[0]);
    if first.0.future == Cancelled {
      TicksKeepFuture(first.0, inputs[1..]);
    } else if |inputs| > 1 {
      assert inputs[..|inputs| - 1][1..] == inputs[1..][..|inputs[1..]| - 1];
      ExhaustionTerminates(first.0, inputs[1..]);
    }
  }

  /** A file that never appears means no upload attempt and an unchanged counter. */
  lemma {:induction false} NeverRenderedNoUpload(t: Task, inputs: seq<TickInput>)
    requires forall i :: 0 <= i < |inputs| ==> !inputs[i].fileExists
    ensures Ticks(t, inputs).0.uploadTimes == t.uploadTimes
    ensures CountAttempts(Ticks(t, inputs).1) == 0
    decreases |inputs|
  {
    if |inputs| > 0 {
      var first := Tick(t, inputs[0]);
      NeverRenderedNoUpload(first.0, inputs[1..]);
      assert ([first.1] + Ticks(first.0, inputs[1..]).1)[1..] == Ticks(first.0, inputs[1..]).1;
    }
  }

  /** The period after the third attempt cancels the task without a fourth
      upload. */
  lemma CancelAfterThirdAttempt(t: Task, input: TickInput)
    requires t.future == Live && t.uploadTimes == MAX_UPLOADS
    ensures Tick(t, input).0 == t.(future := Cancelled)
    ensures !Attempted(Tick(t, input).1)
  {
  }

  /** A task that runs before `setFuture` cannot cancel itself: every cancel
      throws and it stays scheduled. */
  lemma {:induction false} UnsetFutureNeverCancels(t: Task, inputs: seq<TickInput>)
    requires t.future == Unset
    ensures Ticks(t, inputs).0.future == Unset
    ensures forall i :: 0 <= i < |inputs| ==> !Ticks(t, inputs).1[i].Stopped?
    decreases |inputs|
  {
    if |inputs| > 0 {
      var first := Tick(t, inputs[0]);
      UnsetFutureNeverCancels(first.0, inputs[1..]);
      assert Ticks(t, inputs).1 == [first.1] + Ticks(first.0, inputs[1..]).1;
    }
  }

  /** The file is there at the first period and the first upload succeeds:
      one attempt, then the task is cancelled. */
  lemma FirstUploadSucceeds(fileName: string, suffix: string, now: int, outcome: UploadOutcome)
    requires UploadSucceeded(outcome)
    ensures var t := NewTask(fileName, suffix, now).(future := Live);
            Ticks(t, [TickInput(now, true, outcome)]) ==
              (t.(uploadTimes := 1, future := Cancelled), [Stopped(UploadSuccess)])
  {
    var t := NewTask(fileName, suffix, now).(future := Live);
    var inputs := [TickInput(now, true, outcome)];
    assert inputs[1..] == [];
    assert [Stopped(UploadSuccess)] + [] == [Stopped(UploadSuccess)];
  }

  /** The file is there from the first period and every upload fails: three
      attempts, then the fourth period cancels the task. */
  lemma ThreeFailedUploads(fileName: string, suffix: string, now: int, outcome: UploadOutcome)
    requires !UploadSucceeded(outcome)
    ensures var t := NewTask(fileName, suffix, now).(future := Live);
            var inputs := [TickInput(now, true, outcome), TickInput(now + PERIOD_MS, true, outcome),
                           TickInput(now + 2 * PERIOD_MS, true, outcome), TickInput(now + 3 * PERIOD_MS, true, outcome)];
            Ticks(t, inputs) ==
              (t.(uploadTimes := 3, future := Cancelled),
               [AttemptFailed(1), AttemptFailed(2), AttemptFailed(3), Stopped(TooManyUploads)])
  {
    var t := NewTask(fileName, suffix, now).(future := Live);
    var inputs := [TickInput(now, true, outcome), TickInput(now + PERIOD_MS, true, outcome),
                   TickInput(now + 2 * PERIOD_MS, true, outcome), TickInput(now + 3 * PERIOD_MS, true, outcome)];
    var t1 := t.(uploadTimes := 1);
    var t2 := t.(uploadTimes := 2);
    var t3 := t.(uploadTimes := 3);
    var done := t3.(future := Cancelled);
    assert inputs[3..][1..] == [];
    assert [Stopped(TooManyUploads)] + [] == [Stopped(TooManyUploads)];
    assert Ticks(t3, inputs[3..]) == (done, [Stopped(TooManyUploads)]);
    assert inputs[2..][1..] == inputs[3..];
    assert [AttemptFailed(3)] + [Stopped(TooManyUploads)] == [AttemptFailed(3), Stopped(TooManyUploads)];
    assert Ticks(t2, inputs[2..]) == (done, [AttemptFailed(3), Stopped(TooManyUploads)]);
    assert inputs[1..][1..] == inputs[2..];
    assert [AttemptFailed(2)] + [AttemptFailed(3), Stopped(TooManyUploads)] ==
           [AttemptFailed(2), AttemptFailed(3), Stopped(TooManyUploads)];
    assert Ticks(t1, inputs[1..]) == (done, [AttemptFailed(2), AttemptFailed(3), Stopped(TooManyUploads)]);
    assert [AttemptFailed(1)] + [AttemptFailed(2), AttemptFailed(3), Stopped(TooManyUploads)] ==
           [AttemptFailed(1), AttemptFailed(2), AttemptFailed(3), Stopped(TooManyUploads)];
  }

  /** The task object: the fields of `UploadTask`, with the `Future` it is
      given. */
  class UploadTask {
    const fileName: string
    const suffix: string
    const startTime: int
    var uploadTimes: int
    var future: Future

    function State(): Task
      reads this
    {
      Task(fileName, suffix, startTime, uploadTimes, future)
    }

    /** `new UploadTask(fileName, suffix)` with the clock reading `now`. */
    constructor (fileName: string, suffix: string, now: int)
      ensures State() == NewTask(fileName, suffix, now)
    {
      this.fileName := fileName;
      this.suffix := suffix;
      this.startTime := now;
      this.uploadTimes := 0;
      this.future := Unset;
    }

    /** `setFuture`: the task receives the live handle of its schedule. */
    method SetFuture()
      modifies this
      ensures State() == old(State()).(future := Live)
    {
      future := Live;
    }

    method Cancel(why: Reason) returns (action: Action)
      modifies this
      ensures (State(), action) == CancelFor(old(State()), why)
    {
      if future == Unset {
        action := CancelOnNullFuture(why);
      } else {
        future := Cancelled;
        action := Stopped(why);
      }
    }

    /** `run`, one call by the scheduler. */
    method Run(input: TickInput) returns (action: Action)
      modifies this
      ensures (State(), action) == Step(old(State()), input)
    {
      if input.now - startTime > TIMEOUT_MS {
        action := Cancel(Timeout);
        return;
      }
      if uploadTimes >= MAX_UPLOADS {
        action := Cancel(TooManyUploads);
        return;
      }
      if input.fileExists {
        uploadTimes := uploadTimes + 1;
        if UploadSucceeded(input.outcome) {
          action := Cancel(UploadSuccess);
        } else {
          action := AttemptFailed(uploadTimes);
        }
      } else {
        action := Waited;
      }
    }
  }
}
