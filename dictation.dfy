/** The dictation lifecycle of `src-tauri/src/dictate.rs`.

    `AppState` owns one `DictationState`. `dictate` starts a session (creating
    a oneshot channel whose sender it stores and whose receiver it hands to a
    new worker), `end_recording` takes the sender out and fires it, and a
    worker, when its recording, model fetch and transcription all succeed,
    writes the state back to `None`.

    The mutex is modelled by making each operation one atomic method call; a
    worker appears as its one critical section, `WorkerFinish`, called with the
    outcome of its run. A oneshot channel is a number (`Sender`) drawn from a
    counter; the ghost multiset `sent` counts how often each sender has fired
    and the ghost set `workers` holds the receivers of the workers still
    running, one per spawned task. */
module Dictation {
  import opened Wrappers
  import opened Errors

  /** The identity of one oneshot channel; its sender and receiver share it. */
  type Sender = nat

  /** `DictationState`: the sender lives only inside `Recording`. */
  datatype DictationState = Recording(sender: Sender) | Transcribing | None

  /** How the worker's run ends: the first step that failed with its error, or
      the transcript. */
  datatype WorkerOutcome =
    | RecordFailed(e: Error)      // `start_recording` failed
    | ModelFailed(e: Error)       // `get_or_download` of the model failed
    | TranscribeFailed(e: Error)  // `transcribe` failed
    | Transcribed(text: string)

  /** The whole state of the system: the visible state, the channel counter,
      how often each sender fired, and the receivers of the running workers. */
  datatype Session = Session(state: DictationState, issued: nat, sent: multiset<Sender>, workers: set<Sender>)

  /** The state at startup: `DictationState::default()` is `None`. */
  const INIT: Session := Session(DictationState.None, 0, multiset{}, {})

  // ---------------------------------------------------------------------
  // The transitions, as functions of the whole state

  /** `AppState::dictate` up to the point where it hands back the future: a
      success spawns one more worker. */
  function DictateStep(s: Session, tmpFileOk: bool): (Session, Result<Sender, Error>)
  {
    if !s.state.None? then (s, Err(AlreadyDictating))
    else if !tmpFileOk then (s, Err(TmpFileCreationFailed))
    else (s.(state := Recording(s.issued), issued := s.issued + 1, workers := s.workers + {s.issued}), Ok(s.issued))
  }

  /** `AppState::end_recording`. */
  function EndRecordingStep(s: Session): (Session, Result<(), Error>)
  {
    match s.state
    case Recording(sender) => (s.(state := Transcribing, sent := s.sent + multiset{sender}), Ok(()))
    case _ => (s, Err(NotDictating))
  }

  /** When the worker holding receiver `w` can end its run with `o`: it is
      running, and its recording can only have succeeded once its receiver
      was signalled (`blocking_recv` waits for the send). */
  predicate CanFinish(s: Session, w: Sender, o: WorkerOutcome) {
    w in s.workers && (!o.RecordFailed? ==> w in s.sent)
  }

  /** The end of worker `w`'s run, as written: the reset to `None` comes after
      the three `?`s, so a failed run leaves the state as it was. */
  function WorkerFinishStep(s: Session, w: Sender, o: WorkerOutcome): (Session, Result<string, Error>)
    requires CanFinish(s, w, o)
  {
    var gone := s.workers - {w};
    match o
    case RecordFailed(e) => (s.(workers := gone), Err(e))
    case ModelFailed(e) => (s.(workers := gone), Err(e))
    case TranscribeFailed(e) => (s.(workers := gone), Err(e))
    case Transcribed(text) => (s.(state := DictationState.None, workers := gone), Ok(text))
  }

  // ---------------------------------------------------------------------
  // The invariant

  /** Every sender fired at most once and only after it was created; the
      sender held in `Recording` has not fired; all running workers are one
      and the same, they run only while the state is not `None`, and while
      recording the worker holds that session's receiver. */
  ghost predicate Inv(s: Session) {
    && (forall t :: t in s.sent ==> t < s.issued && s.sent[t] == 1)
    && (s.state.Recording? ==> s.state.sender < s.issued && s.state.sender !in s.sent)
    && (forall w :: w in s.workers ==> w < s.issued && !s.state.None?)
    && (forall w, v :: w in s.workers && v in s.workers ==> w == v)
    && (forall w :: w in s.workers && s.state.Recording? ==> w == s.state.sender)
  }

  /** The sessions still alive: those whose worker runs, and the one whose
      sender has not been taken out. */
  function ActiveSessions(s: Session): set<Sender> {
    s.workers + (if s.state.Recording? then {s.state.sender} else {})
  }

  lemma InitInv()
    ensures Inv(INIT) && ActiveSessions(INIT) == {}
  {
  }

  lemma DictateKeepsInv(s: Session, tmpFileOk: bool)
    requires Inv(s)
    ensures Inv(DictateStep(s, tmpFileOk).0)
  {
  }

  lemma EndRecordingKeepsInv(s: Session)
    requires Inv(s)
    ensures Inv(EndRecordingStep(s).0)
  {
    if s.state.Recording? {
      var t := s.state.sender;
      var s' := EndRecordingStep(s).0;
      forall u | u in s'.sent ensures u < s'.issued && s'.sent[u] == 1 {
        if u == t {
          assert s.sent[u] == 0;
        } else {
          assert s'.sent[u] == s.sent[u];
        }
      }
    }
  }

  lemma WorkerFinishKeepsInv(s: Session, w: Sender, o: WorkerOutcome)
    requires Inv(s) && CanFinish(s, w, o)
    ensures Inv(WorkerFinishStep(s, w, o).0)
  {
  }

  /** Under the invariant at most one session is alive. */
  lemma AtMostOneActive(s: Session)
    requires Inv(s)
    ensures |ActiveSessions(s)| <= 1 && |s.workers| <= 1
  {
    if w :| w in s.workers {
      assert s.workers == {w};
    }
    var a := ActiveSessions(s);
    if a != {} {
      var x :| x in a;
      forall y | y in a ensures y == x {
      }
      assert a == {x};
    }
  }

  /** `dictate` succeeds only when no session is alive, and afterwards exactly
      the new one is. */
  lemma DictateOnlyWhenIdle(s: Session, tmpFileOk: bool)
    requires Inv(s)
    ensures DictateStep(s, tmpFileOk).1.Ok? ==>
      s.state.None? && ActiveSessions(s) == {} &&
      ActiveSessions(DictateStep(s, tmpFileOk).0) == {DictateStep(s, tmpFileOk).1.value}
  {
    if DictateStep(s, tmpFileOk).1.Ok? {
      assert s.workers == {} by {
        if w :| w in s.workers {
          assert false;
        }
      }
    }
  }

  /** Once `end_recording` succeeded, the next `end_recording` fails with
      `NotDictating` and changes nothing. */
  lemma SecondEndRecordingFails(s: Session)
    requires EndRecordingStep(s).1.Ok?
    ensures var s' := EndRecordingStep(s).0;
      EndRecordingStep(s') == (s', Err(NotDictating))
  {
  }

  /** A worker resets the state only from `Transcribing`: the direct move
      from `Recording` to `None` never happens. */
  lemma ResetOnlyFromTranscribing(s: Session, w: Sender, o: WorkerOutcome)
    requires Inv(s) && CanFinish(s, w, o)
    requires WorkerFinishStep(s, w, o).0.state.None?
    ensures s.state.Transcribing?
  {
  }

  // ---------------------------------------------------------------------
  // Traces: arbitrary interleavings of the three critical sections

  /** A call: `dictate`, `end_recording`, or the end of worker `w`'s run. */
  datatype Call = Begin(tmpFileOk: bool) | End | Finish(w: Sender, outcome: WorkerOutcome)

  datatype Reply =
    | Began(began: Result<Sender, Error>)
    | Ended(ended: Result<(), Error>)
    | Finished(finished: Result<string, Error>)

  predicate Allowed(s: Session, c: Call) {
    c.Finish? ==> CanFinish(s, c.w, c.outcome)
  }

  function Step(s: Session, c: Call): (Session, Reply)
    requires Allowed(s, c)
  {
    match c
    case Begin(ok) => var (s', r) := DictateStep(s, ok); (s', Began(r))
    case End => var (s', r) := EndRecordingStep(s); (s', Ended(r))
    case Finish(w, o) => var (s', r) := WorkerFinishStep(s, w, o); (s', Finished(r))
  }

  /** Every call of the trace can happen in the state it meets. */
  predicate Feasible(s: Session, calls: seq<Call>)
    decreases |calls|
  {
    |calls| == 0 || (Allowed(s, calls[0]) && Feasible(Step(s, calls[0]).0, calls[1..]))
  }

  function Run(s: Session, calls: seq<Call>): Session
    requires Feasible(s, calls)
    decreases |calls|
  {
    if |calls| == 0 then s else Run(Step(s, calls[0]).0, calls[1..])
  }

  function Replies(s: Session, calls: seq<Call>): (rs: seq<Reply>)
    requires Feasible(s, calls)
    ensures |rs| == |calls|
    decreases |calls|
  {
    if |calls| == 0 then [] else [Step(s, calls[0]).1] + Replies(Step(s, calls[0]).0, calls[1..])
  }

  lemma StepKeepsInv(s: Session, c: Call)
    requires Inv(s) && Allowed(s, c)
    ensures Inv(Step(s, c).0)
  {
    match c
    case Begin(ok) => DictateKeepsInv(s, ok);
    case End => EndRecordingKeepsInv(s);
    case Finish(w, o) => WorkerFinishKeepsInv(s, w, o);
  }

  lemma {:induction false} RunKeepsInv(s: Session, calls: seq<Call>)
    requires Inv(s) && Feasible(s, calls)
    ensures Inv(Run(s, calls))
    decreases |calls|
  {
    if |calls| > 0 {
      StepKeepsInv(s, calls[0]);
      RunKeepsInv(Step(s, calls[0]).0, calls[1..]);
    }
  }

  /** The `i`-th call of a feasible trace meets the state the first `i` calls
      lead to, and its reply is that state's step. */
  lemma {:induction false} ReplyAt(s: Session, calls: seq<Call>, i: nat)
    requires Feasible(s, calls) && i < |calls|
    ensures Feasible(s, calls[..i]) && Allowed(Run(s, calls[..i]), calls[i])
    ensures Replies(s, calls)[i] == Step(Run(s, calls[..i]), calls[i]).1
    decreases i
  {
    if i == 0 {
      assert calls[..0] == [];
    } else {
      var s' := Step(s, calls[0]).0;
      ReplyAt(s', calls[1..], i - 1);
      assert calls[1..][..i - 1] == calls[..i][1..];
      assert calls[..i][0] == calls[0];
      assert calls[1..][i - 1] == calls[i];
    }
  }

  /** Exclusivity: after any interleaving of calls from startup at most one
      session is alive, however many workers the trace has spawned. */
  lemma Exclusivity(calls: seq<Call>)
    requires Feasible(INIT, calls)
    ensures |ActiveSessions(Run(INIT, calls))| <= 1
    ensures |Run(INIT, calls).workers| <= 1
  {
    InitInv();
    RunKeepsInv(INIT, calls);
    AtMostOneActive(Run(INIT, calls));
  }

  /** Along any interleaving from startup, every successful `dictate` meets
      the state `None` with no session alive and no worker running. */
  lemma DictateOnlyWhenIdleAlongTrace(calls: seq<Call>, i: nat)
    requires Feasible(INIT, calls) && i < |calls|
    requires Replies(INIT, calls)[i].Began? && Replies(INIT, calls)[i].began.Ok?
    ensures Feasible(INIT, calls[..i])
    ensures Run(INIT, calls[..i]).state.None? && ActiveSessions(Run(INIT, calls[..i])) == {}
  {
    ReplyAt(INIT, calls, i);
    InitInv();
    RunKeepsInv(INIT, calls[..i]);
    DictateOnlyWhenIdle(Run(INIT, calls[..i]), calls[i].tmpFileOk);
  }

  /** Single consumption: after any interleaving of calls from startup no
      sender has fired more than once, and only created senders have fired. */
  lemma SingleConsumption(calls: seq<Call>, t: Sender)
    requires Feasible(INIT, calls)
    ensures Run(INIT, calls).sent[t] <= 1
    ensures t in Run(INIT, calls).sent ==> t < Run(INIT, calls).issued
  {
    InitInv();
    RunKeepsInv(INIT, calls);
  }

  /** The number of successful `dictate` calls among the replies. */
  function Begun(rs: seq<Reply>): nat {
    if |rs| == 0 then 0 else (if rs[0].Began? && rs[0].began.Ok? then 1 else 0) + Begun(rs[1..])
  }

  /** The number of worker runs that reset the state among the replies. */
  function Reset(rs: seq<Reply>): nat {
    if |rs| == 0 then 0 else (if rs[0].Finished? && rs[0].finished.Ok? then 1 else 0) + Reset(rs[1..])
  }

  /** 1 while a session holds the state, 0 when it is `None`. */
  function Busy(s: Session): int {
    if s.state.None? then 0 else 1
  }

  /** Sessions strictly alternate with resets: along any trace the successful
      `dictate` calls outnumber the resets by exactly how much busier the
      final state is than the first. */
  lemma {:induction false} SessionsAlternate(s: Session, calls: seq<Call>)
    requires Inv(s) && Feasible(s, calls)
    ensures Begun(Replies(s, calls)) - Reset(Replies(s, calls)) == Busy(Run(s, calls)) - Busy(s)
    decreases |calls|
  {
    if |calls| > 0 {
      var (s', r) := Step(s, calls[0]);
      StepKeepsInv(s, calls[0]);
      SessionsAlternate(s', calls[1..]);
      var rs := Replies(s, calls);
      assert rs[0] == r && rs[1..] == Replies(s', calls[1..]);
    }
  }

  /** From startup the trace never holds two sessions: the count of started
      sessions is the count of resets, plus one while a session is on. */
  lemma StartedSessionsFromInit(calls: seq<Call>)
    requires Feasible(INIT, calls)
    ensures Reset(Replies(INIT, calls)) <= Begun(Replies(INIT, calls)) <= Reset(Replies(INIT, calls)) + 1
    ensures Run(INIT, calls).state.None? <==> Begun(Replies(INIT, calls)) == Reset(Replies(INIT, calls))
  {
    InitInv();
    SessionsAlternate(INIT, calls);
  }

  // ---------------------------------------------------------------------
  // Joining the worker

  /** What awaiting the blocking task yields: it panicked, or it returned. */
  datatype Joined = Panicked | Completed(result: Result<string, Error>)

  /** The future returned by `dictate`: a join failure becomes
      `DictationTaskPanicked`, anything else is the worker's own result. */
  function AwaitTranscript(j: Joined): (r: Result<string, Error>)
    ensures j.Panicked? ==> r == Err(DictationTaskPanicked)
    ensures j.Completed? ==> r == j.result
  {
    match j
    case Panicked => Err(DictationTaskPanicked)
    case Completed(res) => res
  }

  // ---------------------------------------------------------------------
  // The stuck state after a failed worker, and the reset that recovers

  /** As written: once the last worker has ended without resetting, nothing
      can reset the state again, so every later `dictate` fails with
      `AlreadyDictating`. */
  lemma {:induction false} StuckAfterWorkerError(s: Session, calls: seq<Call>)
    requires s.workers == {} && !s.state.None?
    requires Feasible(s, calls)
    ensures !Run(s, calls).state.None? && Run(s, calls).workers == {}
    ensures forall i :: 0 <= i < |calls| && calls[i].Begin? ==>
      Replies(s, calls)[i] == Began(Err(AlreadyDictating))
    decreases |calls|
  {
    if |calls| > 0 {
      var (s', r) := Step(s, calls[0]);
      assert !calls[0].Finish?;
      assert s'.workers == {} && !s'.state.None?;
      StuckAfterWorkerError(s', calls[1..]);
      var rs := Replies(s, calls);
      assert rs[0] == r && rs[1..] == Replies(s', calls[1..]);
      forall i | 0 <= i < |calls| && calls[i].Begin?
        ensures rs[i] == Began(Err(AlreadyDictating))
      {
        if i > 0 {
          assert calls[1..][i - 1] == calls[i];
          assert rs[i] == Replies(s', calls[1..])[i - 1];
        }
      }
    }
  }

  /** A recording that fails at once (no microphone) leaves the state in
      `Recording`, and the next `dictate` is refused. */
  lemma NoMicrophoneLocksOutDictation()
    ensures var calls := [Begin(true), Finish(0, RecordFailed(NoInputDevice)), Begin(true)];
      Feasible(INIT, calls) &&
      Replies(INIT, calls) == [Began(Ok(0)), Finished(Err(NoInputDevice)), Began(Err(AlreadyDictating))]
  {
    var calls := [Begin(true), Finish(0, RecordFailed(NoInputDevice)), Begin(true)];
    var s1 := Step(INIT, calls[0]).0;
    var s2 := Step(s1, calls[1]).0;
    assert calls[1..][1..] == [Begin(true)];
    assert Feasible(Step(s2, calls[2]).0, []);
  }

  /** The end of worker `w`'s run done so that a failed session does not lock
      out later dictation: the state goes back to `None` whatever the outcome. */
  function WorkerFinishStepCorrected(s: Session, w: Sender, o: WorkerOutcome): (Session, Result<string, Error>)
    requires CanFinish(s, w, o)
  {
    var s' := s.(state := DictationState.None, workers := s.workers - {w});
    match o
    case RecordFailed(e) => (s', Err(e))
    case ModelFailed(e) => (s', Err(e))
    case TranscribeFailed(e) => (s', Err(e))
    case Transcribed(text) => (s', Ok(text))
  }

  /** The corrected reset keeps the invariant, agrees with the code on a
      successful run, reports the same result, and always lets the next
      `dictate` start a session. */
  lemma CorrectedWorkerFinishRecovers(s: Session, w: Sender, o: WorkerOutcome)
    requires Inv(s) && CanFinish(s, w, o)
    ensures Inv(WorkerFinishStepCorrected(s, w, o).0)
    ensures WorkerFinishStepCorrected(s, w, o).1 == WorkerFinishStep(s, w, o).1
    ensures o.Transcribed? ==> WorkerFinishStepCorrected(s, w, o) == WorkerFinishStep(s, w, o)
    ensures DictateStep(WorkerFinishStepCorrected(s, w, o).0, true).1.Ok?
  {
    assert s.workers - {w} == {} by {
      forall v | v in s.workers ensures v == w {
      }
    }
  }

  // ---------------------------------------------------------------------
  // The object

  /** `AppState`: the state behind the mutex, updated in place. */
  class AppState {
    var state: DictationState
    /** The number of oneshot channels created so far; the next is `issued`. */
    var issued: nat
    ghost var sent: multiset<Sender>
    ghost var workers: set<Sender>

    ghost function View(): Session
      reads this
    {
      Session(state, issued, sent, workers)
    }

    ghost predicate Valid()
      reads this
    {
      Inv(View())
    }

    /** `AppState::default()`. */
    constructor ()
      ensures Valid() && View() == INIT
      ensures state == DictationState.None
    {
      state := DictationState.None;
      issued := 0;
      sent := multiset{};
      workers := {};
    }

    /** `AppState::dictate`: the returned sender names the session whose
        future the caller now holds. */
    method Dictate(tmpFileOk: bool) returns (r: Result<Sender, Error>)
      requires Valid()
      modifies this
      ensures Valid()
      ensures (View(), r) == DictateStep(old(View()), tmpFileOk)
      ensures old(state).None? && tmpFileOk ==>
        r == Ok(old(issued)) && state == Recording(old(issued)) &&
        old(workers) == {} && workers == {old(issued)} &&
        old(issued) !in sent && sent == old(sent)
      ensures !old(state).None? ==> r == Err(AlreadyDictating) && unchanged(this)
      ensures old(state).None? && !tmpFileOk ==> r == Err(TmpFileCreationFailed) && unchanged(this)
    {
      DictateOnlyWhenIdle(View(), tmpFileOk);
      if state.None? {
        if !tmpFileOk {
          // `NamedTempFile::new()?` returns before the state is written
          return Err(TmpFileCreationFailed);
        }
        var tx := issued;  // `oneshot::channel()`: a fresh sender/receiver pair
        issued := issued + 1;
        state := Recording(tx);
        workers := workers + {tx};  // `spawn_blocking`: a worker takes the receiver
        return Ok(tx);
      } else {
        return Err(AlreadyDictating);
      }
    }

    /** `AppState::end_recording`: the sender is taken out with the state
        left `Transcribing`, and fired exactly once. */
    method EndRecording() returns (r: Result<(), Error>)
      requires Valid()
      modifies this
      ensures Valid()
      ensures (View(), r) == EndRecordingStep(old(View()))
      ensures old(state).Recording? ==>
        r == Ok(()) && state == Transcribing &&
        old(state).sender !in old(sent) && sent == old(sent) + multiset{old(state).sender} &&
        workers == old(workers) && issued == old(issued)
      ensures !old(state).Recording? ==> r == Err(NotDictating) && unchanged(this)
    {
      if state.Recording? {
        var taken := state;
        state := Transcribing;  // `std::mem::replace`
        if taken.Recording? {
          sent := sent + multiset{taken.sender};  // `sender.send(())`, its result ignored
        } else {
          assert false;  // `unreachable!()`
        }
        EndRecordingKeepsInv(old(View()));
        return Ok(());
      } else {
        return Err(NotDictating);
      }
    }

    /** The critical section at the end of the run of the worker holding
        receiver `w`: with the transcript it writes `None`; an earlier `?`
        skips that write. */
    method WorkerFinish(w: Sender, outcome: WorkerOutcome) returns (r: Result<string, Error>)
      requires Valid() && CanFinish(View(), w, outcome)
      modifies this
      ensures Valid()
      ensures (View(), r) == WorkerFinishStep(old(View()), w, outcome)
      ensures workers == old(workers) - {w} && issued == old(issued) && sent == old(sent)
      ensures outcome.Transcribed? ==>
        r == Ok(outcome.text) && old(state).Transcribing? && state == DictationState.None
      ensures !outcome.Transcribed? ==> r == Err(outcome.e) && state == old(state)
    {
      ResetOnlyFromTranscribingFor(w, outcome);
      workers := workers - {w};
      match outcome
      case RecordFailed(e) =>
        return Err(e);
      case ModelFailed(e) =>
        return Err(e);
      case TranscribeFailed(e) =>
        return Err(e);
      case Transcribed(text) =>
        state := DictationState.None;
        return Ok(text);
    }

    lemma ResetOnlyFromTranscribingFor(w: Sender, outcome: WorkerOutcome)
      requires Valid() && CanFinish(View(), w, outcome)
      ensures outcome.Transcribed? ==> state.Transcribing?
    {
      if outcome.Transcribed? {
        ResetOnlyFromTranscribing(View(), w, outcome);
      }
    }
  }

  // ---------------------------------------------------------------------
  // Scenarios

  /** Start, a refused second start, stop, and a transcript delivered through
      the future. */
  method HelloWorld() returns (first: Result<Sender, Error>, second: Result<Sender, Error>,
                               ended: Result<(), Error>, transcript: Result<string, Error>)
    ensures first == Ok(0) && second == Err(AlreadyDictating) && ended == Ok(())
    ensures transcript == Ok("hello world")
  {
    var app := new AppState();
    first := app.Dictate(true);
    second := app.Dictate(true);
    ended := app.EndRecording();
    var worked := app.WorkerFinish(0, Transcribed("hello world"));
    transcript := AwaitTranscript(Completed(worked));
    assert app.state == DictationState.None;
  }

  /** `end_recording` without a session. */
  method EndWithoutSession() returns (ended: Result<(), Error>)
    ensures ended == Err(NotDictating)
  {
    var app := new AppState();
    ended := app.EndRecording();
  }

  /** As written, a failed recording is reported through the future, but the
      next `dictate` is refused. */
  method FailedRecordingThenDictate() returns (transcript: Result<string, Error>, again: Result<Sender, Error>)
    ensures transcript == Err(NoInputDevice)
    ensures again == Err(AlreadyDictating)
  {
    var app := new AppState();
    var first := app.Dictate(true);
    var worked := app.WorkerFinish(0, RecordFailed(NoInputDevice));
    transcript := AwaitTranscript(Completed(worked));
    again := app.Dictate(true);
  }
}
