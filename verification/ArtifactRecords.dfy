/**
 Which record reaches the artifact path: only what some action of the run asked for, and, if nothing
 gets in the way, exactly that (bench/worker.py, bench/checkpoint.py, bench/artifacts.py).
 */
module ArtifactRecords {
  import opened Options
  import opened ArtifactProtocol
  import Runs

  // ----- only what was asked for -----

  /** Some action of the history asks for a record with this status. */
  predicate Asked(history: seq<Action>, status: Status) {
    match status
    case Done => Finish(Done) in history
    case Refused => Finish(Refused) in history
    case CheckpointedPartial => Poll in history
    case RefusedEnvironment => RefuseStart in history
    case Aborted(reason) => Breach(reason) in history
  }

  predicate HasReason(d: Dog) {
    d.Flagged? || d.Recording? || d.Finishing? || d.Landing?
  }

  predicate Traced(history: seq<Action>, initial: File, s: State) {
    && ((s.main.Waiting? || InCritical(s.main)) ==> Asked(history, s.main.status))
    && (HasReason(s.dog) ==> Breach(s.dog.reason) in history)
    && (s.artifact != initial ==> s.artifact.Whole? && Asked(history, s.artifact.status))
  }

  /** A longer history, ending with a. */
  ghost predicate Extends(history': seq<Action>, history: seq<Action>, a: Action) {
    a in history' && forall b :: b in history ==> b in history'
  }

  lemma TracedMain(history: seq<Action>, history': seq<Action>, initial: File, s: State, a: Action, t: State)
    requires WholeInv(initial, s) && Traced(history, initial, s) && MainNext(s, a) == Some(t)
    requires Extends(history', history, a)
    ensures Traced(history', initial, t)
  {
  }

  lemma TracedDog(history: seq<Action>, history': seq<Action>, initial: File, s: State, a: Action, t: State)
    requires WholeInv(initial, s) && Traced(history, initial, s) && DogNext(s, a) == Some(t)
    requires Extends(history', history, a)
    ensures Traced(history', initial, t)
  {
  }

  lemma TracedStep(history: seq<Action>, initial: File, s: State, a: Action, t: State)
    requires WholeInv(initial, s) && Traced(history, initial, s) && Next(s, a) == Some(t)
    ensures Traced(history + [a], initial, t)
  {
    assert Extends(history + [a], history, a);
    if !a.Kill? {
      if MainNext(s, a).Some? {
        TracedMain(history, history + [a], initial, s, a, t);
      } else {
        TracedDog(history, history + [a], initial, s, a, t);
      }
    }
  }

  lemma {:induction false} TracedRun(history: seq<Action>, initial: File, s: State, acts: seq<Action>, t: State)
    requires Inv(initial, s) && Traced(history, initial, s) && Exec(s, acts) == Some(t)
    ensures Traced(history + acts, initial, t)
    decreases |acts|
  {
    if acts == [] {
      assert history + acts == history;
    } else {
      var a, mid := acts[0], Next(s, acts[0]).value;
      InvStep(initial, s, a);
      TracedStep(history, initial, s, a, mid);
      TracedRun(history + [a], initial, mid, acts[1..], t);
      assert history + acts == (history + [a]) + acts[1..];
    }
  }

  /**
   In every run: if the path no longer holds what it held before, it holds a complete record, whose
   status is ok or refused only if the worker finished that way, checkpointed_partial only after a
   poll, refused_environment only after the refusal to start, and aborted for a reason only after a
   breach for that very reason.
   */
  lemma RecordsWereAsked(identity: nat, initial: File, acts: seq<Action>)
    requires Exec(Init(identity, initial), acts).Some?
    ensures var f := Exec(Init(identity, initial), acts).value.artifact;
      f != initial ==>
        && f.Whole? && f.identity == identity
        && (f.status == Done ==> Finish(Done) in acts)
        && (f.status == Refused ==> Finish(Refused) in acts)
        && (f.status == CheckpointedPartial ==> Poll in acts)
        && (f.status == RefusedEnvironment ==> RefuseStart in acts)
        && (forall reason :: f.status == Aborted(reason) ==> Breach(reason) in acts)
  {
    var s := Init(identity, initial);
    InvInit(identity, initial);
    InvExec(initial, s, acts);
    TracedRun([], initial, s, acts, Exec(s, acts).value);
    assert [] + acts == acts;
  }

  // ----- exactly what was asked for -----

  /** The main thread's file operations and the release of the lock. */
  const WRITE: seq<Action> := [MainOpen, MainFill] + [MainRename, MainRelease]

  /** The state after an undisturbed write of the main thread. */
  function Written(s: State, status: Status): State {
    s.(artifact := Whole(s.identity, status), mainTmp := Absent, lock := Free, mainLandings := s.mainLandings + 1,
       main := if status == CheckpointedPartial then Working else Closing)
  }

  /** From its first file operation on, an undisturbed write lands, and the lock is given back. */
  lemma WriteLands(s: State, status: Status)
    requires !s.exited && s.main == Writing(status)
    ensures Exec(s, WRITE) == Some(Written(s, status))
  {
    var s1 := Next(s, MainOpen).value;
    var s2 := Next(s1, MainFill).value;
    var s3 := Next(s2, MainRename).value;
    Runs.Two(Next, s, MainOpen, s1, MainFill, s2);
    Runs.Two(Next, s2, MainRename, s3, MainRelease, Written(s, status));
    Runs.Concat(Next, s, [MainOpen, MainFill], [MainRename, MainRelease], s2);
  }

  /** A breach-aware write: lands if no breach is flagged ... */
  lemma AwareWriteLands(s: State, status: Status)
    requires !s.exited && !s.breach && s.lock == Free && s.main == Waiting(status) && status != RefusedEnvironment
    ensures Exec(s, [MainAcquire, MainCheck] + WRITE) == Some(Written(s, status))
  {
    var s1 := Next(s, MainAcquire).value;
    var s2 := Next(s1, MainCheck).value;
    Runs.Two(Next, s, MainAcquire, s1, MainCheck, s2);
    WriteLands(s2, status);
    Runs.Concat(Next, s, [MainAcquire, MainCheck], WRITE, s2);
  }

  /** ... and is skipped, the path untouched and the lock given back, if one is. */
  lemma AwareWriteSkipped(s: State, status: Status)
    requires !s.exited && s.breach && s.lock == Free && s.main == Waiting(status) && status != RefusedEnvironment
    ensures Exec(s, [MainAcquire, MainCheck] + [MainRelease])
         == Some(s.(main := if status == CheckpointedPartial then Working else Closing))
  {
    var s1 := Next(s, MainAcquire).value;
    var s2 := Next(s1, MainCheck).value;
    var s3 := Next(s2, MainRelease).value;
    Runs.Two(Next, s, MainAcquire, s1, MainCheck, s2);
    Runs.One(Next, s2, MainRelease, s3);
    Runs.Concat(Next, s, [MainAcquire, MainCheck], [MainRelease], s2);
  }

  /** A worker that finishes ok or refused, undisturbed, leaves exactly that record. */
  lemma FinishLands(s: State, status: Status)
    requires !s.exited && !s.breach && s.lock == Free && s.main == Working && (status == Done || status == Refused)
    ensures var run := Exec(s, [Finish(status)] + ([MainAcquire, MainCheck] + WRITE));
      run.Some? && run.value.artifact == Whole(s.identity, status) && run.value.main == Closing
      && run.value.lock == Free
  {
    var s1 := Next(s, Finish(status)).value;
    AwareWriteLands(s1, status);
    Runs.Prepend(Next, s, Finish(status), s1, [MainAcquire, MainCheck] + WRITE);
  }

  /** A polled checkpoint, undisturbed, leaves exactly its record, and the worker goes on. */
  lemma PollLands(s: State)
    requires !s.exited && !s.breach && s.lock == Free && s.main == Working
    ensures var run := Exec(s, [Poll] + ([MainAcquire, MainCheck] + WRITE));
      run.Some? && run.value.artifact == Whole(s.identity, CheckpointedPartial) && run.value.main == Working
      && run.value.lock == Free
  {
    var s1 := Next(s, Poll).value;
    AwareWriteLands(s1, CheckpointedPartial);
    Runs.Prepend(Next, s, Poll, s1, [MainAcquire, MainCheck] + WRITE);
  }

  /** A worker that refuses to start leaves exactly that record. */
  lemma RefusalLands(identity: nat, initial: File)
    ensures var run := Exec(Init(identity, initial), [RefuseStart, MainAcquire] + WRITE);
      run.Some? && run.value.artifact == Whole(identity, RefusedEnvironment) && run.value.main == Closing
  {
    var s := Init(identity, initial);
    var s1 := Next(s, RefuseStart).value;
    var s2 := Next(s1, MainAcquire).value;
    Runs.Two(Next, s, RefuseStart, s1, MainAcquire, s2);
    WriteLands(s2, RefusedEnvironment);
    Runs.Concat(Next, s, [RefuseStart, MainAcquire], WRITE, s2);
  }

  /** The watchdog's record under the lock, and the exit. */
  const RECORD: seq<Action> := [DogOpen, DogFill] + ([DogRename, DogRelease] + [HardExit])

  /** The process has exited 70 and the path holds the abort record for this reason, written under the lock. */
  predicate Recorded(s: State, reason: nat) {
    s.exited && s.exitCode == 70 && s.artifact == Whole(s.identity, Aborted(reason)) && s.landed == UnderLock(reason)
  }

  /** A breach found while nobody writes leaves exactly its abort record, and the process exits 70. */
  lemma BreachLands(s: State, reason: nat)
    requires !s.exited && s.lock == Free && s.dog == Armed
    ensures var run := Exec(s, [Breach(reason), DogAcquire] + RECORD);
      run.Some? && run.value.identity == s.identity && Recorded(run.value, reason)
  {
    var s1 := Next(s, Breach(reason)).value;
    var s2 := Next(s1, DogAcquire).value;
    Runs.Two(Next, s, Breach(reason), s1, DogAcquire, s2);
    RecordLands(s2, reason);
    Runs.Concat(Next, s, [Breach(reason), DogAcquire], RECORD, s2);
  }

  lemma RecordLands(s: State, reason: nat)
    requires !s.exited && s.dog == Recording(reason, true)
    ensures var run := Exec(s, RECORD); run.Some? && run.value.identity == s.identity && Recorded(run.value, reason)
  {
    var s1 := Next(s, DogOpen).value;
    var s2 := Next(s1, DogFill).value;
    Runs.Two(Next, s, DogOpen, s1, DogFill, s2);
    LandingExits(s2, reason);
    Runs.Concat(Next, s, [DogOpen, DogFill], [DogRename, DogRelease] + [HardExit], s2);
  }

  lemma LandingExits(s: State, reason: nat)
    requires !s.exited && s.dog == Landing(reason, true) && s.dogTmp == Whole(s.identity, Aborted(reason))
    ensures var run := Exec(s, [DogRename, DogRelease] + [HardExit]);
      run.Some? && run.value.identity == s.identity && Recorded(run.value, reason)
  {
    var s1 := Next(s, DogRename).value;
    var s2 := Next(s1, DogRelease).value;
    var s3 := Next(s2, HardExit).value;
    Runs.Two(Next, s, DogRename, s1, DogRelease, s2);
    Runs.One(Next, s2, HardExit, s3);
    Runs.Concat(Next, s, [DogRename, DogRelease], [HardExit], s2);
  }

  // ----- how the main thread ends -----

  /** Stopping the watchdog and exiting leave the path alone. */
  lemma CloseExits(s: State, code: int)
    requires !s.exited && s.main == Closing
    ensures Exec(s, [Stop, MainExit(code)]) == Some(s.(stop := true, main := Joining, exited := true, exitCode := code))
  {
    var s1 := Next(s, Stop).value;
    var s2 := Next(s1, MainExit(code)).value;
    Runs.Two(Next, s, Stop, s1, MainExit(code), s2);
  }

  /** A crash writes nothing. */
  lemma CrashExits(s: State, code: int)
    requires !s.exited && s.main == Working
    ensures var run := Exec(s, [Crash] + [Stop, MainExit(code)]);
      run.Some? && run.value.artifact == s.artifact && run.value.exited && run.value.exitCode == code
  {
    var s1 := Next(s, Crash).value;
    CloseExits(s1, code);
    Runs.Prepend(Next, s, Crash, s1, [Stop, MainExit(code)]);
  }

  /** A stopped watchdog that has found no breach never records one. */
  lemma StoppedStaysQuiet(s: State, a: Action)
    requires FlagInv(s) && s.dog == Stopped && Next(s, a).Some?
    ensures Next(s, a).value.dog == Stopped && Next(s, a).value.breach == s.breach
  {
  }

  /** The breach path only goes on without the lock while the main thread holds it. */
  lemma TimeoutNeedsHolder(initial: File, s: State)
    requires Inv(initial, s) && !s.exited
    ensures Next(s, DogTimeout).Some? <==> s.dog.Flagged? && s.lock == ByMain && InCritical(s.main)
  {
  }
}
