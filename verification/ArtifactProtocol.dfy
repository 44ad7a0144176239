/**
 The two writers of one bench artifact: the worker's main thread (checkpoints and its final
 result, bench/worker.py and bench/checkpoint.py) and the memory watchdog's breach record
 (core/guards.py), which share a lock with a timeout and a breach flag (bench/artifacts.py)
 and one of which ends in a hard exit.

 Each action below is one atomic effect of one thread; a run is any interleaving of them,
 cut off at any point by a kill.
 */
module ArtifactProtocol {
  import opened Options
  import Runs

  datatype Status = Done | Refused | RefusedEnvironment | CheckpointedPartial | Aborted(reason: nat)

  /** A file as a reader finds it. Torn: created, but not (yet) written as a whole. */
  datatype File = Absent | Torn | Whole(identity: nat, status: Status)

  datatype Lock = Free | ByMain | ByDog

  /** write_result_unless_breached (aware) or plain write_result, step by step. */
  datatype Main =
    | Starting
    | Working
    | Waiting(status: Status)
    | Checking(status: Status)
    | Writing(status: Status)
    | Filling(status: Status)
    | Renaming(status: Status)
    | Releasing(status: Status, failed: bool)
    | Closing
    | Joining

  datatype Dog =
    | NotStarted
    | Armed
    | Flagged(reason: nat)
    | Recording(reason: nat, locked: bool)
    | Finishing(reason: nat, locked: bool)
    | Landing(reason: nat, locked: bool)
    | Unlocking(locked: bool)
    | Exiting
    | Stopped

  /** Whether and how the breach record reached the artifact path. */
  datatype Landed = NotYet | UnderLock(reason: nat) | AfterTimeout(reason: nat)

  datatype State = State(identity: nat, artifact: File, mainTmp: File, dogTmp: File, lock: Lock, breach: bool,
                         stop: bool, main: Main, dog: Dog, landed: Landed, mainLandings: nat, exited: bool,
                         exitCode: int)

  datatype Action =
    | RefuseStart | StartWatch | Poll | Finish(status: Status) | Crash
    | MainAcquire | MainCheck | MainOpen | MainFill | MainRename | MainFails | MainRelease | Stop | MainExit(code: int)
    | Breach(reason: nat) | DogStops | DogAcquire | DogTimeout | DogGivesUp
    | DogOpen | DogFill | DogRename | DogFails | DogRelease
    | HardExit | Kill

  /** A worker about to start, over whatever the artifact path holds. */
  function Init(identity: nat, artifact: File): State {
    State(identity, artifact, Absent, Absent, Free, false, false, Starting, NotStarted, NotYet, 0, false, 0)
  }

  /** Plain write_result is only used before there is a watchdog; it does not look at the flag. */
  predicate Aware(status: Status) {
    status != RefusedEnvironment
  }

  /** The main thread has passed its flag check and not yet renamed. */
  predicate PastCheck(m: Main) {
    m.Writing? || m.Filling? || m.Renaming?
  }

  /** The steps of the main thread; any of its file operations may fail. */
  function MainNext(s: State, a: Action): Option<State> {
    match a
    case RefuseStart =>
      if s.main.Starting? then Some(s.(main := Waiting(RefusedEnvironment))) else None
    case StartWatch =>
      if s.main.Starting? then Some(s.(main := Working, dog := Armed)) else None
    case Poll =>
      if s.main.Working? then Some(s.(main := Waiting(CheckpointedPartial))) else None
    case Finish(status) =>
      if s.main.Working? && (status == Done || status == Refused) then Some(s.(main := Waiting(status))) else None
    case Crash =>
      if s.main.Working? then Some(s.(main := Closing)) else None
    case MainAcquire =>
      if s.main.Waiting? && s.lock == Free then
        var status := s.main.status;
        Some(s.(lock := ByMain, main := if Aware(status) then Checking(status) else Writing(status)))
      else None
    case MainCheck =>
      if s.main.Checking?
      then Some(s.(main := if s.breach then Releasing(s.main.status, false) else Writing(s.main.status)))
      else None
    case MainOpen =>
      if s.main.Writing? then Some(s.(mainTmp := Torn, main := Filling(s.main.status))) else None
    case MainFill =>
      if s.main.Filling?
      then Some(s.(mainTmp := Whole(s.identity, s.main.status), main := Renaming(s.main.status))) else None
    case MainRename =>
      if s.main.Renaming?
      then Some(s.(artifact := s.mainTmp, mainTmp := Absent, main := Releasing(s.main.status, false),
                   mainLandings := s.mainLandings + 1))
      else None
    case MainFails =>
      if PastCheck(s.main) then Some(s.(main := Releasing(s.main.status, true))) else None
    case MainRelease =>
      if s.main.Releasing?
      then Some(s.(lock := Free, main := if s.main.status == CheckpointedPartial then Working else Closing)) else None
    case Stop =>
      if s.main.Closing? then Some(s.(stop := true, main := Joining)) else None
    case MainExit(code) =>
      if s.main.Joining? then Some(s.(exited := true, exitCode := code)) else None
    case _ => None
  }

  /** The steps of the watchdog thread. */
  function DogNext(s: State, a: Action): Option<State> {
    match a
    case DogStops =>
      if s.dog.Armed? && s.stop then Some(s.(dog := Stopped)) else None
    case Breach(reason) =>
      if s.dog.Armed? then Some(s.(breach := true, dog := Flagged(reason))) else None
    case DogAcquire =>
      if s.dog.Flagged? && s.lock == Free then Some(s.(lock := ByDog, dog := Recording(s.dog.reason, true))) else None
    case DogTimeout =>
      if s.dog.Flagged? && s.lock != Free then Some(s.(dog := Recording(s.dog.reason, false))) else None
    case DogGivesUp =>
      if s.dog.Flagged? then Some(s.(dog := Exiting)) else None
    case DogOpen =>
      if s.dog.Recording? then Some(s.(dogTmp := Torn, dog := Finishing(s.dog.reason, s.dog.locked))) else None
    case DogFill =>
      if s.dog.Finishing?
      then Some(s.(dogTmp := Whole(s.identity, Aborted(s.dog.reason)), dog := Landing(s.dog.reason, s.dog.locked)))
      else None
    case DogRename =>
      if s.dog.Landing?
      then Some(s.(artifact := s.dogTmp, dogTmp := Absent, dog := Unlocking(s.dog.locked),
                   landed := if s.dog.locked then UnderLock(s.dog.reason) else AfterTimeout(s.dog.reason)))
      else None
    case DogFails =>
      if s.dog.Recording? || s.dog.Finishing? || s.dog.Landing? then Some(s.(dog := Unlocking(s.dog.locked))) else None
    case DogRelease =>
      if s.dog.Unlocking? then Some(s.(lock := if s.dog.locked then Free else s.lock, dog := Exiting)) else None
    case HardExit =>
      if s.dog.Exiting? then Some(s.(exited := true, exitCode := 70)) else None
    case _ => None
  }

  /** One step of the process; none once it has exited or been killed. */
  function Next(s: State, a: Action): Option<State> {
    if s.exited then None
    else if a.Kill? then Some(s.(exited := true, exitCode := -9))
    else if MainNext(s, a).Some? then MainNext(s, a) else DogNext(s, a)
  }

  /** The state after a run, if every action of it can be taken. */
  function Exec(s: State, acts: seq<Action>): Option<State> {
    Runs.Exec(Next, s, acts)
  }

  // ----- the invariant -----

  predicate InCritical(m: Main) {
    m.Checking? || PastCheck(m) || m.Releasing?
  }

  predicate DogLocked(d: Dog) {
    (d.Recording? || d.Finishing? || d.Landing? || d.Unlocking?) && d.locked
  }

  predicate Late(d: Dog) {
    d.Flagged? || d.Recording? || d.Finishing? || d.Landing? || d.Unlocking? || d.Exiting?
  }

  /** Only these four statuses are ever written by the main thread. */
  predicate MainStatus(status: Status) {
    !status.Aborted?
  }

  predicate Complete(identity: nat, initial: File, f: File) {
    f == initial || (f.Whole? && f.identity == identity)
  }

  /** The lock is held by exactly the thread inside its critical section. */
  predicate LockInv(s: State) {
    && (s.lock == ByMain <==> InCritical(s.main))
    && (s.lock == ByDog <==> DogLocked(s.dog))
  }

  /**
   The flag is set exactly when the watchdog has detected a breach, before anything else it does;
   the main thread never writes a breach record, nor the plain refusal once there is a watchdog.
   */
  predicate FlagInv(s: State) {
    && (s.breach <==> Late(s.dog))
    && (s.main.Starting? ==> s.dog.NotStarted?)
    && ((s.main.Waiting? || InCritical(s.main)) && s.main.status == RefusedEnvironment ==> s.dog.NotStarted?)
    && ((s.main.Waiting? || InCritical(s.main)) ==> MainStatus(s.main.status))
  }

  /** A rename always moves a complete record. */
  predicate WholeInv(initial: File, s: State) {
    && (s.main.Renaming? ==> s.mainTmp == Whole(s.identity, s.main.status))
    && (s.dog.Landing? ==> s.dogTmp == Whole(s.identity, Aborted(s.dog.reason)))
    && Complete(s.identity, initial, s.artifact)
  }

  /** The breach record, once landed under the lock, stands. */
  predicate LandedInv(s: State) {
    && (s.landed != NotYet ==> s.dog.Unlocking? || s.dog.Exiting?)
    && (s.landed.UnderLock? ==> !PastCheck(s.main) && s.artifact == Whole(s.identity, Aborted(s.landed.reason)))
    && (s.landed.AfterTimeout? && s.artifact != Whole(s.identity, Aborted(s.landed.reason)) ==>
         !PastCheck(s.main) && s.mainLandings > 0 && s.artifact.Whole? && MainStatus(s.artifact.status))
  }

  predicate Inv(initial: File, s: State) {
    LockInv(s) && FlagInv(s) && WholeInv(initial, s) && LandedInv(s)
  }

  lemma InvInit(identity: nat, initial: File)
    ensures Inv(initial, Init(identity, initial))
  {
  }

  lemma LockStep(s: State, t: State, a: Action)
    requires LockInv(s) && FlagInv(s) && Next(s, a) == Some(t)
    ensures LockInv(t)
  {
  }

  lemma FlagStep(s: State, t: State, a: Action)
    requires FlagInv(s) && Next(s, a) == Some(t)
    ensures FlagInv(t)
  {
  }

  lemma WholeStep(initial: File, s: State, t: State, a: Action)
    requires WholeInv(initial, s) && Next(s, a) == Some(t)
    ensures WholeInv(initial, t) && t.identity == s.identity
  {
  }

  lemma LandedStep(initial: File, s: State, t: State, a: Action)
    requires Inv(initial, s) && Next(s, a) == Some(t)
    ensures LandedInv(t)
  {
    if !a.Kill? {
      if MainNext(s, a).Some? { LandedMainStep(initial, s, t, a); } else { LandedDogStep(initial, s, t, a); }
    }
  }

  lemma LandedMainStep(initial: File, s: State, t: State, a: Action)
    requires Inv(initial, s) && MainNext(s, a) == Some(t)
    ensures LandedInv(t)
  {
  }

  lemma LandedDogStep(initial: File, s: State, t: State, a: Action)
    requires Inv(initial, s) && DogNext(s, a) == Some(t)
    ensures LandedInv(t)
  {
  }

  lemma InvStep(initial: File, s: State, a: Action)
    requires Inv(initial, s) && Next(s, a).Some?
    ensures Inv(initial, Next(s, a).value) && Next(s, a).value.identity == s.identity
  {
    var t := Next(s, a).value;
    LockStep(s, t, a);
    FlagStep(s, t, a);
    WholeStep(initial, s, t, a);
    LandedStep(initial, s, t, a);
  }

  lemma {:induction false} InvExec(initial: File, s: State, acts: seq<Action>)
    requires Inv(initial, s) && Exec(s, acts).Some?
    ensures Inv(initial, Exec(s, acts).value) && Exec(s, acts).value.identity == s.identity
    decreases |acts|
  {
    if acts != [] {
      InvStep(initial, s, acts[0]);
      InvExec(initial, Next(s, acts[0]).value, acts[1..]);
    }
  }

  /** Every state of every run. */
  ghost predicate Reachable(identity: nat, initial: File, s: State) {
    exists acts: seq<Action> :: Exec(Init(identity, initial), acts) == Some(s)
  }

  lemma ReachableInv(identity: nat, initial: File, s: State)
    requires Reachable(identity, initial, s)
    ensures Inv(initial, s) && s.identity == identity
  {
    var acts: seq<Action> :| Exec(Init(identity, initial), acts) == Some(s);
    InvInit(identity, initial);
    InvExec(initial, Init(identity, initial), acts);
  }

  // ----- what every run keeps -----

  /**
   At every point of every run, inside a write or after a failed one, the artifact path holds what
   it held before or one complete record of this worker.
   */
  lemma ArtifactNeverTorn(identity: nat, initial: File, s: State)
    requires Reachable(identity, initial, s)
    ensures s.artifact == initial || (s.artifact.Whole? && s.artifact.identity == identity)
  {
    ReachableInv(identity, initial, s);
  }

  /** Whatever happens next, the breach record stays. */
  lemma {:induction false} BreachRecordStands(initial: File, s: State, acts: seq<Action>)
    requires Inv(initial, s) && s.landed.UnderLock? && Exec(s, acts).Some?
    ensures Exec(s, acts).value.landed == s.landed
    ensures Exec(s, acts).value.artifact == Whole(s.identity, Aborted(s.landed.reason))
    decreases |acts|
  {
    if acts != [] {
      InvStep(initial, s, acts[0]);
      BreachRecordStands(initial, Next(s, acts[0]).value, acts[1..]);
    }
  }

  /** From s to t, the main thread landed nothing. */
  ghost predicate MainIsMute(s: State, t: State) {
    && t.breach && !PastCheck(t.main)
    && t.mainLandings == s.mainLandings
    && (t.artifact == s.artifact || (t.artifact.Whole? && t.artifact.status.Aborted?))
  }

  lemma MuteStep(initial: File, s: State, a: Action)
    requires Inv(initial, s) && s.breach && !PastCheck(s.main) && Next(s, a).Some?
    ensures MainIsMute(s, Next(s, a).value)
  {
  }

  /** No write of the main thread whose flag check follows the breach ever lands. */
  lemma {:induction false} NoLateMainWrite(initial: File, s: State, acts: seq<Action>)
    requires Inv(initial, s) && s.breach && !PastCheck(s.main) && Exec(s, acts).Some?
    ensures MainIsMute(s, Exec(s, acts).value)
    decreases |acts|
  {
    if acts != [] {
      InvStep(initial, s, acts[0]);
      MuteStep(initial, s, acts[0]);
      NoLateMainWrite(initial, Next(s, acts[0]).value, acts[1..]);
    }
  }

  /** A landed breach record is only ever missing when the lock timed out under a main write. */
  lemma OnlyTimeoutLosesTheRecord(identity: nat, initial: File, s: State, reason: nat)
    requires Reachable(identity, initial, s)
    requires s.landed == UnderLock(reason) || s.landed == AfterTimeout(reason)
    ensures s.artifact != Whole(identity, Aborted(reason)) ==>
      s.landed.AfterTimeout? && s.mainLandings > 0 && s.artifact.Whole? && MainStatus(s.artifact.status)
  {
    ReachableInv(identity, initial, s);
  }

  predicate DogAction(a: Action) {
    a.DogAcquire? || a.DogTimeout? || a.DogOpen? || a.DogFill? || a.DogRename? || a.DogRelease? || a.HardExit?
  }

  function StepsToExit(d: Dog): nat {
    match d
    case Flagged(_) => 5
    case Recording(_, _) => 4
    case Finishing(_, _) => 3
    case Landing(_, _) => 2
    case Unlocking(_) => 1
    case _ => 0
  }

  /** What the watchdog does next if nothing fails. */
  function NextOfDog(s: State): Action {
    match s.dog
    case Flagged(_) => if s.lock == Free then DogAcquire else DogTimeout
    case Recording(_, _) => DogOpen
    case Finishing(_, _) => DogFill
    case Landing(_, _) => DogRename
    case Unlocking(_) => DogRelease
    case _ => HardExit
  }

  lemma DogProgress(s: State)
    requires s.breach && !s.exited && FlagInv(s)
    ensures DogAction(NextOfDog(s)) && Next(s, NextOfDog(s)).Some?
    ensures var t := Next(s, NextOfDog(s)).value;
      if NextOfDog(s) == HardExit then t.exited && t.exitCode == 70
      else t.breach && !t.exited && StepsToExit(t.dog) < StepsToExit(s.dog)
  {
  }

  /** Once a breach is flagged, the watchdog alone reaches the hard exit, whatever the main thread holds. */
  lemma HardExitAlwaysReachable(initial: File, s: State) returns (acts: seq<Action>)
    requires Inv(initial, s) && s.breach && !s.exited
    ensures forall a :: a in acts ==> DogAction(a)
    ensures Exec(s, acts).Some? && Exec(s, acts).value.exited && Exec(s, acts).value.exitCode == 70
    decreases StepsToExit(s.dog)
  {
    var a, rest := NextOfDog(s), [];
    var t := Next(s, a).value;
    DogProgress(s);
    if a != HardExit {
      InvStep(initial, s, a);
      rest := HardExitAlwaysReachable(initial, t);
    } else {
      assert Exec(t, []) == Some(t);
    }
    Runs.Prepend(Next, s, a, t, rest);
    acts := [a] + rest;
  }

  // ----- can a breached run end as a fresh result? -----

  /** result_is_fresh will accept the artifact: an ok record of this very identity. */
  predicate FreshOk(s: State) {
    s.artifact == Whole(s.identity, Done)
  }

  /** The main thread is mid-write with the final ok record. */
  predicate WritingOk(s: State) {
    PastCheck(s.main) && s.main.status == Done
  }

  lemma NotFreshStep(initial: File, s: State, a: Action)
    requires Inv(initial, s) && s.breach && !FreshOk(s) && !WritingOk(s) && Next(s, a).Some?
    ensures var t := Next(s, a).value; t.breach && !FreshOk(t) && !WritingOk(t)
  {
  }

  lemma {:induction false} NotFreshStays(initial: File, s: State, acts: seq<Action>)
    requires Inv(initial, s) && s.breach && !FreshOk(s) && !WritingOk(s) && Exec(s, acts).Some?
    ensures !FreshOk(Exec(s, acts).value)
    decreases |acts|
  {
    if acts != [] {
      InvStep(initial, s, acts[0]);
      NotFreshStep(initial, s, acts[0]);
      NotFreshStays(initial, Next(s, acts[0]).value, acts[1..]);
    }
  }

  lemma WritingOkLands(s: State) returns (acts: seq<Action>)
    requires WritingOk(s) && !s.exited && (s.main.Renaming? ==> s.mainTmp == Whole(s.identity, Done))
    ensures Exec(s, acts).Some? && FreshOk(Exec(s, acts).value) && Exec(s, acts).value.identity == s.identity
    decreases if s.main.Renaming? then 0 else if s.main.Filling? then 1 else 2
  {
    var a := if s.main.Renaming? then MainRename else if s.main.Filling? then MainFill else MainOpen;
    var t := Next(s, a).value;
    var rest := [];
    if s.main.Renaming? {
      assert Exec(t, []) == Some(t);
    } else {
      rest := WritingOkLands(t);
    }
    Runs.Prepend(Next, s, a, t, rest);
    acts := [a] + rest;
  }

  /**
   After a breach the path can hold an ok record that counts as fresh, now or later, exactly when
   it already does or the main thread has passed its flag check with the final ok record: whether
   both outcomes of a timed-out breach are retried depends on which writer stalled.
   */
  lemma FreshAfterBreachIff(initial: File, s: State)
    requires Inv(initial, s) && s.breach && !s.exited
    ensures (exists acts: seq<Action> :: Exec(s, acts).Some? && FreshOk(Exec(s, acts).value))
       <==> FreshOk(s) || WritingOk(s)
  {
    if FreshOk(s) {
      assert Exec(s, []) == Some(s);
    } else if WritingOk(s) {
      var acts := WritingOkLands(s);
      assert FreshOk(Exec(s, acts).value);
    } else {
      forall acts: seq<Action> | Exec(s, acts).Some? ensures !FreshOk(Exec(s, acts).value) {
        NotFreshStays(initial, s, acts);
      }
    }
  }

  /** A main thread about to rename its final ok record, and a watchdog that has flagged a breach. */
  predicate Overlapping(s: State, reason: nat) {
    && !s.exited && s.lock == ByMain
    && s.main == Renaming(Done) && s.mainTmp == Whole(s.identity, Done)
    && s.dog == Flagged(reason)
  }

  /** From any such state: the breach record lands after the timeout, ok replaces it, and the process exits 70. */
  lemma TimedOutBreachReplaced(s: State, reason: nat) returns (acts: seq<Action>)
    requires Overlapping(s, reason)
    ensures Exec(s, acts).Some?
    ensures var t := Exec(s, acts).value;
      t.landed == AfterTimeout(reason) && t.exited && t.exitCode == 70 && t.artifact == Whole(s.identity, Done)
  {
    var mid := BreachLandsLate(s, reason);
    var s1 := Next(mid, MainRename).value;
    var s2 := Next(s1, DogRelease).value;
    var s3 := Next(s2, HardExit).value;
    var late := [DogTimeout, DogOpen] + [DogFill, DogRename];
    Runs.Two(Next, s1, DogRelease, s2, HardExit, s3);
    Runs.Prepend(Next, mid, MainRename, s1, [DogRelease, HardExit]);
    Runs.Concat(Next, s, late, [MainRename] + [DogRelease, HardExit], mid);
    acts := late + ([MainRename] + [DogRelease, HardExit]);
  }

  lemma BreachLandsLate(s: State, reason: nat) returns (mid: State)
    requires Overlapping(s, reason)
    ensures Exec(s, [DogTimeout, DogOpen] + [DogFill, DogRename]) == Some(mid)
    ensures mid.landed == AfterTimeout(reason) && mid.dog == Unlocking(false) && !mid.exited
    ensures mid.main == s.main && mid.mainTmp == s.mainTmp && mid.identity == s.identity
  {
    var begun := BreachOpensLate(s, reason);
    var filled := Next(begun, DogFill).value;
    mid := Next(filled, DogRename).value;
    Runs.Two(Next, begun, DogFill, filled, DogRename, mid);
    Runs.Concat(Next, s, [DogTimeout, DogOpen], [DogFill, DogRename], begun);
  }

  lemma BreachOpensLate(s: State, reason: nat) returns (begun: State)
    requires Overlapping(s, reason)
    ensures Exec(s, [DogTimeout, DogOpen]) == Some(begun)
    ensures begun.dog == Finishing(reason, false) && !begun.exited
    ensures begun.main == s.main && begun.mainTmp == s.mainTmp && begun.identity == s.identity
  {
    var late := Next(s, DogTimeout).value;
    begun := Next(late, DogOpen).value;
    Runs.Two(Next, s, DogTimeout, late, DogOpen, begun);
  }

  lemma ReachesOverlap(s0: State, reason: nat) returns (acts: seq<Action>, s: State)
    requires s0 == Init(s0.identity, s0.artifact)
    ensures Overlapping(s, reason) && s.identity == s0.identity && Exec(s0, acts) == Some(s)
  {
    var mid := ReachesWrite(s0);
    var s4 := Next(mid, MainOpen).value;
    var s5 := Next(s4, MainFill).value;
    s := Next(s5, Breach(reason)).value;
    var before := [StartWatch, Finish(Done)] + [MainAcquire, MainCheck];
    Runs.Two(Next, s4, MainFill, s5, Breach(reason), s);
    Runs.Prepend(Next, mid, MainOpen, s4, [MainFill, Breach(reason)]);
    Runs.Concat(Next, s0, before, [MainOpen] + [MainFill, Breach(reason)], mid);
    acts := before + ([MainOpen] + [MainFill, Breach(reason)]);
  }

  lemma ReachesWrite(s0: State) returns (mid: State)
    requires s0 == Init(s0.identity, s0.artifact)
    ensures Exec(s0, [StartWatch, Finish(Done)] + [MainAcquire, MainCheck]) == Some(mid)
    ensures mid.main == Writing(Done) && mid.dog == Armed && mid.lock == ByMain && !mid.breach && !mid.exited
    ensures mid.identity == s0.identity
  {
    var s1 := Next(s0, StartWatch).value;
    var s2 := Next(s1, Finish(Done)).value;
    var s3 := Next(s2, MainAcquire).value;
    mid := Next(s3, MainCheck).value;
    Runs.Two(Next, s0, StartWatch, s1, Finish(Done), s2);
    Runs.Two(Next, s2, MainAcquire, s3, MainCheck, mid);
    Runs.Concat(Next, s0, [StartWatch, Finish(Done)], [MainAcquire, MainCheck], s2);
  }

  /** Such runs exist over any earlier artifact: a breach is recorded, and the path ends up holding ok. */
  lemma TimedOutBreachCanEndOk(identity: nat, initial: File, reason: nat) returns (acts: seq<Action>)
    ensures Exec(Init(identity, initial), acts).Some?
    ensures var t := Exec(Init(identity, initial), acts).value;
      t.landed == AfterTimeout(reason) && t.exited && t.exitCode == 70 && t.artifact == Whole(identity, Done)
  {
    var before, s := ReachesOverlap(Init(identity, initial), reason);
    var after := TimedOutBreachReplaced(s, reason);
    Runs.Concat(Next, Init(identity, initial), before, after, s);
    acts := before + after;
  }
}
