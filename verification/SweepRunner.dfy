/**
 The resumable condition sweep (bench/runner.py): fresh results are skipped, every other
 condition gets one worker process, and the runner only fills in for workers that left nothing.
 */
module SweepRunner {
  import opened Options

  datatype Status =
    | Ok
    | Refused | RefusedEnvironment | CheckpointedPartial | Aborted
    | AbortedExternalGuard
    | Error(kind: ErrorKind)

  datatype ErrorKind = WorkerCrashed | WorkerExitedWithoutArtifact | GuardClientError | SupervisorReportedFailure

  /** What a reader finds at an artifact path. Corrupt: does not parse. */
  datatype File = Absent | Corrupt | Record(identity: nat, status: Status)

  /** A condition's name is its artifact's file name; its identity is fixed by its parameters and the session. */
  datatype Condition = Condition(name: string, identity: nat)

  /**
   What one worker process does: its exit code and the record it leaves, if any. Interrupted: the
   runner is interrupted while it waits for a worker it launched directly.
   */
  datatype Worker = Worker(returncode: int, wrote: Option<Status>, interrupted: bool)

  datatype OutcomeKind = ChildExited | ChildSignaled | PolicyIntervention | OtherOutcome

  datatype Import = Available | PackageMissing | ForeignError

  /** mlx_guard.start: only discovery errors prove that no supervisor came up. */
  datatype Start = Supervised | DiscoveryError | StartError(workerUp: bool) | StartInterrupted(workerUp: bool)

  datatype Wait = Report(kind: OutcomeKind) | Unsummarized | WaitError | Interrupted

  /** The environment's choices for one condition. `worker` is what its process does if one runs. */
  datatype World = World(worker: Worker, supervisorCode: int, guardImport: Import, start: Start, wait: Wait)

  /** result_is_fresh */
  predicate Fresh(f: File, identity: nat) {
    f.Record? && f.status == Ok && f.identity == identity
  }

  /** GuardedWorkerResult: the process is absent when the guard client failed first. */
  datatype Guarded = Guarded(process: Option<int>, fallback: bool, clientError: bool, outcome: Option<OutcomeKind>)

  /** The worker is launched directly: no guard is asked for, or no supervisor can exist. */
  predicate LaunchedDirectly(guarded: bool, w: World) {
    !guarded || FellBack(w)
  }

  predicate FellBack(w: World) {
    w.guardImport == PackageMissing || (w.guardImport == Available && w.start == DiscoveryError)
  }

  /** Whether a worker process ran for the condition. */
  predicate WorkerRan(guarded: bool, w: World) {
    || LaunchedDirectly(guarded, w)
    || (w.guardImport == Available
        && (w.start == Supervised || w.start == StartError(true) || w.start == StartInterrupted(true)))
  }

  /** run_conditions gets to the end of this condition without an exception. */
  predicate Completes(guarded: bool, w: World) {
    if LaunchedDirectly(guarded, w) then !w.worker.interrupted
    else w.guardImport == Available && !w.start.StartInterrupted? && (w.start == Supervised ==> w.wait != Interrupted)
  }

  /** How a launch without a worker's own record ends, from the exit code the runner sees. */
  function ByExitCode(returncode: int): Status {
    Error(if returncode != 0 then WorkerCrashed else WorkerExitedWithoutArtifact)
  }

  /** What the artifact says after a launch that completed. */
  function Settled(guarded: bool, w: World): Status {
    if WorkerRan(guarded, w) && w.worker.wrote.Some? then w.worker.wrote.value
    else if LaunchedDirectly(guarded, w) then ByExitCode(w.worker.returncode)
    else if w.start.StartError? || w.wait == WaitError then Error(GuardClientError)
    else if w.wait == Report(PolicyIntervention) then AbortedExternalGuard
    else if w.wait == Report(OtherOutcome) then Error(SupervisorReportedFailure)
    else ByExitCode(w.supervisorCode)
  }

  /** The exit code the runner gets to see, under a guard. */
  function ProcessSeen(w: World): Option<int> {
    if FellBack(w) then Some(w.worker.returncode)
    else if w.start.StartError? || w.wait == WaitError then None
    else Some(w.supervisorCode)
  }

  /** The supervisor's report, if it could be summarized. */
  function OutcomeSeen(w: World): Option<OutcomeKind> {
    if w.guardImport == Available && w.start == Supervised && w.wait.Report? then Some(w.wait.kind) else None
  }

  /** The runner never makes up an ok: an ok artifact after a launch is the worker's own. */
  lemma OkIsTheWorkers(guarded: bool, w: World)
    ensures Settled(guarded, w) == Ok <==> WorkerRan(guarded, w) && w.worker.wrote == Some(Ok)
  {
  }

  // ----- an attempt in the world's own terms -----

  /** A supervisor came up for the worker. */
  predicate UnderSupervisor(guarded: bool, w: World) {
    guarded && w.guardImport == Available && w.start == Supervised
  }

  /** The guard client failed: it could not start the supervisor, or it failed while it waited. */
  predicate ClientFailed(guarded: bool, w: World) {
    guarded && w.guardImport == Available && (w.start.StartError? || (w.start == Supervised && w.wait == WaitError))
  }

  /** The runner was stopped: an import error of something else, or an interrupt at any of its waits. */
  predicate Stopped(guarded: bool, w: World) {
    if !guarded || w.guardImport == PackageMissing then w.worker.interrupted
    else if w.guardImport == ForeignError then true
    else
      match w.start
      case DiscoveryError => w.worker.interrupted
      case StartError(_) => false
      case StartInterrupted(_) => true
      case Supervised => w.wait == Interrupted
  }

  /** How the artifact of a completed attempt reads when no worker left a record, cause by cause. */
  predicate SettlesAs(guarded: bool, w: World, status: Status) {
    && (status == AbortedExternalGuard <==> UnderSupervisor(guarded, w) && w.wait == Report(PolicyIntervention))
    && (status == Error(SupervisorReportedFailure) <==>
         UnderSupervisor(guarded, w) && w.wait == Report(OtherOutcome))
    && (status == Error(GuardClientError) <==> ClientFailed(guarded, w))
    && (status == Error(WorkerCrashed) || status == Error(WorkerExitedWithoutArtifact) <==>
         !ClientFailed(guarded, w)
         && !(UnderSupervisor(guarded, w) && w.wait in {Report(PolicyIntervention), Report(OtherOutcome)}))
    && (status == Error(WorkerCrashed) ==>
         (if UnderSupervisor(guarded, w) then w.supervisorCode else w.worker.returncode) != 0)
    && (status == Error(WorkerExitedWithoutArtifact) ==>
         (if UnderSupervisor(guarded, w) then w.supervisorCode else w.worker.returncode) == 0)
  }

  /** A worker runs unless an import error or a failed or interrupted start came before it. */
  lemma WorkerRanIff(guarded: bool, w: World)
    ensures WorkerRan(guarded, w) <==>
      !guarded || w.guardImport == PackageMissing
      || (w.guardImport == Available && w.start != StartError(false) && w.start != StartInterrupted(false))
  {
  }

  lemma CompletesIff(guarded: bool, w: World)
    ensures Completes(guarded, w) <==> !Stopped(guarded, w)
  {
  }

  lemma SettledSpelledOut(guarded: bool, w: World)
    requires Completes(guarded, w)
    ensures WorkerRan(guarded, w) && w.worker.wrote.Some? ==> Settled(guarded, w) == w.worker.wrote.value
    ensures !(WorkerRan(guarded, w) && w.worker.wrote.Some?) ==> SettlesAs(guarded, w, Settled(guarded, w))
  {
  }

  /**
   One iteration of the sweep. An ok record of the condition's own identity is kept and nothing is
   launched. Otherwise there is one attempt; it starts one worker unless an import error or a failed
   start came first; an unsupervised one under a guard only while no supervisor can exist, that is
   without the package or after a discovery error at the start; and if nothing stopped the runner, the
   artifact is the worker's record if it left one, and says what happened if it did not.
   */
  lemma AttemptOutcome(c: Condition, guarded: bool, w: World, s: Snap, t: Snap, raised: bool)
    requires OneStep(c, guarded, w, s, t, raised)
    ensures Lookup(s.files, c.name) == Record(c.identity, Ok) ==> t == s && !raised
    ensures Lookup(s.files, c.name) != Record(c.identity, Ok) ==>
      var ran := !guarded || w.guardImport == PackageMissing
        || (w.guardImport == Available && w.start != StartError(false) && w.start != StartInterrupted(false));
      var alone := guarded
        && (w.guardImport == PackageMissing || (w.guardImport == Available && w.start == DiscoveryError));
      && (raised <==> Stopped(guarded, w))
      && t.attempts == s.attempts + multiset{c.name}
      && t.workers == s.workers + (if ran then multiset{c.name} else multiset{})
      && t.unsupervised == s.unsupervised + (if alone then multiset{c.name} else multiset{})
      && (!raised ==>
           var f := Lookup(t.files, c.name);
           && f.Record? && f.identity == c.identity
           && (if ran && w.worker.wrote.Some? then f.status == w.worker.wrote.value
               else SettlesAs(guarded, w, f.status)))
      && (raised && ran && w.worker.wrote.Some? ==>
           Lookup(t.files, c.name) == Record(c.identity, w.worker.wrote.value))
      && (raised && !(ran && w.worker.wrote.Some?) ==> Lookup(t.files, c.name) == Absent)
      && forall name :: name != c.name ==> Lookup(t.files, name) == Lookup(s.files, name)
  {
    WorkerRanIff(guarded, w);
    CompletesIff(guarded, w);
    if Completes(guarded, w) { SettledSpelledOut(guarded, w); }
  }

  class Sweep {
    /** The artifact directory. */
    var files: map<string, File>
    /** Launches attempted, worker processes started, and those started without a supervisor, by condition name. */
    var attempts: multiset<string>
    var workers: multiset<string>
    var unsupervised: multiset<string>

    constructor (files: map<string, File>)
      ensures this.files == files && attempts == workers == unsupervised == multiset{}
    {
      this.files := files;
      attempts, workers, unsupervised := multiset{}, multiset{}, multiset{};
    }

    function FileOf(name: string): File
      reads this
    {
      if name in files then files[name] else Absent
    }

    /** A worker process runs and may leave its record. */
    method RunWorker(c: Condition, w: Worker)
      modifies `files, `workers
      ensures workers == old(workers) + multiset{c.name} && unsupervised == old(unsupervised)
      ensures files == if w.wrote.Some? then old(files)[c.name := Record(c.identity, w.wrote.value)] else old(files)
    {
      workers := workers + multiset{c.name};
      if w.wrote.Some? { files := files[c.name := Record(c.identity, w.wrote.value)]; }
    }

    /** _spawn_guarded_worker: direct launch only while no supervisor can exist. */
    method SpawnGuarded(c: Condition, w: World) returns (g: Guarded, raised: bool)
      modifies `files, `workers, `unsupervised
      ensures workers == old(workers) + Started(true, w, c.name)
      ensures unsupervised == old(unsupervised) + Direct(true, w, c.name)
      ensures files == Touched(old(files), c, true, w)
      ensures raised <==> !Completes(true, w)
      ensures !raised ==> (g.process.None? ==> g.clientError) && (g.outcome.Some? ==> g.process.Some? && !g.clientError)
      ensures !raised ==> g.process == ProcessSeen(w) && g.outcome == OutcomeSeen(w)
    {
      g := Guarded(None, false, true, None);
      if w.guardImport == ForeignError { return g, true; }
      if w.guardImport == PackageMissing || w.start == DiscoveryError {
        RunWorker(c, w.worker);
        unsupervised := unsupervised + multiset{c.name};
        return Guarded(Some(w.worker.returncode), true, false, None), w.worker.interrupted;
      }
      if w.start.StartInterrupted? {
        if w.start.workerUp { RunWorker(c, w.worker); }
        return g, true;
      }
      if w.start.StartError? {
        if w.start.workerUp { RunWorker(c, w.worker); }
        return g, false;
      }
      RunWorker(c, w.worker);
      match w.wait
      case WaitError => return g, false;
      case Interrupted => return g, true;
      case Unsummarized => return Guarded(Some(w.supervisorCode), false, true, None), false;
      case Report(kind) => return Guarded(Some(w.supervisorCode), false, false, Some(kind)), false;
    }

    /** write_result from the runner's side. */
    method Envelope(c: Condition, s: Status)
      modifies `files
      ensures files == old(files)[c.name := Record(c.identity, s)]
    {
      files := files[c.name := Record(c.identity, s)];
    }

    /** _launch_under_guard: record what the supervision layer knows, if the worker left nothing. */
    method LaunchUnderGuard(c: Condition, w: World) returns (process: Option<int>, raised: bool)
      requires FileOf(c.name) == Absent
      modifies `files, `workers, `unsupervised
      ensures workers == old(workers) + Started(true, w, c.name)
      ensures unsupervised == old(unsupervised) + Direct(true, w, c.name)
      ensures raised <==> !Completes(true, w)
      ensures raised ==> files == Touched(old(files), c, true, w)
      ensures !raised ==>
        || files == old(files)[c.name := Record(c.identity, Settled(true, w))]
        || (files == old(files) && process.Some? && Settled(true, w) == ByExitCode(process.value))
    {
      var g;
      g, raised := SpawnGuarded(c, w);
      process := g.process;
      if raised { return; }
      if FileOf(c.name) == Absent {
        if g.clientError && g.process.None? {
          Envelope(c, Error(GuardClientError));
        } else if g.outcome == Some(PolicyIntervention) {
          Envelope(c, AbortedExternalGuard);
        } else if g.outcome.Some? && g.outcome.value != ChildExited && g.outcome.value != ChildSignaled {
          Envelope(c, Error(SupervisorReportedFailure));
        }
      }
    }

    ghost function Snapshot(): Snap
      reads this
    {
      Snap(files, attempts, workers, unsupervised)
    }

    /** The body of the sweep loop for one condition. */
    method RunOne(c: Condition, guarded: bool, w: World) returns (raised: bool)
      modifies this
      ensures OneStep(c, guarded, w, old(Snapshot()), Snapshot(), raised)
    {
      raised := false;
      if Fresh(FileOf(c.name), c.identity) { return; }
      files := files - {c.name};
      attempts := attempts + multiset{c.name};
      ghost var before := files;
      var process: Option<int>;
      if !guarded {
        RunWorker(c, w.worker);
        if w.worker.interrupted { return true; }
        process := Some(w.worker.returncode);
      } else {
        process, raised := LaunchUnderGuard(c, w);
        if raised { return; }
      }
      if process.None? {
      } else if process.value != 0 && FileOf(c.name) == Absent {
        Envelope(c, Error(WorkerCrashed));
      } else if process.value == 0 && FileOf(c.name) == Absent {
        Envelope(c, Error(WorkerExitedWithoutArtifact));
      }
      assert before[c.name := Record(c.identity, Settled(guarded, w))]
          == old(files)[c.name := Record(c.identity, Settled(guarded, w))];
    }

    /**
     run_conditions. If it returns, every condition has an artifact: its fresh one untouched, or
     what its one launch settled on. Other files are untouched, every condition is attempted at
     most once and exactly when it was not fresh, and at most one worker runs for it.
     */
    method RunConditions(conditions: seq<Condition>, guarded: bool, world: seq<World>) returns (returned: bool)
      requires |world| == |conditions| && DistinctNames(conditions)
      modifies this
      ensures returned ==> SweptUpTo(conditions, guarded, world, |conditions|, old(Snapshot()), Snapshot())
      ensures OthersUntouched(conditions, old(Snapshot()), Snapshot())
      ensures returned <==> forall i :: 0 <= i < |conditions| ==> PassesAt(conditions[i], guarded, world[i], old(files))
    {
      for i := 0 to |conditions|
        invariant SweptUpTo(conditions, guarded, world, i, old(Snapshot()), Snapshot())
        invariant UntouchedFrom(conditions, i, old(Snapshot()), Snapshot())
        invariant OthersUntouched(conditions, old(Snapshot()), Snapshot())
        invariant forall k :: 0 <= k < i ==> PassesAt(conditions[k], guarded, world[k], old(files))
      {
        ghost var mid := Snapshot();
        var raised := RunOne(conditions[i], guarded, world[i]);
        SweepStep(conditions, guarded, world, i, old(Snapshot()), mid, Snapshot(), raised);
        if raised {
          assert !PassesAt(conditions[i], guarded, world[i], old(files));
          return false;
        }
      }
      return true;
    }

    /**
     A second sweep with unchanged identities attempts exactly the conditions whose artifact is
     not ok, and leaves the ok ones as they are.
     */
    method SweepTwice(conditions: seq<Condition>, guarded: bool, world: seq<World>, world': seq<World>)
      returns (statuses: seq<Status>, returned: bool)
      requires |world| == |world'| == |conditions| && DistinctNames(conditions)
      modifies this
      ensures returned ==> |statuses| == |conditions|
      ensures returned ==> forall i :: 0 <= i < |conditions| ==>
        TwiceAt(conditions[i], guarded, world'[i], statuses[i], old(Snapshot()), Snapshot())
    {
      ghost var s0 := Snapshot();
      statuses := [];
      returned := RunConditions(conditions, guarded, world);
      if !returned { return; }
      ghost var s1 := Snapshot();
      for i := 0 to |conditions|
        invariant |statuses| == i
        invariant forall k :: 0 <= k < i ==> Lookup(files, conditions[k].name) == Record(conditions[k].identity,
                                                                                         statuses[k])
      {
        assert SweptAt(conditions[i], guarded, world[i], s0, s1);
        statuses := statuses + [FileOf(conditions[i].name).status];
      }
      returned := RunConditions(conditions, guarded, world');
      if !returned { return; }
      forall i | 0 <= i < |conditions|
        ensures TwiceAt(conditions[i], guarded, world'[i], statuses[i], s0, Snapshot())
      {
        assert SweptAt(conditions[i], guarded, world[i], s0, s1);
        assert SweptAt(conditions[i], guarded, world'[i], s1, Snapshot());
      }
    }
  }

  /** The directory and the launch history at one moment. */
  datatype Snap = Snap(files: map<string, File>, attempts: multiset<string>, workers: multiset<string>,
                       unsupervised: multiset<string>)

  function Lookup(files: map<string, File>, name: string): File {
    if name in files then files[name] else Absent
  }

  ghost predicate DistinctNames(conditions: seq<Condition>) {
    forall i, j :: 0 <= i < j < |conditions| ==> conditions[i].name != conditions[j].name
  }

  /** The worker process of a launch, if one was started. */
  function Started(guarded: bool, w: World, name: string): multiset<string> {
    if WorkerRan(guarded, w) then multiset{name} else multiset{}
  }

  /** The launch that fell back to a direct worker: only with no supervisor in existence. */
  function Direct(guarded: bool, w: World, name: string): multiset<string> {
    if guarded && FellBack(w) then multiset{name} else multiset{}
  }

  /** The files after a launch that raised: the worker's record, if it left one. */
  function Touched(files: map<string, File>, c: Condition, guarded: bool, w: World): map<string, File> {
    if WorkerRan(guarded, w) && w.worker.wrote.Some?
    then files[c.name := Record(c.identity, w.worker.wrote.value)]
    else files
  }

  /** What one iteration does, condition by condition. */
  ghost predicate OneStep(c: Condition, guarded: bool, w: World, s: Snap, t: Snap, raised: bool) {
    if Fresh(Lookup(s.files, c.name), c.identity) then !raised && t == s
    else
      && (raised <==> !Completes(guarded, w))
      && t.attempts == s.attempts + multiset{c.name}
      && t.workers == s.workers + Started(guarded, w, c.name)
      && t.unsupervised == s.unsupervised + Direct(guarded, w, c.name)
      && t.files == if raised then Touched(s.files - {c.name}, c, guarded, w)
                    else s.files[c.name := Record(c.identity, Settled(guarded, w))]
  }

  /** The condition's artifact, launches and worker processes after a sweep that started from s. */
  ghost predicate SweptAt(c: Condition, guarded: bool, w: World, s: Snap, t: Snap) {
    var kept := Fresh(Lookup(s.files, c.name), c.identity);
    && Lookup(t.files, c.name) == (if kept then Lookup(s.files, c.name) else Record(c.identity, Settled(guarded, w)))
    && t.attempts[c.name] == s.attempts[c.name] + (if kept then 0 else 1)
    && t.workers[c.name] == s.workers[c.name] + (if kept || !WorkerRan(guarded, w) then 0 else 1)
    && t.unsupervised[c.name] == s.unsupervised[c.name] + (if kept then 0 else Direct(guarded, w, c.name)[c.name])
  }

  ghost predicate PassesAt(c: Condition, guarded: bool, w: World, files: map<string, File>) {
    Fresh(Lookup(files, c.name), c.identity) || Completes(guarded, w)
  }

  ghost predicate SameAt(s: Snap, t: Snap, name: string) {
    && Lookup(s.files, name) == Lookup(t.files, name)
    && s.attempts[name] == t.attempts[name]
    && s.workers[name] == t.workers[name]
    && s.unsupervised[name] == t.unsupervised[name]
  }

  ghost predicate SweptUpTo(conditions: seq<Condition>, guarded: bool, world: seq<World>, n: nat, s: Snap, t: Snap)
    requires n <= |conditions| == |world|
  {
    forall k :: 0 <= k < n ==> SweptAt(conditions[k], guarded, world[k], s, t)
  }

  ghost predicate UntouchedFrom(conditions: seq<Condition>, n: nat, s: Snap, t: Snap) {
    forall k :: n <= k < |conditions| ==> SameAt(s, t, conditions[k].name)
  }

  ghost predicate IsOther(conditions: seq<Condition>, name: string) {
    forall k :: 0 <= k < |conditions| ==> conditions[k].name != name
  }

  ghost predicate OthersUntouched(conditions: seq<Condition>, s: Snap, t: Snap) {
    forall name :: IsOther(conditions, name) ==> SameAt(s, t, name)
  }

  lemma StepFrame(c: Condition, guarded: bool, w: World, s: Snap, t: Snap, raised: bool, name: string)
    requires OneStep(c, guarded, w, s, t, raised) && name != c.name
    ensures SameAt(s, t, name)
  {
  }

  lemma SweepStep(conditions: seq<Condition>, guarded: bool, world: seq<World>, i: nat, s: Snap, mid: Snap, t: Snap,
                  raised: bool)
    requires i < |conditions| == |world| && DistinctNames(conditions)
    requires SweptUpTo(conditions, guarded, world, i, s, mid)
    requires UntouchedFrom(conditions, i, s, mid) && OthersUntouched(conditions, s, mid)
    requires OneStep(conditions[i], guarded, world[i], mid, t, raised)
    ensures OthersUntouched(conditions, s, t)
    ensures raised <==> !PassesAt(conditions[i], guarded, world[i], s.files)
    ensures !raised ==> SweptUpTo(conditions, guarded, world, i + 1, s, t) && UntouchedFrom(conditions, i + 1, s, t)
  {
    assert SameAt(s, mid, conditions[i].name);
    forall name | IsOther(conditions, name) ensures SameAt(s, t, name) {
      StepFrame(conditions[i], guarded, world[i], mid, t, raised, name);
    }
    forall k | 0 <= k < |conditions| && k != i ensures SameAt(mid, t, conditions[k].name) {
      StepFrame(conditions[i], guarded, world[i], mid, t, raised, conditions[k].name);
    }
    if !raised {
      forall k | 0 <= k < i + 1 ensures SweptAt(conditions[k], guarded, world[k], s, t) {
        if k < i { assert SweptAt(conditions[k], guarded, world[k], s, mid); }
      }
    }
  }

  /** After two sweeps: ok artifacts are kept, everything else was attempted again. */
  ghost predicate TwiceAt(c: Condition, guarded: bool, w': World, status: Status, s: Snap, t: Snap) {
    var first := s.attempts[c.name] + if Fresh(Lookup(s.files, c.name), c.identity) then 0 else 1;
    if status == Ok then Lookup(t.files, c.name) == Record(c.identity, Ok) && t.attempts[c.name] == first
    else Lookup(t.files, c.name) == Record(c.identity, Settled(guarded, w')) && t.attempts[c.name] == first + 1
  }
}
