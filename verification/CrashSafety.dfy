/** Crashes: the orchestrator may die between any two steps, also in the middle of changing the
    registry. What is in memory is lost; the state file, the registry and the provider's
    instances stay. */
module CrashSafety {
  import opened Base
  import opened State
  import opened PodNames
  import R = Reconcile
  import G = Registry

  /** How far the creation of an instance has come: the provider returned its id; the id is in
      the job's record; the record is in the state file. */
  datatype Stage = Created | Recorded | Persisted

  datatype Flight = Flight(job: Name, pod: PodId, stage: Stage)

  /** `ready` is false until the first save of this process. */
  datatype Memory = Memory(runId: string, jobs: seq<Job>, flights: seq<Flight>, ready: bool)

  datatype Saved = Saved(runId: string, jobs: seq<Job>)

  /** A change of the registry under way: whoever makes it holds the lock, has loaded the
      records and has not saved them yet. */
  datatype Edit = Edit(mine: bool, op: G.Op, copy: seq<G.Record>)

  datatype World = World(
    memory: Option<Memory>,
    file: Option<Saved>,
    registry: seq<G.Record>,
    edit: Option<Edit>,
    cloud: seq<R.Instance>,       // every instance this run ever created
    announced: set<PodId>,        // for the record: those whose registration was saved
    removed: set<PodId>)          // and those whose removal was saved, and no registration since

  datatype Step =
    | Boot(freshId: string, jobs: seq<Job>)  // load the file, or begin a run
    | Save                                   // the heartbeat, or any other save
    | Work(jobs: seq<Job>)                   // whatever else the lifecycle does to the jobs
    | CreateInstance(job: Name, pod: PodId)
    | RecordId(k: nat)
    | PersistId(k: nat)
    | AnnounceId(k: nat, name: string)       // the callback begins to register the pod
    | BeginEdit(mine: bool, op: G.Op)        // any other change, by this process or another
    | CommitEdit
    | AbortEdit                              // it raised, or the other process died
    | LoseInstance(k: nat)                   // terminated, or taken back by the provider
    | Crash

  predicate CanStep(w: World, s: Step) {
    match s
    case Boot(freshId, _) => w.memory.None? && freshId != ""
    case Save => w.memory.Some?
    case Work(_) => w.memory.Some? && w.memory.value.ready
    case CreateInstance(_, _) => w.memory.Some? && w.memory.value.ready
    case RecordId(k) => AtStage(w, k, Created)
    case PersistId(k) => AtStage(w, k, Recorded)
    case AnnounceId(k, _) => AtStage(w, k, Persisted) && w.edit.None?
    case BeginEdit(mine, _) => w.edit.None? && (mine ==> w.memory.Some?)
    case CommitEdit => w.edit.Some?
    case AbortEdit => w.edit.Some?
    case LoseInstance(k) => k < |w.cloud|
    case Crash => w.memory.Some?
  }

  predicate AtStage(w: World, k: nat, stage: Stage) {
    w.memory.Some? && k < |w.memory.value.flights| && w.memory.value.flights[k].stage == stage
  }

  function Advanced(m: Memory, k: nat, stage: Stage): Memory
    requires k < |m.flights|
  {
    m.(flights := m.flights[k := m.flights[k].(stage := stage)])
  }

  function WithPod(jobs: seq<Job>, name: Name, pod: PodId): seq<Job> {
    var k := R.IndexOf(jobs, name);
    if k < |jobs| then jobs[k := jobs[k].(podId := Some(pod), status := Provisioning)] else jobs
  }

  function Committed(w: World): World
    requires w.edit.Some?
  {
    var op := w.edit.value.op;
    var added := if op.Add? then {op.record.podId} else {};
    w.(registry := G.Apply(w.edit.value.copy, op), edit := None, announced := w.announced + added,
       removed := w.removed - added + if op.Remove? then {op.id} else {})
  }

  function After(w: World, s: Step): World
    requires CanStep(w, s)
  {
    match s
    case Boot(freshId, jobs) =>
      w.(memory := Some(
           if w.file.None? then Memory(freshId, jobs, [], false)
           else Memory(if w.file.value.runId == "" then freshId else w.file.value.runId, w.file.value.jobs, [], false)))
    case Save =>
      var m := w.memory.value;
      w.(file := Some(Saved(m.runId, m.jobs)), memory := Some(m.(ready := true)))
    case Work(jobs) => w.(memory := Some(w.memory.value.(jobs := jobs)))
    case CreateInstance(job, pod) =>
      var m := w.memory.value;
      w.(cloud := w.cloud + [R.Instance(pod, PodName(m.runId, job), true)],
         memory := Some(m.(flights := m.flights + [Flight(job, pod, Created)])))
    case RecordId(k) =>
      var m := w.memory.value;
      w.(memory := Some(Advanced(m, k, Recorded).(jobs := WithPod(m.jobs, m.flights[k].job, m.flights[k].pod))))
    case PersistId(k) =>
      var m := w.memory.value;
      w.(file := Some(Saved(m.runId, m.jobs)), memory := Some(Advanced(m, k, Persisted)))
    case AnnounceId(k, name) =>
      var m := w.memory.value;
      w.(edit := Some(Edit(true, G.Add(G.Record(m.flights[k].pod, name, "", G.Running, 0.0)), w.registry)),
         memory := Some(m.(flights := m.flights[..k] + m.flights[k + 1..])))
    case BeginEdit(mine, op) => w.(edit := Some(Edit(mine, op, w.registry)))
    case CommitEdit => Committed(w)
    case AbortEdit => w.(edit := None)
    case LoseInstance(k) => w.(cloud := w.cloud[k := w.cloud[k].(alive := false)])
    case Crash => w.(memory := None, edit := if w.edit.Some? && w.edit.value.mine then None else w.edit)
  }

  /** A step that is not possible changes nothing. */
  function Stepped(w: World, s: Step): World {
    if CanStep(w, s) then After(w, s) else w
  }

  function Played(w: World, steps: seq<Step>): World
    decreases |steps|
  {
    if steps == [] then w else Played(Stepped(w, steps[0]), steps[1..])
  }

  const NOTHING := World(None, None, [], None, [], {}, {})

  // ---- what survives ----

  ghost predicate BelongsTo(runId: string, e: R.Instance) {
    exists job :: e.name == PodName(runId, job)
  }

  /** Once an instance exists, the state file names the run it belongs to, and whoever runs
      uses that name. */
  ghost predicate NamesStay(w: World) {
    && (w.memory.Some? ==> w.memory.value.runId != "")
    && (w.memory.Some? && w.memory.value.ready ==> w.file.Some?)
    && (w.memory.Some? && w.file.Some? && w.file.value.runId != "" ==> w.memory.value.runId == w.file.value.runId)
    && (w.memory.Some? && w.memory.value.ready ==> w.file.value.runId != "")
    && (w.cloud != [] ==> w.file.Some? && w.file.value.runId != "")
    && forall k :: 0 <= k < |w.cloud| ==> BelongsTo(w.file.value.runId, w.cloud[k])
  }

  lemma StepKeepsNames(w: World, s: Step)
    requires NamesStay(w)
    ensures NamesStay(Stepped(w, s))
  {
    var r := Stepped(w, s);
    forall k | 0 <= k < |r.cloud| ensures r.file.Some? && BelongsTo(r.file.value.runId, r.cloud[k]) {
      if k < |w.cloud| {
        assert r.cloud[k].name == w.cloud[k].name;
        assert r.file.Some? && r.file.value.runId == w.file.value.runId;
      } else {
        assert s.CreateInstance? && r.cloud[k].name == PodName(r.file.value.runId, s.job);
      }
    }
  }

  lemma {:induction false} PlayedKeepsNames(w: World, steps: seq<Step>)
    requires NamesStay(w)
    ensures NamesStay(Played(w, steps))
    decreases |steps|
  {
    hide NamesStay, Stepped;
    if steps != [] {
      StepKeepsNames(w, steps[0]);
      PlayedKeepsNames(Stepped(w, steps[0]), steps[1..]);
    }
  }

  /** Nobody else changes the registry while a change is under way; and of the pods ever
      registered, it holds those not removed since. */
  ghost predicate RegistryHolds(w: World) {
    && G.UniqueIds(w.registry)
    && (w.edit.Some? ==> w.edit.value.copy == w.registry)
    && forall id :: id in w.announced ==> (G.Has(w.registry, id) <==> id !in w.removed)
  }

  lemma StepKeepsRegistry(w: World, s: Step)
    requires RegistryHolds(w)
    ensures RegistryHolds(Stepped(w, s))
  {
    hide G.Apply, G.Has, G.UniqueIds;
    if s.CommitEdit? && w.edit.Some? {
      G.ApplyFacts(w.registry, w.edit.value.op);
    }
  }

  lemma {:induction false} PlayedKeepsRegistry(w: World, steps: seq<Step>)
    requires RegistryHolds(w)
    ensures RegistryHolds(Played(w, steps))
    decreases |steps|
  {
    hide RegistryHolds, Stepped;
    if steps != [] {
      StepKeepsRegistry(w, steps[0]);
      PlayedKeepsRegistry(Stepped(w, steps[0]), steps[1..]);
    }
  }

  /** Whenever crashes struck, in the middle of a change included, and whatever other processes
      did in between: a pod whose registration was saved is in the registry, once, exactly
      unless its removal was saved since. */
  lemma RegistryRemembers(steps: seq<Step>, id: PodId)
    requires id in Played(NOTHING, steps).announced
    ensures var w := Played(NOTHING, steps);
      && G.UniqueIds(w.registry)
      && (G.Has(w.registry, id) <==> id !in w.removed)
  {
    PlayedKeepsRegistry(NOTHING, steps);
  }

  /** No step sets out to remove a record. */
  ghost predicate NoRemovals(steps: seq<Step>) {
    forall s :: s in steps && s.BeginEdit? ==> !s.op.Remove?
  }

  lemma {:induction false} NothingRemoved(w: World, steps: seq<Step>)
    requires NoRemovals(steps) && w.removed == {} && (w.edit.Some? ==> !w.edit.value.op.Remove?)
    ensures Played(w, steps).removed == {}
    decreases |steps|
  {
    if steps != [] {
      NothingRemoved(Stepped(w, steps[0]), steps[1..]);
    }
  }

  /** The lifecycle and the commands never remove a record, so every pod whose registration was
      saved stays in the registry. */
  lemma RegisteredStay(steps: seq<Step>, id: PodId)
    requires NoRemovals(steps) && id in Played(NOTHING, steps).announced
    ensures G.Has(Played(NOTHING, steps).registry, id)
  {
    NothingRemoved(NOTHING, steps);
    RegistryRemembers(steps, id);
  }

  /** Instance `e` of this run, alive, is in the listing. */
  ghost predicate IsListed(listed: seq<R.Listed>, e: R.Instance) {
    exists m :: 0 <= m < |listed| && listed[m].instance == e
  }

  /** No pod is lost. Whatever happened before, crashes at any step included: once a process
      has loaded the state and reconciled it with a listing, every instance this run created
      that is alive and listed is the pod of its job, or its termination has been requested. */
  lemma NoPodLost(steps: seq<Step>, e: R.Instance, total: real, log: seq<CostEvent>, configs: R.Configs,
                  listed: seq<R.Listed>, a: R.Answers)
    requires var w := Played(NOTHING, steps);
      w.memory.Some? && e in w.cloud && e.alive && IsListed(listed, e) && R.Truthful(listed, a)
    ensures var m := Played(NOTHING, steps).memory.value;
      R.Kept(R.All(Run(m.jobs, total, log, []), configs, m.runId, listed, a), m.runId, e)
  {
    var w := Played(NOTHING, steps);
    PlayedKeepsNames(NOTHING, steps);
    var k :| 0 <= k < |w.cloud| && w.cloud[k] == e;
    assert BelongsTo(w.file.value.runId, w.cloud[k]);
    var job :| w.cloud[k].name == PodName(w.file.value.runId, job);
    NameRoundTrip(w.memory.value.runId, job);
    var m :| 0 <= m < |listed| && listed[m].instance == e;
    R.NoListedPodLost(Run(w.memory.value.jobs, total, log, []), configs, w.memory.value.runId, listed, a, m);
  }
}
