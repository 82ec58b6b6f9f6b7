/** The pod registry: a list of records that every operation loads, changes and saves back
    under one lock shared by all threads and processes. */
module Registry {
  import opened Base

  datatype PodStatus = Running | Stopped | Terminated

  datatype Record = Record(podId: PodId, name: string, provider: string, status: PodStatus, cost: real)

  /** Fields an update sets; the others stay. */
  datatype Change = Change(name: Option<string>, provider: Option<string>, status: Option<PodStatus>,
                           cost: Option<real>)

  /** The world's answer for a pod: yes, no, cannot tell; or the provider is not configured or
      raised. */
  datatype Exists = Answer(tri: Tri) | NoAnswer

  function Without(pods: seq<Record>, id: PodId): seq<Record> {
    if pods == [] then []
    else (if pods[0].podId == id then [] else [pods[0]]) + Without(pods[1..], id)
  }

  function Set<T>(current: T, value: Option<T>): T {
    if value.Some? then value.value else current
  }

  function Changed(r: Record, c: Change): Record {
    r.(name := Set(r.name, c.name), provider := Set(r.provider, c.provider), status := Set(r.status, c.status),
       cost := Set(r.cost, c.cost))
  }

  /** Only the first record of that id changes. */
  function Updated(pods: seq<Record>, id: PodId, c: Change): seq<Record> {
    if pods == [] then []
    else if pods[0].podId == id then [Changed(pods[0], c)] + pods[1..]
    else [pods[0]] + Updated(pods[1..], id, c)
  }

  function Checked(r: Record, e: Exists): Record {
    if e.NoAnswer? || e.tri == Unknown then r
    else if e.tri == Yes && r.status == Terminated then r.(status := Running)
    else if e.tri == No && r.status != Terminated then r.(status := Terminated)
    else r
  }

  datatype Op =
    | Add(record: Record)
    | Update(id: PodId, change: Change)
    | Remove(id: PodId)
    | Reconcile(existence: PodId -> Exists)
    | Fail  // an exception before the save: nothing is written

  function Apply(pods: seq<Record>, op: Op): (r: seq<Record>) {
    match op
    case Add(record) => Without(pods, record.podId) + [record]
    case Update(id, change) => Updated(pods, id, change)
    case Remove(id) => Without(pods, id)
    case Reconcile(existence) => seq(|pods|, i requires 0 <= i < |pods| => Checked(pods[i], existence(pods[i].podId)))
    case Fail => pods
  }

  ghost predicate UniqueIds(pods: seq<Record>) {
    forall i, j :: 0 <= i < j < |pods| ==> pods[i].podId != pods[j].podId
  }

  predicate Has(pods: seq<Record>, id: PodId) {
    exists r :: r in pods && r.podId == id
  }

  // ---- what one operation does ----

  /** Removal keeps exactly the records of other ids, in order. */
  lemma {:induction false} WithoutKeepsOthers(pods: seq<Record>, id: PodId)
    ensures forall r :: r in Without(pods, id) <==> r in pods && r.podId != id
    ensures UniqueIds(pods) ==> UniqueIds(Without(pods, id))
    ensures |Without(pods, id)| <= |pods|
  {
    if pods != [] {
      WithoutKeepsOthers(pods[1..], id);
      var rest := Without(pods[1..], id);
      if UniqueIds(pods) {
        assert UniqueIds(pods[1..]);
        if pods[0].podId != id {
          forall j | 0 <= j < |rest| ensures rest[j].podId != pods[0].podId {
            assert rest[j] in rest && rest[j] in pods[1..];
          }
        }
      }
    }
  }

  lemma {:induction false} UpdatedKeepsIds(pods: seq<Record>, id: PodId, c: Change)
    ensures |Updated(pods, id, c)| == |pods|
    ensures forall i :: 0 <= i < |pods| ==> Updated(pods, id, c)[i].podId == pods[i].podId
    ensures forall i :: 0 <= i < |pods| && pods[i].podId != id ==> Updated(pods, id, c)[i] == pods[i]
  {
    if pods != [] && pods[0].podId != id {
      UpdatedKeepsIds(pods[1..], id, c);
    }
  }

  lemma {:induction false} UpdatedFirst(pods: seq<Record>, id: PodId, c: Change, i: nat)
    requires i < |pods| && pods[i].podId == id && forall j :: 0 <= j < i ==> pods[j].podId != id
    ensures Updated(pods, id, c) == pods[i := Changed(pods[i], c)]
  {
    if i > 0 {
      UpdatedFirst(pods[1..], id, c, i - 1);
    }
  }

  lemma {:induction false} UpdatedNone(pods: seq<Record>, id: PodId, c: Change)
    requires forall j :: 0 <= j < |pods| ==> pods[j].podId != id
    ensures Updated(pods, id, c) == pods
  {
    if pods != [] {
      UpdatedNone(pods[1..], id, c);
    }
  }

  /** Every operation keeps ids unique; and exactly the pod it adds comes in and exactly the
      pod it removes goes out. */
  lemma ApplyFacts(pods: seq<Record>, op: Op)
    ensures UniqueIds(pods) ==> UniqueIds(Apply(pods, op))
    ensures forall id :: Has(Apply(pods, op), id) <==>
                           (op.Add? && op.record.podId == id) || (Has(pods, id) && op != Remove(id))
  {
    match op
    case Add(record) =>
      WithoutKeepsOthers(pods, record.podId);
      var rest := Without(pods, record.podId);
      forall i | 0 <= i < |rest| ensures rest[i].podId != record.podId {
        assert rest[i] in rest;
      }
      assert record in Apply(pods, op);
      forall id | Has(pods, id) && id != record.podId ensures Has(Apply(pods, op), id) {
        var r :| r in pods && r.podId == id;
        assert r in rest;
      }
    case Update(id, change) =>
      UpdatedKeepsIds(pods, id, change);
      SameIdsHave(pods, Apply(pods, op));
    case Remove(id) =>
      WithoutKeepsOthers(pods, id);
      forall other | Has(pods, other) && other != id ensures Has(Apply(pods, op), other) {
        var r :| r in pods && r.podId == other;
        assert r in Without(pods, id);
      }
    case Reconcile(existence) =>
      SameIdsHave(pods, Apply(pods, op));
    case Fail =>
  }

  /** An update sets what it names in the record of that id, and leaves every other record and
      field alone. */
  lemma UpdateSets(pods: seq<Record>, id: PodId, c: Change, i: nat)
    requires UniqueIds(pods) && i < |pods|
    ensures var r := Apply(pods, Update(id, c));
      && |r| == |pods|
      && if pods[i].podId != id then r[i] == pods[i]
         else
           && r[i].podId == id
           && r[i].name == (if c.name.Some? then c.name.value else pods[i].name)
           && r[i].provider == (if c.provider.Some? then c.provider.value else pods[i].provider)
           && r[i].status == (if c.status.Some? then c.status.value else pods[i].status)
           && r[i].cost == (if c.cost.Some? then c.cost.value else pods[i].cost)
  {
    UpdatedKeepsIds(pods, id, c);
    if pods[i].podId == id {
      UpdatedFirst(pods, id, c, i);
    }
  }

  /** Checking with the provider follows its definite answers: a pod it says is gone is
      terminated, one it says exists is not; without an answer, or a definite one, nothing is
      known and nothing changes. */
  lemma CheckFollows(pods: seq<Record>, existence: PodId -> Exists, i: nat)
    requires i < |pods|
    ensures var r := Apply(pods, Reconcile(existence));
      && |r| == |pods|
      && r[i] == pods[i].(status :=
           if existence(pods[i].podId) == Answer(No) then Terminated
           else if existence(pods[i].podId) == Answer(Yes) && pods[i].status == Terminated then Running
           else pods[i].status)
  {
  }

  lemma SameIdsHave(a: seq<Record>, b: seq<Record>)
    requires |a| == |b| && forall i :: 0 <= i < |a| ==> a[i].podId == b[i].podId
    ensures UniqueIds(a) ==> UniqueIds(b)
    ensures forall id :: Has(a, id) <==> Has(b, id)
  {
    forall id | Has(b, id) ensures Has(a, id) {
      var i :| 0 <= i < |b| && b[i].podId == id;
      assert a[i] in a && a[i].podId == id;
    }
  }

  // ---- the list, changed in place before it is saved ----

  class PodList {
    var pods: seq<Record>

    method AddPod(record: Record)
      modifies this
      ensures pods == Apply(old(pods), Add(record))
    {
      Drop(record.podId);
      pods := pods + [record];
    }

    method Drop(id: PodId)
      modifies this
      ensures pods == Without(old(pods), id)
    {
      var kept: seq<Record> := [];
      for i := 0 to |pods|
        invariant pods == old(pods)
        invariant kept + Without(pods[i..], id) == Without(pods, id)
      {
        if pods[i].podId != id {
          kept := kept + [pods[i]];
        }
      }
      pods := kept;
    }

    method UpdatePod(id: PodId, change: Change) returns (found: Option<Record>)
      modifies this
      ensures pods == Apply(old(pods), Update(id, change))
      ensures found.Some? <==> Has(old(pods), id)
      ensures found.Some? ==> found.value in pods && found.value.podId == id
    {
      for i := 0 to |pods|
        invariant pods == old(pods)
        invariant forall j :: 0 <= j < i ==> pods[j].podId != id
      {
        if pods[i].podId == id {
          UpdatedFirst(pods, id, change, i);
          var r := Changed(pods[i], change);
          pods := pods[i := r];
          assert pods[i] == r;
          return Some(r);
        }
      }
      UpdatedNone(pods, id, change);
      return None;
    }

    method RemovePod(id: PodId) returns (removed: bool)
      modifies this
      ensures pods == Apply(old(pods), Remove(id))
      ensures removed <==> |pods| != |old(pods)|
    {
      var before := |pods|;
      Drop(id);
      removed := before != |pods|;
    }

    method ReconcileWithProvider(existence: PodId -> Exists)
      modifies this
      ensures pods == Apply(old(pods), Reconcile(existence))
    {
      for i := 0 to |pods|
        invariant |pods| == |old(pods)|
        invariant forall j :: 0 <= j < i ==> pods[j] == Checked(old(pods)[j], existence(old(pods)[j].podId))
        invariant forall j :: i <= j < |pods| ==> pods[j] == old(pods)[j]
      {
        pods := pods[i := Checked(pods[i], existence(pods[i].podId))];
      }
    }
  }

  // ---- many threads ----

  /** Where a thread stands in its operation. */
  datatype Phase = Waiting | Holding | Loaded(copy: seq<Record>) | Modified(copy: seq<Record>) | Written | Done

  /** `order` lists the threads in the order in which they got the lock. */
  datatype Machine = Machine(file: seq<Record>, holder: Option<nat>, phases: seq<Phase>, order: seq<nat>)

  function Move(m: Machine, t: nat, p: Phase): Machine
    requires t < |m.phases|
  {
    m.(phases := m.phases[t := p])
  }

  /** One step of thread `t`; blocked or finished, it stays where it is. */
  function Step(m: Machine, ops: seq<Op>, t: nat): (r: Machine)
    requires |m.phases| == |ops| && t < |ops|
    ensures |r.phases| == |ops|
  {
    match m.phases[t]
    case Waiting => if m.holder.Some? then m else Move(m, t, Holding).(holder := Some(t), order := m.order + [t])
    case Holding => Move(m, t, Loaded(m.file))
    case Loaded(copy) => Move(m, t, if ops[t].Fail? then Written else Modified(Apply(copy, ops[t])))
    case Modified(copy) => Move(m, t, Written).(file := copy)
    case Written => Move(m, t, Done).(holder := None)
    case Done => m
  }

  function Execute(m: Machine, ops: seq<Op>, schedule: seq<nat>): (r: Machine)
    requires |m.phases| == |ops| && forall k :: 0 <= k < |schedule| ==> schedule[k] < |ops|
    ensures |r.phases| == |ops|
    decreases |schedule|
  {
    if schedule == [] then m else Execute(Step(m, ops, schedule[0]), ops, schedule[1..])
  }

  function Initial(file: seq<Record>, ops: seq<Op>): Machine {
    Machine(file, None, seq(|ops|, _ => Waiting), [])
  }

  /** The operations of the listed threads, one after the other. */
  function Replay(file: seq<Record>, ops: seq<Op>, order: seq<nat>): seq<Record> {
    if order == [] then file
    else
      var before, t := Replay(file, ops, order[..|order| - 1]), order[|order| - 1];
      if t < |ops| then Apply(before, ops[t]) else before
  }

  predicate Busy(p: Phase) {
    p.Holding? || p.Loaded? || p.Modified? || p.Written?
  }

  /** The threads whose operation is already in the file. */
  function Settled(m: Machine): seq<nat>
  {
    if m.holder.Some? && m.holder.value < |m.phases| && !m.phases[m.holder.value].Written? && m.order != []
    then m.order[..|m.order| - 1] else m.order
  }

  /** The lock: `order` lists exactly the threads that ever got it; whoever holds it is busy
      and got it last. */
  ghost predicate LockInv(ops: seq<Op>, m: Machine) {
    && |m.phases| == |ops|
    && (forall k :: 0 <= k < |m.order| ==> m.order[k] < |ops| && !m.phases[m.order[k]].Waiting?)
    && (forall i, j :: 0 <= i < j < |m.order| ==> m.order[i] != m.order[j])
    && (forall t: nat :: t < |ops| && !m.phases[t].Waiting? ==> t in m.order)
    && (forall t: nat :: t < |ops| ==> (m.holder == Some(t) <==> Busy(m.phases[t])))
    && (m.holder.Some? ==> m.holder.value < |ops| && m.order != [] && m.order[|m.order| - 1] == m.holder.value)
  }

  /** The copy in a thread's hands is the file, before and after its own operation. */
  predicate CopyFits(file: seq<Record>, op: Op, p: Phase) {
    (p.Loaded? ==> p.copy == file) && (p.Modified? ==> p.copy == Apply(file, op))
  }

  ghost predicate Inv(file0: seq<Record>, ops: seq<Op>, m: Machine) {
    && LockInv(ops, m)
    && m.file == Replay(file0, ops, Settled(m))
    && forall t: nat :: t < |ops| ==> CopyFits(m.file, ops[t], m.phases[t])
  }

  lemma TakingKeepsLock(ops: seq<Op>, m: Machine, t: nat)
    requires LockInv(ops, m) && t < |ops| && m.phases[t].Waiting? && m.holder.None?
    ensures LockInv(ops, Step(m, ops, t))
  {
    hide Apply;
    var r := Step(m, ops, t);
    assert r.order[..|m.order|] == m.order && r.order[|m.order|] == t;
    forall u: nat | u < |ops| && u != t ensures r.phases[u] == m.phases[u] {
    }
  }

  lemma MovingKeepsLock(ops: seq<Op>, m: Machine, t: nat)
    requires LockInv(ops, m) && t < |ops| && !m.phases[t].Waiting?
    ensures LockInv(ops, Step(m, ops, t))
  {
    hide Apply;
    var r := Step(m, ops, t);
    assert r.order == m.order;
    forall u: nat | u < |ops| && u != t ensures r.phases[u] == m.phases[u] {
    }
  }

  lemma StepKeepsLock(ops: seq<Op>, m: Machine, t: nat)
    requires LockInv(ops, m) && t < |ops|
    ensures LockInv(ops, Step(m, ops, t))
  {
    hide LockInv;
    InvPhases(ops, m);
    if !m.phases[t].Waiting? {
      MovingKeepsLock(ops, m, t);
    } else if m.holder.None? {
      TakingKeepsLock(ops, m, t);
    }
  }

  lemma HolderIsLast(ops: seq<Op>, m: Machine, t: nat)
    requires LockInv(ops, m) && t < |ops| && Busy(m.phases[t])
    ensures m.holder == Some(t) && m.order != [] && m.order == m.order[..|m.order| - 1] + [t]
  {
  }

  lemma ReplayLast(file0: seq<Record>, ops: seq<Op>, before: seq<nat>, t: nat)
    requires t < |ops|
    ensures Replay(file0, ops, before + [t]) == Apply(Replay(file0, ops, before), ops[t])
  {
  }

  lemma StepKeepsReplay(file0: seq<Record>, ops: seq<Op>, m: Machine, t: nat)
    requires LockInv(ops, m) && t < |ops| && CopyFits(m.file, ops[t], m.phases[t])
    requires m.file == Replay(file0, ops, Settled(m))
    ensures Step(m, ops, t).file == Replay(file0, ops, Settled(Step(m, ops, t)))
  {
    hide Apply, Replay, LockInv;
    InvPhases(ops, m);
    var r := Step(m, ops, t);
    if Busy(m.phases[t]) {
      HolderIsLast(ops, m, t);
      ReplayLast(file0, ops, m.order[..|m.order| - 1], t);
      FailIsNothing(m.file);
    } else if m.phases[t].Waiting? && m.holder.None? {
      assert r.order[..|r.order| - 1] == m.order;
    }
  }

  lemma InvPhases(ops: seq<Op>, m: Machine)
    requires LockInv(ops, m)
    ensures |m.phases| == |ops|
  {
  }

  lemma StepKeepsCopies(file0: seq<Record>, ops: seq<Op>, m: Machine, t: nat, u: nat)
    requires Inv(file0, ops, m) && t < |ops| && u < |ops|
    ensures CopyFits(Step(m, ops, t).file, ops[u], Step(m, ops, t).phases[u])
  {
  }

  lemma StepKeepsInv(file0: seq<Record>, ops: seq<Op>, m: Machine, t: nat)
    requires Inv(file0, ops, m) && t < |ops|
    ensures Inv(file0, ops, Step(m, ops, t))
  {
    hide LockInv, CopyFits, Step, Replay;
    InvLock(file0, ops, m);
    StepKeepsLock(ops, m, t);
    assert CopyFits(m.file, ops[t], m.phases[t]);
    StepKeepsReplay(file0, ops, m, t);
    forall u: nat | u < |ops| ensures CopyFits(Step(m, ops, t).file, ops[u], Step(m, ops, t).phases[u]) {
      StepKeepsCopies(file0, ops, m, t, u);
    }
  }

  lemma InvLock(file0: seq<Record>, ops: seq<Op>, m: Machine)
    requires Inv(file0, ops, m)
    ensures LockInv(ops, m) && |m.phases| == |ops|
  {
  }

  lemma FailIsNothing(pods: seq<Record>)
    ensures Apply(pods, Fail) == pods
  {
  }

  lemma {:induction false} ExecuteKeepsInv(file0: seq<Record>, ops: seq<Op>, m: Machine, schedule: seq<nat>)
    requires Inv(file0, ops, m) && forall k :: 0 <= k < |schedule| ==> schedule[k] < |ops|
    ensures Inv(file0, ops, Execute(m, ops, schedule))
    decreases |schedule|
  {
    hide Inv, Step;
    if schedule != [] {
      InvThreads(file0, ops, m);
      StepKeepsInv(file0, ops, m, schedule[0]);
      InvThreads(file0, ops, Step(m, ops, schedule[0]));
      ExecuteKeepsInv(file0, ops, Step(m, ops, schedule[0]), schedule[1..]);
    }
  }

  lemma InvThreads(file0: seq<Record>, ops: seq<Op>, m: Machine)
    requires Inv(file0, ops, m)
    ensures |m.phases| == |ops|
  {
  }

  lemma {:induction false} ReplayKeeps(file: seq<Record>, ops: seq<Op>, order: seq<nat>, k: nat, id: PodId)
    requires forall j :: 0 <= j < |order| ==> order[j] < |ops|
    requires k < |order| && ops[order[k]].Add? && ops[order[k]].record.podId == id
    requires forall j :: 0 <= j < |ops| ==> ops[j] != Remove(id)
    ensures Has(Replay(file, ops, order), id)
    decreases |order|
  {
    hide Apply, Has;
    var last := |order| - 1;
    ApplyFacts(Replay(file, ops, order[..last]), ops[order[last]]);
    if k < last {
      ReplayKeeps(file, ops, order[..last], k, id);
    }
  }

  lemma {:induction false} ReplayUnique(file: seq<Record>, ops: seq<Op>, order: seq<nat>)
    requires UniqueIds(file) && forall j :: 0 <= j < |order| ==> order[j] < |ops|
    ensures UniqueIds(Replay(file, ops, order))
    decreases |order|
  {
    hide Apply, UniqueIds;
    if order != [] {
      ReplayUnique(file, ops, order[..|order| - 1]);
      ApplyFacts(Replay(file, ops, order[..|order| - 1]), ops[order[|order| - 1]]);
    }
  }

  lemma InitialInv(file0: seq<Record>, ops: seq<Op>)
    ensures Inv(file0, ops, Initial(file0, ops))
  {
  }

  lemma FinishedOrder(file0: seq<Record>, ops: seq<Op>, m: Machine)
    requires Inv(file0, ops, m) && forall t :: 0 <= t < |ops| ==> m.phases[t].Done?
    ensures forall k :: 0 <= k < |m.order| ==> m.order[k] < |ops|
    ensures forall i, j :: 0 <= i < j < |m.order| ==> m.order[i] != m.order[j]
    ensures forall t: nat :: t < |ops| ==> t in m.order
    ensures m.file == Replay(file0, ops, m.order)
  {
  }

  ghost predicate NeverRemoved(ops: seq<Op>, id: PodId) {
    forall j :: 0 <= j < |ops| ==> ops[j] != Remove(id)
  }

  /** However the threads interleave, once all are done the registry is their operations
      applied in the order in which they got the lock, each exactly once; ids stay unique; and
      no add is lost unless someone removes that pod. */
  lemma OperationsLinearise(file0: seq<Record>, ops: seq<Op>, schedule: seq<nat>)
    requires forall k :: 0 <= k < |schedule| ==> schedule[k] < |ops|
    requires forall t :: 0 <= t < |ops| ==> Execute(Initial(file0, ops), ops, schedule).phases[t].Done?
    ensures var m := Execute(Initial(file0, ops), ops, schedule);
      && (forall k :: 0 <= k < |m.order| ==> m.order[k] < |ops|)
      && (forall i, j :: 0 <= i < j < |m.order| ==> m.order[i] != m.order[j])
      && (forall t: nat :: t < |ops| ==> t in m.order)
      && m.file == Replay(file0, ops, m.order)
      && (UniqueIds(file0) ==> UniqueIds(m.file))
      && forall t: nat :: t < |ops| && ops[t].Add? && NeverRemoved(ops, ops[t].record.podId) ==>
           Has(m.file, ops[t].record.podId)
  {
    hide Execute, Inv, Replay, UniqueIds, Has;
    var m := Execute(Initial(file0, ops), ops, schedule);
    InitialInv(file0, ops);
    ExecuteKeepsInv(file0, ops, Initial(file0, ops), schedule);
    FinishedOrder(file0, ops, m);
    if UniqueIds(file0) {
      ReplayUnique(file0, ops, m.order);
    }
    forall t: nat | t < |ops| && ops[t].Add? && NeverRemoved(ops, ops[t].record.podId)
      ensures Has(m.file, ops[t].record.podId)
    {
      assert t in m.order;
      var k: nat :| k < |m.order| && m.order[k] == t;
      ReplayKeeps(file0, ops, m.order, k, ops[t].record.podId);
    }
  }
}
