/** Saving the state from several threads: the snapshot, taken field by field, and the write
    happen under one process-wide lock, while the fields go on changing. */
module SaveState {
  import opened Base

  /** Where a saving thread stands; `copy` holds the fields read so far. */
  datatype Saver = Idle | Snapping(copy: seq<nat>)

  /** Each field carries a version that grows with every change; `file` holds the versions last
      written. */
  datatype Shared = Shared(fields: seq<nat>, file: seq<nat>, holder: Option<nat>, savers: seq<Saver>)

  datatype Step =
    | Change(field: nat)  // any thread changes a field
    | Lock(t: nat)
    | ReadNext(t: nat)    // the snapshot reads the next field
    | WriteFile(t: nat)   // the complete snapshot is written and the lock released

  function Next(s: Shared, step: Step): Shared {
    match step
    case Change(f) => if f < |s.fields| then s.(fields := s.fields[f := s.fields[f] + 1]) else s
    case Lock(t) =>
      if t < |s.savers| && s.holder.None? && s.savers[t].Idle? then s.(holder := Some(t),
                                                                       savers := s.savers[t := Snapping([])]) else s
    case ReadNext(t) =>
      if t < |s.savers| && s.savers[t].Snapping? && |s.savers[t].copy| < |s.fields| then
        s.(savers := s.savers[t := Snapping(s.savers[t].copy + [s.fields[|s.savers[t].copy|]])])
      else s
    case WriteFile(t) =>
      if t < |s.savers| && s.savers[t].Snapping? && |s.savers[t].copy| == |s.fields| then
        s.(file := s.savers[t].copy, holder := None, savers := s.savers[t := Idle])
      else s
  }

  function Play(s: Shared, steps: seq<Step>): Shared
    decreases |steps|
  {
    if steps == [] then s else Play(Next(s, steps[0]), steps[1..])
  }

  /** Versions in `a` are at most those in `b`, as far as `a` goes. */
  ghost predicate NoNewer(a: seq<nat>, b: seq<nat>) {
    |a| <= |b| && forall f :: 0 <= f < |a| ==> a[f] <= b[f]
  }

  /** Only the holder snaps; its copy is no older than the file and no newer than the fields. */
  ghost predicate Ordered(s: Shared) {
    && |s.file| == |s.fields| && NoNewer(s.file, s.fields)
    && (forall t: nat :: t < |s.savers| && s.savers[t].Snapping? ==> s.holder == Some(t))
    && forall t: nat :: t < |s.savers| && s.savers[t].Snapping? ==>
         NoNewer(s.savers[t].copy, s.fields) && NoNewer(s.file[..|s.savers[t].copy|], s.savers[t].copy)
  }

  lemma NextOrdered(s: Shared, step: Step)
    requires Ordered(s)
    ensures Ordered(Next(s, step)) && NoNewer(s.file, Next(s, step).file)
  {
  }

  /** Thread `t` has been saving since the fields were `fields`: it holds the lock, and what it
      has read is no older. */
  ghost predicate Saving(s: Shared, t: nat, fields: seq<nat>) {
    && t < |s.savers| && s.savers[t].Snapping? && |s.fields| == |fields|
    && |s.savers[t].copy| <= |fields| && NoNewer(fields, s.fields)
    && NoNewer(fields[..|s.savers[t].copy|], s.savers[t].copy)
  }

  lemma NextSaves(s: Shared, t: nat, fields: seq<nat>, step: Step)
    requires Ordered(s) && (Saving(s, t, fields) || NoNewer(fields, s.file))
    ensures Saving(Next(s, step), t, fields) || NoNewer(fields, Next(s, step).file)
  {
    NextOrdered(s, step);
  }

  /** A save that has taken the lock is under way until it writes; then, and from then on, the
      file holds everything that was in the fields when it began. */
  lemma {:induction false} SavesWhatWasThere(s: Shared, t: nat, fields: seq<nat>, steps: seq<Step>)
    requires Ordered(s) && (Saving(s, t, fields) || NoNewer(fields, s.file))
    ensures var r := Play(s, steps);
      && (Saving(r, t, fields) || NoNewer(fields, r.file))
      && Ordered(r) && |r.savers| == |s.savers| && |r.fields| == |s.fields|
    decreases |steps|
  {
    hide Next, Saving;
    if steps != [] {
      NextOrdered(s, steps[0]);
      NextSaves(s, t, fields, steps[0]);
      NextSizes(s, steps[0]);
      SavesWhatWasThere(Next(s, steps[0]), t, fields, steps[1..]);
    }
  }

  lemma NextSizes(s: Shared, step: Step)
    ensures |Next(s, step).savers| == |s.savers| && |Next(s, step).fields| == |s.fields|
  {
  }

  /** So the file catches up with every field: whoever takes the lock and goes on reading
      writes what was there. */
  lemma SaveEnds(s: Shared, t: nat, steps: seq<Step>)
    requires Ordered(s) && t < |s.savers| && s.savers[t].Idle? && s.holder.None?
    requires var m := Play(Next(s, Lock(t)), steps);
      t < |m.savers| && m.savers[t].Snapping? ==> |m.savers[t].copy| == |m.fields|
    ensures NoNewer(s.fields, Next(Play(Next(s, Lock(t)), steps), WriteFile(t)).file)
  {
    hide Play;
    var b := Next(s, Lock(t));
    var m := Play(b, steps);
    NextOrdered(s, Lock(t));
    SavesWhatWasThere(b, t, s.fields, steps);
    NextOrdered(m, WriteFile(t));
  }

  /** Whatever the interleaving, no field's version in the state file ever goes backwards, and
      none is ahead of the field itself. */
  lemma {:induction false} FileNeverGoesBack(s: Shared, steps: seq<Step>)
    requires Ordered(s)
    ensures var r := Play(s, steps);
      Ordered(r) && NoNewer(s.file, r.file) && NoNewer(r.file, r.fields)
    decreases |steps|
  {
    hide Next;
    if steps != [] {
      NextOrdered(s, steps[0]);
      FileNeverGoesBack(Next(s, steps[0]), steps[1..]);
    }
  }
}
