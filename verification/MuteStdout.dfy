/** The shared redirect of standard output: the first thread in installs a sink, the last one
    out restores what was there. */
module MuteStdout {
  import opened Base

  /** What the process's standard output refers to. */
  datatype Output = Terminal | Sink(number: nat)

  /** The value of a redirect together with the output it redirects. */
  datatype Redirect = Redirect(depth: nat, saved: Option<Output>, out: Output, sinks: nat)

  datatype Event = Enter(thread: nat) | Exit(thread: nat)

  function Entered(r: Redirect): Redirect {
    if r.depth == 0 then Redirect(1, Some(r.out), Sink(r.sinks), r.sinks + 1) else r.(depth := r.depth + 1)
  }

  function Exited(r: Redirect): Redirect
    requires r.depth > 0
  {
    if r.depth == 1 then r.(depth := 0, saved := None, out := if r.saved.Some? then r.saved.value else r.out)
    else r.(depth := r.depth - 1)
  }

  /** The counter, the saved output and the lock of the original; methods run under the lock. */
  class Mute {
    var depth: nat
    var saved: Option<Output>
    var out: Output
    var sinks: nat

    function View(): Redirect
      reads this
    {
      Redirect(depth, saved, out, sinks)
    }

    constructor ()
      ensures View() == Redirect(0, None, Terminal, 0)
    {
      depth, saved, out, sinks := 0, None, Terminal, 0;
    }

    method Enter()
      modifies this
      ensures View() == Entered(old(View()))
    {
      if depth == 0 {
        saved := Some(out);
        out := Sink(sinks);
        sinks := sinks + 1;
      }
      depth := depth + 1;
    }

    method Exit()
      requires depth > 0
      modifies this
      ensures View() == Exited(old(View()))
    {
      depth := depth - 1;
      if depth == 0 {
        out := if saved.Some? then saved.value else out;
        saved := None;
      }
    }
  }

  /** Threads that are inside, each as often as it has entered. */
  function Inside(events: seq<Event>): multiset<nat> {
    if events == [] then multiset{}
    else
      var before, e := Inside(events[..|events| - 1]), events[|events| - 1];
      if e.Enter? then before + multiset{e.thread} else before - multiset{e.thread}
  }

  /** A thread only leaves when it is inside. */
  predicate WellNested(events: seq<Event>) {
    events == [] ||
    var before, e := events[..|events| - 1], events[|events| - 1];
    WellNested(before) && (e.Exit? ==> e.thread in Inside(before))
  }

  function After(r: Redirect, events: seq<Event>): Redirect {
    if events == [] then r
    else
      var before := After(r, events[..|events| - 1]);
      if events[|events| - 1].Enter? then Entered(before)
      else if before.depth > 0 then Exited(before) else before
  }

  /** For every interleaving of entries and exits the depth is the number of threads inside;
      the real output is in place exactly when nobody is, and otherwise a sink made by the
      redirect is. */
  lemma {:induction false} RealOutputExactlyWhenEmpty(r: Redirect, events: seq<Event>)
    requires r.depth == 0 && r.out == Terminal && WellNested(events)
    ensures var x := After(r, events);
      && x.depth == |Inside(events)|
      && (x.out == Terminal <==> Inside(events) == multiset{})
      && (x.depth > 0 ==> x.saved == Some(Terminal) && x.out.Sink? && r.sinks <= x.out.number < x.sinks)
      && x.sinks >= r.sinks
    decreases |events|
  {
    if events != [] {
      RealOutputExactlyWhenEmpty(r, events[..|events| - 1]);
    }
  }
}
