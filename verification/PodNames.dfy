/** Pod names tie an instance at the provider to a run and a job. */
module PodNames {
  import opened Base

  const PREFIX := "conductor-"

  function RunPrefix(runId: string): string {
    PREFIX + runId + "-"
  }

  function PodName(runId: string, job: Name): string {
    if runId != "" then RunPrefix(runId) + job.text else PREFIX + job.text
  }

  /** The job an instance name belongs to in this run, if it is one of the run's names. */
  function JobOf(runId: string, instance: string): Option<Name> {
    if RunPrefix(runId) <= instance then Some(Name(instance[|RunPrefix(runId)|..])) else None
  }

  /** What the names look like. */
  lemma NamesAre(runId: string, job: Name)
    ensures PodName(runId, job) ==
              if runId == "" then "conductor-" + job.text else "conductor-" + runId + "-" + job.text
  {
  }

  /** Names round-trip within a run. */
  lemma NameRoundTrip(runId: string, job: Name)
    requires runId != ""
    ensures JobOf(runId, PodName(runId, job)) == Some(job)
  {
  }

  /** And only the job's own name leads to it. */
  lemma NameIsItsOwn(runId: string, instance: string, job: Name)
    requires runId != "" && JobOf(runId, instance) == Some(job)
    ensures instance == PodName(runId, job)
  {
  }

  function UpToHyphen(s: string): string {
    if s == "" || s[0] == '-' then "" else [s[0]] + UpToHyphen(s[1..])
  }

  lemma {:induction false} HyphenEnds(a: string, rest: string)
    requires '-' !in a
    ensures UpToHyphen(a + "-" + rest) == a
  {
    if a != "" {
      assert (a + "-" + rest)[1..] == a[1..] + "-" + rest;
      HyphenEnds(a[1..], rest);
    }
  }

  /** Run ids without hyphens never claim each other's pods, whatever the jobs are called. */
  lemma RunsDoNotCollide(a: string, b: string, job: Name)
    requires b != "" && '-' !in a && '-' !in b
    ensures JobOf(a, PodName(b, job)).Some? <==> a == b
  {
    var x := PodName(b, job);
    assert x[|PREFIX|..] == b + "-" + job.text;
    HyphenEnds(b, job.text);
    if RunPrefix(a) <= x {
      var rest := x[|RunPrefix(a)|..];
      assert x == RunPrefix(a) + rest;
      assert x[|PREFIX|..] == a + "-" + rest;
      HyphenEnds(a, rest);
    }
    assert x[..|RunPrefix(b)|] == RunPrefix(b);
  }

  /** A pod of a run without an id is claimed by run `a` exactly when its job's name begins
      with that id and a hyphen. */
  lemma UnnamedRunsCanCollide(a: string, job: Name)
    ensures JobOf(a, PodName("", job)).Some? <==> a + "-" <= job.text
  {
    var x := PREFIX + job.text;
    assert RunPrefix(a) == PREFIX + (a + "-");
    assert x[|PREFIX|..] == job.text;
    if a + "-" <= job.text {
      assert x[..|RunPrefix(a)|] == PREFIX + job.text[..|a| + 1];
    }
    if RunPrefix(a) <= x {
      assert job.text[..|a| + 1] == x[..|RunPrefix(a)|][|PREFIX|..] == a + "-";
    }
  }
}
