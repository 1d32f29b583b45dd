/**
  UrlTagDetectorActionClass: a step of a sequence that runs one external process per source
  directory and detector script, one at a time, and signals its end after the last.
 */
module Detector {
  datatype Source = Source(rootDirectory: string, exists_: bool, url: string)

  datatype Project = Project(isEnabled: bool, sources: seq<Source>)

  /** The arguments that differ between the processes of one run. */
  datatype Params = Params(scriptName: string, sourceDir: string, rootUrl: string)

  // ---------------------------------------------------------------- the queue of processes

  /** A source that gets detected: it exists and the web server knows a URL for it. */
  predicate Usable(source: Source) {
    source.exists_ && source.url != ""
  }

  function JobsOfSource(source: Source, scripts: seq<string>): seq<Params> {
    if scripts == [] || !Usable(source) then []
    else JobsOfSource(source, scripts[..|scripts| - 1]) + [Params(scripts[|scripts| - 1], source.rootDirectory, source.url)]
  }

  function JobsOfSources(sources: seq<Source>, scripts: seq<string>): seq<Params> {
    if sources == [] then []
    else JobsOfSources(sources[..|sources| - 1], scripts) + JobsOfSource(sources[|sources| - 1], scripts)
  }

  function Jobs(projects: seq<Project>, scripts: seq<string>): seq<Params> {
    if projects == [] then []
    else
      var last := projects[|projects| - 1];
      Jobs(projects[..|projects| - 1], scripts) + (if last.isEnabled then JobsOfSources(last.sources, scripts) else [])
  }

  /** The usable sources of all enabled projects, in order. */
  function UsableSources(sources: seq<Source>): (u: seq<Source>)
    ensures forall source :: source in u ==> Usable(source)
  {
    if sources == [] then []
    else if Usable(sources[|sources| - 1]) then UsableSources(sources[..|sources| - 1]) + [sources[|sources| - 1]]
    else UsableSources(sources[..|sources| - 1])
  }

  function Detected(projects: seq<Project>): (u: seq<Source>)
    ensures forall source :: source in u ==> Usable(source)
  {
    if projects == [] then []
    else if projects[|projects| - 1].isEnabled then
      Detected(projects[..|projects| - 1]) + UsableSources(projects[|projects| - 1].sources)
    else Detected(projects[..|projects| - 1])
  }

  /** One job for each source and script, all scripts of a source before the next source. */
  ghost predicate Pairs(jobs: seq<Params>, sources: seq<Source>, scripts: seq<string>) {
    && |jobs| == |sources| * |scripts|
    && forall a, k :: 0 <= a < |sources| && 0 <= k < |scripts| ==> PairAt(jobs, sources, scripts, a, k)
  }

  predicate PairAt(jobs: seq<Params>, sources: seq<Source>, scripts: seq<string>, a: nat, k: nat)
    requires a < |sources| && k < |scripts|
  {
    var n := a * |scripts| + k;
    0 <= n < |jobs| && jobs[n] == Params(scripts[k], sources[a].rootDirectory, sources[a].url)
  }

  lemma {:induction false} SourceJobs(source: Source, scripts: seq<string>)
    requires Usable(source)
    ensures |JobsOfSource(source, scripts)| == |scripts|
    ensures forall k :: 0 <= k < |scripts| ==>
      JobsOfSource(source, scripts)[k] == Params(scripts[k], source.rootDirectory, source.url)
  {
    if scripts != [] {
      SourceJobs(source, scripts[..|scripts| - 1]);
    }
  }

  lemma PairAtLast(sources: seq<Source>, scripts: seq<string>, jobs: seq<Params>, more: seq<Params>, a: nat, k: nat)
    requires sources != [] && a < |sources| && k < |scripts| && |jobs| == (|sources| - 1) * |scripts|
    requires a < |sources| - 1 ==> PairAt(jobs, sources[..|sources| - 1], scripts, a, k)
    requires var last := sources[|sources| - 1];
      |more| == |scripts| && more[k] == Params(scripts[k], last.rootDirectory, last.url)
    ensures PairAt(jobs + more, sources, scripts, a, k)
  {
  }

  lemma {:induction false} SourcesPairs(sources: seq<Source>, scripts: seq<string>)
    requires forall source :: source in sources ==> Usable(source)
    ensures Pairs(JobsOfSources(sources, scripts), sources, scripts)
  {
    if sources != [] {
      var before, last := sources[..|sources| - 1], sources[|sources| - 1];
      SourcesPairs(before, scripts);
      SourceJobs(last, scripts);
      var jobs, more := JobsOfSources(before, scripts), JobsOfSource(last, scripts);
      assert |jobs + more| == |sources| * |scripts|;
      forall a: nat, k: nat | a < |sources| && k < |scripts|
        ensures PairAt(jobs + more, sources, scripts, a, k)
      {
        assert a < |before| ==> PairAt(jobs, before, scripts, a, k);
        PairAtLast(sources, scripts, jobs, more, a, k);
      }
    }
  }

  lemma {:induction false} JobsOfUsable(sources: seq<Source>, scripts: seq<string>)
    ensures JobsOfSources(sources, scripts) == JobsOfSources(UsableSources(sources), scripts)
  {
    if sources != [] {
      JobsOfUsable(sources[..|sources| - 1], scripts);
      if Usable(sources[|sources| - 1]) {
        JobsOfJoin(UsableSources(sources[..|sources| - 1]), [sources[|sources| - 1]], scripts);
        JobsOfOne(sources[|sources| - 1], scripts);
      }
    }
  }

  lemma JobsOfOne(source: Source, scripts: seq<string>)
    ensures JobsOfSources([source], scripts) == JobsOfSource(source, scripts)
  {
    assert [source][..0] == [] && JobsOfSources([], scripts) == [];
  }

  lemma {:induction false} JobsOfJoin(sources: seq<Source>, more: seq<Source>, scripts: seq<string>)
    ensures JobsOfSources(sources + more, scripts) == JobsOfSources(sources, scripts) + JobsOfSources(more, scripts)
  {
    if more == [] {
      assert sources + more == sources;
    } else {
      assert (sources + more)[..|sources + more| - 1] == sources + more[..|more| - 1];
      JobsOfJoin(sources, more[..|more| - 1], scripts);
    }
  }

  lemma {:induction false} JobsOfDetected(projects: seq<Project>, scripts: seq<string>)
    ensures Jobs(projects, scripts) == JobsOfSources(Detected(projects), scripts)
  {
    if projects != [] {
      var last := projects[|projects| - 1];
      JobsOfDetected(projects[..|projects| - 1], scripts);
      if last.isEnabled {
        JobsOfUsable(last.sources, scripts);
        JobsOfJoin(Detected(projects[..|projects| - 1]), UsableSources(last.sources), scripts);
      }
    }
  }

  /** Each usable source of each enabled project is detected with each script, once, in order. */
  lemma JobsArePairs(projects: seq<Project>, scripts: seq<string>)
    ensures Pairs(Jobs(projects, scripts), Detected(projects), scripts)
  {
    JobsOfDetected(projects, scripts);
    SourcesPairs(Detected(projects), scripts);
  }

  /** A source of an enabled project that exists and has a URL. */
  ghost predicate IsDetected(projects: seq<Project>, source: Source) {
    exists p {:trigger projects[p]} ::
      0 <= p < |projects| && projects[p].isEnabled && source in projects[p].sources && source.exists_ && source.url != ""
  }

  ghost predicate IsJob(projects: seq<Project>, scripts: seq<string>, source: Source, script: string, job: Params) {
    && IsDetected(projects, source) && script in scripts
    && job.scriptName == script && job.sourceDir == source.rootDirectory && job.rootUrl == source.url
  }

  lemma {:induction false} UsableAre(sources: seq<Source>, source: Source)
    ensures source in UsableSources(sources) <==> source in sources && source.exists_ && source.url != ""
  {
    if sources != [] {
      UsableAre(sources[..|sources| - 1], source);
      assert sources == sources[..|sources| - 1] + [sources[|sources| - 1]];
    }
  }

  lemma {:induction false} DetectedAre(projects: seq<Project>, source: Source)
    ensures source in Detected(projects) <==> IsDetected(projects, source)
  {
    if projects != [] {
      var n := |projects| - 1;
      DetectedAre(projects[..n], source);
      UsableAre(projects[n].sources, source);
      if IsDetected(projects, source) && source !in Detected(projects[..n]) {
        assert !IsDetected(projects[..n], source);
        assert forall p :: 0 <= p < n ==> projects[..n][p] == projects[p];
      }
      if IsDetected(projects[..n], source) {
        assert forall p :: 0 <= p < n ==> projects[..n][p] == projects[p];
      }
    }
  }

  /** The jobs are exactly those of an existing source of an enabled project with a URL, and a script. */
  lemma JobsAre(projects: seq<Project>, scripts: seq<string>, job: Params)
    ensures job in Jobs(projects, scripts) <==>
      exists source, script :: IsJob(projects, scripts, source, script, job)
  {
    var jobs, sources := Jobs(projects, scripts), Detected(projects);
    JobsArePairs(projects, scripts);
    if exists source, script :: IsJob(projects, scripts, source, script, job) {
      var source, script :| IsJob(projects, scripts, source, script, job);
      DetectedAre(projects, source);
      var a :| 0 <= a < |sources| && sources[a] == source;
      var k :| 0 <= k < |scripts| && scripts[k] == script;
      assert PairAt(jobs, sources, scripts, a, k);
    }
    if job in jobs {
      var n :| 0 <= n < |jobs| && jobs[n] == job;
      JobIsPair(n, |sources|, |scripts|);
      var a, k := n / |scripts|, n % |scripts|;
      assert PairAt(jobs, sources, scripts, a, k);
      DetectedAre(projects, sources[a]);
      assert IsJob(projects, scripts, sources[a], scripts[k], job);
    }
  }

  /** And they come in the order of the projects. */
  lemma {:induction false} JobsInOrder(projects: seq<Project>, more: seq<Project>, scripts: seq<string>)
    ensures Jobs(projects + more, scripts) == Jobs(projects, scripts) + Jobs(more, scripts)
  {
    if more == [] {
      assert projects + more == projects;
    } else {
      assert (projects + more)[..|projects + more| - 1] == projects + more[..|more| - 1];
      JobsInOrder(projects, more[..|more| - 1], scripts);
    }
  }

  lemma ProductGrows(a: int, b: int, scripts: nat)
    ensures b <= a ==> b * scripts <= a * scripts
  {
    assert a * scripts == b * scripts + (a - b) * scripts;
  }

  lemma JobIsPair(n: nat, sources: nat, scripts: nat)
    requires n < sources * scripts
    ensures scripts > 0 && n / scripts < sources && n == n / scripts * scripts + n % scripts
  {
    var a := n / scripts;
    assert n == a * scripts + n % scripts;
    ProductGrows(a, sources, scripts);
  }

  // ---------------------------------------------------------------- the handlers

  /**
    `tried` and `outcomes` record the process starts and whether they succeeded, `isProcessRunning`
    whether a process is out that will report its end, `signals` the calls to SignalEnd.
   */
  datatype View = View(
    queue: seq<Params>, tried: seq<Params>, outcomes: seq<bool>, isProcessRunning: bool, signals: nat)

  const IDLE := View([], [], [], false, 0)

  /** NextDetection: the front leaves the queue whether or not its process starts. */
  function Tried(v: View, starts: bool): View
    requires v.queue != []
  {
    View(v.queue[1..], v.tried + [v.queue[0]], v.outcomes + [starts], starts, v.signals)
  }

  /** Init with PHP installed. */
  function Begun(jobs: seq<Params>, starts: bool): View {
    if jobs == [] then IDLE else Tried(IDLE.(queue := jobs), starts)
  }

  /** OnProcessComplete and OnProcessFailed. */
  function Ended(v: View, starts: bool): View {
    if v.queue == [] then v.(isProcessRunning := false, signals := v.signals + 1) else Tried(v, starts)
  }

  class UrlTagDetectorActionClass {
    var ParamsQueue: seq<Params>
    ghost var Tries: seq<Params>
    ghost var Outcomes: seq<bool>
    ghost var IsProcessRunning: bool
    ghost var Signals: nat

    ghost function Contents(): View
      reads this
    {
      View(ParamsQueue, Tries, Outcomes, IsProcessRunning, Signals)
    }

    constructor ()
      ensures Contents() == IDLE
    {
      ParamsQueue, Tries, Outcomes, IsProcessRunning, Signals := [], [], [], false, 0;
    }

    /** `starts` is what the operating system answers to the process start, if there is one. */
    method Init(projects: seq<Project>, scripts: seq<string>, phpInstalled: bool, starts: bool) returns (started: bool)
      requires Contents() == IDLE.(queue := ParamsQueue)
      modifies this
      ensures !phpInstalled ==> !started && Contents() == old(Contents())
      ensures phpInstalled ==> Contents() == Begun(Jobs(projects, scripts), starts)
      ensures started <==> phpInstalled && Jobs(projects, scripts) != [] && starts
    {
      if !phpInstalled {
        return false;
      }
      while ParamsQueue != []
        invariant Contents() == IDLE.(queue := ParamsQueue)
        decreases |ParamsQueue|
      {
        ParamsQueue := ParamsQueue[1..];
      }
      for p := 0 to |projects|
        invariant Contents() == IDLE.(queue := Jobs(projects[..p], scripts))
      {
        assert projects[..p + 1][..p] == projects[..p];
        if projects[p].isEnabled {
          PushSources(projects[p].sources, scripts);
        }
      }
      assert projects[..|projects|] == projects;
      started := false;
      if ParamsQueue != [] {
        started := NextDetection(starts);
      }
    }

    /** The inner two loops of Init. */
    method PushSources(sources: seq<Source>, scripts: seq<string>)
      modifies this`ParamsQueue
      ensures ParamsQueue == old(ParamsQueue) + JobsOfSources(sources, scripts)
    {
      for s := 0 to |sources|
        invariant ParamsQueue == old(ParamsQueue) + JobsOfSources(sources[..s], scripts)
      {
        assert sources[..s + 1][..s] == sources[..s];
        ghost var queue := ParamsQueue;
        var source := sources[s];
        if source.exists_ {
          for k := 0 to |scripts|
            invariant ParamsQueue == queue + JobsOfSource(source, scripts[..k])
          {
            assert scripts[..k + 1][..k] == scripts[..k];
            var params := Params(scripts[k], source.rootDirectory, source.url);
            if params.rootUrl != "" {
              ParamsQueue := ParamsQueue + [params];
            }
          }
          assert scripts[..|scripts|] == scripts;
        }
      }
      assert sources[..|sources|] == sources;
    }

    method NextDetection(starts: bool) returns (started: bool)
      modifies this
      ensures old(ParamsQueue) == [] ==> !started && Contents() == old(Contents())
      ensures old(ParamsQueue) != [] ==> started == starts && Contents() == Tried(old(Contents()), starts)
    {
      if ParamsQueue == [] {
        return false;
      }
      var params := ParamsQueue[0];
      ParamsQueue := ParamsQueue[1..];
      started := starts;
      Tries, Outcomes, IsProcessRunning := Tries + [params], Outcomes + [starts], starts;
    }

    /** OnProcessFailed differs only in what it logs. */
    method OnProcessComplete(starts: bool)
      requires IsProcessRunning
      modifies this
      ensures Contents() == Ended(old(Contents()), starts)
    {
      IsProcessRunning := false;
      if ParamsQueue == [] {
        Signals := Signals + 1;
      } else {
        var started := NextDetection(starts);
      }
    }
  }

  // ---------------------------------------------------------------- runs

  ghost predicate CanBegin(v: View, jobs: seq<Params>) {
    exists starts :: v == Begun(jobs, starts)
  }

  /** A process that runs reports its end. */
  ghost predicate Next(v: View, w: View) {
    v.isProcessRunning && exists starts :: w == Ended(v, starts)
  }

  ghost predicate IsRun(run: seq<View>, jobs: seq<Params>) {
    && run != [] && CanBegin(run[0], jobs)
    && forall n :: 0 < n < |run| ==> Next(run[n - 1], run[n])
  }

  predicate AllStarted(outcomes: seq<bool>) {
    forall k :: 0 <= k < |outcomes| ==> outcomes[k]
  }

  ghost predicate Progress(v: View, jobs: seq<Params>) {
    && v.tried + v.queue == jobs
    && |v.outcomes| == |v.tried|
    && (jobs != [] ==> v.tried != [])
    && (forall k :: 0 <= k < |v.outcomes| - 1 ==> v.outcomes[k])
    && (v.isProcessRunning ==> v.signals == 0 && v.tried != [] && AllStarted(v.outcomes))
    && (!v.isProcessRunning ==> v.signals == if v.tried != [] && AllStarted(v.outcomes) then 1 else 0)
    && (v.signals == 1 ==> v.queue == [])
  }

  lemma BegunProgress(v: View, jobs: seq<Params>)
    requires CanBegin(v, jobs)
    ensures Progress(v, jobs) && (jobs != [] ==> |v.tried| == 1)
  {
    var starts :| v == Begun(jobs, starts);
    if jobs != [] {
      assert [] + [jobs[0]] + jobs[1..] == jobs;
      assert v.outcomes == [starts];
      assert AllStarted(v.outcomes) <==> starts by {
        assert v.outcomes[0] == starts;
      }
    }
  }

  lemma EndedProgress(v: View, w: View, jobs: seq<Params>)
    requires Progress(v, jobs) && Next(v, w)
    ensures Progress(w, jobs)
    ensures |w.tried| == |v.tried| + 1 || (w.outcomes == v.outcomes && w.signals == 1)
  {
    var starts :| w == Ended(v, starts);
    if v.queue != [] {
      assert w.tried + w.queue == v.tried + v.queue;
      assert w.outcomes[|w.outcomes| - 1] == starts;
    }
  }

  /** After n process ends. */
  lemma {:induction false} RunProgress(run: seq<View>, jobs: seq<Params>, n: nat)
    requires IsRun(run, jobs) && n < |run|
    ensures Progress(run[n], jobs)
    ensures run[n].signals == 0 && jobs != [] ==> |run[n].tried| == n + 1
    ensures run[n].signals == 1 ==> |run[n].tried| == n
  {
    if n == 0 {
      BegunProgress(run[0], jobs);
    } else {
      RunProgress(run, jobs, n - 1);
      EndedProgress(run[n - 1], run[n], jobs);
    }
  }

  /** The jobs are started in order, each at most once, and a run is no longer than the list of jobs. */
  lemma StartsInOrder(run: seq<View>, jobs: seq<Params>)
    requires IsRun(run, jobs)
    ensures run[|run| - 1].tried <= jobs && |run| <= |jobs| + 1
    ensures forall n :: 0 <= n < |run| ==> run[n].signals <= 1
  {
    RunProgress(run, jobs, |run| - 1);
    if jobs == [] && |run| > 1 {
      RunProgress(run, jobs, 0);
      NextRuns(run, jobs, 0);
    }
    forall n | 0 <= n < |run| ensures run[n].signals <= 1 {
      RunProgress(run, jobs, n);
    }
  }

  /**
    Once no process is running, a step with jobs has signalled its end exactly when every process
    could be started, and then every job has been tried.
   */
  lemma SignalsOnceWhenAllStart(run: seq<View>, jobs: seq<Params>)
    requires IsRun(run, jobs) && jobs != [] && !run[|run| - 1].isProcessRunning
    ensures var v := run[|run| - 1];
      (v.signals == 1 <==> AllStarted(v.outcomes)) && (v.signals == 1 ==> v.tried == jobs)
  {
    RunProgress(run, jobs, |run| - 1);
  }

  /**
    A start that fails after the first is ignored: nothing runs any more, no end was signalled, and
    no further event of this step can come, whatever jobs are left.
   */
  lemma FailedStartIsSilent(run: seq<View>, jobs: seq<Params>, n: nat)
    requires IsRun(run, jobs) && n < |run| && !AllStarted(run[n].outcomes)
    ensures n == |run| - 1 && !run[n].isProcessRunning && run[n].signals == 0
    ensures n < |jobs| && run[n].tried == jobs[..n + 1] && run[n].queue == jobs[n + 1..]
  {
    RunProgress(run, jobs, n);
    if n < |run| - 1 {
      NextRuns(run, jobs, n);
    }
  }

  lemma NextRuns(run: seq<View>, jobs: seq<Params>, n: nat)
    requires IsRun(run, jobs) && n < |run| - 1
    ensures run[n].isProcessRunning
  {
    assert Next(run[n + 1 - 1], run[n + 1]);
  }

  /** Two jobs, of which the first is started and ends and the second cannot be started. */
  lemma SecondStartFails(a: Params, b: Params)
    ensures var run := [View([b], [a], [true], true, 0), View([], [a, b], [true, false], false, 0)];
      && IsRun(run, [a, b])
      && run[1] == Ended(run[0], false) && !run[1].isProcessRunning && run[1].signals == 0
  {
    var v, w := View([b], [a], [true], true, 0), View([], [a, b], [true, false], false, 0);
    assert v == Begun([a, b], true);
    assert w == Ended(v, false);
    assert Next(v, w);
  }
}
