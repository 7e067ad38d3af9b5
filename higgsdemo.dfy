/**
 * The `HiggsDemo` object: its configuration, the per-full-set job counter
 * that `submit` updates in place, and the pod tally that `status` rebuilds.
 * Cluster calls are modelled by the replies the cluster gives (see
 * `Pagination`), and the calls the object makes are returned as a log.
 */
module HiggsDemoModel {
  import opened Wrappers
  import opened Errors
  import opened Text
  import opened Pagination
  import opened Batching
  import opened Chunking
  import opened PodTally
  import opened Naming
  import opened Settings
  import opened Jobs

  /** A deletion `cleanup` asks of the cluster, in the object's namespace. */
  datatype Call =
    | DeleteConfigMap(namespace: string, name: string)
    | DeleteJobs(namespace: string, request: Request)
    | DeletePods(namespace: string, request: Request)

  function JobDeletions(namespace: string, sent: seq<Request>): (calls: seq<Call>)
    ensures |calls| == |sent|
    ensures forall i :: 0 <= i < |sent| ==> calls[i] == DeleteJobs(namespace, sent[i])
  {
    seq(|sent|, i requires 0 <= i < |sent| => DeleteJobs(namespace, sent[i]))
  }

  function PodDeletions(namespace: string, sent: seq<Request>): (calls: seq<Call>)
    ensures |calls| == |sent|
    ensures forall i :: 0 <= i < |sent| ==> calls[i] == DeletePods(namespace, sent[i])
  {
    seq(|sent|, i requires 0 <= i < |sent| => DeletePods(namespace, sent[i]))
  }

  /**
   * What `cleanup` does: delete config map `runjob`, then `getfile` unless
   * the first deletion failed (a failure of either is swallowed); then all
   * jobs page by page; then, unless that raised, all pods.
   */
  function CleanupSpec(namespace: string, limit: int, runjobFails: bool,
    jobReplies: seq<Reply<()>>, podReplies: seq<Reply<()>>): (seq<Call>, Option<Exception>)
    requires Terminates(jobReplies) && Terminates(podReplies)
  {
    var maps := if runjobFails then [DeleteConfigMap(namespace, "runjob")]
      else [DeleteConfigMap(namespace, "runjob"), DeleteConfigMap(namespace, "getfile")];
    var head := maps + JobDeletions(namespace, Sent(limit, jobReplies));
    match DeleteOutcome(jobReplies)
    case Some(e) => (head, Some(e))
    case None => (head + PodDeletions(namespace, Sent(limit, podReplies)), DeleteOutcome(podReplies))
  }

  /**
   * The order `cleanup` keeps: `runjob` goes first, `getfile` is tried
   * exactly when `runjob` went, pods are deleted exactly when every job
   * page was, and nothing is raised exactly when both deletions succeed.
   */
  lemma CleanupOrder(namespace: string, limit: int, runjobFails: bool,
    jobReplies: seq<Reply<()>>, podReplies: seq<Reply<()>>)
    requires Terminates(jobReplies) && Terminates(podReplies)
    ensures var (calls, raised) := CleanupSpec(namespace, limit, runjobFails, jobReplies, podReplies);
      && calls[0] == DeleteConfigMap(namespace, "runjob")
      && (DeleteConfigMap(namespace, "getfile") in calls <==> !runjobFails)
      && ((exists c :: c in calls && c.DeletePods?) <==> DeleteOutcome(jobReplies).None?)
      && (raised.None? <==> DeleteOutcome(jobReplies).None? && DeleteOutcome(podReplies).None?)
  {
    var (calls, raised) := CleanupSpec(namespace, limit, runjobFails, jobReplies, podReplies);
    var jobs := JobDeletions(namespace, Sent(limit, jobReplies));
    if DeleteOutcome(jobReplies).None? {
      var pods := PodDeletions(namespace, Sent(limit, podReplies));
      assert calls[|calls| - |pods|] == pods[0];
    }
    if runjobFails {
      assert DeleteConfigMap(namespace, "getfile") !in jobs;
    }
  }

  /**
   * The manifests `submit` renders, one per planned job; `render` stands for
   * substituting the parameters into the job template.
   */
  function Manifests(cfg: Config, basedir: string, jobs: seq<Job>, render: map<string, string> -> string): (ms: seq<string>)
    ensures |ms| == |jobs|
    ensures forall i :: 0 <= i < |jobs| ==> ms[i] == render(Params(cfg, basedir, jobs[i]))
  {
    seq(|jobs|, i requires 0 <= i < |jobs| => render(Params(cfg, basedir, jobs[i])))
  }

  /** The object's job counter after `submit`, the creation calls made, and what was raised. */
  datatype Submitted = Submitted(counter: map<string, nat>, calls: seq<CreateRequest>, raised: Option<Exception>)

  /**
   * What `submit` does from job counter `c0`: list the dataset files (as
   * `_dataset_files` is written, so with neither a pattern nor a mapping it
   * raises `AttributeError`), plan a job per line (updating the counter as it
   * goes, even when it later raises), and submit the rendered manifests
   * unless planning raised.
   */
  function SubmitSpec(cfg: Config, c0: map<string, nat>, globMatches: seq<string>, disk: Disk,
    render: map<string, string> -> string, rejection: Option<Rejection>): Submitted
  {
    match DatasetFilesAsWritten(cfg, globMatches)
    case Err(e) => Submitted(c0, [], Some(e))
    case Ok(paths) =>
      var plan := StepFiles(Plan([], c0, None), disk, paths);
      if plan.raised.Some? then Submitted(plan.counter, [], plan.raised)
      else
        var basedir := BaseDir(cfg.args.storageType, cfg.args.bucket, cfg.args.run);
        var (calls, raised) := Submission(Manifests(cfg, basedir, plan.jobs, render), cfg.args.limit, rejection);
        Submitted(plan.counter, calls, raised)
  }

  /**
   * With neither a dataset pattern nor a mapping, `submit` raises
   * `AttributeError` before it plans or creates anything.
   */
  lemma SubmitWithoutSources(cfg: Config, c0: map<string, nat>, globMatches: seq<string>, disk: Disk,
    render: map<string, string> -> string, rejection: Option<Rejection>)
    requires !Settings.Truthy(cfg.args.datasetPattern) && cfg.mapping.None?
    ensures SubmitSpec(cfg, c0, globMatches, disk, render, rejection) == Submitted(c0, [], Some(AttributeError("dataset_mapping")))
  {
  }

  /**
   * When the dataset files are an empty list (a pattern matching nothing, or
   * an empty mapping), `submit` creates only the config map (for a positive
   * limit), raises nothing and leaves the counter alone.
   */
  lemma SubmitWithoutFiles(cfg: Config, c0: map<string, nat>, globMatches: seq<string>, disk: Disk,
    render: map<string, string> -> string, rejection: Option<Rejection>)
    requires DatasetFilesAsWritten(cfg, globMatches) == Ok([]) && cfg.args.limit > 0
    ensures SubmitSpec(cfg, c0, globMatches, disk, render, rejection) == Submitted(c0, [FromFile(ConfigMapFile)], None)
  {
    BatchCount([], cfg.args.limit);
  }

  /**
   * When planning raises nothing and the cluster accepts every batch,
   * `submit` raises nothing, leaves the counter where planning left it and
   * makes the creation calls of `Submission` on the rendered manifests (see
   * `SubmissionCarriesAll` for what those carry).
   */
  lemma SubmitCompletes(cfg: Config, c0: map<string, nat>, globMatches: seq<string>, disk: Disk,
    render: map<string, string> -> string)
    requires DatasetFilesAsWritten(cfg, globMatches).Ok? && cfg.args.limit > 0
    requires StepFiles(Plan([], c0, None), disk, DatasetFilesAsWritten(cfg, globMatches).value).raised.None?
    ensures var plan := StepFiles(Plan([], c0, None), disk, DatasetFilesAsWritten(cfg, globMatches).value);
      var ms := Manifests(cfg, BaseDir(cfg.args.storageType, cfg.args.bucket, cfg.args.run), plan.jobs, render);
      var s := SubmitSpec(cfg, c0, globMatches, disk, render, None);
      s == Submitted(plan.counter, Submission(ms, cfg.args.limit, None).0, None)
  {
    var plan := StepFiles(Plan([], c0, None), disk, DatasetFilesAsWritten(cfg, globMatches).value);
    var ms := Manifests(cfg, BaseDir(cfg.args.storageType, cfg.args.bucket, cfg.args.run), plan.jobs, render);
    SubmissionWhenAccepted(ms, cfg.args.limit);
  }

  /** The pods of the listing, as changes that are not deletions. */
  function Snapshot(items: seq<PodStatus>): (cs: seq<Change>)
    ensures |cs| == |items|
    ensures forall i :: 0 <= i < |items| ==> cs[i] == Change(false, items[i])
  {
    seq(|items|, i requires 0 <= i < |items| => Change(false, items[i]))
  }

  /** The counts reported after each of the first `done` watch events. */
  function Reports(t: Tally, events: seq<Change>, done: nat): (rs: seq<map<Phase, nat>>)
    requires done <= |events|
    ensures |rs| == done
    ensures forall i :: 0 <= i < done ==> rs[i] == Counts(Replay(t, events[..i + 1]).tally)
  {
    seq(done, i requires 0 <= i < done => Counts(Replay(t, events[..i + 1]).tally))
  }

  lemma ReportsNext(t: Tally, events: seq<Change>, k: nat)
    requires k < |events|
    ensures Reports(t, events, k + 1) == Reports(t, events, k) + [Counts(Replay(t, events[..k + 1]).tally)]
  {
  }

  /**
   * The watch `status` opens: `list_namespaced_pod` streamed in the object's
   * namespace with `timeout_seconds=0`, from resource version `resourceVersion`.
   */
  datatype WatchRequest = WatchRequest(namespace: string, timeoutSeconds: int, resourceVersion: string)

  /**
   * What `status` does and yields: the listing requests it sends, the watch
   * it opens (if any), the tally it leaves, the returned counts, the counts
   * passed to `fn`, and what was raised.
   */
  datatype Watched = Watched(requests: seq<Request>, stream: Option<WatchRequest>, tally: Tally,
    result: Option<map<Phase, nat>>, reports: seq<map<Phase, nat>>, raised: Option<Exception>)

  /**
   * `status(fn)`: tally the listed pods from empty lists; without `fn`,
   * return the counts; with `fn`, report the counts and then the counts
   * after each watch event, until an event raises. The watch stream, which
   * does not end on its own, is given as the finite sequence of events seen.
   */
  function StatusSpec(namespace: string, limit: int, snapshot: seq<Reply<PodStatus>>, events: seq<Change>, withFn: bool): Watched
    requires Terminates(snapshot)
  {
    var requests := Sent(limit, snapshot);
    match ListOutcome(snapshot)
    case Err(e) => Watched(requests, None, Empty(), None, [], Some(e))
    case Ok(listing) =>
      var first := Replay(Empty(), Snapshot(listing.items));
      if first.raised.Some? then Watched(requests, None, first.tally, None, [], first.raised)
      else if !withFn then Watched(requests, None, first.tally, Some(Counts(first.tally)), [], None)
      else
        var later := Replay(first.tally, events);
        Watched(requests, Some(WatchRequest(namespace, 0, listing.resourceVersion)), later.tally, None,
          [Counts(first.tally)] + Reports(first.tally, events, later.done), later.raised)
  }

  /**
   * Against a server listing the pods `pods` in pages of `limit` at resource
   * version `rv`, `status(fn)` sends ceil(N / limit) list requests (one when
   * there are no pods), and when the listing tallies without error it opens
   * the watch in its namespace exactly at `rv`, so no change after the
   * snapshot is missed; without `fn` it opens no watch.
   */
  lemma WatchStartsAtListing(namespace: string, limit: nat, pods: seq<PodStatus>, rv: string, events: seq<Change>, withFn: bool)
    requires limit > 0
    ensures Terminates(Served(Chunks(pods, limit), rv))
    ensures var w := StatusSpec(namespace, limit, Served(Chunks(pods, limit), rv), events, withFn);
      && |w.requests| == (if pods == [] then 1 else (|pods| + limit - 1) / limit)
      && (w.stream.Some? <==> withFn && Replay(Empty(), Snapshot(pods)).raised.None?)
      && (w.stream.Some? ==> w.stream.value == WatchRequest(namespace, 0, rv))
  {
    ListingIsComplete(pods, limit, rv);
  }

  /**
   * A watch that raises nothing reports once per event plus once for the
   * listing; its last report counts the final tally, in which each pod sits
   * in the list its last change (listing first, then events) put it in, and
   * the counts add up to the number of distinct pods.
   */
  lemma StatusAfterEvents(namespace: string, limit: int, snapshot: seq<Reply<PodStatus>>, events: seq<Change>)
    requires Terminates(snapshot) && StatusSpec(namespace, limit, snapshot, events, true).raised.None?
    ensures ListOutcome(snapshot).Ok?
    ensures var w := StatusSpec(namespace, limit, snapshot, events, true);
      var cs := Snapshot(ListOutcome(snapshot).value.items) + events;
      && |w.reports| == 1 + |events|
      && w.reports[|events|] == Counts(w.tally)
      && (forall name, p :: name in w.tally.Get(p) <==>
        (LastChange(cs, name).Some? && Places(LastChange(cs, name).value, p)))
      && Total(w.reports[|events|]) == |Names(w.tally)|
  {
    var listing := ListOutcome(snapshot).value;
    var snap := Snapshot(listing.items);
    var first := Replay(Empty(), snap);
    var later := Replay(first.tally, events);
    assert StatusSpec(namespace, limit, snapshot, events, true)
      == Watched(Sent(limit, snapshot), Some(WatchRequest(namespace, 0, listing.resourceVersion)), later.tally, None,
        [Counts(first.tally)] + Reports(first.tally, events, later.done), later.raised);
    WatchReports(snap, events);
    WatchPlacement(snap, events);
  }

  /**
   * The reports of a watch after listing `snap`, when neither raises: one
   * per event after the listing's, the last one counting the final tally.
   */
  lemma WatchReports(snap: seq<Change>, events: seq<Change>)
    requires Replay(Empty(), snap).raised.None? && Replay(Replay(Empty(), snap).tally, events).raised.None?
    ensures var first := Replay(Empty(), snap);
      var later := Replay(first.tally, events);
      var reports := [Counts(first.tally)] + Reports(first.tally, events, later.done);
      |reports| == 1 + |events| && reports[|events|] == Counts(later.tally)
  {
    var first := Replay(Empty(), snap);
    var later := Replay(first.tally, events);
    assert later.done == |events|;
    if events != [] {
      var rs := Reports(first.tally, events, |events|);
      assert events[..|events| - 1 + 1] == events;
      assert rs[|events| - 1] == Counts(later.tally);
    }
  }

  /**
   * The tally after listing `snap` and then `events`, neither raising,
   * places each pod by its last change, and its counts add up to the number
   * of distinct pods.
   */
  lemma WatchPlacement(snap: seq<Change>, events: seq<Change>)
    requires Replay(Empty(), snap).raised.None? && Replay(Replay(Empty(), snap).tally, events).raised.None?
    ensures var later := Replay(Replay(Empty(), snap).tally, events).tally;
      && (forall name, p :: name in later.Get(p) <==>
        (LastChange(snap + events, name).Some? && Places(LastChange(snap + events, name).value, p)))
      && Total(Counts(later)) == |Names(later)|
  {
    var cs := snap + events;
    var later := Replay(Replay(Empty(), snap).tally, events).tally;
    ReplayAppend(Empty(), snap, events);
    assert Replay(Empty(), cs).tally == later && Replay(Empty(), cs).raised.None?;
    TallyFromScratch(cs);
    TotalIsDistinctPods(later);
  }

  /**
   * The text of batch `b` of `_kube_submit`, built from the slice
   * `manifests[i:i + limit]` that starts at `i == b * limit`.
   */
  method BatchText(manifests: seq<string>, limit: nat, b: nat, i: nat) returns (yaml: string)
    requires limit > 0 && b < |Batches(manifests, limit)| && i == b * limit
    ensures yaml == Batches(manifests, limit)[b]
  {
    BatchAt(manifests, limit, b);
    var hi := if i + limit <= |manifests| then i + limit else |manifests|;
    yaml := JoinSlice(manifests, i, hi);
  }

  /** The inner loop of `_kube_submit`: `yaml += "\n---\n%s" % m` for each manifest of the slice. */
  method JoinSlice(manifests: seq<string>, lo: nat, hi: nat) returns (yaml: string)
    requires lo <= hi <= |manifests|
    ensures yaml == Join(manifests[lo..hi])
  {
    yaml := "";
    var j := lo;
    while j < hi
      invariant lo <= j <= hi
      invariant yaml == Join(manifests[lo..j])
    {
      assert manifests[lo..j + 1][..j - lo] == manifests[lo..j];
      yaml := yaml + Separator + manifests[j];
      j := j + 1;
    }
  }

  /** The position of a phase's list in `PhaseOrder`. */
  function Rank(p: Phase): (k: nat)
    ensures k < |PhaseOrder| && PhaseOrder[k] == p
  {
    match p
    case Pulling => 0
    case Running => 1
    case Pending => 2
    case Succeeded => 3
    case Failed => 4
    case Unknown => 5
  }

  /** `PhaseOrder` lists each phase once, so position `k` holds the phase of rank `k`. */
  lemma RankOrder()
    ensures forall k :: 0 <= k < |PhaseOrder| ==> Rank(PhaseOrder[k]) == k
  {
  }

  /** The tally after the removal loop has visited the first `j` phase lists. */
  function RemoveThrough(t: Tally, name: string, j: nat): Tally
    requires j <= |PhaseOrder|
  {
    if j == 0 then t
    else
      var u := RemoveThrough(t, name, j - 1);
      u.With(PhaseOrder[j - 1], RemoveFirst(u.Get(PhaseOrder[j - 1]), name))
  }

  /** After `j` steps the visited lists have lost `name` and the others are untouched. */
  lemma {:induction false} RemoveThroughGet(t: Tally, name: string, j: nat)
    requires j <= |PhaseOrder|
    ensures forall q :: RemoveThrough(t, name, j).Get(q) == (if Rank(q) < j then RemoveFirst(t.Get(q), name) else t.Get(q))
  {
    if j > 0 {
      RemoveThroughGet(t, name, j - 1);
      RankOrder();
    }
  }

  /** Once the removal loop has visited every list, the tally is `RemoveEverywhere`'s. */
  lemma RemovedEverywhere(t: Tally, name: string)
    ensures RemoveThrough(t, name, |PhaseOrder|) == RemoveEverywhere(t, name)
  {
    RemoveThroughGet(t, name, |PhaseOrder|);
    TallyExt(RemoveThrough(t, name, |PhaseOrder|), RemoveEverywhere(t, name));
  }

  /** The phase lists in the order `self._pods.keys()` yields them. */
  const PhaseOrder: seq<Phase> := [Pulling, Running, Pending, Succeeded, Failed, Unknown]

  lemma PhaseOrderComplete()
    ensures forall p :: p in PhaseOrder
  {
    forall p ensures p in PhaseOrder {
      match p
      case Pulling => assert PhaseOrder[0] == p;
      case Running => assert PhaseOrder[1] == p;
      case Pending => assert PhaseOrder[2] == p;
      case Succeeded => assert PhaseOrder[3] == p;
      case Failed => assert PhaseOrder[4] == p;
      case Unknown => assert PhaseOrder[5] == p;
    }
  }

  class HiggsDemo {
    /** The settings fixed at construction (see `Settings.Configure`). */
    const config: Config
    /** `self._dataset_job_counter`: jobs planned so far per full set. */
    var jobCounter: map<string, nat>
    /** `self._pods`: pod names per phase list. */
    var pods: Tally

    constructor (cfg: Config)
      ensures config == cfg && jobCounter == map[] && pods == Empty()
    {
      config := cfg;
      jobCounter := map[];
      pods := Empty();
    }

    /**
     * `_kube_submit`: create the config map, then one multi-document text
     * per slice of at most `limit` manifests, stopping at the first batch
     * the cluster rejects.
     */
    method KubeSubmit(manifests: seq<string>, rejection: Option<Rejection>)
      returns (calls: seq<CreateRequest>, raised: Option<Exception>)
      ensures (calls, raised) == Submission(manifests, config.args.limit, rejection)
    {
      calls := [FromFile(ConfigMapFile)];
      var limit := config.args.limit;
      if limit == 0 {
        return calls, Some(ValueError("range() arg 3 must not be zero"));
      }
      if limit < 0 {
        return calls, None;
      }
      ghost var texts := Batches(manifests, limit);
      ghost var all := Creations(texts);
      ghost var spec := Submission(manifests, limit, rejection);
      var b := 0;
      BatchCount(manifests, limit);
      ChunkExists(|manifests|, limit, 0);
      var i := 0;
      while i < |manifests|
        invariant i == b * limit && b <= |texts|
        invariant b < |texts| <==> i < |manifests|
        invariant calls == [FromFile(ConfigMapFile)] + all[..b]
        invariant rejection.Some? ==> rejection.value.batch >= b
        decreases |manifests| - i
      {
        var yaml := BatchText(manifests, limit, b, i);
        assert all[..b + 1] == all[..b] + [FromText(yaml)];
        calls := calls + [FromText(yaml)];
        if rejection.Some? && rejection.value.batch == b {
          assert rejection == Some(Rejection(b, rejection.value.status));
          SubmissionRejected(manifests, limit, b, rejection.value.status);
          assert calls == [FromFile(ConfigMapFile)] + all[..b + 1];
          assert spec.0 == calls;
          return calls, Some(FailToCreateError(rejection.value.status));
        }
        MulSucc(b, limit);
        i := i + limit;
        b := b + 1;
        ChunkExists(|manifests|, limit, b);
      }
      assert b == |all| && all[..b] == all;
      assert spec == (calls, None);
      raised := None;
    }

    /** `cleanup`: the deletions made, in order, and the exception that escapes, if any. */
    method Cleanup(runjobFails: bool, jobReplies: seq<Reply<()>>, podReplies: seq<Reply<()>>)
      returns (calls: seq<Call>, raised: Option<Exception>)
      requires Terminates(jobReplies) && Terminates(podReplies)
      ensures (calls, raised) == CleanupSpec(config.args.namespace, config.args.limit, runjobFails, jobReplies, podReplies)
    {
      var namespace := config.args.namespace;
      ghost var spec := CleanupSpec(namespace, config.args.limit, runjobFails, jobReplies, podReplies);
      calls := [DeleteConfigMap(namespace, "runjob")];
      if !runjobFails {
        calls := calls + [DeleteConfigMap(namespace, "getfile")];
      }
      var jobsRaised, jobsSent := DeleteAll(config.args.limit, jobReplies);
      calls := calls + JobDeletions(namespace, jobsSent);
      if jobsRaised.Some? {
        assert spec.1 == jobsRaised && spec.0 == calls;
        return calls, jobsRaised;
      }
      var podsRaised, podsSent := DeleteAll(config.args.limit, podReplies);
      calls := calls + PodDeletions(namespace, podsSent);
      raised := podsRaised;
      assert spec.1 == raised && spec.0 == calls;
    }

    /**
     * One pod of the listing or one watch event: take its name out of every
     * list, then, unless it was deleted, append it to the list it classifies to.
     */
    method Place(c: Change) returns (raised: Option<Exception>)
      modifies this
      ensures (pods, raised) == Apply(old(pods), c)
      ensures jobCounter == old(jobCounter)
    {
      var name := c.pod.name;
      ghost var before := pods;
      for j := 0 to |PhaseOrder|
        invariant jobCounter == old(jobCounter)
        invariant pods == RemoveThrough(before, name, j)
      {
        pods := pods.With(PhaseOrder[j], RemoveFirst(pods.Get(PhaseOrder[j]), name));
      }
      RemovedEverywhere(before, name);
      if c.deleted {
        return None;
      }
      var phase := Classify(c.pod);
      if phase.Err? {
        return Some(phase.error);
      }
      pods := pods.Append(phase.value, name);
      raised := None;
    }

    /** `{p: len(self._pods[p]) for p in self._pods.keys()}`. */
    method CountNow() returns (result: map<Phase, nat>)
      ensures result == Counts(pods)
    {
      result := map[];
      for j := 0 to |PhaseOrder|
        invariant forall p :: p in result <==> p in PhaseOrder[..j]
        invariant forall p :: p in result ==> result[p] == |pods.Get(p)|
      {
        result := result[PhaseOrder[j] := |pods.Get(PhaseOrder[j])|];
      }
      PhaseOrderComplete();
      assert PhaseOrder[..|PhaseOrder|] == PhaseOrder;
      assert result.Keys == Counts(pods).Keys;
    }

    /** The listing loop of `status`: place each listed pod in turn. */
    method Load(items: seq<PodStatus>) returns (raised: Option<Exception>)
      modifies this
      ensures Replay(old(pods), Snapshot(items)) == Run(pods, Replay(old(pods), Snapshot(items)).done, raised)
      ensures jobCounter == old(jobCounter)
    {
      ghost var base := pods;
      ghost var snap := Snapshot(items);
      var k := 0;
      while k < |items|
        invariant k <= |items| && jobCounter == old(jobCounter)
        invariant Replay(base, snap[..k]) == Run(pods, k, None)
      {
        ReplayStep(base, snap, k);
        raised := Place(Change(false, items[k]));
        if raised.Some? {
          StuckAfter(base, snap, k + 1);
          return;
        }
        k := k + 1;
      }
      assert snap[..k] == snap;
      raised := None;
    }

    /**
     * The watch loop of `status(fn)`: apply each event and report the counts
     * after it, stopping at the first event that raises.
     */
    method Watch(events: seq<Change>) returns (reports: seq<map<Phase, nat>>, raised: Option<Exception>)
      modifies this
      ensures var later := Replay(old(pods), events);
        && later == Run(pods, later.done, raised)
        && reports == Reports(old(pods), events, later.done)
      ensures jobCounter == old(jobCounter)
    {
      reports := [];
      ghost var base := pods;
      var k := 0;
      while k < |events|
        invariant k <= |events| && jobCounter == old(jobCounter)
        invariant Replay(base, events[..k]) == Run(pods, k, None)
        invariant reports == Reports(base, events, k)
      {
        ReplayStep(base, events, k);
        raised := Place(events[k]);
        if raised.Some? {
          StuckAfter(base, events, k + 1);
          return;
        }
        var counts := CountNow();
        ReportsNext(base, events, k);
        reports := reports + [counts];
        k := k + 1;
      }
      assert events[..k] == events;
      raised := None;
    }

    /**
     * `status(fn)`: `requests` are the listing pages it asks for, `stream` the
     * watch it opens, `result` what it returns without `fn`, and `reports`
     * the counts it passes to `fn` in order.
     */
    method Status(snapshot: seq<Reply<PodStatus>>, events: seq<Change>, withFn: bool)
      returns (requests: seq<Request>, stream: Option<WatchRequest>, result: Option<map<Phase, nat>>,
        reports: seq<map<Phase, nat>>, raised: Option<Exception>)
      requires Terminates(snapshot)
      modifies this
      ensures Watched(requests, stream, pods, result, reports, raised)
        == StatusSpec(config.args.namespace, config.args.limit, snapshot, events, withFn)
      ensures jobCounter == old(jobCounter)
    {
      pods := Empty();
      var listed;
      listed, requests := ListAll(config.args.limit, snapshot);
      stream := None;
      if listed.Err? {
        return requests, None, None, [], Some(listed.error);
      }
      raised := Load(listed.value.items);
      if raised.Some? {
        return requests, None, None, [], raised;
      }
      var counts := CountNow();
      if !withFn {
        return requests, None, Some(counts), [], None;
      }
      stream := Some(WatchRequest(config.args.namespace, 0, listed.value.resourceVersion));
      var later;
      later, raised := Watch(events);
      reports := [counts] + later;
      result := None;
    }

    /**
     * One line of a dataset file in `submit`: strip it, calibrate it, and on
     * success bump the full set's counter in place (`setdefault` then `+= 1`)
     * and plan one job. `planned` is that job, or nothing if the line raised.
     */
    method PlanLine(datasetname: string, fullsetname: string, table: LumiTable, line: string, jobs: seq<Job>)
      returns (planned: seq<Job>, raised: Option<Exception>)
      modifies this
      ensures StepLine(Plan(jobs, old(jobCounter), None), datasetname, fullsetname, table, line)
        == Plan(jobs + planned, jobCounter, raised)
      ensures raised.Some? ==> planned == []
      ensures pods == old(pods)
    {
      var eventfile := Strip(line);
      var calibration := Calibrate(fullsetname, eventfile, table);
      if calibration.Err? {
        assert jobs + [] == jobs;
        return [], Some(calibration.error);
      }
      ghost var counter := jobCounter;
      if fullsetname !in jobCounter {
        jobCounter := jobCounter[fullsetname := 0];
      }
      jobCounter := jobCounter[fullsetname := jobCounter[fullsetname] + 1];
      assert jobCounter == counter[fullsetname := Count(counter, fullsetname) + 1];
      planned := [Job(datasetname, fullsetname, jobCounter[fullsetname], eventfile, calibration.value)];
      raised := None;
    }

    /**
     * The loop of `submit` over the lines of one dataset file, stopping at
     * the first line whose calibration raises. `jobs0` are the jobs planned
     * before this file; `planned` are the jobs this file adds.
     */
    method PlanLines(datasetname: string, fullsetname: string, table: LumiTable, lines: seq<string>, jobs0: seq<Job>)
      returns (planned: seq<Job>, raised: Option<Exception>)
      modifies this
      ensures StepLines(Plan(jobs0, old(jobCounter), None), datasetname, fullsetname, table, lines)
        == Plan(jobs0 + planned, jobCounter, raised)
      ensures pods == old(pods)
    {
      planned := [];
      ghost var start := Plan(jobs0, jobCounter, None);
      assert jobs0 + planned == jobs0;
      var l := 0;
      while l < |lines|
        invariant l <= |lines| && pods == old(pods)
        invariant StepLines(start, datasetname, fullsetname, table, lines[..l]) == Plan(jobs0 + planned, jobCounter, None)
      {
        LinesNext(start, datasetname, fullsetname, table, lines, l);
        var step;
        step, raised := PlanLine(datasetname, fullsetname, table, lines[l], jobs0 + planned);
        assert jobs0 + (planned + step) == (jobs0 + planned) + step;
        if raised.Some? {
          LinesRaisedAt(start, datasetname, fullsetname, table, lines, l, Plan(jobs0 + planned, jobCounter, raised));
          return;
        }
        planned := planned + step;
        l := l + 1;
      }
      assert lines[..l] == lines;
      raised := None;
    }

    /** `self._job_manifest(**params)` for each planned job, in order. */
    method RenderAll(jobs: seq<Job>, basedir: string, render: map<string, string> -> string) returns (manifests: seq<string>)
      ensures manifests == Manifests(config, basedir, jobs, render)
    {
      manifests := [];
      for k := 0 to |jobs|
        invariant manifests == Manifests(config, basedir, jobs[..k], render)
      {
        assert jobs[..k + 1] == jobs[..k] + [jobs[k]];
        ManifestsAppend(config, basedir, jobs[..k], [jobs[k]], render);
        manifests := manifests + [render(Params(config, basedir, jobs[k]))];
      }
      assert jobs[..|jobs|] == jobs;
    }

    /**
     * One dataset file in `submit`: name it, load the luminosities of a data
     * full set (raising if its file is missing), skip a dataset file that does
     * not exist, and plan its lines.
     */
    method PlanFile(disk: Disk, datasetfile: string, jobs: seq<Job>) returns (planned: seq<Job>, raised: Option<Exception>)
      modifies this
      ensures StepFile(Plan(jobs, old(jobCounter), None), disk, datasetfile) == Plan(jobs + planned, jobCounter, raised)
      ensures pods == old(pods)
    {
      var datasetname := DatasetName(datasetfile, HitsOf(disk, datasetfile));
      var fullsetname := FullSetName(datasetname);
      var table: LumiTable := map[];
      if IsData(fullsetname) {
        if LumiFileName(fullsetname) !in disk.lumiFiles {
          assert jobs + [] == jobs;
          return [], Some(FileNotFoundError(LumiFileName(fullsetname)));
        }
        table := disk.lumiFiles[LumiFileName(fullsetname)];
      }
      if datasetfile !in disk.lines {
        assert jobs + [] == jobs;
        return [], None;
      }
      planned, raised := PlanLines(datasetname, fullsetname, table, disk.lines[datasetfile], jobs);
    }

    /**
     * `submit`: plan a job per line of each dataset file, bumping the job
     * counter in place, render the manifests, and hand them to `KubeSubmit`.
     * `globMatches`, `disk` and `render` stand for the file system and the
     * job template.
     */
    method Submit(globMatches: seq<string>, disk: Disk, render: map<string, string> -> string, rejection: Option<Rejection>)
      returns (calls: seq<CreateRequest>, raised: Option<Exception>)
      modifies this
      ensures Submitted(jobCounter, calls, raised) == SubmitSpec(config, old(jobCounter), globMatches, disk, render, rejection)
      ensures pods == old(pods)
    {
      var basedir := BaseDir(config.args.storageType, config.args.bucket, config.args.run);
      var files := DatasetFilesAsWritten(config, globMatches);
      if files.Err? {
        return [], Some(files.error);
      }
      var paths := files.value;
      ghost var c0 := jobCounter;
      var jobs: seq<Job> := [];
      var f := 0;
      while f < |paths|
        invariant f <= |paths| && pods == old(pods)
        invariant StepFiles(Plan([], c0, None), disk, paths[..f]) == Plan(jobs, jobCounter, None)
      {
        FileStep(Plan([], c0, None), disk, paths, f);
        var planned;
        planned, raised := PlanFile(disk, paths[f], jobs);
        if raised.Some? {
          RaisedAt(Plan([], c0, None), disk, paths, f, Plan(jobs + planned, jobCounter, raised));
          return [], raised;
        }
        jobs := jobs + planned;
        f := f + 1;
      }
      assert paths[..f] == paths;
      var manifests := RenderAll(jobs, basedir, render);
      calls, raised := KubeSubmit(manifests, rejection);
    }
  }

  /** A replay that has raised by change `k` is the whole replay. */
  lemma StuckAfter(t: Tally, cs: seq<Change>, k: nat)
    requires k <= |cs| && Replay(t, cs[..k]).raised.Some?
    ensures Replay(t, cs) == Replay(t, cs[..k])
  {
    assert cs == cs[..k] + cs[k..];
    ReplayAppend(t, cs[..k], cs[k..]);
  }

  /** The plan of the first `l + 1` lines is the plan of the first `l` and then line `l`. */
  lemma LinesNext(p: Plan, ds: string, fs: string, table: LumiTable, lines: seq<string>, l: nat)
    requires l < |lines|
    ensures StepLines(p, ds, fs, table, lines[..l + 1]) == StepLine(StepLines(p, ds, fs, table, lines[..l]), ds, fs, table, lines[l])
  {
    assert lines[..l + 1][..l] == lines[..l];
  }

  /** The plan of the first `f + 1` files is the plan of the first `f` and then file `f`. */
  lemma FileStep(p: Plan, disk: Disk, paths: seq<string>, f: nat)
    requires f < |paths|
    ensures StepFiles(p, disk, paths[..f + 1]) == StepFile(StepFiles(p, disk, paths[..f]), disk, paths[f])
  {
    assert paths[..f + 1][..f] == paths[..f];
  }

  /** A plan that has raised at line `l` is the plan of all lines. */
  lemma LinesRaisedAt(p: Plan, ds: string, fs: string, table: LumiTable, lines: seq<string>, l: nat, r: Plan)
    requires l < |lines| && r.raised.Some?
    requires StepLines(p, ds, fs, table, lines[..l + 1]) == r
    ensures StepLines(p, ds, fs, table, lines) == r
  {
    assert lines == lines[..l + 1] + lines[l + 1..];
    StepLinesAppend(p, ds, fs, table, lines[..l + 1], lines[l + 1..]);
    StepLinesStuck(r, ds, fs, table, lines[l + 1..]);
  }

  /** Rendering distributes over concatenation of the job list. */
  lemma ManifestsAppend(cfg: Config, basedir: string, a: seq<Job>, b: seq<Job>, render: map<string, string> -> string)
    ensures Manifests(cfg, basedir, a + b, render) == Manifests(cfg, basedir, a, render) + Manifests(cfg, basedir, b, render)
  {
  }

  /** A plan that has raised by file `f` is the plan of all files. */
  lemma RaisedAt(p0: Plan, disk: Disk, paths: seq<string>, f: nat, r: Plan)
    requires f < |paths| && r.raised.Some?
    requires StepFiles(p0, disk, paths[..f + 1]) == r
    ensures StepFiles(p0, disk, paths) == r
  {
    assert paths == paths[..f + 1] + paths[f + 1..];
    StepFilesAppend(p0, disk, paths[..f + 1], paths[f + 1..]);
    StepFilesStuck(r, disk, paths[f + 1..]);
  }
}
