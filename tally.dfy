/**
 * The pod-phase tally of `status`: six lists of pod names keyed by phase,
 * rebuilt from a pod listing and then kept up to date one watch event at a
 * time. Each pod or event first removes the pod's name from every list and
 * then, unless the event is a deletion, appends it to the list of its phase.
 */
module PodTally {
  import opened Wrappers
  import opened Errors

  datatype Phase = Pulling | Running | Pending | Succeeded | Failed | Unknown

  /** The dict key of a phase's list. */
  function Key(p: Phase): string {
    match p
    case Pulling => "Pulling"
    case Running => "Running"
    case Pending => "Pending"
    case Succeeded => "Succeeded"
    case Failed => "Failed"
    case Unknown => "Unknown"
  }

  /** The list `self._pods[key]` names, if `key` is one of the six keys. */
  function PhaseOf(key: string): (r: Option<Phase>)
    ensures r.Some? ==> Key(r.value) == key
    ensures forall p :: Key(p) == key ==> r == Some(p)
  {
    if key == "Pulling" then Some(Pulling)
    else if key == "Running" then Some(Running)
    else if key == "Pending" then Some(Pending)
    else if key == "Succeeded" then Some(Succeeded)
    else if key == "Failed" then Some(Failed)
    else if key == "Unknown" then Some(Unknown)
    else None
  }

  /**
   * One pod as a listing or a watch event shows it: its name, its reported
   * `status.phase`, and for each init container status whether its
   * `state.running` is set.
   */
  datatype PodStatus = PodStatus(name: string, phase: string, initRunning: seq<bool>)

  /** The first init container is running (the image is still being pulled). */
  predicate Prepull(pod: PodStatus) {
    |pod.initRunning| > 0 && pod.initRunning[0]
  }

  /**
   * The list a pod belongs in: `Pulling` while its first init container
   * runs, otherwise the list keyed by its reported phase; a phase that is
   * not one of the six keys raises `KeyError`.
   */
  function Classify(pod: PodStatus): Result<Phase, Exception> {
    if Prepull(pod) then Ok(Pulling)
    else match PhaseOf(pod.phase)
      case Some(p) => Ok(p)
      case None => Err(KeyError(pod.phase))
  }

  /** The classification is exactly what the source does with a pod. */
  lemma ClassifySpec(pod: PodStatus)
    ensures Prepull(pod) ==> Classify(pod) == Ok(Pulling)
    ensures !Prepull(pod) ==> forall p :: Classify(pod) == Ok(p) <==> Key(p) == pod.phase
    ensures !Prepull(pod) && (forall p :: Key(p) != pod.phase) ==> Classify(pod) == Err(KeyError(pod.phase))
  {
  }

  /** `self._pods`: one list of pod names per phase key. */
  datatype Tally = Tally(
    pulling: seq<string>, running: seq<string>, pending: seq<string>,
    succeeded: seq<string>, failed: seq<string>, unknown: seq<string>)
  {
    /** `self._pods[Key(p)]`. */
    function Get(p: Phase): seq<string> {
      match p
      case Pulling => pulling
      case Running => running
      case Pending => pending
      case Succeeded => succeeded
      case Failed => failed
      case Unknown => unknown
    }

    /** The tally with list `p` replaced by `xs`. */
    function With(p: Phase, xs: seq<string>): (r: Tally)
      ensures r.Get(p) == xs
      ensures forall q :: q != p ==> r.Get(q) == Get(q)
    {
      match p
      case Pulling => this.(pulling := xs)
      case Running => this.(running := xs)
      case Pending => this.(pending := xs)
      case Succeeded => this.(succeeded := xs)
      case Failed => this.(failed := xs)
      case Unknown => this.(unknown := xs)
    }

    /** `self._pods[Key(p)].append(name)`. */
    function Append(p: Phase, name: string): (r: Tally)
      ensures r.Get(p) == Get(p) + [name]
      ensures forall q :: q != p ==> r.Get(q) == Get(q)
    {
      match p
      case Pulling => this.(pulling := pulling + [name])
      case Running => this.(running := running + [name])
      case Pending => this.(pending := pending + [name])
      case Succeeded => this.(succeeded := succeeded + [name])
      case Failed => this.(failed := failed + [name])
      case Unknown => this.(unknown := unknown + [name])
    }
  }

  /** Two tallies with the same six lists are the same tally. */
  lemma TallyExt(a: Tally, b: Tally)
    requires forall p :: a.Get(p) == b.Get(p)
    ensures a == b
  {
    assert a.Get(Pulling) == b.Get(Pulling) && a.Get(Running) == b.Get(Running);
    assert a.Get(Pending) == b.Get(Pending) && a.Get(Succeeded) == b.Get(Succeeded);
    assert a.Get(Failed) == b.Get(Failed) && a.Get(Unknown) == b.Get(Unknown);
  }

  /** The six empty lists `status` starts from. */
  function Empty(): (t: Tally)
    ensures forall p :: t.Get(p) == []
  {
    Tally([], [], [], [], [], [])
  }

  /** No name occurs twice in the list. */
  predicate NoDup(xs: seq<string>) {
    xs == [] || (xs[0] !in xs[1..] && NoDup(xs[1..]))
  }

  /** Appending a name the list lacks keeps it duplicate-free. */
  lemma {:induction false} NoDupAppend(xs: seq<string>, n: string)
    requires NoDup(xs) && n !in xs
    ensures NoDup(xs + [n])
  {
    if xs != [] {
      NoDupAppend(xs[1..], n);
      assert (xs + [n])[1..] == xs[1..] + [n];
    }
  }

  /** In how many of the six lists `n` occurs. */
  function ListsHolding(t: Tally, n: string): nat {
    (if n in t.pulling then 1 else 0) + (if n in t.running then 1 else 0)
      + (if n in t.pending then 1 else 0) + (if n in t.succeeded then 1 else 0)
      + (if n in t.failed then 1 else 0) + (if n in t.unknown then 1 else 0)
  }

  /** The tally invariant: no name occurs twice, in one list or across lists. */
  ghost predicate Valid(t: Tally) {
    && NoDup(t.pulling) && NoDup(t.running) && NoDup(t.pending)
    && NoDup(t.succeeded) && NoDup(t.failed) && NoDup(t.unknown)
    && forall n :: ListsHolding(t, n) <= 1
  }

  /** Under the invariant a pod name is in at most one of the six lists. */
  lemma AtMostOneList(t: Tally, n: string, p: Phase, q: Phase)
    requires Valid(t) && n in t.Get(p) && n in t.Get(q)
    ensures p == q
  {
    assert ListsHolding(t, n) <= 1;
  }

  /** Python `xs.remove(x)` with its `ValueError` ignored: drops the first occurrence, if any. */
  function RemoveFirst(xs: seq<string>, x: string): (r: seq<string>)
    ensures x !in xs ==> r == xs
    ensures |r| == if x in xs then |xs| - 1 else |xs|
  {
    if xs == [] then []
    else if xs[0] == x then xs[1..]
    else [xs[0]] + RemoveFirst(xs[1..], x)
  }

  /** Removal takes away exactly one occurrence of `x`, when there is one, and nothing else. */
  lemma {:induction false} RemoveFirstContents(xs: seq<string>, x: string)
    ensures multiset(RemoveFirst(xs, x)) == multiset(xs) - multiset{x}
  {
    if xs != [] {
      assert xs == [xs[0]] + xs[1..];
      if xs[0] != x {
        RemoveFirstContents(xs[1..], x);
      }
    }
  }

  /** On a list without duplicates, removal drops exactly `x` and keeps the list duplicate-free. */
  lemma {:induction false} RemoveFirstDistinct(xs: seq<string>, x: string)
    requires NoDup(xs)
    ensures NoDup(RemoveFirst(xs, x))
    ensures forall n :: n in RemoveFirst(xs, x) <==> n in xs && n != x
  {
    if xs != [] && xs[0] != x {
      RemoveFirstDistinct(xs[1..], x);
      assert RemoveFirst(xs, x)[1..] == RemoveFirst(xs[1..], x);
    }
  }

  /** The `for p in self._pods.keys(): remove` loop. */
  function RemoveEverywhere(t: Tally, name: string): (r: Tally)
    ensures forall p :: r.Get(p) == RemoveFirst(t.Get(p), name)
  {
    Tally(RemoveFirst(t.pulling, name), RemoveFirst(t.running, name), RemoveFirst(t.pending, name),
      RemoveFirst(t.succeeded, name), RemoveFirst(t.failed, name), RemoveFirst(t.unknown, name))
  }

  /** A pod of the listing (`deleted` false) or a watch event. */
  datatype Change = Change(deleted: bool, pod: PodStatus)

  /** What one pod or event does to the tally, and the exception it raises, if any. */
  function Apply(t: Tally, c: Change): (Tally, Option<Exception>) {
    var t' := RemoveEverywhere(t, c.pod.name);
    if c.deleted then (t', None)
    else match Classify(c.pod)
      case Err(e) => (t', Some(e))
      case Ok(p) => (t'.Append(p, c.pod.name), None)
  }

  /** Where a change puts its pod: the list it classifies to, unless deleted. */
  predicate Places(c: Change, p: Phase) {
    !c.deleted && Classify(c.pod) == Ok(p)
  }

  /** Removal keeps the invariant. */
  lemma RemoveEverywhereValid(t: Tally, name: string)
    requires Valid(t)
    ensures Valid(RemoveEverywhere(t, name))
  {
    var r := RemoveEverywhere(t, name);
    RemoveFirstDistinct(t.pulling, name);
    RemoveFirstDistinct(t.running, name);
    RemoveFirstDistinct(t.pending, name);
    RemoveFirstDistinct(t.succeeded, name);
    RemoveFirstDistinct(t.failed, name);
    RemoveFirstDistinct(t.unknown, name);
    forall n ensures ListsHolding(r, n) <= ListsHolding(t, n) {
    }
  }

  /** Removal clears the name from every list and leaves every other name in place. */
  lemma RemoveEverywhereMembers(t: Tally, name: string)
    requires Valid(t)
    ensures forall q :: name !in RemoveEverywhere(t, name).Get(q)
    ensures forall n, q :: n != name ==> (n in RemoveEverywhere(t, name).Get(q) <==> n in t.Get(q))
  {
    var r := RemoveEverywhere(t, name);
    forall q ensures NoDup(t.Get(q)) && forall n :: n in r.Get(q) <==> n in t.Get(q) && n != name {
      RemoveFirstDistinct(t.Get(q), name);
    }
  }

  /**
   * One change keeps the invariant; afterwards its pod is in the list it
   * classifies to, unless it was deleted or raised, in which case it is in
   * none; every other name stays where it was.
   */
  lemma ApplyPlaces(t: Tally, c: Change)
    requires Valid(t)
    ensures Valid(Apply(t, c).0)
    ensures forall q :: c.pod.name in Apply(t, c).0.Get(q) <==> Places(c, q)
    ensures Apply(t, c).1 == None <==> (c.deleted || Classify(c.pod).Ok?)
    ensures forall n, q :: n != c.pod.name ==> (n in Apply(t, c).0.Get(q) <==> n in t.Get(q))
  {
    RemoveEverywhereValid(t, c.pod.name);
    RemoveEverywhereMembers(t, c.pod.name);
    if !c.deleted && Classify(c.pod).Ok? {
      AppendValid(RemoveEverywhere(t, c.pod.name), Classify(c.pod).value, c.pod.name);
    }
  }

  /** Appending a name no list holds keeps the invariant. */
  lemma AppendValid(t: Tally, p: Phase, name: string)
    requires Valid(t) && forall q :: name !in t.Get(q)
    ensures Valid(t.Append(p, name))
  {
    var r := t.Append(p, name);
    assert ListsHolding(t, name) == 0 by {
      assert name !in t.Get(Pulling) && name !in t.Get(Running) && name !in t.Get(Pending);
      assert name !in t.Get(Succeeded) && name !in t.Get(Failed) && name !in t.Get(Unknown);
    }
    assert name !in t.Get(p);
    NoDupAppend(t.Get(p), name);
    AppendHolding(t, p, name);
    assert NoDup(r.pulling) && NoDup(r.running) && NoDup(r.pending)
      && NoDup(r.succeeded) && NoDup(r.failed) && NoDup(r.unknown) by {
      assert forall q :: NoDup(r.Get(q));
    }
    forall n ensures ListsHolding(r, n) <= 1 {
      if n != name {
        assert ListsHolding(t, n) <= 1;
      }
    }
  }

  /** Appending a name to list `p` adds one list holding it, if `p` lacked it, and nothing else. */
  lemma AppendHolding(t: Tally, p: Phase, name: string)
    ensures ListsHolding(t.Append(p, name), name) == ListsHolding(t, name) + (if name in t.Get(p) then 0 else 1)
    ensures forall n :: n != name ==> ListsHolding(t.Append(p, name), n) == ListsHolding(t, n)
  {
    var r := t.Append(p, name);
    forall n | n != name ensures ListsHolding(r, n) == ListsHolding(t, n) {
      assert forall q :: n in r.Get(q) <==> n in t.Get(q);
    }
  }

  /** The state of a replay: the tally, how many changes completed, and what was raised. */
  datatype Run = Run(tally: Tally, done: nat, raised: Option<Exception>)

  /** Applying changes one at a time, in order, stopping at the first that raises. */
  function Replay(t: Tally, cs: seq<Change>): (r: Run)
    ensures r.done <= |cs|
    ensures r.raised == None ==> r.done == |cs|
    ensures r.raised != None ==> r.done < |cs|
  {
    if cs == [] then Run(t, 0, None)
    else
      var prev := Replay(t, cs[..|cs| - 1]);
      if prev.raised != None then prev
      else
        var (t', e) := Apply(prev.tally, cs[|cs| - 1]);
        Run(t', if e == None then |cs| else |cs| - 1, e)
  }

  /** Once a change has raised, later changes are never applied. */
  lemma {:induction false} ReplayAppend(t: Tally, a: seq<Change>, b: seq<Change>)
    ensures var ra := Replay(t, a);
      Replay(t, a + b) == if ra.raised.Some? then ra
        else var rb := Replay(ra.tally, b); Run(rb.tally, |a| + rb.done, rb.raised)
    decreases |b|
  {
    if b == [] {
      assert a + b == a;
    } else {
      ReplayAppend(t, a, b[..|b| - 1]);
      assert (a + b)[..|a + b| - 1] == a + b[..|b| - 1];
    }
  }

  /** Replaying one more change: the state after `k + 1` changes from the state after `k`. */
  lemma ReplayStep(t: Tally, cs: seq<Change>, k: nat)
    requires k < |cs|
    ensures var prev := Replay(t, cs[..k]);
      Replay(t, cs[..k + 1]) == if prev.raised.Some? then prev
        else var (t', e) := Apply(prev.tally, cs[k]); Run(t', if e.None? then k + 1 else k, e)
  {
    assert cs[..k + 1][..k] == cs[..k];
  }

  /** The last change among `cs` about pod `name`, if any. */
  function LastChange(cs: seq<Change>, name: string): (r: Option<Change>)
    ensures r.Some? ==> r.value in cs && r.value.pod.name == name
    ensures r.None? ==> forall c :: c in cs ==> c.pod.name != name
  {
    if cs == [] then None
    else if cs[|cs| - 1].pod.name == name then Some(cs[|cs| - 1])
    else
      var r := LastChange(cs[..|cs| - 1], name);
      assert forall c :: c in cs ==> c in cs[..|cs| - 1] || c == cs[|cs| - 1];
      r
  }

  /**
   * Last change wins: after replaying changes without an exception, a pod is
   * in list `p` exactly when the last change about it places it there; a
   * pod no change mentions stays where it was.
   */
  lemma {:induction false} LastChangeWins(t: Tally, cs: seq<Change>)
    requires Valid(t) && Replay(t, cs).raised == None
    ensures Valid(Replay(t, cs).tally)
    ensures forall name, p :: name in Replay(t, cs).tally.Get(p) <==> Outcome(t, cs, name, p)
  {
    if cs != [] {
      var front, c := cs[..|cs| - 1], cs[|cs| - 1];
      var prev := Replay(t, front);
      LastChangeWins(t, front);
      ApplyPlaces(prev.tally, c);
      assert Replay(t, cs).tally == Apply(prev.tally, c).0;
      forall name, p ensures name in Replay(t, cs).tally.Get(p) <==> Outcome(t, cs, name, p) {
        if name != c.pod.name {
          assert LastChange(cs, name) == LastChange(front, name);
        }
      }
    }
  }

  /** Where the changes leave pod `name`: placed by its last change, or where it was before. */
  predicate Outcome(t: Tally, cs: seq<Change>, name: string, p: Phase) {
    match LastChange(cs, name)
    case Some(c) => Places(c, p)
    case None => name in t.Get(p)
  }

  /** From the empty tally: a pod is tallied in `p` iff its last change placed it there. */
  lemma TallyFromScratch(cs: seq<Change>)
    requires Replay(Empty(), cs).raised == None
    ensures Valid(Replay(Empty(), cs).tally)
    ensures forall name, p :: name in Replay(Empty(), cs).tally.Get(p) <==>
      (LastChange(cs, name).Some? && Places(LastChange(cs, name).value, p))
  {
    LastChangeWins(Empty(), cs);
    forall name, p ensures Outcome(Empty(), cs, name, p) <==>
      (LastChange(cs, name).Some? && Places(LastChange(cs, name).value, p)) {
    }
  }

  /** The counts `status` reports: the length of each list. */
  function Counts(t: Tally): (r: map<Phase, nat>)
    ensures forall p :: p in r && r[p] == |t.Get(p)|
  {
    AllPhasesComplete();
    map p: Phase | p in AllPhases :: |t.Get(p)|
  }

  /** Every phase is one of the six. */
  lemma AllPhasesComplete()
    ensures forall p :: p in AllPhases
  {
    forall p ensures p in AllPhases {
      match p
      case Pulling =>
      case Running =>
      case Pending =>
      case Succeeded =>
      case Failed =>
      case Unknown =>
    }
  }

  const AllPhases: set<Phase> := {Pulling, Running, Pending, Succeeded, Failed, Unknown}

  /** The sum of the six counts. */
  function Total(k: map<Phase, nat>): nat
    requires forall p :: p in k
  {
    k[Pulling] + k[Running] + k[Pending] + k[Succeeded] + k[Failed] + k[Unknown]
  }

  /** The distinct names of a list. */
  function Members(xs: seq<string>): (r: set<string>)
    ensures forall n :: n in r <==> n in xs
  {
    set n | n in xs
  }

  /** The distinct names the tally holds. */
  function Names(t: Tally): set<string> {
    Members(t.pulling) + Members(t.running) + Members(t.pending)
      + Members(t.succeeded) + Members(t.failed) + Members(t.unknown)
  }

  /** The counts add up to the number of distinct pods currently tallied. */
  lemma TotalIsDistinctPods(t: Tally)
    requires Valid(t)
    ensures Total(Counts(t)) == |Names(t)|
  {
    forall p ensures |Members(t.Get(p))| == |t.Get(p)| {
      DistinctSize(t.Get(p));
    }
    var a, b, c := Members(t.pulling), Members(t.running), Members(t.pending);
    var d, e, f := Members(t.succeeded), Members(t.failed), Members(t.unknown);
    assert a !! b by { SeparateLists(t); }
    assert a + b !! c by { SeparateLists(t); }
    assert a + b + c !! d by { SeparateLists(t); }
    assert a + b + c + d !! e by { SeparateLists(t); }
    assert a + b + c + d + e !! f by { SeparateLists(t); }
    DisjointSize(a, b);
    DisjointSize(a + b, c);
    DisjointSize(a + b + c, d);
    DisjointSize(a + b + c + d, e);
    DisjointSize(a + b + c + d + e, f);
  }

  /** Under the invariant a name in one list is in none of the others. */
  lemma SeparateLists(t: Tally)
    requires Valid(t)
    ensures forall n :: n in t.pulling ==>
      (n !in t.running && n !in t.pending && n !in t.succeeded && n !in t.failed && n !in t.unknown)
    ensures forall n :: n in t.running ==>
      (n !in t.pending && n !in t.succeeded && n !in t.failed && n !in t.unknown)
    ensures forall n :: n in t.pending ==> (n !in t.succeeded && n !in t.failed && n !in t.unknown)
    ensures forall n :: n in t.succeeded ==> (n !in t.failed && n !in t.unknown)
    ensures forall n :: n in t.failed ==> n !in t.unknown
  {
    forall n ensures
      && (n in t.pulling ==>
        (n !in t.running && n !in t.pending && n !in t.succeeded && n !in t.failed && n !in t.unknown))
      && (n in t.running ==> (n !in t.pending && n !in t.succeeded && n !in t.failed && n !in t.unknown))
      && (n in t.pending ==> (n !in t.succeeded && n !in t.failed && n !in t.unknown))
      && (n in t.succeeded ==> (n !in t.failed && n !in t.unknown))
      && (n in t.failed ==> n !in t.unknown)
    {
      assert ListsHolding(t, n) <= 1;
    }
  }

  lemma DisjointSize(a: set<string>, b: set<string>)
    requires a !! b
    ensures |a + b| == |a| + |b|
  {
  }

  lemma {:induction false} DistinctSize(xs: seq<string>)
    requires NoDup(xs)
    ensures |Members(xs)| == |xs|
  {
    if xs != [] {
      DistinctSize(xs[1..]);
      assert Members(xs) == Members(xs[1..]) + {xs[0]};
      assert xs[0] !in xs[1..];
    }
  }

  /**
   * A pod moving from list `a` to a different list `b` lowers `a`'s count by
   * one, raises `b`'s by one and leaves the other four unchanged.
   */
  lemma MoveCounts(t: Tally, c: Change, a: Phase, b: Phase)
    requires Valid(t) && c.pod.name in t.Get(a) && Places(c, b) && a != b
    ensures Counts(Apply(t, c).0)[a] == Counts(t)[a] - 1
    ensures Counts(Apply(t, c).0)[b] == Counts(t)[b] + 1
    ensures forall q :: q != a && q != b ==> Counts(Apply(t, c).0)[q] == Counts(t)[q]
  {
    var name := c.pod.name;
    forall q | q != a ensures name !in t.Get(q) {
      if name in t.Get(q) {
        AtMostOneList(t, name, a, q);
      }
    }
    RemoveEverywhereMembers(t, name);
  }
}
