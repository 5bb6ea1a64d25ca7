/** Runs of the protocol's machine, from the empty world, that end in the snapshots of module
    SecondBootstrap: every step is a sync that is not cut off, or one of the environment. */
module BootstrapRuns {
  import opened ApiStore
  import opened Status
  import opened PodTemplate
  import opened Round
  import opened RoundFacts
  import opened Creation
  import opened Protocol
  import opened SecondBootstrap
  import Bootstrap
  import Sync

  /** A run that ends between two syncs, in world w. */
  ghost predicate Reaches(run: seq<Machine>, w: World) {
    IsRun(run) && run[|run| - 1] == Machine(w, [])
  }

  lemma Nothing() returns (run: seq<Machine>)
    ensures Reaches(run, EMPTY)
  {
    run := [Machine(EMPTY, [])];
  }

  /** A sync on a listing of the world issues all its calls. */
  lemma Syncs(run: seq<Machine>, w: World, x: Input) returns (longer: seq<Machine>)
    requires Reaches(run, w) && Lists(w, x.pods, x.claims) && CanDraw(x)
    requires x.phase in {Creating, Running} && AllAccepted(w, PlanRound(x).calls)
    ensures Reaches(longer, ApplyAll(w, PlanRound(x).calls))
  {
    hide IsRun, PlanRound, ApplyAll, AllAccepted, Lists, CanDraw;
    var y := Sync.SyncInput(x, false, true, Sync.Allowed, None);
    var calls := PlanRound(x).calls;
    assert Sync.SyncPlan(y) == PlanRound(x);
    assert calls[..|calls|] == calls;
    longer := CutOffSyncIsReachable(run, y, |calls|);
  }

  lemma Waits(run: seq<Machine>, w: World, v: World) returns (longer: seq<Machine>)
    requires Reaches(run, w) && Environment(w, v)
    ensures Reaches(longer, v)
  {
    hide IsRun, Environment;
    Extend(run, Machine(v, []));
    longer := run + [Machine(v, [])];
  }

  lemma TwoAccepted(w: World, a: ApiCall, b: ApiCall)
    requires Accepts(w, a) && Accepts(Apply(w, a), b)
    ensures AllAccepted(w, [a, b]) && ApplyAll(w, [a, b]) == Apply(Apply(w, a), b)
  {
    hide Accepts, Apply;
    ApplyTwo(w, a, b);
    var u := Apply(w, a);
    assert [a, b][1..] == [b] && [b][1..] == [];
    assert AllAccepted(Apply(u, b), []);
    assert AllAccepted(u, [b]);
  }

  lemma ThreeAccepted(w: World, a: ApiCall, b: ApiCall, c: ApiCall)
    requires Accepts(w, a) && Accepts(Apply(w, a), b) && Accepts(Apply(Apply(w, a), b), c)
    ensures AllAccepted(w, [a, b, c]) && ApplyAll(w, [a, b, c]) == Apply(Apply(Apply(w, a), b), c)
  {
    hide Accepts, Apply;
    ApplyThree(w, a, b, c);
    assert [a, b, c][1..] == [b, c];
    TwoAccepted(Apply(w, a), b, c);
  }

  // ---- The first pod ----------------------------------------------------------------------

  const FIRST := Snapshot([], [], "z").(phase := Creating)

  /** The pod that started the cluster, once it is ready. */
  const STARTER := Node("z", Some(Writer), false, "10.0.0.9").(clusterInit := true)

  const STARTED := World(map["z" := STARTER], map[DataId("z") := Data("z")], map["z" := {"r"}])

  lemma StarterIsCreated() returns (p: Pod)
    ensures CanDraw(FIRST)
    ensures PlanRound(FIRST).calls == [CreateClaim(DataId("z"), "r", "spec"), CreatePod(p)]
    ensures STARTER == p.(health := Ready, wsrep := Primary, ip := "10.0.0.9")
  {
    hide PlanRound;
    assert "z" in FIRST.draws && SuffixesOf(FIRST.pods) == [];
    p := FirstPodBootstraps(FIRST);
  }

  /** The operator creates the first pod and its claim, and the pod starts the cluster. */
  lemma FirstPodIsReached() returns (run: seq<Machine>)
    ensures Reaches(run, STARTED)
  {
    hide PlanRound, IsRun;
    var p := StarterIsCreated();
    run := Nothing();
    TwoAccepted(EMPTY, CreateClaim(DataId("z"), "r", "spec"), CreatePod(p));
    run := Syncs(run, EMPTY, FIRST);
    var w := ApplyAll(EMPTY, PlanRound(FIRST).calls);
    run := Waits(run, w, STARTED);
  }

  // ---- Its neighbour, left alone ----------------------------------------------------------

  const ONE := Snapshot([STARTER], [Data("z")], "a")

  lemma OneTally() returns (t: Tally)
    ensures Classify(ONE.pods, Start(ONE), ONE) == Go(t, []) && Orphan(ONE.pods, ONE.claims).None?
    ensures t.ready == ONE.pods && t.unready == [] && !t.terminating && t.suffixes == ["z"] && t.backups == []
    ensures t.status.members == NOBODY.(writer := Some("z"))
  {
    assert [STARTER][1..] == [];
    OneTurn(STARTER, Start(ONE), ONE);
    assert Data("z") in ONE.claims;
    t := ClassifyPod(STARTER, Start(ONE), ONE).tally;
  }

  lemma OneClaims(t: Tally)
    requires t.suffixes == ["z"] && t.backups == []
    ensures Collect(ONE.claims, t.suffixes, t.backups, "spec") == Collected([], [], false)
  {
    assert ONE.claims[1..] == [] && "z" in t.suffixes;
  }

  /** The round labels the starter as reader too, and creates a backup writer. */
  lemma NeighbourIsCreated() returns (p: Pod)
    ensures CanDraw(ONE)
    ensures PlanRound(ONE).calls == [
      PatchPod("z", STARTER.labels.(reader := Some(true))), CreateClaim(DataId("a"), "r", "spec"), CreatePod(p)]
    ensures p.(health := Ready, wsrep := Primary, ip := "10.0.0.1") == LONE.pods[0]
  {
    hide PlanRound, Classify, Bootstrap.NoAddress;
    var t := OneTally();
    assert "a" in ONE.draws && SuffixesOf(ONE.pods) == ["z"] by { assert ONE.pods[1..] == []; }
    OneClaims(t);
    var patches := [PatchPod("z", STARTER.labels.(reader := Some(true)))];
    assert SetLabels(t.ready, t.status.members).calls == patches;
    p := RoundCreates(ONE, t, "a");
    assert [] + patches + Created(ONE, p, BackupWriter) == [patches[0], CreateClaim(DataId("a"), "r", "spec"), CreatePod(p)];
    OneAddress(p);
  }

  lemma OneAddress(p: Pod)
    requires CanDraw(ONE) && CreatePod(p) in PlanRound(ONE).calls
    ensures !p.clusterInit
  {
    hide PlanRound;
    InitExactly(ONE, p);
    assert [STARTER][1..] == [] && Filter(ONE.pods, IsListed) == [STARTER];
    assert !Bootstrap.NoAddress([STARTER]);
  }

  lemma StartedIsListed()
    ensures Lists(STARTED, ONE.pods, ONE.claims)
  {
    assert ONE.pods[0] in ONE.pods && ONE.claims[0] in ONE.claims;
  }

  const ALONE := World(map["a" := LONE.pods[0]], map[DataId("a") := Data("a")], map["z" := {"r"}, "a" := {"r"}])

  lemma AloneIsListed()
    ensures Lists(ALONE, LONE.pods, LONE.claims)
  {
    assert LONE.pods[0] in LONE.pods && LONE.claims[0] in LONE.claims;
  }

  /** The neighbour becomes ready; the starter is deleted, and its claim with it. */
  lemma LoneIsReached() returns (run: seq<Machine>)
    ensures Reaches(run, ALONE) && Lists(ALONE, LONE.pods, LONE.claims)
  {
    hide PlanRound, IsRun, Lists;
    run := FirstPodIsReached();
    StartedIsListed();
    var p := NeighbourIsCreated();
    var patch := PatchPod("z", STARTER.labels.(reader := Some(true)));
    ThreeAccepted(STARTED, patch, CreateClaim(DataId("a"), "r", "spec"), CreatePod(p));
    run := Syncs(run, STARTED, ONE);
    run := Waits(run, ApplyAll(STARTED, PlanRound(ONE).calls), ALONE);
    AloneIsListed();
  }

  // ---- Two writers ------------------------------------------------------------------------

  /** The world in which two writers are listed. */
  const SHARED := World(
    map["a" := TWO_WRITERS.pods[0], "b" := TWO_WRITERS.pods[1]],
    map[DataId("a") := Data("a"), DataId("b") := Data("b")],
    map["z" := {"r"}, "a" := {"r"}, "b" := {"r"}])

  /** The snapshot of two writers is that of a run from the empty world: whoever syncs there tells a
      new pod to start a cluster while two members are ready. */
  lemma SecondBootstrapIsReached() returns (run: seq<Machine>, p: Pod)
    ensures Reaches(run, SHARED) && Lists(SHARED, TWO_WRITERS.pods, TWO_WRITERS.claims)
    ensures CanDraw(TWO_WRITERS) && CreatePod(p) in PlanRound(TWO_WRITERS).calls && p.clusterInit
    ensures forall q :: q in TWO_WRITERS.pods ==> IsListed(q)
  {
    hide PlanRound, IsRun, Lists, IsListed;
    run := LoneIsReached();
    var q := LoneBackupWriterGetsASecondWriter();
    ThreeAccepted(ALONE, PatchPod("a", Labels(Some(Writer), None, Some(true), Cluster, "r")),
                  CreateClaim(DataId("b"), "r", "spec"), CreatePod(q));
    run := Syncs(run, ALONE, LONE);
    run := Waits(run, ApplyAll(ALONE, PlanRound(LONE).calls), SHARED);
    TwoWritersWorld(SHARED);
    p := TwoWritersBootstrapAgain();
  }
}
