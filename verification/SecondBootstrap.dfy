/** How a cluster starts, and two runs in which it is started a second time although a member is
    ready: the roles were not unique, or the ready member had lost its labels. */
module SecondBootstrap {
  import opened ApiStore
  import opened Status
  import opened PodTemplate
  import opened Round
  import opened RoundFacts
  import opened Calm
  import opened Creation
  import Bootstrap
  import Roles
  import Sync

  // ---- The first pod ----------------------------------------------------------------------

  /** An empty cluster gets its first pod as the writer, with its claim, told to start the cluster. */
  lemma FirstPodBootstraps(x: Input) returns (p: Pod)
    requires CanDraw(x) && x.pods == [] && x.claims == [] && x.phase.Creating? && x.replicas >= 1
    ensures PlanRound(x).ok
    ensures PlanRound(x).calls == [CreateClaim(DataId(p.suffix), x.nextRev, x.next.claimSpec), CreatePod(p)]
    ensures p.clusterInit && p.labels == PodLabels(Writer, x.nextRev, Cluster) && p.suffix in x.draws
    ensures p == Pod(p.suffix, p.labels, NoPhase, NonPrimary, false, "", true, x.next.image)
  {
    hide SetPhase, GaleraEnv, HasClusterInit;
    var t := Start(x);
    assert Classify(x.pods, t, x) == Go(t, []);
    OnlyOperatorBootstraps(x.next.env, true, true);
    var s := PickSuffix(x, [], []);
    FreshIsFresh(x.draws, []);
    p := NewPod(s, Writer, x.nextRev, Cluster, x.next.image, x.next.env, true, true);
    StartPhase(x);
    var made := [CreateClaim(DataId(s), x.nextRev, x.next.claimSpec)];
    assert made + [CreatePod(p)] == [CreateClaim(DataId(s), x.nextRev, x.next.claimSpec), CreatePod(p)];
    assert Reconcile(x, t, Phased(x, t)).calls == made + [CreatePod(p)];
    assert [] + ([] + (made + [CreatePod(p)])) == made + [CreatePod(p)];
  }

  lemma StartPhase(x: Input)
    requires x.phase.Creating? && x.replicas >= 1
    ensures Phased(x, Start(x)).phase.Creating? && Phased(x, Start(x)).members == NOBODY
  {
    assert SuffixesOf([]) == [];
  }

  // ---- A lone backup writer ---------------------------------------------------------------

  function Node(s: Suffix, role: Option<Role>, reader: bool, ip: string): Pod {
    Pod(s, Labels(role, None, Some(reader), Cluster, "r"), Ready, Primary, false, ip, false, "image")
  }

  function Data(s: Suffix): Claim { Claim(DataId(s), "r", "spec", false) }

  function Snapshot(pods: seq<Pod>, claims: seq<Claim>, draw: Suffix): Input {
    Input(Running, [], 3, None, Template("image", "spec", []), Template("image", "spec", []), "r", "r", pods, claims, [draw])
  }

  lemma OneTurn(p: Pod, t: Tally, x: Input)
    requires ClassifyPod(p, t, x).Go?
    ensures Classify([p], t, x) == ClassifyPod(p, t, x)
  {
    hide ClassifyPod;
    assert [p][1..] == [];
    assert ClassifyPod(p, t, x).calls + [] == ClassifyPod(p, t, x).calls;
  }

  lemma TwoTurns(p: Pod, q: Pod, t: Tally, x: Input)
    requires ClassifyPod(p, t, x).Go? && ClassifyPod(q, ClassifyPod(p, t, x).tally, x).Go?
    ensures var a := ClassifyPod(p, t, x); var b := ClassifyPod(q, a.tally, x);
      Classify([p, q], t, x) == Go(b.tally, a.calls + b.calls)
  {
    hide ClassifyPod;
    assert [p, q][1..] == [q];
    OneTurn(q, ClassifyPod(p, t, x).tally, x);
  }

  /** A round that finds fewer members than desired, every claim in use and nobody unready creates
      one pod, under the drawn suffix. */
  lemma RoundCreates(x: Input, t: Tally, d: Suffix) returns (p: Pod)
    requires CanDraw(x) && x.draws == [d] && x.phase.Running? && Orphan(x.pods, x.claims).None?
    requires Classify(x.pods, Start(x), x).Go? && t == Classify(x.pods, Start(x), x).tally
    requires !t.terminating && SetLabels(t.ready, t.status.members).ok && t.unready == [] && |t.ready| < x.replicas
    requires d !in t.suffixes && Collect(x.claims, t.suffixes, t.backups, x.next.claimSpec) == Collected([], [], false)
    requires forall c :: c in x.claims ==> c.id.suffix != d
    requires forall c :: c in x.claims ==> !c.terminating
    ensures CreatePod(p) in PlanRound(x).calls
    ensures p.suffix == d && p.labels == PodLabels(ChooseRole(SetLabels(t.ready, t.status.members).members), x.nextRev,
      Cluster)
    ensures PlanRound(x).calls == Classify(x.pods, Start(x), x).calls + SetLabels(t.ready, t.status.members).calls
      + Created(x, p, ChooseRole(SetLabels(t.ready, t.status.members).members))
    ensures p == Pod(d, p.labels, NoPhase, NonPrimary, false, "", p.clusterInit, x.next.image)
  {
    hide Classify, Collect, SetLabels, Bootstrap.NoAddress, PodLabels, Orphan, NewPod, Reconcile, Created;
    Sync.ClassifyKeepsPhase(x.pods, Start(x), x);
    ClassifySuffixes(x.pods, Start(x), x);
    var role := ChooseRole(SetLabels(t.ready, t.status.members).members);
    p := ReconcileCreates(x, t, Phased(x, t), role, d);
    var a, b := Classify(x.pods, Start(x), x).calls, SetLabels(t.ready, t.status.members).calls;
    var made := Created(x, p, role);
    assert PlanRound(x).calls == a + (b + made);
    Regroup(a, b, made);
    CreatedLast(x, p, role);
  }

  lemma CreatedLast(x: Input, p: Pod, role: Role)
    ensures CreatePod(p) in Created(x, p, role)
  {
    var made := Created(x, p, role);
    assert made[|made| - 1] == CreatePod(p);
  }

  lemma ReconcileCreates(x: Input, t: Tally, st: Summary, role: Role, d: Suffix) returns (p: Pod)
    requires x.draws == [d] && d !in t.suffixes && t.unready == [] && |t.ready| < x.replicas
    requires st.phase.Running? && ChooseRole(st.members) == role
    requires Collect(x.claims, t.suffixes, t.backups, x.next.claimSpec) == Collected([], [], false)
    requires forall c :: c in x.claims ==> c.id.suffix != d
    ensures exists e :: e in x.draws && e !in t.suffixes
    ensures Reconcile(x, t, st).calls == Created(x, p, role)
    ensures p == Pod(d, PodLabels(role, x.nextRev, Cluster), NoPhase, NonPrimary, false, "", p.clusterInit, x.next.image)
  {
    hide Collect, Bootstrap.NoAddress, GaleraEnv, HasClusterInit, PodLabels;
    assert d in x.draws;
    FindClaimIs(x.claims, DataId(d));
    FindClaimIs(x.claims, BackupId(d));
    var noAddress := Bootstrap.NoAddress(t.ready);
    p := NewPod(d, role, x.nextRev, Cluster, x.next.image, x.next.env, noAddress, noAddress);
    LabelsRev(role, x.nextRev, Cluster);
  }

  function Created(x: Input, p: Pod, role: Role): seq<ApiCall> {
    [CreateClaim(DataId(p.suffix), p.labels.rev, x.next.claimSpec)]
    + (if role.Backup? then [CreateClaim(BackupId(p.suffix), p.labels.rev, x.next.claimSpec)] else [])
    + [CreatePod(p)]
  }

  const LONE := Snapshot([Node("a", Some(BackupWriter), true, "10.0.0.1")], [Data("a")], "b")

  const TWO_WRITERS :=
    Snapshot([Node("a", Some(Writer), true, "10.0.0.1"), Node("b", Some(Writer), false, "10.0.0.2")],
        [Data("a"), Data("b")], "c")

  lemma LoneTally() returns (t: Tally)
    ensures Classify(LONE.pods, Start(LONE), LONE) == Go(t, []) && Orphan(LONE.pods, LONE.claims).None?
    ensures t.ready == LONE.pods && t.unready == [] && !t.terminating && t.suffixes == ["a"] && t.backups == []
    ensures t.status.members == NOBODY.(backupWriter := Some("a"))
  {
    var p := Node("a", Some(BackupWriter), true, "10.0.0.1");
    assert [p][1..] == [];
    OneTurn(p, Start(LONE), LONE);
    assert Data("a") in LONE.claims;
    t := ClassifyPod(p, Start(LONE), LONE).tally;
  }

  /** A lone ready backup writer is made the writer, but not recorded as such: the pod created in the
      same round is created as a writer too. */
  lemma LoneBackupWriterGetsASecondWriter() returns (p: Pod)
    ensures CanDraw(LONE)
    ensures PlanRound(LONE).calls == [
      PatchPod("a", Labels(Some(Writer), None, Some(true), Cluster, "r")),
      CreateClaim(DataId("b"), "r", "spec"),
      CreatePod(p)]
    ensures p.suffix == "b" && p.labels == Labels(Some(Writer), None, Some(false), Cluster, "r") && !p.clusterInit
    ensures p == Pod("b", p.labels, NoPhase, NonPrimary, false, "", false, "image")
  {
    hide PlanRound, Classify, Bootstrap.NoAddress;
    var t := LoneTally();
    assert "b" in LONE.draws && SuffixesOf(LONE.pods) == ["a"] by { assert LONE.pods[1..] == []; }
    LoneClaims(t);
    var patches := [PatchPod("a", Labels(Some(Writer), None, Some(true), Cluster, "r"))];
    assert SetLabels(t.ready, t.status.members).calls == patches;
    p := RoundCreates(LONE, t, "b");
    assert [] + patches + Created(LONE, p, Writer) == [patches[0], CreateClaim(DataId("b"), "r", "spec"), CreatePod(p)];
    LoneAddress(p);
  }

  lemma LoneAddress(p: Pod)
    requires CanDraw(LONE) && CreatePod(p) in PlanRound(LONE).calls
    ensures !p.clusterInit
  {
    hide PlanRound;
    InitExactly(LONE, p);
    var q := LONE.pods[0];
    assert [q][1..] == [] && Filter(LONE.pods, IsListed) == [q];
    assert !Bootstrap.NoAddress([q]);
  }

  lemma LoneClaims(t: Tally)
    requires t.suffixes == ["a"] && t.backups == []
    ensures Collect(LONE.claims, t.suffixes, t.backups, "spec") == Collected([], [], false)
  {
    assert LONE.claims[1..] == [] && "a" in t.suffixes;
  }

  lemma TwoWritersTally() returns (t: Tally)
    ensures Classify(TWO_WRITERS.pods, Start(TWO_WRITERS), TWO_WRITERS)
      == Go(t, [Patch2(TWO_WRITERS.pods[1], RemoveRole, AddReader)])
    ensures Orphan(TWO_WRITERS.pods, TWO_WRITERS.claims).None?
    ensures t.ready == TWO_WRITERS.pods && t.unready == [] && !t.terminating && t.suffixes == ["a", "b"] && t.backups == []
    ensures t.status.members == NOBODY.(writer := Some("a"))
  {
    hide Classify, ClassifyPod, Start;
    var p, q := TWO_WRITERS.pods[0], TWO_WRITERS.pods[1];
    var t1 := FirstWriterTurn();
    t := SecondWriterTurn(t1);
    TwoTurns(p, q, Start(TWO_WRITERS), TWO_WRITERS);
    assert TWO_WRITERS.pods == [p, q] && [] + [Patch2(q, RemoveRole, AddReader)] == [Patch2(q, RemoveRole, AddReader)];
    TwoWritersOwn();
  }

  lemma SecondWriterTurn(t1: Tally) returns (t: Tally)
    requires t1 == Tally(Summary(Running, [], 1, 1, 1, NOBODY.(writer := Some("a"))), [TWO_WRITERS.pods[0]], [], None,
      ["a"], [], false)
    ensures ClassifyPod(TWO_WRITERS.pods[1], t1, TWO_WRITERS) == Go(t, [Patch2(TWO_WRITERS.pods[1], RemoveRole, AddReader)])
    ensures t.ready == TWO_WRITERS.pods && t.unready == [] && !t.terminating && t.suffixes == ["a", "b"] && t.backups == []
    ensures t.status.members == NOBODY.(writer := Some("a"))
  {
    t := ClassifyPod(TWO_WRITERS.pods[1], t1, TWO_WRITERS).tally;
  }

  lemma FirstWriterTurn() returns (t: Tally)
    ensures ClassifyPod(TWO_WRITERS.pods[0], Start(TWO_WRITERS), TWO_WRITERS) == Go(t, [])
    ensures t == Tally(Summary(Running, [], 1, 1, 1, NOBODY.(writer := Some("a"))), [TWO_WRITERS.pods[0]], [], None,
      ["a"], [], false)
  {
    t := ClassifyPod(TWO_WRITERS.pods[0], Start(TWO_WRITERS), TWO_WRITERS).tally;
  }

  lemma TwoWritersOwn()
    ensures Orphan(TWO_WRITERS.pods, TWO_WRITERS.claims).None?
  {
    assert Data("a") in TWO_WRITERS.claims && Data("b") in TWO_WRITERS.claims;
    OrphanIs(TWO_WRITERS.pods, TWO_WRITERS.claims);
  }

  lemma TwoWritersClaims(t: Tally)
    requires t.suffixes == ["a", "b"] && t.backups == []
    ensures Collect(TWO_WRITERS.claims, t.suffixes, t.backups, "spec") == Collected([], [], false)
  {
    var x := Data("b");
    assert TWO_WRITERS.claims == [Data("a"), x] && [Data("a"), x][1..] == [x] && [x][1..] == [];
    assert "a" in t.suffixes && "b" in t.suffixes;
    assert Collect([x], t.suffixes, t.backups, "spec") == Collected([], [], false);
  }

  /** Once that pod is ready there are two writers in the snapshot, no address is left, and the next
      pod is told to start a new cluster while two members are ready. */
  lemma TwoWritersBootstrapAgain() returns (p: Pod)
    ensures CanDraw(TWO_WRITERS) && CreatePod(p) in PlanRound(TWO_WRITERS).calls
    ensures p.clusterInit
    ensures forall q :: q in TWO_WRITERS.pods ==> IsListed(q)
  {
    hide PlanRound, Classify, IsListed, Bootstrap.NoAddress, Filter, Collect;
    var t := TwoWritersTally();
    var a, b := TWO_WRITERS.pods[0], TWO_WRITERS.pods[1];
    assert TWO_WRITERS.pods == [a, b] && [a, b][1..] == [b] && [b][1..] == [];
    assert SuffixesOf([b]) == ["b"] && SuffixesOf(TWO_WRITERS.pods) == ["a", "b"];
    assert "c" in TWO_WRITERS.draws;
    TwoWritersClaims(t);
    Roles.OthersArePatches(t.ready, t.status.members);
    p := RoundCreates(TWO_WRITERS, t, "c");
    ReaderOrRole(p, t);
    InitExactly(TWO_WRITERS, p);
    TwoWritersAddress();
  }

  lemma TwoWritersAddress()
    ensures Bootstrap.NoAddress(Filter(TWO_WRITERS.pods, IsListed))
    ensures forall q :: q in TWO_WRITERS.pods ==> IsListed(q)
  {
    var a, b := TWO_WRITERS.pods[0], TWO_WRITERS.pods[1];
    assert TWO_WRITERS.pods == [a, b] && [a, b][1..] == [b] && [b][1..] == [];
    assert Filter([b], IsListed) == [b] && Filter(TWO_WRITERS.pods, IsListed) == [a, b];
    assert Bootstrap.Without([b], Writer) == [] && Bootstrap.Without([a, b], Writer) == [];
    Bootstrap.NoDonorsExactly([a, b]);
  }

  lemma ReaderOrRole(p: Pod, t: Tally)
    requires p.labels == PodLabels(ChooseRole(SetLabels(t.ready, t.status.members).members), "r", Cluster)
    ensures p.labels.role != Some(Special)
  {
    hide SetLabels;
  }

  lemma LoneWorld(w: World)
    requires Lists(w, LONE.pods, LONE.claims)
    ensures w.pods == map["a" := LONE.pods[0]] && w.claims == map[DataId("a") := Data("a")]
  {
    assert LONE.pods[0] in LONE.pods && LONE.claims[0] in LONE.claims;
    assert w.pods.Keys == {"a"} && w.claims.Keys == {DataId("a")};
  }

  lemma TwoWritersWorld(v: World)
    requires v.pods == map["a" := TWO_WRITERS.pods[0], "b" := TWO_WRITERS.pods[1]]
    requires v.claims == map[DataId("a") := Data("a"), DataId("b") := Data("b")]
    ensures Lists(v, TWO_WRITERS.pods, TWO_WRITERS.claims)
  {
    assert TWO_WRITERS.pods[0] in TWO_WRITERS.pods && TWO_WRITERS.pods[1] in TWO_WRITERS.pods;
    assert TWO_WRITERS.claims[0] in TWO_WRITERS.claims && TWO_WRITERS.claims[1] in TWO_WRITERS.claims;
  }

  /** The second snapshot is what becomes of the first: the round runs, and its pod becomes ready. */
  lemma OneLeadsToTheOther(w: World)
    requires Lists(w, LONE.pods, LONE.claims)
    ensures CanDraw(LONE)
    ensures var u := ApplyAll(w, PlanRound(LONE).calls);
      && "b" in u.pods
      && Lists(u.(pods := u.pods["b" := u.pods["b"].(health := Ready, wsrep := Primary, ip := "10.0.0.2")]),
               TWO_WRITERS.pods, TWO_WRITERS.claims)
  {
    hide PlanRound, ApplyAll, Lists;
    var p := LoneBackupWriterGetsASecondWriter();
    var a := PatchPod("a", Labels(Some(Writer), None, Some(true), Cluster, "r"));
    LoneWorld(w);
    ApplyThree(w, a, CreateClaim(DataId("b"), "r", "spec"), CreatePod(p));
    var u := ApplyAll(w, PlanRound(LONE).calls);
    TwoWritersWorld(u.(pods := u.pods["b" := u.pods["b"].(health := Ready, wsrep := Primary, ip := "10.0.0.2")]));
  }

  // ---- A member without role and reader label ---------------------------------------------

  const OVERLOOKED := Snapshot([Node("c", None, false, "10.0.0.3")], [Data("c")], "d")

  /** A writer and two plain readers: the first of these is to become the backup writer. */
  const GAP := Snapshot(
    [Node("z", Some(Writer), false, "10.0.0.1"), Node("c", None, true, "10.0.0.3"), Node("d", None, true, "10.0.0.4")],
    [Data("z"), Data("c"), Data("d")], "e")

  const GRANT := [
    PatchPod("c", Labels(Some(BackupWriter), None, Some(true), Cluster, "r")),
    PatchPod("c", Labels(None, None, Some(false), Cluster, "r"))]

  lemma GapRoster(m: Members)
    requires m.writer == Some("z") && m.backupWriter.None?
    ensures Roles.Roster(GAP.pods, m)
  {
    assert GAP.pods[0] in GAP.pods;
  }

  lemma GapCalls(m: Members)
    requires m.writer == Some("z") && m.backupWriter.None?
    ensures SetLabels(GAP.pods, m).ok && SetLabels(GAP.pods, m).calls == GRANT
  {
    var z, c, d := GAP.pods[0], GAP.pods[1], GAP.pods[2];
    assert GAP.pods == [z, c, d] && [z, c, d][1..] == [c, d];
    assert Candidate([c, d], Some("z")) == Some(c) && DropReader([c, d], Some("c")) == [Patch(c, RemoveReader)];
    assert [] + [GRANT[0]] + [GRANT[1]] == GRANT;
  }

  /** Among three ready pods the role is granted and taken away again, the reader label with it: nobody
      is backup writer afterwards, and one member is without label. */
  lemma GrantIsTakenBack(m: Members)
    requires m.writer == Some("z") && m.backupWriter.None?
    ensures Roles.Roster(GAP.pods, m) && SetLabels(GAP.pods, m).ok && SetLabels(GAP.pods, m).calls == GRANT
    ensures forall p :: p in GAP.pods ==> Roles.Final(p, GAP.pods, m).role != Some(BackupWriter)
    ensures Roles.Final(GAP.pods[1], GAP.pods, m) == OVERLOOKED.pods[0].labels
  {
    hide SetLabels, Roles.Roster;
    GapRoster(m);
    GapCalls(m);
    assert GRANT[1..] == [GRANT[1]] && GRANT[1..][1..] == [];
  }

  lemma GapIsCalm()
    ensures CalmPods(GAP.pods) && forall p :: p in GAP.pods ==> IsListed(p)
  {
  }

  lemma GapDraws()
    ensures CanDraw(GAP)
  {
    ThreeSuffixes(GAP.pods[0], GAP.pods[1], GAP.pods[2]);
    assert GAP.pods == [GAP.pods[0], GAP.pods[1], GAP.pods[2]] && "e" in GAP.draws;
  }

  lemma OneSuffix(a: Pod)
    ensures SuffixesOf([a]) == [a.suffix]
  {
    assert [a][1..] == [];
  }

  lemma ThreeSuffixes(a: Pod, b: Pod, c: Pod)
    ensures SuffixesOf([a, b, c]) == [a.suffix, b.suffix, c.suffix]
  {
    OneSuffix(c);
    assert [b, c][1..] == [c] && SuffixesOf([b, c]) == [b.suffix] + [c.suffix];
    assert [a, b, c][1..] == [b, c] && SuffixesOf([a, b, c]) == [a.suffix] + SuffixesOf([b, c]);
  }

  lemma GapClaims()
    ensures forall p :: p in GAP.pods ==> !LacksClaims(p, GAP.claims)
  {
    assert GAP.claims[0] in GAP.claims && GAP.claims[1] in GAP.claims && GAP.claims[2] in GAP.claims;
  }

  lemma {:induction false} AllPass(pods: seq<Pod>, f: Pod -> bool)
    requires forall p :: p in pods ==> f(p)
    ensures Filter(pods, f) == pods
  {
    if pods != [] {
      assert pods[0] in pods;
      AllPass(pods[1..], f);
    }
  }

  /** The round of that snapshot starts with these two patches. */
  lemma GapRound()
    ensures CanDraw(GAP) && GRANT <= PlanRound(GAP).calls
  {
    hide PlanRound, Classify, CalmPods, LacksClaims, CanDraw, SetLabels, Roles.LabelCalls, Reconcile, IsListed;
    GapIsCalm();
    GapDraws();
    GapClaims();
    CalmRound(GAP);
    var t := Classify(GAP.pods, Start(GAP), GAP).tally;
    AllPass(GAP.pods, IsListed);
    GapMembers();
    GapCalls(t.status.members);
    SettleStarts(GAP, t);
  }

  lemma GapMembers()
    requires Classify(GAP.pods, Start(GAP), GAP).Go?
    ensures var m := Classify(GAP.pods, Start(GAP), GAP).tally.status.members; m.writer == Some("z") && m.backupWriter.None?
  {
    hide Classify;
    ClosedMembers(GAP.pods, Start(GAP), GAP);
    Roles.FirstIs(GAP.pods, ReadyBackupWriter);
  }

  lemma SettleStarts(x: Input, t: Tally)
    requires exists d :: d in x.draws && d !in t.suffixes
    ensures SetLabels(t.ready, t.status.members).calls <= Settle(x, t).calls
  {
    hide SetLabels, Reconcile;
  }

  lemma ThreePods(w: World, pods: seq<Pod>, claims: seq<Claim>)
    requires Lists(w, pods, claims) && |pods| == 3
    ensures forall s :: s in w.pods <==> s == pods[0].suffix || s == pods[1].suffix || s == pods[2].suffix
    ensures w.pods[pods[1].suffix] == pods[1]
  {
    hide Distinct, DistinctClaims;
    assert pods[0] in pods && pods[1] in pods && pods[2] in pods;
  }

  lemma ThreeClaims(w: World, pods: seq<Pod>, claims: seq<Claim>)
    requires Lists(w, pods, claims) && |claims| == 3
    ensures forall id :: id in w.claims <==> id == claims[0].id || id == claims[1].id || id == claims[2].id
    ensures w.claims[claims[1].id] == claims[1]
  {
    hide Distinct, DistinctClaims;
    assert claims[0] in claims && claims[1] in claims && claims[2] in claims;
  }

  lemma OverlookedWorld(v: World)
    requires v.pods == map["c" := OVERLOOKED.pods[0]] && v.claims == map[DataId("c") := Data("c")]
    ensures Lists(v, OVERLOOKED.pods, OVERLOOKED.claims)
  {
    assert OVERLOOKED.pods[0] in OVERLOOKED.pods && OVERLOOKED.claims[0] in OVERLOOKED.claims;
  }

  /** What they leave, once the other two pods and their claims are gone, is the snapshot below. */
  lemma OverlookedIsLeftBehind(w: World)
    requires Lists(w, GAP.pods, GAP.claims)
    ensures CanDraw(GAP) && GRANT <= PlanRound(GAP).calls
    ensures var u := ApplyAll(w, GRANT);
      Lists(u.(pods := u.pods - {"z", "d"}, claims := u.claims - {DataId("z"), DataId("d")}), OVERLOOKED.pods,
          OVERLOOKED.claims)
  {
    hide Lists, PlanRound, CanDraw, ApplyAll;
    GapRound();
    ThreePods(w, GAP.pods, GAP.claims);
    ThreeClaims(w, GAP.pods, GAP.claims);
    ApplyTwo(w, GRANT[0], GRANT[1]);
    assert GRANT == [GRANT[0], GRANT[1]];
    var u := ApplyAll(w, GRANT);
    OverlookedWorld(u.(pods := u.pods - {"z", "d"}, claims := u.claims - {DataId("z"), DataId("d")}));
  }

  /** A ready primary pod that is neither role holder nor reader nor backup, such as the labelling of
      three or more pods leaves behind, counts for nothing: alone, it gets a bootstrapping neighbour. */
  lemma OverlookedMemberBootstrapsAgain() returns (p: Pod)
    ensures CanDraw(OVERLOOKED) && CreatePod(p) in PlanRound(OVERLOOKED).calls
    ensures p.clusterInit && ReadyPrimary(OVERLOOKED.pods[0])
  {
    hide PlanRound, Classify, Collect, SetLabels, PodLabels, IsListed;
    assert "d" in OVERLOOKED.draws && SuffixesOf(OVERLOOKED.pods) == ["c"] by { assert OVERLOOKED.pods[1..] == []; }
    var t := OverlookedTally();
    OverlookedClaims(t);
    p := RoundCreates(OVERLOOKED, t, "d");
    ReaderOrRole(p, t);
    InitExactly(OVERLOOKED, p);
    NobodyListed();
  }

  lemma NobodyListed()
    ensures Bootstrap.NoAddress(Filter(OVERLOOKED.pods, IsListed))
  {
    assert OVERLOOKED.pods[1..] == [];
  }

  lemma OverlookedTally() returns (t: Tally)
    ensures Classify(OVERLOOKED.pods, Start(OVERLOOKED), OVERLOOKED) == Go(t, [])
    ensures Orphan(OVERLOOKED.pods, OVERLOOKED.claims).None?
    ensures t.ready == [] && t.unready == [] && !t.terminating && t.suffixes == ["c"] && t.backups == []
    ensures SetLabels(t.ready, t.status.members).ok
  {
    var a := OVERLOOKED.pods[0];
    assert [a][1..] == [];
    OneTurn(a, Start(OVERLOOKED), OVERLOOKED);
    assert Data("c") in OVERLOOKED.claims;
    t := ClassifyPod(a, Start(OVERLOOKED), OVERLOOKED).tally;
  }

  lemma OverlookedClaims(t: Tally)
    requires t.suffixes == ["c"] && t.backups == []
    ensures Collect(OVERLOOKED.claims, t.suffixes, t.backups, "spec") == Collected([], [], false)
  {
    assert OVERLOOKED.claims[1..] == [] && "c" in t.suffixes;
  }
}
