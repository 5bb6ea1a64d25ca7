/** What a round does at each stage of the rolling upgrade of a cluster of three, and the measure
    that every productive step brings down. */
module UpgradeProgress {
  import opened ApiStore
  import opened Status
  import opened PodTemplate
  import opened Round
  import opened RoundFacts
  import opened Disruption
  import opened Calm
  import opened RollingUpgrade
  import Bootstrap
  import Sync
  import Protocol
  import Promotion
  import Roles

  /** Round x runs in world w, at stage g of slot v, and its classification yields t. */
  ghost predicate Looks(c: Config, w: World, v: Suffix, g: Stage, x: Input, t: Tally) {
    && Up(c, w, v, g) && Lists(w, x.pods, x.claims) && Fits(c, x)
    && Classify(x.pods, Start(x), x) == Go(t, [])
    && Seen(w, x, t, v, g)
  }

  lemma RoundLooks(c: Config, w: World, v: Suffix, g: Stage, x: Input) returns (t: Tally)
    requires Up(c, w, v, g) && Lists(w, x.pods, x.claims) && Fits(c, x)
    ensures Looks(c, w, v, g, x, t)
    ensures PlanRound(x) == Settle(x, t) && Roles.LabelCalls(x) == SetLabels(t.ready, t.status.members).calls
  {
    hide Classify, Up, Seen, PlanRound, Settle, Roles.LabelCalls, SetLabels, Lists;
    RoundSees(c, w, v, g, x);
    t := Classify(x.pods, Start(x), x).tally;
  }

  // ---- Claims -----------------------------------------------------------------------------

  /** The claims of a slot: its data claim, and a backup claim only for the backup. */
  lemma SlotClaims(c: Config, w: World, v: Suffix, g: Stage, s: Suffix)
    requires Up(c, w, v, g) && s in c.Slots()
    ensures HasLive(w, DataId(s)) && w.claims[DataId(s)].spec == c.spec
    ensures BackupId(s) in w.claims && !g.Leaving? && !(g.Vacant? && s == v) ==>
      HasLive(w, BackupId(s)) && s in w.pods && !w.pods[s].terminating && IsBackup(w.pods[s])
    ensures g.Vacant? ==> v !in w.pods
    ensures !g.Leaving? && !(g.Vacant? && s == v) ==> s in w.pods && !w.pods[s].terminating
  {
    hide Held, OneEach;
    if s != v { assert Member(w, s); }
  }

  lemma SlotsOnly(c: Config, w: World, v: Suffix, g: Stage)
    requires Up(c, w, v, g)
    ensures forall id :: id in w.claims ==> w.claims[id].id == id && id.suffix in c.Slots()
    ensures forall s :: s in w.pods ==> w.pods[s].suffix == s && s in c.Slots()
    ensures v in c.Slots() && c.Valid()
  {
    hide Held, OneEach, Member, At;
  }

  lemma OffenderIs(c: Config, w: World, v: Suffix, g: Stage, x: Input, t: Tally, cl: Claim)
    requires Looks(c, w, v, g, x, t) && !g.Leaving? && cl in x.claims
    ensures Offends(cl, t.suffixes, t.backups, c.spec) <==> g.Vacant? && cl.id == BackupId(v)
  {
    hide Roles.Roster, IsListed, Classify, Up;
    var s := cl.id.suffix;
    SlotsOnly(c, w, v, g);
    assert cl.id in w.claims && w.claims[cl.id] == cl;
    SlotClaims(c, w, v, g, s);
    assert cl.id == if cl.id.backup then BackupId(s) else DataId(s);
  }

  /** Only a backup claim left in the vacant slot holds the round up. */
  lemma ClaimsSeen(c: Config, w: World, v: Suffix, g: Stage, x: Input, t: Tally)
    requires Looks(c, w, v, g, x, t) && !g.Leaving?
    ensures var col := Collect(x.claims, t.suffixes, t.backups, c.spec);
      && (col.operation <==> g.Vacant? && BackupId(v) in w.claims)
      && (col.operation ==> col.calls == if w.claims[BackupId(v)].terminating then [] else [DeleteClaim(BackupId(v))])
      && (!col.operation ==> forall s :: s in col.unused <==> g.Vacant? && s == v)
  {
    forall cl | cl in x.claims
      ensures Offends(cl, t.suffixes, t.backups, c.spec) <==> g.Vacant? && cl.id == BackupId(v)
    {
      OffenderIs(c, w, v, g, x, t, cl);
    }
    CollectOffender(x.claims, t.suffixes, t.backups, c.spec);
    CollectsExactly(x.claims, t.suffixes, t.backups, c.spec);
    UnusedAreUnused(x.claims, t.suffixes);
    UnusedHere(c, w, v, g, x, t);
    ListedClaim(w, x, BackupId(v));
  }

  lemma ListedClaim(w: World, x: Input, id: ClaimId)
    requires Lists(w, x.pods, x.claims)
    ensures id in w.claims <==> exists cl :: cl in x.claims && cl.id == id
    ensures forall cl :: cl in x.claims && cl.id == id ==> id in w.claims && cl == w.claims[id]
    ensures id in w.claims ==> FindClaim(x.claims, id) == Some(w.claims[id])
    ensures id !in w.claims ==> FindClaim(x.claims, id).None?
  {
    FindClaimIs(x.claims, id);
    if id in w.claims { assert w.claims[id] in x.claims && w.claims[id].id == id; }
  }

  lemma UnusedHere(c: Config, w: World, v: Suffix, g: Stage, x: Input, t: Tally)
    requires Looks(c, w, v, g, x, t) && !g.Leaving?
    ensures forall s :: (s !in t.suffixes && exists cl :: cl in x.claims && cl.id == DataId(s)) <==> g.Vacant? && s == v
  {
    hide Roles.Roster, IsListed, Classify, Up, Lists;
    SlotsOnly(c, w, v, g);
    forall s ensures (s !in t.suffixes && exists cl :: cl in x.claims && cl.id == DataId(s)) <==> g.Vacant? && s == v {
      ListedClaim(w, x, DataId(s));
      if s in c.Slots() { SlotClaims(c, w, v, g, s); }
    }
  }

  // ---- The calls of a round, after the labels ---------------------------------------------

  lemma LabelsSucceed(c: Config, w: World, v: Suffix, g: Stage, x: Input, t: Tally)
    requires Looks(c, w, v, g, x, t)
    ensures SetLabels(t.ready, t.status.members).ok
  {
    hide Roles.Final, LabelMany, Classify, IsListed, Roles.Roster;
    if g.Whole? {
      HeldIsRecorded(w, x, t, v, g);
      Roles.ManyKeepHolders(t.ready, t.status.members, t.ready[0]);
    } else {
      Roles.TwoRecorded(t.ready, t.status.members);
    }
  }

  /** The round goes on past its early returns, except while a pod is leaving. */
  lemma GoesOn(c: Config, w: World, v: Suffix, g: Stage, x: Input, t: Tally)
    requires Looks(c, w, v, g, x, t)
    ensures Settle(x, t).calls == SetLabels(t.ready, t.status.members).calls +
      (if g.Leaving? then [] else Reconcile(x, t, Phased(x, t)).calls)
    ensures !g.Leaving? ==> Settle(x, t).status == Reconcile(x, t, Phased(x, t)).status
    ensures !g.Leaving? ==> Settle(x, t).ok == Reconcile(x, t, Phased(x, t)).ok
    ensures Phased(x, t).phase == x.phase
      && Phased(x, t).members.backup == SetLabels(t.ready, t.status.members).members.backup
    ensures Phased(x, t).members.writer == SetLabels(t.ready, t.status.members).members.writer
    ensures Phased(x, t).members.backupWriter == SetLabels(t.ready, t.status.members).members.backupWriter
  {
    hide Reconcile, Up, SetLabels, Roles.Roster, Classify, Lists;
    LabelsSucceed(c, w, v, g, x, t);
    Sync.ClassifyKeepsPhase(x.pods, Start(x), x);
  }

  /** A vacant slot with a backup claim: the claim goes first. */
  lemma VacantCollects(c: Config, w: World, v: Suffix, x: Input, t: Tally)
    requires Looks(c, w, v, Vacant, x, t) && BackupId(v) in w.claims
    ensures Reconcile(x, t, Phased(x, t)).calls ==
      if w.claims[BackupId(v)].terminating then [] else [DeleteClaim(BackupId(v))]
  {
    hide Collect, Phased, Up, Seen, Lists, Classify;
    LooksParts(c, w, v, Vacant, x, t);
    ClaimsSeen(c, w, v, Vacant, x, t);
  }

  lemma LooksParts(c: Config, w: World, v: Suffix, g: Stage, x: Input, t: Tally)
    requires Looks(c, w, v, g, x, t)
    ensures Fits(c, x) && exists d :: d in x.draws && d !in t.suffixes
    ensures |t.ready| == (if g.Whole? then 3 else 2) && (forall p :: p in t.unready ==> v in w.pods && p == w.pods[v])
    ensures t.unready != [] <==> g.Coming? || g.Standing?
    ensures t.special.None? && !(t.terminating <==> !g.Leaving?)
    ensures Roles.Roster(t.ready, t.status.members)
  {
    hide Up, Lists, Classify, Roles.Roster, IsListed;
  }

  /** The pod created in the vacant slot. */
  function Newcomer(c: Config, w: World, v: Suffix, x: Input, t: Tally): Pod
    requires DataId(v) in w.claims
  {
    NewPod(v, NewRole(t), c.newRev, if w.claims[DataId(v)].rev == c.newRev then Cluster else Standalone,
           x.next.image, x.next.env, Bootstrap.NoAddress(t.ready), Bootstrap.NoAddress(t.ready))
  }

  function NewRole(t: Tally): Role { if t.status.members.backup.None? then Backup else Reader }

  lemma VacantCreates(c: Config, w: World, v: Suffix, x: Input, t: Tally)
    requires Looks(c, w, v, Vacant, x, t) && BackupId(v) !in w.claims && DataId(v) in w.claims
      && !w.claims[DataId(v)].terminating
    ensures Reconcile(x, t, Phased(x, t)).calls ==
      (if NewRole(t).Backup? then [CreateClaim(BackupId(v), c.newRev, c.spec)] else []) + [CreatePod(Newcomer(c, w, v, x, t))]
  {
    hide Collect, Up, Seen, Lists, Classify, SetLabels, Phased, Bootstrap.NoAddress, Roles.Roster,
         GaleraEnv, HasClusterInit;
    LooksParts(c, w, v, Vacant, x, t);
    ClaimsSeen(c, w, v, Vacant, x, t);
    GoesOn(c, w, v, Vacant, x, t);
    Roles.TwoRecorded(t.ready, t.status.members);
    NothingToUpgrade(t, x);
    var unused := Collect(x.claims, t.suffixes, t.backups, c.spec).unused;
    assert v in unused && unused[0] in unused;
    LooksListed(c, w, v, Vacant, x, t);
    ListedClaim(w, x, DataId(v));
    ListedClaim(w, x, BackupId(v));
  }

  lemma LooksListed(c: Config, w: World, v: Suffix, g: Stage, x: Input, t: Tally)
    requires Looks(c, w, v, g, x, t)
    ensures Lists(w, x.pods, x.claims)
  {
    hide Up, Classify, Seen, Lists;
  }

  lemma NothingToUpgrade(t: Tally, x: Input)
    requires t.unready == []
    ensures FirstToUpgrade(t.unready, x.claims).None? && UnreadyGate(t.unready).Pass?
  {
  }

  /** A pod on its way up: wait, unless it is standing ready for mysql_upgrade. */
  lemma ComingWaits(c: Config, w: World, v: Suffix, x: Input, t: Tally)
    requires Looks(c, w, v, Coming, x, t)
    ensures Reconcile(x, t, Phased(x, t)).calls == []
  {
    hide Collect, Up, Seen, Lists, Classify, Phased, Roles.Roster, CreatePodAndClaim;
    LooksParts(c, w, v, Coming, x, t);
    ClaimsSeen(c, w, v, Coming, x, t);
    ComingPod(c, w, v, x, t);
    Protocol.FirstToUpgradeIs(t.unready, x.claims);
    assert t.unready[0] in t.unready;
  }

  lemma ComingPod(c: Config, w: World, v: Suffix, x: Input, t: Tally)
    requires Looks(c, w, v, Coming, x, t)
    ensures v in w.pods && (w.pods[v].health.NoPhase? || w.pods[v].health.Starting?)
  {
    hide Seen, Lists, Classify, Held, Member, OneEach;
  }

  lemma StandingUpgrades(c: Config, w: World, v: Suffix, x: Input, t: Tally)
    requires Looks(c, w, v, Standing, x, t)
    ensures Reconcile(x, t, Phased(x, t)).calls == [MysqlUpgrade(v), DeletePod(v), PatchClaim(v, c.newRev)]
  {
    hide Collect, Up, Seen, Lists, Classify, Phased, Roles.Roster, CreateOrWait, Terminate, AfterTermination;
    LooksParts(c, w, v, Standing, x, t);
    ClaimsSeen(c, w, v, Standing, x, t);
    StandingPod(c, w, v, x, t);
    Protocol.FirstToUpgradeIs(t.unready, x.claims);
    assert t.unready[0] in t.unready;
  }

  lemma StandingPod(c: Config, w: World, v: Suffix, x: Input, t: Tally)
    requires Looks(c, w, v, Standing, x, t)
    ensures v in w.pods && w.pods[v].suffix == v && w.pods[v].labels.rev == c.newRev
    ensures FindClaim(x.claims, DataId(v)).Some? && NeedsUpgrade(w.pods[v], x.claims)
  {
    hide Seen, Lists, Classify, Held, Member, OneEach;
    LooksListed(c, w, v, Standing, x, t);
    ListedClaim(w, x, DataId(v));
  }

  /** With every slot whole, the first pod of the old revision is deleted, if there is one. */
  lemma WholeDeletes(c: Config, w: World, v: Suffix, x: Input, t: Tally) returns (s: Option<Suffix>)
    requires Looks(c, w, v, Whole, x, t)
    ensures Reconcile(x, t, Phased(x, t)).calls == if s.Some? then [DeletePod(s.value)] else []
    ensures s.Some? ==> s.value in w.pods && w.pods[s.value].labels.rev != c.newRev
    ensures s.None? ==> forall q :: q in w.pods ==> w.pods[q].labels.rev == c.newRev
    ensures Reconcile(x, t, Phased(x, t)).ok
    ensures s.None? ==> Reconcile(x, t, Phased(x, t)).status == Phased(x, t)
  {
    hide Collect, Up, Seen, Lists, Classify, Phased, Roles.Roster, CreateOrWait, Bootstrap.NoAddress,
         IsListed, Terminate;
    LooksParts(c, w, v, Whole, x, t);
    ClaimsSeen(c, w, v, Whole, x, t);
    NothingToUpgrade(t, x);
    WholePods(c, w, v, x, t);
    NextTurnIs(t.ready, c.newRev);
    var unused := Collect(x.claims, t.suffixes, t.backups, c.spec).unused;
    SomebodyIn(unused);
    NothingTerminated(x, Phased(x, t), t.ready);
    SlotsOnly(c, w, v, Whole);
    var turn := NextTurn(t.ready, c.newRev);
    s := if turn.TurnOf? then Some(turn.pod.suffix) else None;
    LooksListed(c, w, v, Whole, x, t);
    var rest := AfterTermination(x, t, Phased(x, t), Bootstrap.NoAddress(t.ready), []);
    NothingFirst(rest);
    if turn.TurnOf? {
      ListedClaim(w, x, DataId(turn.pod.suffix));
    }
  }

  lemma NothingTerminated(x: Input, st: Summary, ready: seq<Pod>)
    requires |ready| <= x.replicas
    ensures Terminate(x, st, ready, [], []) == Plan([], true, st)
  {
    NobodyUnused(x.claims);
  }

  lemma {:induction false} NobodyUnused(claims: seq<Claim>)
    ensures FirstUnused(claims, []).None?
  {
    if claims != [] { NobodyUnused(claims[1..]); }
  }

  lemma WholePods(c: Config, w: World, v: Suffix, x: Input, t: Tally)
    requires Looks(c, w, v, Whole, x, t)
    ensures forall p :: p in t.ready ==> Healthy(p) && p.suffix in w.pods && w.pods[p.suffix] == p
    ensures forall p :: p in t.ready ==> DataId(p.suffix) in w.claims && w.claims[DataId(p.suffix)].spec == c.spec
    ensures forall s :: s in w.pods ==> w.pods[s] in t.ready
  {
    hide Classify, Roles.Roster, Held, OneEach;
    forall s | s in w.pods ensures w.pods[s] in t.ready {
      UpPodIsCalm(c, w, v, Whole, s);
      assert w.pods[s] in x.pods;
    }
    forall p | p in t.ready ensures DataId(p.suffix) in w.claims && w.claims[DataId(p.suffix)].spec == c.spec {
      assert p.suffix in c.Slots();
    }
  }

  lemma {:induction false} NextTurnIs(ready: seq<Pod>, rev: Revision)
    requires forall p :: p in ready ==> Healthy(p)
    ensures var n := NextTurn(ready, rev);
      && !n.Unhealthy?
      && (n.TurnOf? ==> n.pod in ready && n.pod.labels.rev != rev)
      && (n.NobodysTurn? ==> forall p :: p in ready ==> p.labels.rev == rev)
  {
    if ready != [] {
      assert ready[0] in ready;
      NextTurnIs(ready[1..], rev);
      assert forall p :: p in ready <==> p == ready[0] || p in ready[1..];
    }
  }

  // ---- What the calls lead to -------------------------------------------------------------

  /** The labels of a round move no stage; what it does after them starts from the world u. */
  lemma AfterLabels(c: Config, w: World, v: Suffix, g: Stage, x: Input, t: Tally) returns (u: World)
    requires Looks(c, w, v, g, x, t) && CanDraw(x) && PlanRound(x) == Settle(x, t)
    requires Roles.LabelCalls(x) == SetLabels(t.ready, t.status.members).calls
    ensures Relabelled(w, u) && Up(c, u, v, g) && Held(u)
    ensures ApplyAll(w, PlanRound(x).calls) ==
      ApplyAll(u, if g.Leaving? then [] else Reconcile(x, t, Phased(x, t)).calls)
  {
    hide Classify, Up, Lists, Seen, Settle, PlanRound, Reconcile, Phased, SetLabels, Roles.LabelCalls,
         Relabelled, Held;
    LooksListed(c, w, v, g, x, t);
    LooksUp(c, w, v, g, x, t);
    LooksParts(c, w, v, g, x, t);
    u := LabelsKeepUp(c, w, v, g, x);
    GoesOn(c, w, v, g, x, t);
    ApplyAllConcat(w, SetLabels(t.ready, t.status.members).calls,
                   if g.Leaving? then [] else Reconcile(x, t, Phased(x, t)).calls);
  }

  lemma LooksUp(c: Config, w: World, v: Suffix, g: Stage, x: Input, t: Tally)
    requires Looks(c, w, v, g, x, t)
    ensures Up(c, w, v, g)
  {
    hide Up, Classify, Seen, Lists;
  }

  /** A state differs from another in slot v only, and keeps the roles held. */
  ghost predicate OnlySlot(w: World, u: World, v: Suffix) {
    && (forall s :: s != v ==>
          && (s in u.pods <==> s in w.pods) && (s in w.pods ==> u.pods[s] == w.pods[s])
          && (DataId(s) in u.claims <==> DataId(s) in w.claims)
          && (DataId(s) in w.claims ==> u.claims[DataId(s)] == w.claims[DataId(s)])
          && (BackupId(s) in u.claims <==> BackupId(s) in w.claims)
          && (BackupId(s) in w.claims ==> u.claims[BackupId(s)] == w.claims[BackupId(s)]))
  }

  lemma OthersStay(c: Config, w: World, u: World, v: Suffix, g: Stage)
    requires Up(c, w, v, g) && OnlySlot(w, u, v)
    ensures forall s :: s in c.Slots() && s != v ==> Member(u, s)
  {
    hide At, OneEach, Claimed;
    forall s | s in c.Slots() && s != v ensures Member(u, s) {
      assert Member(w, s);
    }
  }

  /** No pod starts to serve, so nobody shares a role. */
  lemma SoleStays(w: World, u: World, v: Suffix, f: Pod -> bool)
    requires Sole(w, f) && OnlySlot(w, u, v)
    requires v in u.pods && f(u.pods[v]) ==>
      (v in w.pods && f(w.pods[v])) || forall s :: s in w.pods ==> !f(w.pods[s])
    ensures Sole(u, f)
  {
  }

  /** The same state at the new stage of the slot, once its parts are there. */
  lemma SlotMoves(c: Config, w: World, u: World, v: Suffix, g: Stage, h: Stage)
    requires Up(c, w, v, g) && OnlySlot(w, u, v) && Claimed(c, u) && At(c, u, v, h)
    requires v in u.pods ==> u.pods[v].suffix == v
    requires v in u.pods && ReadyPrimary(u.pods[v]) && !(v in w.pods && ReadyPrimary(w.pods[v])) ==>
      u.pods[v].labels.role.None? && (IsBackup(u.pods[v]) ==> forall s :: s in w.pods ==> !ReadyBackup(w.pods[s]))
    requires v in u.pods && v in w.pods ==> u.pods[v].labels == w.pods[v].labels
    ensures Up(c, u, v, h)
  {
    hide At, Member, Claimed, OneEach, ReadyBackup, ReadyPrimary;
    OthersStay(c, w, u, v, g);
    OneEachStays(w, u, v);
    assert u.pods.Keys <= c.Slots() by {
      forall s | s in u.pods ensures s in c.Slots() { }
    }
  }

  lemma OneEachStays(w: World, u: World, v: Suffix)
    requires OneEach(w) && OnlySlot(w, u, v)
    requires v in u.pods && ReadyPrimary(u.pods[v]) && !(v in w.pods && ReadyPrimary(w.pods[v])) ==>
      u.pods[v].labels.role.None? && (IsBackup(u.pods[v]) ==> forall s :: s in w.pods ==> !ReadyBackup(w.pods[s]))
    requires v in u.pods && v in w.pods ==> u.pods[v].labels == w.pods[v].labels
    ensures OneEach(u)
  {
    hide Sole, OnlySlot;
    SoleStays(w, u, v, ReadyWriter);
    SoleStays(w, u, v, ReadyBackupWriter);
    SoleStays(w, u, v, ReadyBackup);
  }

  // ---- The measure ------------------------------------------------------------------------

  /** How far slot s is from a ready member of the cluster at the next revision. */
  ghost function Distance(c: Config, w: World, s: Suffix): nat {
    var arrival :=
      if s in w.pods then (if w.pods[s].terminating then 5 else if w.pods[s].health.Ready? then 0 else 1)
      else if BackupId(s) in w.claims then (if w.claims[BackupId(s)].terminating then 3 else 4)
      else 2;
    if DataId(s) in w.claims && w.claims[DataId(s)].rev == c.newRev then arrival
    else if s in w.pods && !w.pods[s].terminating && w.pods[s].labels.state.Cluster? then 12
    else 6 + arrival
  }

  ghost function Measure(c: Config, w: World): nat {
    Distance(c, w, c.a) + Distance(c, w, c.b) + Distance(c, w, c.c)
  }

  lemma RelabelledMeasure(c: Config, w: World, u: World)
    requires Relabelled(w, u)
    ensures Measure(c, u) == Measure(c, w)
  {
    hide Relabelled, Distance;
    forall s ensures Distance(c, u, s) == Distance(c, w, s) { RelabelledDistance(c, w, u, s); }
  }

  lemma RelabelledDistance(c: Config, w: World, u: World, s: Suffix)
    requires Relabelled(w, u)
    ensures Distance(c, u, s) == Distance(c, w, s)
  {
  }

  lemma MeasureMoves(c: Config, w: World, u: World, v: Suffix)
    requires c.Valid() && v in c.Slots() && OnlySlot(w, u, v)
    ensures Measure(c, u) - Measure(c, w) == Distance(c, u, v) - Distance(c, w, v)
  {
    hide Distance, OnlySlot;
    forall s | s != v ensures Distance(c, u, s) == Distance(c, w, s) { DistanceElsewhere(c, w, u, v, s); }
  }

  lemma DistanceElsewhere(c: Config, w: World, u: World, v: Suffix, s: Suffix)
    requires OnlySlot(w, u, v) && s != v
    ensures Distance(c, u, s) == Distance(c, w, s)
  {
  }

  // ---- The moves --------------------------------------------------------------------------

  lemma ClaimedBut(c: Config, w: World, u: World, id: ClaimId)
    requires Claimed(c, w) && id.suffix in c.Slots()
    requires forall j :: j != id ==> (j in u.claims <==> j in w.claims) && (j in w.claims ==> u.claims[j] == w.claims[j])
    requires id in u.claims ==> u.claims[id].id == id
    requires !id.backup ==>
      id in u.claims && !u.claims[id].terminating && u.claims[id].spec == c.spec && u.claims[id].rev == c.newRev
    ensures Claimed(c, u)
  {
    assert forall s :: DataId(s) == id ==> !id.backup && id.suffix == s;
  }

  lemma UpClaimed(c: Config, w: World, v: Suffix, g: Stage)
    requires Up(c, w, v, g)
    ensures Claimed(c, w) && v in c.Slots() && c.Valid() && At(c, w, v, g) && DataId(v) in w.claims
    ensures v in w.pods ==> w.pods[v].suffix == v
  {
    hide Member, OneEach, At;
  }

  /** Another stage of the slot, closer to the end. */
  lemma SlotAdvances(c: Config, w: World, u: World, v: Suffix, g: Stage, h: Stage)
    requires Up(c, w, v, g) && OnlySlot(w, u, v) && Claimed(c, u) && At(c, u, v, h)
    requires v in u.pods ==> u.pods[v].suffix == v
    requires v in u.pods && ReadyPrimary(u.pods[v]) && !(v in w.pods && ReadyPrimary(w.pods[v])) ==>
      u.pods[v].labels.role.None? && (IsBackup(u.pods[v]) ==> forall s :: s in w.pods ==> !ReadyBackup(w.pods[s]))
    requires v in u.pods && v in w.pods ==> u.pods[v].labels == w.pods[v].labels
    requires Distance(c, u, v) < Distance(c, w, v)
    ensures Up(c, u, v, h) && Measure(c, u) < Measure(c, w)
  {
    hide Up, Claimed, OnlySlot, At, Measure, Distance;
    SlotMoves(c, w, u, v, g, h);
    UpClaimed(c, w, v, g);
    MeasureMoves(c, w, u, v);
  }

  lemma PodsOnly(w: World, u: World, v: Suffix)
    requires u.claims == w.claims
    requires forall s :: s != v ==> (s in u.pods <==> s in w.pods) && (s in w.pods ==> u.pods[s] == w.pods[s])
    ensures OnlySlot(w, u, v)
  {
  }

  lemma ClaimsOnly(w: World, u: World, id: ClaimId)
    requires u.pods == w.pods
    requires forall j :: j != id ==> (j in u.claims <==> j in w.claims) && (j in w.claims ==> u.claims[j] == w.claims[j])
    ensures OnlySlot(w, u, id.suffix)
  {
    assert forall s :: s != id.suffix ==> DataId(s) != id && BackupId(s) != id;
  }

  lemma DeletePodEffect(c: Config, w: World, s: Suffix)
    requires At(c, w, s, Whole) && w.pods[s].labels.rev != c.newRev
    ensures Accepts(w, DeletePod(s))
    ensures var u := Apply(w, DeletePod(s));
      At(c, u, s, Leaving) && Distance(c, u, s) < Distance(c, w, s) && u.claims == w.claims
  {
    hide Held;
  }

  lemma DeletePodMoves(c: Config, w: World, s: Suffix)
    requires Up(c, w, s, Whole) && s in w.pods && w.pods[s].labels.rev != c.newRev
    ensures Accepts(w, DeletePod(s))
    ensures var u := Apply(w, DeletePod(s)); Up(c, u, s, Leaving) && Measure(c, u) < Measure(c, w)
  {
    hide Up, Claimed, At, Distance, Measure, OnlySlot;
    UpClaimed(c, w, s, Whole);
    DeletePodEffect(c, w, s);
    var u := Apply(w, DeletePod(s));
    ClaimedKept(c, w, u);
    PodsOnly(w, u, s);
    SlotAdvances(c, w, u, s, Whole, Leaving);
  }

  lemma DeleteClaimMoves(c: Config, w: World, v: Suffix)
    requires Up(c, w, v, Vacant) && HasLive(w, BackupId(v))
    ensures var u := Apply(w, DeleteClaim(BackupId(v))); Up(c, u, v, Vacant) && Measure(c, u) < Measure(c, w)
  {
    hide Up, Claimed, Measure, Distance, OnlySlot, Apply;
    var u := Apply(w, DeleteClaim(BackupId(v)));
    UpClaimed(c, w, v, Vacant);
    SlotsOnly(c, w, v, Vacant);
    DeleteClaimEffect(w, BackupId(v));
    ClaimsOnly(w, u, BackupId(v));
    ClaimedBut(c, w, u, BackupId(v));
    DeleteClaimCloser(c, w, v);
    SlotAdvances(c, w, u, v, Vacant, Vacant);
  }

  lemma DeleteClaimEffect(w: World, id: ClaimId)
    requires id in w.claims
    ensures var u := Apply(w, DeleteClaim(id));
      && u.pods == w.pods && id in u.claims && u.claims[id] == w.claims[id].(terminating := true)
      && (forall j :: j != id ==> (j in u.claims <==> j in w.claims) && (j in w.claims ==> u.claims[j] == w.claims[j]))
  {
  }

  lemma DeleteClaimCloser(c: Config, w: World, v: Suffix)
    requires v !in w.pods && HasLive(w, BackupId(v))
    ensures Distance(c, Apply(w, DeleteClaim(BackupId(v))), v) < Distance(c, w, v)
  {
  }

  /** The world after mysql_upgrade, deletion and relabelling. */
  ghost function Upgraded(c: Config, w: World, v: Suffix): World {
    ApplyAll(w, [MysqlUpgrade(v), DeletePod(v), PatchClaim(v, c.newRev)])
  }

  lemma UpgradedIs(c: Config, w: World, v: Suffix)
    requires v in w.pods && DataId(v) in w.claims
    ensures var u := Upgraded(c, w, v);
      && u.pods == w.pods[v := w.pods[v].(terminating := true)]
      && u.claims == w.claims[DataId(v) := w.claims[DataId(v)].(rev := c.newRev)]
  {
    hide ApplyAll;
    ApplyThree(w, MysqlUpgrade(v), DeletePod(v), PatchClaim(v, c.newRev));
  }

  lemma UpgradedCloser(c: Config, w: World, v: Suffix)
    requires At(c, w, v, Standing)
    requires forall s :: BackupId(s) != DataId(v)
    ensures var u := Upgraded(c, w, v);
      At(c, u, v, Leaving) && Distance(c, u, v) < Distance(c, w, v) && OnlySlot(w, u, v)
  {
    hide Held, Upgraded, ReadyBackup;
    UpgradedIs(c, w, v);
  }

  /** The pod leaves, and the claim is at the next revision. */
  lemma UpgradeMoves(c: Config, w: World, v: Suffix)
    requires Up(c, w, v, Standing)
    ensures Up(c, Upgraded(c, w, v), v, Leaving) && Measure(c, Upgraded(c, w, v)) < Measure(c, w)
  {
    hide Up, Claimed, Measure, Distance, At, OnlySlot, Upgraded;
    UpClaimed(c, w, v, Standing);
    SlotsOnly(c, w, v, Standing);
    SlotClaims(c, w, v, Standing, v);
    UpgradedIs(c, w, v);
    UpgradedCloser(c, w, v);
    ClaimedBut(c, w, Upgraded(c, w, v), DataId(v));
    SlotAdvances(c, w, Upgraded(c, w, v), v, Standing, Leaving);
  }

  /** The world with the pod created, and with it its backup claim for the backup. */
  ghost function Created(c: Config, w: World, v: Suffix, p: Pod, role: Role): World {
    ApplyAll(w, (if role.Backup? then [CreateClaim(BackupId(v), c.newRev, c.spec)] else []) + [CreatePod(p)])
  }

  lemma CreatedIs(c: Config, w: World, v: Suffix, p: Pod, role: Role)
    requires v !in w.pods && p.suffix == v && BackupId(v) !in w.claims
    ensures var u := Created(c, w, v, p, role);
      && u.pods == w.pods[v := p]
      && u.claims == if role.Backup? then w.claims[BackupId(v) := Claim(BackupId(v), c.newRev, c.spec, false)] else w.claims
  {
    hide ApplyAll;
    var made := CreateClaim(BackupId(v), c.newRev, c.spec);
    if role.Backup? {
      assert [made] + [CreatePod(p)] == [made, CreatePod(p)];
      ApplyTwo(w, made, CreatePod(p));
    } else {
      assert [] + [CreatePod(p)] == [CreatePod(p)];
      ApplyOne(w, CreatePod(p));
    }
  }

  lemma CreatedAt(c: Config, w: World, v: Suffix, p: Pod, role: Role)
    requires v !in w.pods && Held(w) && BackupId(v) !in w.claims && DataId(v) in w.claims
    requires role == Reader || (role == Backup && forall s :: s in w.pods ==> !ReadyBackup(w.pods[s]))
    requires p.suffix == v && p.health.NoPhase? && !p.terminating
    requires p.labels == PodLabels(role, c.newRev, if w.claims[DataId(v)].rev == c.newRev then Cluster else Standalone)
    ensures var u := Created(c, w, v, p, role);
      At(c, u, v, Coming) && Distance(c, u, v) < Distance(c, w, v) && OnlySlot(w, u, v)
  {
    hide Held, Created, ReadyBackup;
    CreatedIs(c, w, v, p, role);
    var u := Created(c, w, v, p, role);
    assert OnlySlot(w, u, v);
    HeldStays(w, u, v);
    NobodyBacksUp(w, u, v);
  }

  lemma CreateMoves(c: Config, w: World, v: Suffix, p: Pod, role: Role)
    requires Up(c, w, v, Vacant) && Held(w) && BackupId(v) !in w.claims && DataId(v) in w.claims
    requires role == Reader || (role == Backup && forall s :: s in w.pods ==> !ReadyBackup(w.pods[s]))
    requires p.suffix == v && p.health.NoPhase? && !p.terminating
    requires p.labels == PodLabels(role, c.newRev, if w.claims[DataId(v)].rev == c.newRev then Cluster else Standalone)
    ensures var u := Created(c, w, v, p, role); Up(c, u, v, Coming) && Measure(c, u) < Measure(c, w)
  {
    hide Up, Claimed, Measure, Held, Created, ReadyBackup, Distance, OnlySlot;
    UpClaimed(c, w, v, Vacant);
    assert v !in w.pods;
    CreatedIs(c, w, v, p, role);
    var u := Created(c, w, v, p, role);
    if role.Backup? { ClaimedBut(c, w, u, BackupId(v)); } else { ClaimedKept(c, w, u); }
    CreatedAt(c, w, v, p, role);
    SlotAdvances(c, w, u, v, Vacant, Coming);
  }

  lemma HeldStays(w: World, u: World, v: Suffix)
    requires Held(w) && OnlySlot(w, u, v)
    requires v in w.pods ==> !HoldsRole(w.pods[v])
    ensures Held(u)
  {
    var s :| s in w.pods && ReadyWriter(w.pods[s]);
    var b :| b in w.pods && ReadyBackupWriter(w.pods[b]);
    assert s in u.pods && ReadyWriter(u.pods[s]) && b in u.pods && ReadyBackupWriter(u.pods[b]);
  }

  lemma NobodyBacksUp(w: World, u: World, v: Suffix)
    requires OnlySlot(w, u, v) && (v in u.pods ==> !u.pods[v].health.Ready?)
    ensures (forall s :: s in w.pods ==> !ReadyBackup(w.pods[s])) ==> forall s :: s in u.pods ==> !ReadyBackup(u.pods[s])
  {
  }

  // ---- Environment steps ------------------------------------------------------------------

  /** A terminating pod is gone. */
  ghost predicate PodGone(w: World, u: World, s: Suffix) {
    s in w.pods && w.pods[s].terminating && u == w.(pods := w.pods - {s})
  }

  /** A terminating claim is gone. */
  ghost predicate ClaimGone(w: World, u: World, id: ClaimId) {
    id in w.claims && w.claims[id].terminating && u == w.(claims := w.claims - {id})
  }

  /** A created pod becomes ready: as a member when it joined the cluster, outside it when standalone. */
  ghost predicate PodReady(w: World, u: World, s: Suffix, ip: string) {
    && s in w.pods && !w.pods[s].terminating && !w.pods[s].health.Ready?
    && u == w.(pods := w.pods[s := w.pods[s].(
         health := Ready, ip := ip, wsrep := if w.pods[s].labels.state.Cluster? then Primary else NonPrimary)])
  }

  ghost predicate EnvironmentStep(w: World, u: World) {
    || (exists s :: PodGone(w, u, s))
    || (exists id :: ClaimGone(w, u, id))
    || (exists s, ip :: PodReady(w, u, s, ip))
  }

  lemma PodGoneMoves(c: Config, w: World, u: World, v: Suffix, g: Stage, s: Suffix)
    requires Up(c, w, v, g) && PodGone(w, u, s)
    ensures Up(c, u, v, Vacant) && Measure(c, u) < Measure(c, w)
  {
    hide Up, Claimed, Measure, Distance, OnlySlot, IsListed, IsUnready, CalmPod;
    UpPodIsCalm(c, w, v, g, s);
    UpClaimed(c, w, v, g);
    ClaimedKept(c, w, u);
    PodsOnly(w, u, v);
    PodGoneCloser(c, w, u, v);
    SlotAdvances(c, w, u, v, Leaving, Vacant);
  }

  lemma PodGoneCloser(c: Config, w: World, u: World, v: Suffix)
    requires PodGone(w, u, v)
    ensures Distance(c, u, v) < Distance(c, w, v) && At(c, u, v, Vacant)
  {
  }

  lemma ClaimGoneMoves(c: Config, w: World, u: World, v: Suffix, g: Stage, id: ClaimId)
    requires Up(c, w, v, g) && ClaimGone(w, u, id)
    ensures Up(c, u, v, Vacant) && Measure(c, u) < Measure(c, w)
  {
    hide Up, Claimed, Measure, Distance, OnlySlot;
    GoneIsBackup(c, w, v, g, id);
    UpClaimed(c, w, v, g);
    assert v !in w.pods;
    ClaimsOnly(w, u, id);
    ClaimedBut(c, w, u, id);
    ClaimGoneCloser(c, w, u, v);
    SlotAdvances(c, w, u, v, Vacant, Vacant);
  }

  /** The only claim on its way out is the backup claim of the vacant slot. */
  lemma GoneIsBackup(c: Config, w: World, v: Suffix, g: Stage, id: ClaimId)
    requires Up(c, w, v, g) && id in w.claims && w.claims[id].terminating
    ensures g.Vacant? && id == BackupId(v)
  {
    hide Claimed, Held, OneEach, Apart;
    SlotsOnly(c, w, v, g);
    SlotClaims(c, w, v, g, id.suffix);
    assert id == if id.backup then BackupId(id.suffix) else DataId(id.suffix);
  }

  lemma ClaimGoneCloser(c: Config, w: World, u: World, v: Suffix)
    requires ClaimGone(w, u, BackupId(v)) && v !in w.pods
    ensures Distance(c, u, v) < Distance(c, w, v)
  {
  }

  lemma PodReadyMoves(c: Config, w: World, u: World, v: Suffix, g: Stage, s: Suffix, ip: string)
    requires Up(c, w, v, g) && PodReady(w, u, s, ip)
    ensures exists h :: Up(c, u, v, h)
    ensures Measure(c, u) < Measure(c, w)
  {
    hide Up, Claimed, Measure, Held, Distance, At, OnlySlot, CalmPod, IsUnready, ReadyBackup;
    UpPodIsCalm(c, w, v, g, s);
    ComingIsAt(c, w, v, g, s);
    UpClaimed(c, w, v, g);
    ClaimedKept(c, w, u);
    PodsOnly(w, u, v);
    var h := if w.pods[v].labels.state.Cluster? then Whole else Standing;
    ReadyAt(c, w, u, v, ip);
    SlotAdvances(c, w, u, v, Coming, h);
  }

  lemma ComingIsAt(c: Config, w: World, v: Suffix, g: Stage, s: Suffix)
    requires Up(c, w, v, g) && s in w.pods && !w.pods[s].terminating && !w.pods[s].health.Ready?
    ensures s == v && g.Coming?
  {
    hide Claimed, Held, OneEach, Apart;
    UpPodIsCalm(c, w, v, g, s);
  }

  lemma ReadyAt(c: Config, w: World, u: World, v: Suffix, ip: string)
    requires At(c, w, v, Coming) && PodReady(w, u, v, ip) && c.oldRev != c.newRev
    ensures At(c, u, v, if w.pods[v].labels.state.Cluster? then Whole else Standing)
    ensures Distance(c, u, v) < Distance(c, w, v)
    ensures var p := u.pods[v];
      p.labels.role.None? && (IsBackup(p) ==> forall s :: s in w.pods ==> !ReadyBackup(w.pods[s]))
  {
    hide Held;
    PodsOnly(w, u, v);
    HeldStays(w, u, v);
    if u.pods[v].labels.state.Standalone? {
      forall s | s in u.pods && IsBackup(u.pods[v]) ensures !ReadyBackup(u.pods[s]) {
        if s != v { assert !ReadyBackup(w.pods[s]); }
      }
    }
  }
}
