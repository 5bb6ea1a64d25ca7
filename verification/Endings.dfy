/** How a round ends when enough pods are ready: what it clears up, whom it trims, whom it replaces for
    an upgrade, and what it does about the special node, in terms of the pods and claims of its snapshot. */
module Endings {
  import opened ApiStore
  import opened Status
  import opened PodTemplate
  import opened Round
  import opened RoundFacts
  import opened Phases
  import opened Decisions
  import Bootstrap
  import Creation
  import Disruption
  import Roles
  import Sync

  // ---- Clearing up ------------------------------------------------------------------------

  /** Nothing is cleared up while a special node is wanted and none is ready. */
  ghost predicate CanClear(x: Input) { x.special.None? || exists p :: p in x.pods && ReadySpecial(p) }

  /** A ready pod without role and backup label. */
  predicate Spared(p: Pod) { IsListed(p) && Unmarked(p) }

  function DeleteEach(pods: seq<Pod>): seq<ApiCall> { seq(|pods|, i requires 0 <= i < |pods| => DeletePod(pods[i].suffix)) }

  /** Whom the round trims: the first plain reader when more pods are ready than wanted. */
  ghost predicate Trims(x: Input, p: Option<Pod>) {
    if |Filter(x.pods, IsListed)| > x.replicas && exists q :: q in x.pods && Spared(q)
    then exists i :: 0 <= i < |x.pods| && p == Some(x.pods[i]) && Spared(x.pods[i]) && forall j :: 0 <= j < i ==>
      !Spared(x.pods[j])
    else p == None
  }

  /** The first idle claim is deleted, and nothing else; if there is none, the unready pods are, and
      then the reader to be trimmed. */
  ghost predicate ClearsUp(x: Input, trimmed: Option<Pod>, calls: seq<ApiCall>) {
    if CanClear(x) && exists c :: c in x.claims && Idle(x, c) then
      && trimmed == None
      && exists i :: 0 <= i < |x.claims| && IdleFirst(x, i) && calls == [DeleteClaim(x.claims[i].id)]
    else
      && Trims(x, trimmed)
      && calls == (if CanClear(x) then DeleteEach(Filter(x.pods, IsUnready)) else [])
                  + (if trimmed.Some? then [DeletePod(trimmed.value.suffix)] else [])
  }

  lemma {:induction false} DeleteAllIs(pods: seq<Pod>)
    ensures DeleteAll(pods) == DeleteEach(pods)
  {
    if pods != [] {
      DeleteAllIs(pods[1..]);
      assert DeleteEach(pods) == [DeletePod(pods[0].suffix)] + DeleteEach(pods[1..]);
    }
  }

  lemma {:induction false} FirstPlainAt(pods: seq<Pod>, i: nat)
    requires i < |pods| && Spared(pods[i]) && forall j :: 0 <= j < i ==> !Spared(pods[j])
    ensures FirstPlain(Filter(pods, IsListed)) == Some(pods[i])
  {
    hide IsListed;
    var rest := Filter(pods[1..], IsListed);
    if i > 0 { FirstPlainAt(pods[1..], i - 1); }
    if IsListed(pods[0]) {
      assert ([pods[0]] + rest)[0] == pods[0] && ([pods[0]] + rest)[1..] == rest;
    } else {
      assert [] + rest == rest;
    }
  }

  lemma {:induction false} FirstUnusedAt(claims: seq<Claim>, unused: seq<Suffix>, i: nat)
    requires i < |claims| && claims[i].id.suffix in unused && forall j :: 0 <= j < i ==> claims[j].id.suffix !in unused
    ensures FirstUnused(claims, unused) == Some(claims[i])
  {
    if i > 0 { FirstUnusedAt(claims[1..], unused, i - 1); }
  }

  /** The first index with a property. */
  lemma {:induction false} FirstIndex<T>(xs: seq<T>, f: T -> bool) returns (i: nat)
    requires exists a :: a in xs && f(a)
    ensures i < |xs| && f(xs[i]) && forall j :: 0 <= j < i ==> !f(xs[j])
  {
    if f(xs[0]) {
      i := 0;
    } else {
      var a :| a in xs && f(a);
      assert a in xs[1..];
      var k := FirstIndex(xs[1..], f);
      i := k + 1;
    }
  }

  lemma TrimIs(x: Input)
    ensures Trims(x, if |Filter(x.pods, IsListed)| > x.replicas then FirstPlain(Filter(x.pods, IsListed)) else None)
  {
    hide IsListed, Filter;
    var ready := Filter(x.pods, IsListed);
    if exists q :: q in x.pods && Spared(q) {
      var i := FirstIndex(x.pods, Spared);
      FirstPlainAt(x.pods, i);
    } else {
      InFilter(x.pods, IsListed);
      Disruption.FirstPlainIs(ready);
    }
  }

  /** The claims under a suffix that no pod has are data claims. */
  lemma UnusedIsIdle(x: Input, t: Tally, c: Claim)
    requires Orderly(x) && Tallied(x, t) && c in x.claims
    ensures c.id.suffix in UnusedData(x.claims, t.suffixes) <==> Idle(x, c)
  {
    hide Proceeds, IsListed, IsUnready, Classify, Distinct, DistinctClaims, Filter;
    UnusedAreUnused(x.claims, t.suffixes);
    InNames(x.pods, c.id.suffix);
    assert Kept(x, c);
    if !c.id.backup { assert c.id == DataId(c.id.suffix); }
  }

  lemma OrphanIs(x: Input, t: Tally)
    requires Orderly(x) && Tallied(x, t)
    ensures var unused := UnusedData(x.claims, t.suffixes);
      if exists c :: c in x.claims && Idle(x, c)
      then exists i :: 0 <= i < |x.claims| && IdleFirst(x, i) && FirstUnused(x.claims, unused) == Some(x.claims[i])
      else FirstUnused(x.claims, unused).None?
  {
    hide Orderly, Tallied, Idle, UnusedData;
    var unused := UnusedData(x.claims, t.suffixes);
    forall c | c in x.claims ensures c.id.suffix in unused <==> Idle(x, c) { UnusedIsIdle(x, t, c); }
    if exists c :: c in x.claims && Idle(x, c) {
      var i := FirstIndex(x.claims, (c: Claim) => c.id.suffix in unused);
      FirstUnusedAt(x.claims, unused, i);
    } else {
      NoneUnused(x.claims, unused);
    }
  }

  lemma {:induction false} NoneUnused(claims: seq<Claim>, unused: seq<Suffix>)
    requires forall c :: c in claims ==> c.id.suffix !in unused
    ensures FirstUnused(claims, unused).None?
  {
    if claims != [] {
      assert claims[0] in claims;
      NoneUnused(claims[1..], unused);
    }
  }

  /** The special node recorded is a ready one. */
  lemma ClearingIs(x: Input, t: Tally)
    requires Tallied(x, t)
    ensures CanClear(x) <==> x.special.None? || Phased(x, t).members.special.Some?
  {
    hide Classify, IsListed, IsUnready, SetLabels, Filter, Phased;
    ClosedMembers(x.pods, Start(x), x);
    Roles.FirstIs(x.pods, ReadySpecial);
    PhaseThen(x, t);
  }

  /** The termination pass. */
  lemma Terminates(x: Input, t: Tally) returns (trimmed: Option<Pod>)
    requires Orderly(x) && Tallied(x, t)
    ensures var done := Terminate(x, Phased(x, t), t.ready, t.unready, UnusedData(x.claims, t.suffixes));
      && ClearsUp(x, trimmed, done.calls) && done.ok && (forall c :: c in done.calls ==> !c.PatchPod?)
      && done.status == Phased(x, t).(
           currentReplicas := Phased(x, t).currentReplicas - One(trimmed, x.currentRev),
           nextReplicas := Phased(x, t).nextReplicas - One(trimmed, x.nextRev))
  {
    hide Orderly, Classify, Idle, UnusedData, Phased, FirstPlain, FirstUnused, IsListed, IsUnready, Filter, Trims, CanClear,
         DeleteAll, DeleteEach;
    var unused := UnusedData(x.claims, t.suffixes);
    TalliedDraws(x, t);
    ClearingIs(x, t);
    OrphanIs(x, t);
    TrimIs(x);
    DeleteAllIs(t.unready);
    DeletesOnly(t.unready);
    var process := x.special.None? || Phased(x, t).members.special.Some?;
    trimmed := if (process && FirstUnused(x.claims, unused).Some?) || |t.ready| <= x.replicas then None
        else FirstPlain(t.ready);
    var first := if process then DeleteAll(t.unready) else [];
    assert first + [] == first;
  }

  function One(p: Option<Pod>, rev: Revision): int { if p.Some? && p.value.labels.rev == rev then 1 else 0 }

  lemma DeletesOnly(pods: seq<Pod>)
    ensures forall c :: c in DeleteEach(pods) ==> c.DeletePod?
  {
  }

  // ---- Replacing a pod --------------------------------------------------------------------

  /** A ready pod of an older revision, while revisions differ. */
  predicate Outdated(x: Input, p: Pod) { x.currentRev != x.nextRev && IsListed(p) && p.labels.rev != x.nextRev }

  ghost predicate OutdatedFirst(x: Input, i: nat)
    requires i < |x.pods|
  {
    Outdated(x, x.pods[i]) && forall j :: 0 <= j < i ==> !Outdated(x, x.pods[j])
  }

  /** Deleting a pod so that it comes back: its data claim goes with it when it does not fit any more. */
  ghost predicate Replaces(x: Input, p: Pod, calls: seq<ApiCall>) {
    exists c :: IsData(x.claims, p.suffix, c)
      && calls == (if c.spec == x.next.claimSpec then [] else [DeleteClaim(DataId(p.suffix))]) + [DeletePod(p.suffix)]
  }

  lemma ReplacingIs(x: Input, p: Pod)
    requires Orderly(x) && p in x.pods && p.health.Ready?
    ensures var (calls, ok) := DeleteForUpgrade(p, x.claims, x.next.claimSpec);
      Replaces(x, p, calls) && ok && forall c :: c in calls ==> !c.PatchPod?
  {
    hide Orderly;
    var c := RunsOnClaim(x, p);
    assert [] + [DeletePod(p.suffix)] == [DeletePod(p.suffix)];
    assert [DeleteClaim(c.id)] + [DeletePod(p.suffix)] == [DeleteClaim(c.id), DeletePod(p.suffix)];
  }

  lemma {:induction false} NextTurnAt(pods: seq<Pod>, rev: Revision, i: nat)
    requires i < |pods| && IsListed(pods[i]) && pods[i].labels.rev != rev
    requires forall j :: 0 <= j < i ==> !(IsListed(pods[j]) && pods[j].labels.rev != rev)
    ensures NextTurn(Filter(pods, IsListed), rev) == TurnOf(pods[i])
  {
    var rest := Filter(pods[1..], IsListed);
    if i > 0 { NextTurnAt(pods[1..], rev, i - 1); }
    if IsListed(pods[0]) {
      assert ([pods[0]] + rest)[0] == pods[0] && ([pods[0]] + rest)[1..] == rest;
    } else {
      assert [] + rest == rest;
    }
  }

  lemma {:induction false} NobodyNext(pods: seq<Pod>, rev: Revision)
    requires forall p :: p in pods && IsListed(p) ==> p.labels.rev == rev
    ensures NextTurn(Filter(pods, IsListed), rev) == NobodysTurn
  {
    if pods != [] {
      assert pods[0] in pods;
      var rest := Filter(pods[1..], IsListed);
      NobodyNext(pods[1..], rev);
      if IsListed(pods[0]) {
        assert ([pods[0]] + rest)[0] == pods[0] && ([pods[0]] + rest)[1..] == rest;
      } else {
        assert [] + rest == rest;
      }
    }
  }

  // ---- The special node -------------------------------------------------------------------

  ghost predicate HasSpecial(pods: seq<Pod>) { exists p :: p in pods && p.labels.role == Some(Special) }

  /** The special node of the round: the last pod with that role. */
  ghost predicate IsSpecialNode(pods: seq<Pod>, p: Pod) {
    exists i :: 0 <= i < |pods| && pods[i] == p && p.labels.role == Some(Special)
      && forall j :: i < j < |pods| ==> pods[j].labels.role != Some(Special)
  }

  lemma {:induction false} NoSpecialMet(pods: seq<Pod>, t: Tally, x: Input)
    requires Classify(pods, t, x).Go? && !HasSpecial(pods)
    ensures Classify(pods, t, x).tally.special == t.special
    decreases pods
  {
    hide ClassifyPod;
    if pods != [] {
      assert pods[0] in pods;
      TurnFacts(pods[0], t, x);
      NoSpecialMet(pods[1..], ClassifyPod(pods[0], t, x).tally, x);
    }
  }

  lemma {:induction false} SpecialMet(pods: seq<Pod>, t: Tally, x: Input, i: nat)
    requires Classify(pods, t, x).Go? && i < |pods| && !pods[i].terminating && pods[i].labels.role == Some(Special)
    requires forall j :: i < j < |pods| ==> pods[j].labels.role != Some(Special)
    ensures Classify(pods, t, x).tally.special == Some(pods[i])
    decreases pods
  {
    hide ClassifyPod;
    TurnFacts(pods[0], t, x);
    if i == 0 {
      NoSpecialMet(pods[1..], ClassifyPod(pods[0], t, x).tally, x);
    } else {
      SpecialMet(pods[1..], ClassifyPod(pods[0], t, x).tally, x, i - 1);
    }
  }

  lemma {:induction false} LastSpecial(pods: seq<Pod>) returns (i: nat)
    requires HasSpecial(pods)
    ensures i < |pods| && pods[i].labels.role == Some(Special)
    ensures forall j :: i < j < |pods| ==> pods[j].labels.role != Some(Special)
  {
    if HasSpecial(pods[1..]) {
      var k := LastSpecial(pods[1..]);
      i := k + 1;
    } else {
      i := 0;
      assert forall p :: p in pods ==> p == pods[0] || p in pods[1..];
      assert forall j :: 0 < j < |pods| ==> pods[j] in pods[1..];
    }
  }

  /** The special node the classification finds. */
  lemma SpecialIs(x: Input, t: Tally)
    requires Proceeds(x) && Tallied(x, t)
    ensures t.special.Some? <==> HasSpecial(x.pods)
    ensures t.special.Some? ==>
      IsSpecialNode(x.pods, t.special.value) && t.special.value in x.pods && !t.special.value.terminating
  {
    hide Classify, IsListed, IsUnready, Filter, SetLabels;
    if HasSpecial(x.pods) {
      var i := LastSpecial(x.pods);
      SpecialMet(x.pods, Start(x), x, i);
    } else {
      NoSpecialMet(x.pods, Start(x), x);
    }
  }

  /** A new special node: neither reader nor backup, and never told to start a cluster. */
  ghost predicate NewSpecial(x: Input, p: Pod) {
    && NewSuffix(x, p.suffix) && NewState(x, p.suffix, x.nextRev, p.labels.state)
    && p.labels == Labels(Some(Special), None, Some(false), p.labels.state, x.nextRev)
    && p == Pod(p.suffix, p.labels, NoPhase, NonPrimary, false, "", false, x.next.image)
  }

  /** What a round does about the special node it has: a failed one is deleted, one that is not ready is
      waited for; mysql_upgrade when its claim is older, replacement when it is itself. */
  ghost predicate TendsTo(x: Input, p: Pod, calls: seq<ApiCall>) {
    if p.health.Failed? then calls == [DeletePod(p.suffix)]
    else if !p.health.Ready? then calls == []
    else exists c :: IsData(x.claims, p.suffix, c) && TendsToReady(x, p, c, calls)
  }

  ghost predicate TendsToReady(x: Input, p: Pod, c: Claim, calls: seq<ApiCall>) {
    if c.rev != p.labels.rev
    then calls == [MysqlUpgrade(p.suffix), DeletePod(p.suffix), PatchClaim(p.suffix, p.labels.rev)]
    else if p.labels.rev != x.nextRev then Replaces(x, p, calls)
    else calls == []
  }

  /** What a round that wants a special node does about it. */
  ghost predicate ManagesSpecial(x: Input, calls: seq<ApiCall>) {
    if HasSpecial(x.pods)
    then exists p :: IsSpecialNode(x.pods, p) && TendsTo(x, p, calls)
    else exists p :: NewSpecial(x, p) && calls == CreationCalls(x, p, Special, x.next.claimSpec, Spare(x, p.suffix))
  }

  lemma SpecialIsTended(x: Input, env: seq<EnvVar>, st: Summary, p: Pod, noAddress: bool, used: seq<Suffix>,
      unused: seq<Suffix>)
    requires Orderly(x) && p in x.pods && !p.terminating && (exists d :: d in x.draws && d !in used)
    ensures var plan := ManageSpecial(x, env, x.next.claimSpec, st, Some(p), noAddress, used, unused);
      TendsTo(x, p, plan.calls) && plan.ok && plan.status == st && forall c :: c in plan.calls ==> !c.PatchPod?
  {
    hide Orderly, Replaces, DeleteForUpgrade;
    if p.health.Ready? {
      var c := RunsOnClaim(x, p);
      ReplacingIs(x, p);
    }
  }

  lemma SpecialIsNew(x: Input, t: Tally, env: seq<EnvVar>, st: Summary, noAddress: bool) returns (p: Pod)
    requires Orderly(x) && Tallied(x, t)
    ensures NewSpecial(x, p)
    ensures var plan := ManageSpecial(x, env, x.next.claimSpec, st, None, noAddress, t.suffixes,
      UnusedData(x.claims, t.suffixes));
      plan.calls == CreationCalls(x, p, Special, x.next.claimSpec, Spare(x, p.suffix)) && plan.ok && plan.status == st
  {
    hide Orderly, Classify, Filter, IsListed, IsUnready, CreatePodAndClaim, StateFor, PickSuffix, NewSuffix, NewState,
         HasClusterInit, GaleraEnv, CreationCalls, UnusedData;
    var s := PickSuffix(x, t.suffixes, UnusedData(x.claims, t.suffixes));
    var state := StateFor(s, Special, x.nextRev, x.claims);
    SuffixIsNew(x, t);
    OrderlyClaims(x);
    StateIsNew(x, s, Special, x.nextRev);
    FreeSuffix(x, s);
    p := NewPod(s, Special, x.nextRev, state, x.next.image, env, noAddress, false);
    OnlyOperatorBootstraps(env, noAddress, false);
    CreationIs(x, p, Special, x.next.claimSpec);
  }

  // ---- The end of the round ---------------------------------------------------------------

  /** After clearing up: a pod is replaced for an upgrade, the special node is managed, or one that is
      no longer wanted goes with its claims. */
  ghost predicate MovesOn(x: Input, calls: seq<ApiCall>, ok: bool) {
    if exists p :: p in x.pods && Outdated(x, p)
    then ok && exists i :: 0 <= i < |x.pods| && OutdatedFirst(x, i) && Replaces(x, x.pods[i], calls)
    else if x.special.Some? then ok && ManagesSpecial(x, calls)
    else if HasSpecial(x.pods) then exists p :: IsSpecialNode(x.pods, p) && GoneWithClaims(p, x.claims, calls, ok)
    else ok && calls == []
  }

  lemma UpgradeMovesOn(x: Input, t: Tally, st: Summary)
    requires Orderly(x) && Tallied(x, t)
    ensures var up := Upgrade(x, x.next.claimSpec, st, t.ready);
      && (up.Some? <==> exists p :: p in x.pods && Outdated(x, p))
      && (up.Some? ==> MovesOn(x, up.value.calls, up.value.ok) && (forall c :: c in up.value.calls ==> !c.PatchPod?))
      && (up.Some? ==> up.value.status == st.(currentReplicas := st.currentReplicas - 1))
  {
    hide Orderly, Classify, IsUnready, Filter, IsListed, DeleteForUpgrade, Replaces;
    if exists p :: p in x.pods && Outdated(x, p) {
      var i := FirstIndex(x.pods, (p: Pod) => Outdated(x, p));
      NextTurnAt(x.pods, x.nextRev, i);
      ListedIsReady(x.pods[i]);
      ReplacingIs(x, x.pods[i]);
    } else if x.currentRev != x.nextRev {
      NobodyNext(x.pods, x.nextRev);
    }
  }

  lemma ListedIsReady(p: Pod)
    requires IsListed(p)
    ensures p.health.Ready?
  {
  }

  lemma AfterwardsMovesOn(x: Input, t: Tally, st: Summary)
    requires Orderly(x) && Tallied(x, t)
    ensures var rest := AfterTermination(x, t, st, Bootstrap.NoAddress(t.ready), UnusedData(x.claims, t.suffixes));
      && MovesOn(x, rest.calls, rest.ok) && (forall c :: c in rest.calls ==> !c.PatchPod?)
      && rest.status == st.(currentReplicas := st.currentReplicas - (if exists p :: p in x.pods && Outdated(x, p) then 1 else 0))
  {
    hide Orderly, Tallied, Upgrade, ManageSpecial, Outdated, Bootstrap.NoAddress, DeletePodAndClaim, GoneWithClaims, TendsTo,
         NewSpecial, Replaces, UnusedData;
    UpgradeMovesOn(x, t, st);
    OrderlyClaims(x);
    SpecialIs(x, t);
    TallyDraws(x, t);
    if x.special.Some? && t.special.Some? {
      SpecialIsTended(x, x.special.value, st, t.special.value, Bootstrap.NoAddress(t.ready), t.suffixes,
          UnusedData(x.claims, t.suffixes));
    } else if x.special.Some? {
      var p := SpecialIsNew(x, t, x.special.value, st, Bootstrap.NoAddress(t.ready));
    } else if t.special.Some? {
      DeletesWithClaims(t.special.value, x.claims);
    }
  }

  lemma TallyDraws(x: Input, t: Tally)
    requires Tallied(x, t)
    ensures exists d :: d in x.draws && d !in t.suffixes
  {
    hide Classify, Filter;
  }

  /** Every round that finds enough ready pods, each claim in its place and nobody to upgrade: it clears
      up and moves on, and its counters say so. */
  lemma RoundEnds(x: Input) returns (trimmed: Option<Pod>, cleared: seq<ApiCall>, rest: seq<ApiCall>)
    requires Orderly(x) && (forall p :: p in x.pods ==> !Behind(x, p)) && |Filter(x.pods, IsListed)| >= x.replicas
    ensures ClearsUp(x, trimmed, cleared) && MovesOn(x, rest, PlanRound(x).ok)
    ensures Deeds(PlanRound(x).calls) == cleared + rest
    ensures Reports(x, PlanRound(x).status, 0,
                    -One(trimmed, x.currentRev) - (if exists p :: p in x.pods && Outdated(x, p) then 1 else 0),
                        -One(trimmed, x.nextRev))
  {
    hide Orderly, Classify, Collect, PlanRound, FirstToUpgrade, Filter, IsListed, IsUnready, Behind, Terminate,
        AfterTermination,
         Bootstrap.NoAddress, Phased, Deeds, MovesOn, ClearsUp, UnusedData;
    var t := OrderlyTo(x);
    TalliedDraws(x, t);
    NobodyBehind(x, t);
    PhaseThen(x, t);
    var unused := UnusedData(x.claims, t.suffixes);
    var done := Terminate(x, Phased(x, t), t.ready, t.unready, unused);
    trimmed := Terminates(x, t);
    AfterwardsMovesOn(x, t, done.status);
    cleared := done.calls;
    rest := AfterTermination(x, t, done.status, Bootstrap.NoAddress(t.ready), unused).calls;
    NoPatches(cleared + rest);
  }

  /** In particular the special node that is wanted, with nobody to replace: without one, exactly one is
      created; the one that is there is tended to. Nothing else is created. */
  lemma SpecialNodeIsManaged(x: Input) returns (cleared: seq<ApiCall>, rest: seq<ApiCall>, p: Pod)
    requires Orderly(x) && (forall q :: q in x.pods ==> !Behind(x, q) && !Outdated(x, q))
    requires |Filter(x.pods, IsListed)| >= x.replicas && x.special.Some?
    ensures Deeds(PlanRound(x).calls) == cleared + rest && PlanRound(x).ok
    ensures HasSpecial(x.pods) ==> IsSpecialNode(x.pods, p) && TendsTo(x, p, rest)
    ensures !HasSpecial(x.pods) ==> NewSpecial(x, p)
    ensures !HasSpecial(x.pods) ==>
      rest == (if Spare(x, p.suffix) then [] else [CreateClaim(DataId(p.suffix), x.nextRev, x.next.claimSpec)])
          + [CreatePod(p)]
    ensures forall q :: CreatePod(q) in cleared + rest <==> !HasSpecial(x.pods) && q == p
  {
    hide Orderly, Behind, Outdated, IsListed, Filter, PlanRound, Deeds, NewSpecial, TendsTo, IsSpecialNode, HasSpecial,
        ClearsUp;
    var trimmed: Option<Pod>;
    trimmed, cleared, rest := RoundEnds(x);
    ClearingCreatesNobody(x, trimmed, cleared);
    if HasSpecial(x.pods) {
      p :| IsSpecialNode(x.pods, p) && TendsTo(x, p, rest);
      TendingCreatesNobody(x, p, rest);
    } else {
      p :| NewSpecial(x, p) && rest == CreationCalls(x, p, Special, x.next.claimSpec, Spare(x, p.suffix));
      NewSpecialIs(x, p);
      var claim := if Spare(x, p.suffix) then [] else [CreateClaim(DataId(p.suffix), x.nextRev, x.next.claimSpec)];
      assert claim + [] == claim;
    }
  }

  lemma NewSpecialIs(x: Input, p: Pod)
    requires NewSpecial(x, p)
    ensures p.labels.rev == x.nextRev
  {
    hide NewSuffix, NewState;
  }

  lemma ClearingCreatesNobody(x: Input, trimmed: Option<Pod>, calls: seq<ApiCall>)
    requires ClearsUp(x, trimmed, calls)
    ensures forall p :: CreatePod(p) !in calls
  {
    hide CanClear, Idle, Trims, Filter;
  }

  lemma TendingCreatesNobody(x: Input, p: Pod, calls: seq<ApiCall>)
    requires TendsTo(x, p, calls)
    ensures forall q :: CreatePod(q) !in calls
  {
  }
}
