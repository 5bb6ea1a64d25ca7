/** How many ready members a round may take away. */
module Disruption {
  import opened ApiStore
  import opened Status
  import opened PodTemplate
  import opened Round
  import opened RoundFacts
  import opened Sync
  import Protocol
  import Roles

  /** A ready primary pod that is not the special node. */
  predicate Serving(p: Pod) { ReadyPrimary(p) && p.labels.role != Some(Special) }

  function ServingSet(pods: seq<Pod>): set<Suffix> { set p | p in pods && Serving(p) :: p.suffix }

  function Deleted(calls: seq<ApiCall>): set<Suffix> {
    set c | c in calls && c.DeletePod? :: c.suffix
  }

  /** A pod with another role than writer or backup writer is neither reader nor backup. */
  predicate Apart(l: Labels) {
    l.role.Some? && l.role != Some(Writer) && l.role != Some(BackupWriter) ==>
      l.backup != Some(true) && l.reader != Some(true)
  }

  /** The serving pods the calls delete are among the victims. */
  ghost predicate Spares(calls: seq<ApiCall>, pods: seq<Pod>, victims: set<Suffix>) {
    forall s :: s in Deleted(calls) && s in ServingSet(pods) ==> s in victims
  }

  lemma SparesConcat(a: seq<ApiCall>, b: seq<ApiCall>, pods: seq<Pod>, va: set<Suffix>, vb: set<Suffix>)
    requires Spares(a, pods, va) && Spares(b, pods, vb)
    ensures Spares(a + b, pods, va + vb)
  {
    assert Deleted(a + b) == Deleted(a) + Deleted(b) by {
      forall s | s in Deleted(a + b) ensures s in Deleted(a) + Deleted(b) {
        var c :| c in a + b && c.DeletePod? && c.suffix == s;
        assert c in a || c in b;
      }
      assert forall c :: c in a || c in b ==> c in a + b;
    }
  }

  /** Deleting a pod that does not serve spares every serving pod. */
  lemma NotServing(pods: seq<Pod>, p: Pod)
    requires Distinct(pods) && p in pods && !Serving(p)
    ensures p.suffix !in ServingSet(pods)
  {
  }

  lemma FirstStopSpares(p: Pod, t: Tally, x: Input)
    requires ClassifyPod(p, t, x).Stop?
    ensures Deleted(ClassifyPod(p, t, x).calls) <= {p.suffix}
  {
    hide ClassifyPod;
    TurnCalls(p, t, x);
  }

  lemma PatchesSpare(calls: seq<ApiCall>)
    requires forall c :: c in calls ==> c.PatchPod?
    ensures Deleted(calls) == {}
  {
  }

  /** A classification that ends the round deletes at most one pod. */
  lemma {:induction false} StopSpares(pods: seq<Pod>, t: Tally, x: Input) returns (victim: Suffix)
    requires Classify(pods, t, x).Stop?
    ensures Deleted(Classify(pods, t, x).calls) <= {victim}
    decreases pods
  {
    hide ClassifyPod;
    var s := ClassifyPod(pods[0], t, x);
    if s.Stop? {
      FirstStopSpares(pods[0], t, x);
      victim := pods[0].suffix;
    } else {
      victim := StopSpares(pods[1..], s.tally, x);
      Roles.TurnPatches(pods[0], t, x);
      var rest := Classify(pods[1..], s.tally, x).calls;
      assert forall c :: c in s.calls + rest && c.DeletePod? ==> c in rest;
    }
  }

  lemma {:induction false} DeleteAllSpares(unready: seq<Pod>, pods: seq<Pod>)
    requires Distinct(pods) && forall p :: p in unready ==> p in pods && !Serving(p)
    ensures Spares(DeleteAll(unready), pods, {})
  {
    if unready != [] {
      DeleteAllSpares(unready[1..], pods);
      NotServing(pods, unready[0]);
      var one := [DeletePod(unready[0].suffix)];
      SparesConcat(one, DeleteAll(unready[1..]), pods, {}, {});
    }
  }

  lemma {:induction false} FirstPlainIs(ready: seq<Pod>)
    ensures FirstPlain(ready).Some? ==> FirstPlain(ready).value in ready && Plain(FirstPlain(ready).value)
    ensures FirstPlain(ready).None? ==> forall p :: p in ready ==> !Plain(p)
  {
    if ready != [] { FirstPlainIs(ready[1..]); }
  }

  /** What the termination pass takes from the serving pods. */
  lemma TerminateSpares(x: Input, st: Summary, ready: seq<Pod>, unready: seq<Pod>, unused: seq<Suffix>)
    requires Distinct(x.pods) && forall p :: p in unready ==> p in x.pods && !Serving(p)
    ensures Spares(Terminate(x, st, ready, unready, unused).calls, x.pods,
                   if |ready| > x.replicas && FirstPlain(ready).Some? then {FirstPlain(ready).value.suffix} else {})
  {
    DeleteAllSpares(unready, x.pods);
    var excess := if |ready| > x.replicas then FirstPlain(ready) else None;
    if excess.Some? {
      SparesConcat(DeleteAll(unready), [DeletePod(excess.value.suffix)], x.pods, {}, {excess.value.suffix});
      assert [] + [DeletePod(excess.value.suffix)] == [DeletePod(excess.value.suffix)];
    }
  }

  /** Calls that delete no other pod than the victim. */
  predicate OnlyDeletes(calls: seq<ApiCall>, victim: Suffix) {
    forall c :: c in calls && c.DeletePod? ==> c.suffix == victim
  }

  lemma OnlySpares(calls: seq<ApiCall>, victim: Suffix, pods: seq<Pod>)
    requires OnlyDeletes(calls, victim)
    ensures Spares(calls, pods, {victim})
    ensures victim !in ServingSet(pods) ==> Spares(calls, pods, {})
  {
  }

  lemma ManageSpecialDeletes(x: Input, env: seq<EnvVar>, spec: ClaimSpec, st: Summary, special: Option<Pod>,
                             noAddress: bool, used: seq<Suffix>, unused: seq<Suffix>)
    requires exists d :: d in x.draws && d !in used
    ensures var calls := ManageSpecial(x, env, spec, st, special, noAddress, used, unused).calls;
      if special.Some? then OnlyDeletes(calls, special.value.suffix) else forall c :: c in calls ==> !c.DeletePod?
  {
    hide PickSuffix, StateFor, NewPod;
  }

  /** What the rest of the round takes: the pod whose turn it is, or the special node. */
  lemma RestSpares(x: Input, t: Tally, st: Summary, noAddress: bool, unused: seq<Suffix>) returns (victims: set<Suffix>)
    requires exists d :: d in x.draws && d !in t.suffixes
    requires Distinct(x.pods) && (t.special.Some? ==> t.special.value in x.pods && !Serving(t.special.value))
    ensures |victims| <= 1
    ensures Spares(AfterTermination(x, t, st, noAddress, unused).calls, x.pods, victims)
  {
    hide ManageSpecial, Serving, Spares, ServingSet;
    var calls := AfterTermination(x, t, st, noAddress, unused).calls;
    var turn := NextTurn(t.ready, x.nextRev);
    victims := if x.currentRev != x.nextRev && turn.TurnOf? then {turn.pod.suffix} else {};
    if victims != {} {
      OnlySpares(calls, turn.pod.suffix, x.pods);
    } else if t.special.Some? {
      NotServing(x.pods, t.special.value);
      if x.special.Some? {
        ManageSpecialDeletes(x, x.special.value, x.next.claimSpec, st, t.special, noAddress, t.suffixes, unused);
      }
      OnlySpares(calls, t.special.value.suffix, x.pods);
    } else {
      if x.special.Some? {
        ManageSpecialDeletes(x, x.special.value, x.next.claimSpec, st, t.special, noAddress, t.suffixes, unused);
      }
      NoneSpares(calls, x.pods);
    }
  }

  lemma NoneSpares(calls: seq<ApiCall>, pods: seq<Pod>)
    requires forall c :: c in calls ==> !c.DeletePod?
    ensures Spares(calls, pods, {})
  {
  }

  /** The serving pods a round deletes: at most one, or two when more than the desired number are ready. */
  lemma ReconcileSpares(x: Input, t: Tally, st: Summary) returns (victims: set<Suffix>)
    requires exists d :: d in x.draws && d !in t.suffixes
    requires Distinct(x.pods) && (t.special.Some? ==> t.special.value in x.pods && !Serving(t.special.value))
    requires forall p :: p in t.unready ==> p in x.pods && !Serving(p)
    ensures |victims| <= if |t.ready| > x.replicas then 2 else 1
    ensures Spares(Reconcile(x, t, st).calls, x.pods, victims)
  {
    hide Collect, FirstToUpgrade, UpgradeNode, CreateOrWait, Terminate, AfterTermination, FirstPlain,
         Serving, Spares, Distinct, Bootstrap.NoAddress;
    victims := {};
    var col := Collect(x.claims, t.suffixes, t.backups, x.next.claimSpec);
    var up := FirstToUpgrade(t.unready, x.claims);
    if col.operation {
      CollectDeletes(x.claims, t.suffixes, t.backups, x.next.claimSpec);
      NoneSpares(col.calls, x.pods);
    } else if up.Some? {
      UpgradeSpares(x, t.unready);
    } else if |t.ready| < x.replicas {
      CreateSpares(x, st, t.unready, if st.phase.Restoring? then x.currentRev else x.nextRev, ChooseRole(st.members),
                   Bootstrap.NoAddress(t.ready), t.suffixes, col.unused);
    } else {
      victims := EndSpares(x, t, st, col.unused);
    }
  }

  /** mysql_upgrade takes an unready pod. */
  lemma UpgradeSpares(x: Input, unready: seq<Pod>)
    requires Distinct(x.pods) && forall p :: p in unready ==> p in x.pods && !Serving(p)
    requires FirstToUpgrade(unready, x.claims).Some?
    ensures Spares(UpgradeNode(FirstToUpgrade(unready, x.claims).value, x.claims).0, x.pods, {})
  {
    hide FirstToUpgrade, Serving, Distinct;
    var p := FirstToUpgrade(unready, x.claims).value;
    Protocol.FirstToUpgradeIs(unready, x.claims);
    NotServing(x.pods, p);
    OnlySpares(UpgradeNode(p, x.claims).0, p.suffix, x.pods);
  }

  /** So does the creation of a pod, when it replaces one. */
  lemma CreateSpares(x: Input, st: Summary, unready: seq<Pod>, rev: Revision, role: Role, noAddress: bool,
                     used: seq<Suffix>, unused: seq<Suffix>)
    requires exists d :: d in x.draws && d !in used
    requires Distinct(x.pods) && forall p :: p in unready ==> p in x.pods && !Serving(p)
    ensures Spares(CreateOrWait(x, x.next, st, unready, rev, role, noAddress, used, unused).calls, x.pods, {})
  {
    hide UnreadyGate, PickSuffix, StateFor, NewPod, Serving, Distinct;
    GateIs(unready);
    var gate := UnreadyGate(unready);
    var calls := CreateOrWait(x, x.next, st, unready, rev, role, noAddress, used, unused).calls;
    if gate.Replace? {
      NotServing(x.pods, gate.pod);
      OnlySpares(calls, gate.pod.suffix, x.pods);
    } else {
      NoneSpares(calls, x.pods);
    }
  }

  /** The end of the round: the termination pass takes one, the rest of the round another. */
  lemma EndSpares(x: Input, t: Tally, st: Summary, unused: seq<Suffix>) returns (victims: set<Suffix>)
    requires exists d :: d in x.draws && d !in t.suffixes
    requires Distinct(x.pods) && (t.special.Some? ==> t.special.value in x.pods && !Serving(t.special.value))
    requires forall p :: p in t.unready ==> p in x.pods && !Serving(p)
    ensures |victims| <= if |t.ready| > x.replicas then 2 else 1
    ensures var done := Terminate(x, st, t.ready, t.unready, unused);
      Spares(done.calls + AfterTermination(x, t, done.status, Bootstrap.NoAddress(t.ready), unused).calls, x.pods, victims)
  {
    hide Terminate, AfterTermination, FirstPlain, Serving, Spares, Distinct, Bootstrap.NoAddress;
    var done := Terminate(x, st, t.ready, t.unready, unused);
    TerminateSpares(x, st, t.ready, t.unready, unused);
    var first := if |t.ready| > x.replicas && FirstPlain(t.ready).Some? then {FirstPlain(t.ready).value.suffix} else {};
    var more := RestSpares(x, t, done.status, Bootstrap.NoAddress(t.ready), unused);
    SparesConcat(done.calls, AfterTermination(x, t, done.status, Bootstrap.NoAddress(t.ready), unused).calls, x.pods,
        first, more);
    victims := first + more;
  }

  lemma {:induction false} GateIs(unready: seq<Pod>)
    ensures UnreadyGate(unready).Replace? ==> UnreadyGate(unready).pod in unready && UnreadyGate(unready).pod.health.Failed?
    ensures UnreadyGate(unready).Pass? <==> forall p :: p in unready ==> p.health.Ready? && !p.terminating
  {
    if unready != [] {
      GateIs(unready[1..]);
      assert unready[0] in unready;
      assert forall p :: p in unready <==> p == unready[0] || p in unready[1..];
    }
  }

  lemma SettleSpares(x: Input, t: Tally) returns (victims: set<Suffix>)
    requires exists d :: d in x.draws && d !in t.suffixes
    requires Distinct(x.pods) && (t.special.Some? ==> t.special.value in x.pods && !Serving(t.special.value))
    requires forall p :: p in t.unready ==> p in x.pods && !Serving(p)
    ensures |victims| <= if |t.ready| > x.replicas then 2 else 1
    ensures Spares(Settle(x, t).calls, x.pods, victims)
  {
    var m := t.status.members;
    var l := SetLabels(t.ready, m);
    Roles.SetLabelsArePatches(t.ready, m);
    PatchesSpare(l.calls);
    victims := {};
    if l.ok && !t.terminating && !MajorityLost(|t.ready|, |t.unready|) {
      var st := Phased(x, t);
      victims := ReconcileSpares(x, t, st);
      SparesConcat(l.calls, Reconcile(x, t, st).calls, x.pods, {}, victims);
      assert {} + victims == victims;
    }
  }

  /** The tally's lists are serving pods and others, as their names say. */
  lemma TallyServes(x: Input)
    requires Classify(x.pods, Start(x), x).Go?
    ensures var t := Classify(x.pods, Start(x), x).tally;
      && t.ready == Filter(x.pods, IsListed)
      && (forall p :: p in t.unready ==> p in x.pods && !Serving(p))
      && (t.special.Some? ==> t.special.value in x.pods && !Serving(t.special.value))
  {
    ClosedLists(x.pods, Start(x), x);
    InFilter(x.pods, IsUnready);
    SpecialListed(x.pods, Start(x), x);
    assert [] + Filter(x.pods, IsListed) == Filter(x.pods, IsListed);
  }

  /** Every return path of a round takes at most one serving pod, and a second one only when more
      than the desired number are ready. */
  lemma RoundSpares(x: Input) returns (victims: set<Suffix>)
    requires CanDraw(x) && Distinct(x.pods)
    ensures |victims| <= if |Filter(x.pods, IsListed)| > x.replicas then 2 else 1
    ensures Spares(PlanRound(x).calls, x.pods, victims)
  {
    var o := Orphan(x.pods, x.claims);
    var s := Classify(x.pods, Start(x), x);
    if o.Some? {
      victims := {o.value.suffix};
    } else if s.Stop? {
      var victim := StopSpares(x.pods, Start(x), x);
      victims := {victim};
    } else {
      ClassifySuffixes(x.pods, Start(x), x);
      TallyServes(x);
      victims := SettleSpares(x, s.tally);
      Roles.ClassifyPatches(x.pods, Start(x), x);
      PatchesSpare(s.calls);
      SparesConcat(s.calls, Settle(x, s.tally).calls, x.pods, {}, victims);
      assert {} + victims == victims;
    }
  }

  lemma {:induction false} SuffixCount(pods: seq<Pod>, s: set<Suffix>)
    requires Distinct(pods) && forall p :: p in pods ==> p.suffix in s
    ensures |pods| <= |s|
  {
    if pods != [] {
      assert forall p :: p in pods[1..] ==> p.suffix != pods[0].suffix;
      SuffixCount(pods[1..], s - {pods[0].suffix});
    }
  }

  /** Of the ready primary pods of the snapshot, a round leaves at least all but one of the desired
      number in place, whatever prefix of its calls the API accepts. */
  lemma DisruptionBound(x: Input, issued: nat)
    requires CanDraw(x) && Distinct(x.pods) && issued <= |PlanRound(x).calls|
    requires forall p :: p in x.pods ==> Apart(p.labels)
    ensures var ps := ServingSet(x.pods); var gone := Deleted(PlanRound(x).calls[..issued]);
      |ps - gone| >= (if |ps| < x.replicas then |ps| else x.replicas) - 1
  {
    hide PlanRound;
    var ps := ServingSet(x.pods);
    var victims := RoundSpares(x);
    var gone := Deleted(PlanRound(x).calls[..issued]);
    assert ps - victims <= ps - gone by {
      forall s | s in ps && s in gone ensures s in victims {
        var c :| c in PlanRound(x).calls[..issued] && c.DeletePod? && c.suffix == s;
        assert c in PlanRound(x).calls;
      }
    }
    SetFacts(ps, victims);
    SubsetSize(ps - victims, ps - gone);
    InFilter(x.pods, IsListed);
    FilterDistinct(x.pods, IsListed);
    SuffixCount(Filter(x.pods, IsListed), ps);
  }

  lemma SetFacts(a: set<Suffix>, b: set<Suffix>)
    ensures |a - b| >= |a| - |b|
  {
    assert a == (a - b) + (a * b);
    SubsetSize(a * b, b);
  }

  lemma SubsetSize(a: set<Suffix>, b: set<Suffix>)
    requires a <= b
    ensures |a| <= |b|
  {
    assert b == a + (b - a);
  }
}
