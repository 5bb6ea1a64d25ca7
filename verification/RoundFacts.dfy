/** The classification loop in closed form: which pods it lists, counts and patches, for any
    snapshot. The properties of rounds in the other modules rest on these facts. */
module RoundFacts {
  import opened ApiStore
  import opened Status
  import opened Round

  predicate ReadyPrimary(p: Pod) { !p.terminating && p.health.Ready? && p.wsrep.Primary? }

  predicate HoldsRole(p: Pod) { p.labels.role == Some(Writer) || p.labels.role == Some(BackupWriter) }

  predicate IsListed(p: Pod) {
    ReadyPrimary(p) && (HoldsRole(p) || IsBackup(p) || p.labels.reader == Some(true))
  }

  predicate IsUnready(p: Pod) {
    !p.terminating && !(p.health.Ready? && p.wsrep.Primary?) && p.labels.role != Some(Special)
  }

  predicate IsLive(p: Pod) { !p.terminating }

  predicate IsLiveBackup(p: Pod) { !p.terminating && IsBackup(p) }

  predicate ReadySpecial(p: Pod) { ReadyPrimary(p) && p.labels.role == Some(Special) }

  function Filter(pods: seq<Pod>, f: Pod -> bool): seq<Pod> {
    if pods == [] then [] else (if f(pods[0]) then [pods[0]] else []) + Filter(pods[1..], f)
  }

  lemma {:induction false} InFilter(pods: seq<Pod>, f: Pod -> bool)
    ensures forall p :: p in Filter(pods, f) <==> p in pods && f(p)
    ensures |Filter(pods, f)| <= |pods|
  {
    if pods != [] {
      InFilter(pods[1..], f);
      assert forall p :: p in pods <==> p == pods[0] || p in pods[1..];
    }
  }

  lemma {:induction false} FilterDistinct(pods: seq<Pod>, f: Pod -> bool)
    requires Distinct(pods)
    ensures Distinct(Filter(pods, f))
  {
    if pods != [] {
      FilterDistinct(pods[1..], f);
      InFilter(pods[1..], f);
      var rest := Filter(pods[1..], f);
      forall j | 0 <= j < |rest| ensures rest[j].suffix != pods[0].suffix {
        assert rest[j] in pods[1..];
      }
    }
  }

  lemma {:induction false} InSuffixes(pods: seq<Pod>)
    ensures |SuffixesOf(pods)| == |pods|
    ensures forall p :: p in pods ==> p.suffix in SuffixesOf(pods)
    ensures forall s :: s in SuffixesOf(pods) ==> exists p :: p in pods && p.suffix == s
  {
    if pods != [] {
      InSuffixes(pods[1..]);
      forall s | s in SuffixesOf(pods) ensures exists p :: p in pods && p.suffix == s {
        if s == pods[0].suffix {
          assert pods[0] in pods;
        } else {
          var p :| p in pods[1..] && p.suffix == s;
          assert p in pods;
        }
      }
    }
  }

  /** The first pod satisfying f. */
  function First(pods: seq<Pod>, f: Pod -> bool): Option<Suffix> {
    if pods == [] then None else if f(pods[0]) then Some(pods[0].suffix) else First(pods[1..], f)
  }

  predicate ReadyWriter(p: Pod) { ReadyPrimary(p) && p.labels.role == Some(Writer) }

  predicate ReadyBackupWriter(p: Pod) { ReadyPrimary(p) && p.labels.role == Some(BackupWriter) }

  predicate ReadyBackup(p: Pod) { ReadyPrimary(p) && IsBackup(p) }

  function Else(a: Option<Suffix>, b: Option<Suffix>): Option<Suffix> { if a.Some? then a else b }

  /** What a role label adds to the tally, when the pod may stay. */
  lemma RoleFacts(p: Pod, t: Tally)
    requires ByRole(p, t).Joined?
    ensures var r := ByRole(p, t);
      && (r.joins <==> HoldsRole(p))
      && r.tally == t.(special := if p.labels.role == Some(Special) then Some(p) else t.special, status := r.tally.status)
      && (p.labels.role.None? || HoldsRole(p) || p.labels.role == Some(Special))
  {
  }

  lemma RoleMembers(p: Pod, t: Tally)
    requires ByRole(p, t).Joined?
    ensures var m := t.status.members; var r := ByRole(p, t).tally.status; var role := p.labels.role;
      && r == t.status.(replicas := r.replicas, members := r.members)
      && r.replicas == t.status.replicas - (if role == Some(Special) then 1 else 0)
      && r.members == m.(writer := Else(m.writer, if role == Some(Writer) then Some(p.suffix) else None),
                         backupWriter := Else(m.backupWriter, if role == Some(BackupWriter) then Some(p.suffix) else None),
                         special := Else(m.special, if role == Some(Special) then Some(p.suffix) else None))
      && (role == Some(Special) ==> m.special.None?)
  {
  }

  /** One turn of the loop, when the round goes on after it. */
  lemma TurnFacts(p: Pod, t: Tally, x: Input)
    requires ClassifyPod(p, t, x).Go?
    ensures var t1 := ClassifyPod(p, t, x).tally;
      && t1.ready == t.ready + (if IsListed(p) then [p] else [])
      && t1.unready == t.unready + (if IsUnready(p) then [p] else [])
      && t1.suffixes == t.suffixes + (if IsLive(p) then [p.suffix] else [])
      && t1.backups == t.backups + (if IsLiveBackup(p) then [p.suffix] else [])
      && t1.terminating == (t.terminating || p.terminating)
      && t1.special == if IsLive(p) && p.labels.role == Some(Special) then Some(p) else t.special
  {
    hide DeletePodAndClaim, Patch2, ByRole;
    if ReadyPrimary(p) {
      RoleFacts(p, t.(status := t.status.(replicas := t.status.replicas + 1)));
    }
  }

  lemma TurnMembers(p: Pod, t: Tally, x: Input)
    requires ClassifyPod(p, t, x).Go?
    ensures var m := t.status.members; var m1 := ClassifyPod(p, t, x).tally.status.members;
      && m1.writer == Else(m.writer, if ReadyWriter(p) then Some(p.suffix) else None)
      && m1.backupWriter == Else(m.backupWriter, if ReadyBackupWriter(p) then Some(p.suffix) else None)
      && m1.backup == Else(m.backup, if ReadyBackup(p) then Some(p.suffix) else None)
      && m1.special == Else(m.special, if ReadySpecial(p) then Some(p.suffix) else None)
      && (ReadySpecial(p) ==> m.special.None?)
      && (ReadyBackup(p) ==> m.backup.None?)
  {
    hide DeletePodAndClaim, Patch2, ByRole;
    if ReadyPrimary(p) {
      RoleMembers(p, t.(status := t.status.(replicas := t.status.replicas + 1)));
    }
  }

  /** The calls of one turn: at most a demotion, then, when the round ends, at most a deletion. */
  lemma TurnCalls(p: Pod, t: Tally, x: Input)
    ensures var s := ClassifyPod(p, t, x);
      var demotion, deletion := [Patch2(p, RemoveRole, AddReader)], DeletePodAndClaim(p, x.claims).0;
      s.calls == [] || s.calls == demotion || (s.Stop? && (s.calls == deletion || s.calls == demotion + deletion))
  {
    hide DeletePodAndClaim, Patch2, IsBackup, Count;
    var deletion := DeletePodAndClaim(p, x.claims).0;
    assert [] + deletion == deletion;
  }

  lemma {:induction false} ClosedLists(pods: seq<Pod>, t: Tally, x: Input)
    requires Classify(pods, t, x).Go?
    ensures Classify(pods, t, x).tally.ready == t.ready + Filter(pods, IsListed)
    ensures Classify(pods, t, x).tally.unready == t.unready + Filter(pods, IsUnready)
    decreases pods
  {
    hide ClassifyPod, IsListed, IsUnready;
    if pods != [] {
      var t1 := ClassifyPod(pods[0], t, x).tally;
      TurnFacts(pods[0], t, x);
      ClosedLists(pods[1..], t1, x);
      Regroup(t.ready, if IsListed(pods[0]) then [pods[0]] else [], Filter(pods[1..], IsListed));
      Regroup(t.unready, if IsUnready(pods[0]) then [pods[0]] else [], Filter(pods[1..], IsUnready));
    }
  }

  lemma FilterSuffixes(pods: seq<Pod>, f: Pod -> bool)
    requires pods != []
    ensures SuffixesOf(Filter(pods, f)) ==
      (if f(pods[0]) then [pods[0].suffix] else []) + SuffixesOf(Filter(pods[1..], f))
  {
    var rest := Filter(pods[1..], f);
    if f(pods[0]) {
      assert ([pods[0]] + rest)[1..] == rest;
    } else {
      assert Filter(pods, f) == rest;
    }
  }

  lemma {:induction false} ClosedSuffixes(pods: seq<Pod>, t: Tally, x: Input)
    requires Classify(pods, t, x).Go?
    ensures Classify(pods, t, x).tally.suffixes == t.suffixes + SuffixesOf(Filter(pods, IsLive))
    decreases pods
  {
    hide ClassifyPod, IsLive;
    if pods != [] {
      TurnFacts(pods[0], t, x);
      ClosedSuffixes(pods[1..], ClassifyPod(pods[0], t, x).tally, x);
      FilterSuffixes(pods, IsLive);
      Regroup(t.suffixes, if IsLive(pods[0]) then [pods[0].suffix] else [], SuffixesOf(Filter(pods[1..], IsLive)));
    }
  }

  lemma {:induction false} ClosedBackups(pods: seq<Pod>, t: Tally, x: Input)
    requires Classify(pods, t, x).Go?
    ensures Classify(pods, t, x).tally.backups == t.backups + SuffixesOf(Filter(pods, IsLiveBackup))
    decreases pods
  {
    hide ClassifyPod, IsLiveBackup;
    if pods != [] {
      TurnFacts(pods[0], t, x);
      ClosedBackups(pods[1..], ClassifyPod(pods[0], t, x).tally, x);
      FilterSuffixes(pods, IsLiveBackup);
      Regroup(t.backups, if IsLiveBackup(pods[0]) then [pods[0].suffix] else [], SuffixesOf(Filter(pods[1..], IsLiveBackup)));
    }
  }

  lemma {:induction false} ClosedTerminating(pods: seq<Pod>, t: Tally, x: Input)
    requires Classify(pods, t, x).Go?
    ensures Classify(pods, t, x).tally.terminating <==> t.terminating || exists p :: p in pods && p.terminating
    decreases pods
  {
    hide ClassifyPod;
    if pods != [] {
      TurnFacts(pods[0], t, x);
      ClosedTerminating(pods[1..], ClassifyPod(pods[0], t, x).tally, x);
      assert forall q :: q in pods <==> q == pods[0] || q in pods[1..];
    }
  }

  lemma {:induction false} ClosedMembers(pods: seq<Pod>, t: Tally, x: Input)
    requires Classify(pods, t, x).Go?
    ensures var m := t.status.members; var m1 := Classify(pods, t, x).tally.status.members;
      && m1.writer == Else(m.writer, First(pods, ReadyWriter))
      && m1.backupWriter == Else(m.backupWriter, First(pods, ReadyBackupWriter))
      && m1.backup == Else(m.backup, First(pods, ReadyBackup))
      && m1.special == Else(m.special, First(pods, ReadySpecial))
    decreases pods
  {
    hide ClassifyPod, ReadyWriter, ReadyBackupWriter, ReadyBackup, ReadySpecial;
    if pods != [] {
      TurnMembers(pods[0], t, x);
      ClosedMembers(pods[1..], ClassifyPod(pods[0], t, x).tally, x);
    }
  }

  /** The special pod found is one of the list. */
  lemma {:induction false} SpecialListed(pods: seq<Pod>, t: Tally, x: Input)
    requires Classify(pods, t, x).Go?
    ensures var sp := Classify(pods, t, x).tally.special;
      sp == t.special || (sp.Some? && sp.value in pods && IsLive(sp.value) && sp.value.labels.role == Some(Special))
    decreases pods
  {
    hide ClassifyPod;
    if pods != [] {
      TurnFacts(pods[0], t, x);
      SpecialListed(pods[1..], ClassifyPod(pods[0], t, x).tally, x);
    }
  }

  // ---- Claims -----------------------------------------------------------------------------

  lemma {:induction false} FindClaimIs(claims: seq<Claim>, id: ClaimId)
    ensures var f := FindClaim(claims, id);
      && (f.Some? ==> f.value in claims && f.value.id == id)
      && (f.None? ==> forall c :: c in claims ==> c.id != id)
  {
    if claims != [] && claims[0].id != id {
      FindClaimIs(claims[1..], id);
    }
  }

  /** The suffixes, in order, of the data claims that no listed suffix uses. */
  function UnusedData(claims: seq<Claim>, used: seq<Suffix>): seq<Suffix> {
    if claims == [] then []
    else
      var first := if !claims[0].id.backup && claims[0].id.suffix !in used then [claims[0].id.suffix] else [];
      first + UnusedData(claims[1..], used)
  }

  /** When the collection pass reports no operation it has issued nothing and returns exactly the
      unused data claims, in order; every one of them matches the spec, every backup claim is used
      and no claim is terminating. */
  lemma {:induction false} CollectsExactly(claims: seq<Claim>, used: seq<Suffix>, backups: seq<Suffix>, spec: ClaimSpec)
    ensures var col := Collect(claims, used, backups, spec);
      && (!col.operation <==> forall c :: c in claims ==>
            !c.terminating && (if c.id.backup then c.id.suffix in backups else c.id.suffix in used || c.spec == spec))
      && (!col.operation ==> col.calls == [] && col.unused == UnusedData(claims, used))
  {
    if claims != [] {
      CollectsExactly(claims[1..], used, backups, spec);
      assert claims[0] in claims;
      assert forall c :: c in claims <==> c == claims[0] || c in claims[1..];
    }
  }

  lemma {:induction false} UnusedAreUnused(claims: seq<Claim>, used: seq<Suffix>)
    ensures forall s :: s in UnusedData(claims, used) <==>
      s !in used && exists c :: c in claims && c.id == DataId(s)
  {
    if claims != [] {
      UnusedAreUnused(claims[1..], used);
      forall s ensures s in UnusedData(claims, used) <==> s !in used && exists c :: c in claims && c.id == DataId(s) {
        if claims[0].id == DataId(s) {
          assert claims[0] in claims;
        }
        if exists c :: c in claims[1..] && c.id == DataId(s) {
          var c :| c in claims[1..] && c.id == DataId(s);
          assert c in claims;
        }
      }
    }
  }

  /** A claim the collection pass will not pass over. */
  predicate Offends(c: Claim, used: seq<Suffix>, backups: seq<Suffix>, spec: ClaimSpec) {
    c.terminating || (if c.id.backup then c.id.suffix !in backups else c.id.suffix !in used && c.spec != spec)
  }

  /** The pass ends at an offending claim, deleting it unless it is on its way out already. */
  lemma {:induction false} CollectOffender(claims: seq<Claim>, used: seq<Suffix>, backups: seq<Suffix>, spec: ClaimSpec)
    ensures var col := Collect(claims, used, backups, spec);
      && (col.operation <==> exists c :: c in claims && Offends(c, used, backups, spec))
      && (col.operation ==> exists c ::
            c in claims && Offends(c, used, backups, spec) && col.calls == if c.terminating then [] else [DeleteClaim(c.id)])
  {
    if claims != [] {
      CollectOffender(claims[1..], used, backups, spec);
      assert claims[0] in claims;
      assert forall c :: c in claims <==> c == claims[0] || c in claims[1..];
    }
  }

  /** What the pass deletes, when it deletes: one claim, live, that nobody listed uses. */
  lemma {:induction false} CollectDeletes(claims: seq<Claim>, used: seq<Suffix>, backups: seq<Suffix>, spec: ClaimSpec)
    ensures var col := Collect(claims, used, backups, spec);
      col.calls == [] ||
      (col.operation && exists c ::
         c in claims && col.calls == [DeleteClaim(c.id)] &&
         (if c.id.backup then c.id.suffix !in backups else c.id.suffix !in used))
  {
    if claims != [] {
      CollectDeletes(claims[1..], used, backups, spec);
      var col := Collect(claims, used, backups, spec);
      if col.calls != [] {
        if col.calls == [DeleteClaim(claims[0].id)] && col != Collect(claims[1..], used, backups, spec) {
          assert claims[0] in claims;
        } else {
          var c :| c in claims[1..] && Collect(claims[1..], used, backups, spec).calls == [DeleteClaim(c.id)] &&
            (if c.id.backup then c.id.suffix !in backups else c.id.suffix !in used);
          assert c in claims;
        }
      }
    }
  }

  lemma {:induction false} FreshIsFresh(draws: seq<Suffix>, existing: seq<Suffix>)
    requires exists d :: d in draws && d !in existing
    ensures FirstFresh(draws, existing) !in existing && FirstFresh(draws, existing) in draws
  {
    if draws[0] in existing {
      FreshIsFresh(draws[1..], existing);
    }
  }

  /** The suffix of a created pod is nobody's; with no unused claim on offer, it has no data claim. */
  lemma PickIsFresh(x: Input, claims: seq<Claim>, used: seq<Suffix>)
    requires exists d :: d in x.draws && d !in used
    ensures var s := PickSuffix(x, used, UnusedData(claims, used));
      s !in used && (UnusedData(claims, used) == [] ==> forall c :: c in claims ==> c.id != DataId(s))
  {
    FreshIsFresh(x.draws, used);
    UnusedAreUnused(claims, used);
    var unused := UnusedData(claims, used);
    if unused != [] {
      assert unused[0] in unused;
    } else {
      assert PickSuffix(x, used, unused) !in unused;
    }
  }

  lemma {:induction false} OrphanIs(pods: seq<Pod>, claims: seq<Claim>)
    ensures Orphan(pods, claims).Some? ==> Orphan(pods, claims).value in pods
    ensures Orphan(pods, claims).None? <==> forall p :: p in pods && Healthy(p) ==> !LacksClaims(p, claims)
  {
    if pods != [] {
      OrphanIs(pods[1..], claims);
      assert pods[0] in pods;
      assert forall p :: p in pods <==> p == pods[0] || p in pods[1..];
    }
  }
}
