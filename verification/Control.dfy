/** The round as the operator runs it: loops over the snapshot, a status updated field by field, and
    calls issued one after the other, the first rejected one ending the round in an error. Each
    method is proved to do what module Round says, as far as the API lets it. */
module Control {
  import opened ApiStore
  import opened Status
  import opened PodTemplate
  import opened Round
  import opened RoundFacts
  import opened Sync
  import Bootstrap
  import Phases
  import Roles

  /** What a method that plans `calls` leaves in the log when the API accepts b0 more calls: all of
      them, or as many as are accepted, and then the method fails. */
  predicate Ran(l0: seq<ApiCall>, b0: nat, l1: seq<ApiCall>, b1: nat, calls: seq<ApiCall>, planned: bool, ok: bool) {
    if |calls| <= b0 then l1 == l0 + calls && b1 == b0 - |calls| && ok == planned
    else l1 == l0 + calls[..b0] && b1 == 0 && !ok
  }

  /** The calls issued when the API accepts so many: a prefix of those planned. */
  function Issued(calls: seq<ApiCall>, accepted: nat): (issued: seq<ApiCall>)
    ensures issued <= calls && |issued| == if |calls| <= accepted then |calls| else accepted
  {
    if |calls| <= accepted then calls else calls[..accepted]
  }

  lemma RanThen(l0: seq<ApiCall>, b0: nat, l1: seq<ApiCall>, b1: nat, l2: seq<ApiCall>, b2: nat,
                c1: seq<ApiCall>, c2: seq<ApiCall>, planned: bool, ok: bool)
    requires Ran(l0, b0, l1, b1, c1, true, true) && Ran(l1, b1, l2, b2, c2, planned, ok)
    ensures Ran(l0, b0, l2, b2, c1 + c2, planned, ok)
  {
    Regroup(l0, c1, c2);
    if |c1 + c2| > b0 {
      assert (c1 + c2)[..b0] == c1 + c2[..b1];
      Regroup(l0, c1, c2[..b1]);
    }
  }

  lemma RanOut(l0: seq<ApiCall>, b0: nat, l1: seq<ApiCall>, b1: nat, c1: seq<ApiCall>, c2: seq<ApiCall>, planned: bool)
    requires Ran(l0, b0, l1, b1, c1, true, false)
    ensures Ran(l0, b0, l1, b1, c1 + c2, planned, false)
  {
    assert (c1 + c2)[..b0] == c1[..b0];
  }

  lemma RanNone(l: seq<ApiCall>, b: nat, planned: bool)
    ensures Ran(l, b, l, b, [], planned, planned)
  {
    assert l + [] == l;
  }

  function ActAll(l: Labels, actions: seq<PatchAction>): Labels
    decreases actions
  {
    if actions == [] then l else ActAll(Act(l, actions[0]), actions[1..])
  }

  lemma ActTwo(l: Labels, a: PatchAction, b: PatchAction)
    ensures ActAll(l, [a]) == Act(l, a) && ActAll(l, [a, b]) == Act(Act(l, a), b)
  {
    ActOne(l, a);
    ActOne(Act(l, a), b);
    assert [a, b][1..] == [b];
  }

  lemma ActOne(l: Labels, a: PatchAction)
    ensures ActAll(l, [a]) == Act(l, a)
  {
    hide Act;
    assert [a][1..] == [];
    assert ActAll(Act(l, a), []) == Act(l, a);
  }

  /** The ready and unready lists of the members play no part in the labelling. */
  lemma {:induction false} OthersIgnoreLists(ready: seq<Pod>, m: Members, a: seq<Suffix>, b: seq<Suffix>)
    ensures var l := OthersToBackupWriter(ready, m);
      OthersToBackupWriter(ready, m.(ready := a, unready := b)) == l.(members := l.members.(ready := a, unready := b))
    decreases ready
  {
    if ready != [] {
      OthersIgnoreLists(ready[1..],
          if m.writer != Some(ready[0].suffix) then m.(backupWriter := Some(ready[0].suffix)) else m, a, b);
    }
  }

  lemma LabelsIgnoreLists(ready: seq<Pod>, m: Members, a: seq<Suffix>, b: seq<Suffix>)
    ensures var l := SetLabels(ready, m);
      SetLabels(ready, m.(ready := a, unready := b)) == l.(members := l.members.(ready := a, unready := b))
  {
    hide DropReader, Candidate, LastBackup, OthersToBackupWriter;
    OthersIgnoreLists(ready, m, a, b);
  }

  class GaleraControl {
    /** The calls the API has accepted, and how many more it will. */
    var log: seq<ApiCall>
    var budget: nat

    /** The status of the round. */
    var status: Summary

    /** The variables of the classification loop. */
    var ready: seq<Pod>
    var unready: seq<Pod>
    var special: Option<Pod>
    var suffixes: seq<Suffix>
    var backups: seq<Suffix>
    var terminating: bool

    constructor (budget: nat)
      ensures log == [] && this.budget == budget
    {
      log, this.budget := [], budget;
      status := Summary(Unset, [], 0, 0, 0, NOBODY);
      ready, unready, special, suffixes, backups, terminating := [], [], None, [], [], false;
    }

    function Tallied(): Tally
      reads this
    {
      Tally(status, ready, unready, special, suffixes, backups, terminating)
    }

    method Issue(c: ApiCall) returns (ok: bool)
      modifies `log, `budget
      ensures Ran(old(log), old(budget), log, budget, [c], true, ok)
    {
      ok := budget > 0;
      if ok {
        log := log + [c];
        budget := budget - 1;
      } else {
        assert log + [c][..0] == log;
      }
    }

    // ---- Pod control ----------------------------------------------------------------------

    /** PatchPodLabels: the actions change the label map one after the other; one call replaces it. */
    method PatchPodLabels(p: Pod, actions: seq<PatchAction>) returns (ok: bool)
      modifies `log, `budget
      ensures Ran(old(log), old(budget), log, budget, [PatchPod(p.suffix, ActAll(p.labels, actions))], true, ok)
    {
      var m := p.labels;
      for i := 0 to |actions|
        invariant ActAll(m, actions[i..]) == ActAll(p.labels, actions)
      {
        assert actions[i..][1..] == actions[i + 1..];
        match actions[i] {
          case AddReader => m := m.(reader := Some(true));
          case RemoveReader => m := m.(reader := Some(false));
          case AddWriter => m := m.(role := Some(Writer));
          case AddBackupWriter => m := m.(role := Some(BackupWriter));
          case RemoveRole => m := m.(role := None);
        }
      }
      ok := Issue(PatchPod(p.suffix, m));
    }

    method Patching(p: Pod, a: PatchAction, b: PatchAction) returns (ok: bool)
      modifies `log, `budget
      ensures Ran(old(log), old(budget), log, budget, [Patch2(p, a, b)], true, ok)
    {
      ActTwo(p.labels, a, b);
      ok := PatchPodLabels(p, [a, b]);
    }

    /** ForceDeletePodAndClaim. */
    method ForceDeletePodAndClaim(p: Pod, claims: seq<Claim>) returns (ok: bool)
      modifies `log, `budget
      ensures var (calls, planned) := DeletePodAndClaim(p, claims);
        Ran(old(log), old(budget), log, budget, calls, planned, ok)
    {
      var (calls, planned) := DeletePodAndClaim(p, claims);
      ghost var done: seq<ApiCall> := [];
      RanNone(log, budget, true);
      if p.labels.role == Some(Restore) || p.labels.role == Some(Backup) {
        if FindClaim(claims, BackupId(p.suffix)).None? {
          return false;
        }
        ok := Issue(DeleteClaim(BackupId(p.suffix)));
        done := [DeleteClaim(BackupId(p.suffix))];
        if !ok {
          RanOut(old(log), old(budget), log, budget, done, calls[1..], planned);
          assert calls == done + calls[1..];
          return;
        }
      }
      if FindClaim(claims, DataId(p.suffix)).None? {
        assert calls == done;
        return false;
      }
      ok := IssueTwo(DeleteClaim(DataId(p.suffix)), DeletePod(p.suffix), done, old(log), old(budget));
    }

    /** Two calls after others that were accepted. */
    method IssueTwo(a: ApiCall, b: ApiCall, ghost done: seq<ApiCall>, ghost l0: seq<ApiCall>,
        ghost b0: nat) returns (ok: bool)
      requires Ran(l0, b0, log, budget, done, true, true)
      modifies `log, `budget
      ensures Ran(l0, b0, log, budget, done + [a, b], true, ok)
    {
      hide Ran;
      ghost var l1, b1 := log, budget;
      ok := Issue(a);
      assert [a, b] == [a] + [b];
      Regroup(done, [a], [b]);
      RanThen(l0, b0, l1, b1, log, budget, done, [a], true, ok);
      if !ok {
        RanOut(l0, b0, log, budget, done + [a], [b], true);
        return;
      }
      ghost var l2, b2 := log, budget;
      ok := Issue(b);
      RanThen(l0, b0, l2, b2, log, budget, done + [a], [b], true, ok);
    }

    /** DeleteSyncedPodForUpgrade. */
    method DeleteSyncedPodForUpgrade(p: Pod, claims: seq<Claim>, spec: ClaimSpec) returns (ok: bool)
      modifies `log, `budget
      ensures var (calls, planned) := DeleteForUpgrade(p, claims, spec);
        Ran(old(log), old(budget), log, budget, calls, planned, ok)
    {
      var claim := FindClaim(claims, DataId(p.suffix));
      RanNone(log, budget, false);
      RanNone(log, budget, true);
      if claim.None? {
        return false;
      }
      if claim.value.spec != spec {
        ok := IssueTwo(DeleteClaim(claim.value.id), DeletePod(p.suffix), [], log, budget);
        assert [] + [DeleteClaim(claim.value.id), DeletePod(p.suffix)] == [DeleteClaim(claim.value.id), DeletePod(p.suffix)];
      } else {
        ok := Issue(DeletePod(p.suffix));
      }
    }

    /** createPersistentVolumeClaim, or the one for backups: a claim that is there is an error exactly
        when it is terminating. */
    method CreateVolumeClaim(id: ClaimId, rev: Revision, spec: ClaimSpec, claims: seq<Claim>) returns (ok: bool)
      modifies `log, `budget
      ensures (exists c :: c in claims && c.id == id) ==>
        exists c :: c in claims && c.id == id && (ok <==> !c.terminating)
      ensures var (calls, planned) := EnsureClaim(id, rev, spec, claims);
        Ran(old(log), old(budget), log, budget, calls, planned, ok)
    {
      var existing := FindClaim(claims, id);
      RanNone(log, budget, false);
      RanNone(log, budget, true);
      FindClaimIs(claims, id);
      if existing.None? {
        ok := Issue(CreateClaim(id, rev, spec));
      } else {
        ok := !existing.value.terminating;
      }
    }

    /** CreatePodAndClaim: the claims first, then the pod. */
    method CreatePodWithClaims(p: Pod, role: Role, spec: ClaimSpec, claims: seq<Claim>) returns (ok: bool)
      modifies `log, `budget
      ensures var (calls, planned) := CreatePodAndClaim(p, role, spec, claims);
        Ran(old(log), old(budget), log, budget, calls, planned, ok)
    {
      hide EnsureClaim, Ran;
      ghost var (c1, ok1) := EnsureClaim(DataId(p.suffix), p.labels.rev, spec, claims);
      ghost var (c2, ok2) := if role.Backup? then EnsureClaim(BackupId(p.suffix), p.labels.rev, spec, claims) else ([], true);
      ghost var made := [CreatePod(p)];
      ok := CreateVolumeClaim(DataId(p.suffix), p.labels.rev, spec, claims);
      if !ok {
        Regroup(c1, c2, made);
        StoppedAt(old(log), old(budget), log, budget, c1, ok1, c2 + made, true);
        StoppedAt(old(log), old(budget), log, budget, c1, ok1, c2, false);
        StoppedAt(old(log), old(budget), log, budget, c1, ok1, made, true);
        return;
      }
      AllRan(old(log), old(budget), log, budget, c1, ok1);
      ghost var l1, b1 := log, budget;
      if role.Backup? {
        ok := CreateVolumeClaim(BackupId(p.suffix), p.labels.rev, spec, claims);
        RanThen(old(log), old(budget), l1, b1, log, budget, c1, c2, ok2, ok);
        if !ok {
          StoppedAt(old(log), old(budget), log, budget, c1 + c2, ok2, made, true);
          return;
        }
        AllRan(old(log), old(budget), log, budget, c1 + c2, ok2);
        ghost var l2, b2 := log, budget;
        ok := Issue(CreatePod(p));
        RanThen(old(log), old(budget), l2, b2, log, budget, c1 + c2, made, true, ok);
      } else {
        ok := Issue(CreatePod(p));
        RanThen(old(log), old(budget), l1, b1, log, budget, c1, made, true, ok);
      }
    }

    /** mysql_upgrade, then the deletion, then the relabelling of the claim. */
    method UpgradeStandalone(p: Pod, claims: seq<Claim>) returns (ok: bool)
      modifies `log, `budget
      ensures var (calls, planned) := UpgradeNode(p, claims);
        Ran(old(log), old(budget), log, budget, calls, planned, ok)
    {
      hide Ran, FindClaim;
      RanNone(log, budget, true);
      var a, b := MysqlUpgrade(p.suffix), DeletePod(p.suffix);
      ok := IssueTwo(a, b, [], log, budget);
      assert [] + [a, b] == [a, b];
      ghost var (calls, planned) := UpgradeNode(p, claims);
      if !ok {
        assert FindClaim(claims, DataId(p.suffix)).Some? ==> calls == [a, b] + [PatchClaim(p.suffix, p.labels.rev)];
        StoppedAt(old(log), old(budget), log, budget, [a, b], true, [PatchClaim(p.suffix, p.labels.rev)], true);
        FailedAnyway(old(log), old(budget), log, budget, [a, b]);
        return;
      }
      if FindClaim(claims, DataId(p.suffix)).None? {
        FailedAfter(old(log), old(budget), log, budget, [a, b]);
        return false;
      }
      ghost var l1, b1 := log, budget;
      ok := Issue(PatchClaim(p.suffix, p.labels.rev));
      RanThen(old(log), old(budget), l1, b1, log, budget, [a, b], [PatchClaim(p.suffix, p.labels.rev)], true, ok);
      assert [a, b] + [PatchClaim(p.suffix, p.labels.rev)] == calls;
    }

    // ---- Labels ---------------------------------------------------------------------------

    /** setLabels. */
    method SetRoleLabels() returns (ok: bool)
      modifies `log, `budget, `status
      ensures var l := SetLabels(ready, old(status.members));
        && Ran(old(log), old(budget), log, budget, l.calls, l.ok, ok)
        && (ok ==> status == old(status).(members := l.members))
    {
      hide DropReader, Candidate, LastBackup, OthersToBackupWriter, Ran;
      Roles.OthersArePatches(ready, status.members);
      if |ready| == 0 {
        RanNone(log, budget, true);
        return true;
      }
      if |ready| == 1 {
        ok := Patching(ready[0], AddReader, AddWriter);
        return;
      }
      if |ready| == 2 {
        ok := LabelTwoPods();
      } else {
        ok := LabelManyPods();
      }
    }

    /** The last ready pod with the backup label. */
    method FindBackup() returns (backup: Option<Pod>)
      ensures backup == LastBackup(ready)
    {
      backup := None;
      for i := 0 to |ready|
        invariant LastBackup(ready) == if LastBackup(ready[i..]).Some? then LastBackup(ready[i..]) else backup
      {
        assert ready[i..][1..] == ready[i + 1..];
        if ready[i].labels.backup.Some? {
          backup := Some(ready[i]);
        }
      }
      assert ready[|ready|..] == [];
    }

    /** The first ready pod without role and backup label, other than the one excluded. */
    method FindCandidate(excluded: Option<Suffix>) returns (candidate: Option<Pod>)
      ensures candidate == Candidate(ready, excluded)
    {
      for i := 0 to |ready|
        invariant Candidate(ready, excluded) == Candidate(ready[i..], excluded)
      {
        assert ready[i..][1..] == ready[i + 1..];
        if ready[i].labels.backup.Some? {
          continue;
        }
        if ready[i].labels.role.Some? {
          continue;
        }
        if excluded != Some(ready[i].suffix) {
          return Some(ready[i]);
        }
      }
      candidate := None;
    }

    /** Takes the writer out of the readers. */
    method UnreadWriter() returns (ok: bool)
      modifies `log, `budget
      ensures Ran(old(log), old(budget), log, budget, DropReader(ready, status.members.writer), true, ok)
    {
      for i := 0 to |ready|
        invariant log == old(log) && budget == old(budget)
        invariant DropReader(ready, status.members.writer) == DropReader(ready[i..], status.members.writer)
      {
        assert ready[i..][1..] == ready[i + 1..];
        if status.members.writer == Some(ready[i].suffix) {
          if ready[i].labels.reader == Some(true) {
            ActOne(ready[i].labels, RemoveReader);
            ok := PatchPodLabels(ready[i], [RemoveReader]);
            return;
          }
        }
      }
      RanNone(log, budget, true);
      ok := true;
    }

    /** Every ready pod but the writer becomes a backup writer. */
    method MakeBackupWriters() returns (ok: bool)
      modifies `log, `budget, `status
      ensures var l := OthersToBackupWriter(ready, old(status.members));
        && Ran(old(log), old(budget), log, budget, l.calls, true, ok)
        && (ok ==> status == old(status).(members := l.members))
    {
      hide Ran;
      ghost var m := status.members;
      ghost var done: seq<ApiCall> := [];
      RanNone(log, budget, true);
      for i := 0 to |ready|
        invariant Ran(old(log), old(budget), log, budget, done, true, true)
        invariant status == old(status).(members := status.members)
        invariant var all, rest := OthersToBackupWriter(ready, m), OthersToBackupWriter(ready[i..], status.members);
          all.calls == done + rest.calls && all.members == rest.members
      {
        assert ready[i..][1..] == ready[i + 1..];
        ghost var rest := OthersToBackupWriter(ready[i..], status.members);
        if Some(ready[i].suffix) != status.members.writer {
          status := status.(members := status.members.(backupWriter := Some(ready[i].suffix)));
          ghost var l1, b1 := log, budget;
          ok := Patching(ready[i], AddReader, AddBackupWriter);
          ghost var one := [Patch2(ready[i], AddReader, AddBackupWriter)];
          ghost var later := OthersToBackupWriter(ready[i + 1..], status.members).calls;
          Regroup(done, one, later);
          RanThen(old(log), old(budget), l1, b1, log, budget, done, one, true, ok);
          if !ok {
            RanOut(old(log), old(budget), log, budget, done + one, later, true);
            return;
          }
          done := done + one;
        }
      }
      assert done + [] == done;
      ok := true;
    }

    method LabelTwoPods() returns (ok: bool)
      requires |ready| == 2
      modifies `log, `budget, `status
      ensures var l := LabelTwo(ready, old(status.members));
        && Ran(old(log), old(budget), log, budget, l.calls, true, ok)
        && (ok ==> status == old(status).(members := l.members))
    {
      hide DropReader, Candidate, LastBackup, OthersToBackupWriter, Ran, Patch2;
      if status.members.writer.None? {
        var backup := FindBackup();
        var writer, other := ready[0], ready[1];
        if backup.Some? {
          other := backup.value;
          if backup.value == ready[0] {
            writer := ready[1];
          }
        }
        status := status.(members := status.members.(writer := Some(writer.suffix)));
        ok := Patching(writer, RemoveReader, AddWriter);
        ghost var first, second := Patch2(writer, RemoveReader, AddWriter), Patch2(other, AddReader, AddBackupWriter);
        assert [first] + [second] == [first, second];
        if !ok {
          RanOut(old(log), old(budget), log, budget, [first], [second], true);
          return;
        }
        ghost var l1, b1 := log, budget;
        status := status.(members := status.members.(backupWriter := Some(other.suffix)));
        ok := Patching(other, AddReader, AddBackupWriter);
        RanThen(old(log), old(budget), l1, b1, log, budget, [first], [second], true, ok);
      } else {
        ghost var m := status.members;
        ghost var l := if m.backupWriter.None? then OthersToBackupWriter(ready, m) else Labelling([], true, m);
        RanNone(log, budget, true);
        ok := true;
        if status.members.backupWriter.None? {
          ok := MakeBackupWriters();
        }
        ghost var drop := DropReader(ready, l.members.writer);
        if !ok {
          RanOut(old(log), old(budget), log, budget, l.calls, drop, true);
          return;
        }
        ghost var l1, b1 := log, budget;
        ok := UnreadWriter();
        RanThen(old(log), old(budget), l1, b1, log, budget, l.calls, drop, true, ok);
      }
    }

    method LabelManyPods() returns (ok: bool)
      modifies `log, `budget, `status
      ensures var l := LabelMany(ready, old(status.members));
        && Ran(old(log), old(budget), log, budget, l.calls, l.ok, ok)
        && (ok ==> status == old(status).(members := l.members))
    {
      hide DropReader, Candidate, Ran, Patch2;
      ghost var m := status.members;
      ghost var done: seq<ApiCall> := [];
      ghost var w := Candidate(ready, None);
      RanNone(log, budget, true);
      RanNone(log, budget, false);
      if status.members.writer.None? {
        var candidate := FindCandidate(None);
        if candidate.None? {
          return false;
        }
        status := status.(members := status.members.(writer := Some(candidate.value.suffix)));
        ok := Patching(candidate.value, RemoveReader, AddWriter);
        done := [Patch2(candidate.value, RemoveReader, AddWriter)];
        if !ok {
          FailedAnyway(old(log), old(budget), log, budget, done);
          var b := Candidate(ready, status.members.writer);
          ghost var c2 := if m.backupWriter.None? && b.Some? then [Patch2(b.value, AddReader, AddBackupWriter)] else [];
          ghost var last := if m.backupWriter.None? && b.Some? then Some(b.value.suffix) else status.members.writer;
          RanOut(old(log), old(budget), log, budget, done, c2, true);
          RanOut(old(log), old(budget), log, budget, done + c2, DropReader(ready, last), true);
          assert c2 == [] ==> done + c2 == done;
          return;
        }
      }
      ghost var l1, b1 := log, budget;
      if status.members.backupWriter.None? {
        var candidate := FindCandidate(status.members.writer);
        if candidate.None? {
          FailedAfter(old(log), old(budget), log, budget, done);
          return false;
        }
        status := status.(members := status.members.(writer := Some(candidate.value.suffix)));
        ok := Patching(candidate.value, AddReader, AddBackupWriter);
        ghost var c2 := [Patch2(candidate.value, AddReader, AddBackupWriter)];
        RanThen(old(log), old(budget), l1, b1, log, budget, done, c2, true, ok);
        if !ok {
          RanOut(old(log), old(budget), log, budget, done + c2, DropReader(ready, status.members.writer), true);
          return;
        }
        done := done + c2;
      } else {
        assert done + [] == done;
      }
      ghost var l2, b2 := log, budget;
      ok := UnreadWriter();
      RanThen(old(log), old(budget), l2, b2, log, budget, done, DropReader(ready, status.members.writer), true, ok);
    }

    // ---- Classification -------------------------------------------------------------------

    /** The first healthy pod without its claims is deleted, and the round ends. */
    method DeleteOrphanPod(pods: seq<Pod>, claims: seq<Claim>) returns (found: bool, ok: bool)
      modifies `log, `budget
      ensures found <==> Orphan(pods, claims).Some?
      ensures found ==> Ran(old(log), old(budget), log, budget, [DeletePod(Orphan(pods, claims).value.suffix)], true, ok)
      ensures !found ==> log == old(log) && budget == old(budget)
    {
      for i := 0 to |pods|
        invariant log == old(log) && budget == old(budget)
        invariant Orphan(pods, claims) == Orphan(pods[i..], claims)
      {
        assert pods[i..][1..] == pods[i + 1..];
        if Healthy(pods[i]) {
          var delete := true;
          if IsBackup(pods[i]) {
            var findData, findBackup := false, false;
            for k := 0 to |claims|
              invariant findData <==> exists c :: c in claims[..k] && c.id == DataId(pods[i].suffix)
              invariant findBackup <==> exists c :: c in claims[..k] && c.id == BackupId(pods[i].suffix)
            {
              assert forall c :: c in claims[..k + 1] <==> c in claims[..k] || c == claims[k];
              if claims[k].id.suffix == pods[i].suffix {
                if claims[k].id.backup {
                  findBackup := true;
                } else {
                  findData := true;
                }
              }
            }
            assert claims[..|claims|] == claims;
            if findBackup && findData {
              delete := false;
            }
          } else {
            for k := 0 to |claims|
              invariant delete <==> !HasSuffix(claims[..k], pods[i].suffix)
            {
              assert forall c :: c in claims[..k + 1] <==> c in claims[..k] || c == claims[k];
              if claims[k].id.suffix == pods[i].suffix {
                delete := false;
              }
            }
            assert claims[..|claims|] == claims;
          }
          if delete {
            found := true;
            ok := Issue(DeletePod(pods[i].suffix));
            return;
          }
        }
      }
      found, ok := false, true;
    }

    /** One turn of the classification loop: `more` says that the loop goes on. */
    method ClassifyOne(p: Pod, x: Input) returns (more: bool, ok: bool)
      modifies this
      ensures var s := ClassifyPod(p, old(Tallied()), x);
        if s.Go?
        then Ran(old(log), old(budget), log, budget, s.calls, true, ok) && more == ok && (ok ==> Tallied() == s.tally)
        else Ran(old(log), old(budget), log, budget, s.calls, s.ok, ok) && !more && (ok ==> status == s.status)
    {
      hide Ran, ClassifyPrimary, ClassifyUnready, Count;
      RanNone(log, budget, true);
      RanNone(log, budget, false);
      status := status.(replicas := status.replicas + 1);
      if p.terminating {
        terminating := true;
        return true, true;
      }
      if p.health.Ready? {
        if p.wsrep.Unreachable? {
          return false, false;
        }
        if p.wsrep.Primary? {
          more, ok := ClassifyReady(p, x.claims);
        } else {
          SetAside(p);
          more, ok := true, true;
        }
      } else {
        SetAside(p);
        more, ok := true, true;
      }
      if more {
        CountPod(p, x.currentRev, x.nextRev);
      }
    }

    /** The counters and the suffix list. */
    method CountPod(p: Pod, currentRev: Revision, nextRev: Revision)
      modifies `status, `suffixes
      ensures Tallied() == Count(p, old(Tallied()), currentRev, nextRev)
    {
      if !p.health.NoPhase? && !p.terminating && special != Some(p) {
        if p.labels.rev == currentRev {
          status := status.(currentReplicas := status.currentReplicas + 1);
        }
        if p.labels.rev == nextRev {
          status := status.(nextReplicas := status.nextReplicas + 1);
        }
      }
      suffixes := suffixes + [p.suffix];
    }

    /** A pod that is not a ready member: unready, or the special node. */
    method SetAside(p: Pod)
      modifies `unready, `special, `backups
      ensures Tallied() == ClassifyUnready(p, old(Tallied()))
    {
      if p.labels.role == Some(Special) {
        special := Some(p);
      } else {
        unready := unready + [p];
      }
      if IsBackup(p) {
        backups := backups + [p.suffix];
      }
    }

    /** What the role label of a ready member leads to: the pod joins the ready ones or not, or its
        kind is not wanted. */
    method TakeRole(p: Pod) returns (add: bool, wanted: bool, ok: bool)
      modifies `log, `budget, `status, `special
      ensures match ByRole(p, old(Tallied()))
        case Joined(t, joins, calls) =>
          wanted && add == joins && Ran(old(log), old(budget), log, budget, calls, true, ok) && (ok ==> Tallied() == t)
        case Rejected(t) => !wanted && ok && log == old(log) && budget == old(budget) && Tallied() == t
    {
      hide Ran, Patch2;
      RanNone(log, budget, true);
      add, wanted, ok := false, true, true;
      match p.labels.role {
        case None =>
        case Some(Writer) =>
          add := true;
          if status.members.writer.None? {
            status := status.(members := status.members.(writer := Some(p.suffix)));
          } else {
            ok := Patching(p, RemoveRole, AddReader);
          }
        case Some(BackupWriter) =>
          add := true;
          if status.members.backupWriter.None? {
            status := status.(members := status.members.(backupWriter := Some(p.suffix)));
          } else {
            ok := Patching(p, RemoveRole, AddReader);
          }
        case Some(Special) =>
          status := status.(replicas := status.replicas - 1);
          if status.members.special.None? {
            special := Some(p);
            status := status.(members := status.members.(special := Some(p.suffix)));
          } else {
            wanted := false;
          }
        case Some(_) =>
          wanted := false;
      }
    }

    method ClassifyReady(p: Pod, claims: seq<Claim>) returns (more: bool, ok: bool)
      modifies this
      ensures var s := ClassifyPrimary(p, old(Tallied()), claims);
        if s.Go?
        then Ran(old(log), old(budget), log, budget, s.calls, true, ok) && more == ok && (ok ==> Tallied() == s.tally)
        else Ran(old(log), old(budget), log, budget, s.calls, s.ok, ok) && !more && (ok ==> status == s.status)
    {
      hide Ran, ByRole, DeletePodAndClaim;
      ghost var r := ByRole(p, Tallied());
      ghost var (deletion, planned) := DeletePodAndClaim(p, claims);
      var add, wanted, done := TakeRole(p);
      if !wanted {
        ok := ForceDeletePodAndClaim(p, claims);
        return false, ok;
      }
      if !done {
        RanOut(old(log), old(budget), log, budget, r.calls, deletion, planned);
        return false, false;
      }
      if IsBackup(p) {
        if status.members.backup.None? {
          add := true;
          status := status.(members := status.members.(backup := Some(p.suffix)));
          backups := backups + [p.suffix];
        } else {
          ghost var l1, b1 := log, budget;
          ok := ForceDeletePodAndClaim(p, claims);
          RanThen(old(log), old(budget), l1, b1, log, budget, r.calls, deletion, planned, ok);
          return false, ok;
        }
      }
      if !add {
        if p.labels.reader == Some(true) {
          add := true;
        }
      }
      if add {
        ready := ready + [p];
      }
      more, ok := true, true;
    }

    /** The classification loop. */
    method ClassifyAll(x: Input) returns (more: bool, ok: bool)
      modifies this
      ensures var s := Classify(x.pods, old(Tallied()), x);
        if s.Go?
        then Ran(old(log), old(budget), log, budget, s.calls, true, ok) && more == ok && (ok ==> Tallied() == s.tally)
        else Ran(old(log), old(budget), log, budget, s.calls, s.ok, ok) && !more && (ok ==> status == s.status)
    {
      hide Ran, ClassifyPod;
      ghost var all := Classify(x.pods, Tallied(), x);
      ghost var done: seq<ApiCall> := [];
      RanNone(log, budget, true);
      assert all == Prepend(done, all) by { PrependNone(all); }
      for i := 0 to |x.pods|
        invariant Ran(old(log), old(budget), log, budget, done, true, true)
        invariant all == Prepend(done, Classify(x.pods[i..], Tallied(), x))
      {
        assert x.pods[i..][1..] == x.pods[i + 1..];
        ghost var s := ClassifyPod(x.pods[i], Tallied(), x);
        ghost var l1, b1 := log, budget;
        more, ok := ClassifyOne(x.pods[i], x);
        RanThen(old(log), old(budget), l1, b1, log, budget, done, s.calls, if s.Go? then true else s.ok, ok);
        if !more {
          if s.Go? {
            ghost var rest := Classify(x.pods[i + 1..], s.tally, x);
            Regroup(done, s.calls, rest.calls);
            RanOut(old(log), old(budget), log, budget, done + s.calls, rest.calls, if rest.Go? then true else rest.ok);
          }
          return;
        }
        PrependTwice(done, s.calls, Classify(x.pods[i + 1..], s.tally, x));
        done := done + s.calls;
      }
      assert x.pods[|x.pods|..] == [];
      assert done + [] == done;
      more, ok := true, true;
    }

    // ---- Phase and claims -----------------------------------------------------------------

    /** setStatusPhaseAndConditions; false is the error of a cluster without a primary node. */
    method SetStatusPhaseAndConditions(replicas: int, readyCount: int, unreadyCount: int, image: Image, newImage: bool)
      returns (ok: bool)
      modifies `status
      ensures !ok <==> readyCount == 0 && unreadyCount > 1
      ensures if ok
        then Phases.Moved(old(status).phase, old(status).conditions, old(status).replicas, replicas, image, newImage,
                          status.phase, status.conditions)
        else Phases.GivenUp(old(status).conditions, status.phase, status.conditions)
      ensures status == old(status).(phase := status.phase, conditions := status.conditions)
      ensures status == if ok then SetPhase(old(status), replicas, image, newImage) else Lost(old(status))
    {
      Phases.SetPhaseMoves(status, replicas, image, newImage);
      Phases.LostGivesUp(status);
      hide Phases.Moved, Phases.GivenUp;
      var s := new GaleraStatus(status.phase, status.conditions);
      if readyCount == 0 && unreadyCount > 1 {
        s.phase := FailedPhase;
        s.Set(DISASTER);
        s.Clear(IsReadyKind);
        s.Clear(IsScalingKind);
        s.Clear(IsUpgradingKind);
        status := status.(phase := s.phase, conditions := s.conditions);
        return false;
      }
      if status.replicas != replicas {
        if status.replicas < replicas {
          s.Set(ScalingUp(status.replicas, replicas));
        } else {
          s.Set(ScalingDown(status.replicas, replicas));
        }
      } else {
        s.Clear(IsScalingKind);
      }
      match status.phase {
        case Creating | Restoring =>
          if status.replicas == replicas {
            s.Clear(IsRestoringKind);
            s.Set(READY);
            s.phase := Running;
          }
        case Backuping | Running =>
          if newImage {
            s.Set(UpgradingTo(image));
          } else {
            s.Clear(IsUpgradingKind);
          }
        case _ =>
      }
      status := status.(phase := s.phase, conditions := s.conditions);
      ok := true;
    }

    /** deleteNoMatchingClaimsAndListUnusedClaims. */
    method DeleteNoMatchingClaims(claims: seq<Claim>, used: seq<Suffix>, backupSuffixes: seq<Suffix>, spec: ClaimSpec)
      returns (unused: seq<Suffix>, operation: bool, ok: bool)
      modifies `log, `budget
      ensures var col := Collect(claims, used, backupSuffixes, spec);
        && operation == col.operation
        && Ran(old(log), old(budget), log, budget, col.calls, true, ok)
        && (!operation ==> unused == col.unused && ok && log == old(log) && budget == old(budget))
    {
      unused := [];
      RanNone(log, budget, true);
      for i := 0 to |claims|
        invariant log == old(log) && budget == old(budget)
        invariant var all, rest := Collect(claims, used, backupSuffixes, spec),
          Collect(claims[i..], used, backupSuffixes, spec);
          all.operation == rest.operation && all.calls == rest.calls
              && (!all.operation ==> all.unused == unused + rest.unused)
      {
        assert claims[i..][1..] == claims[i + 1..];
        var c := claims[i];
        if c.terminating {
          return unused, true, true;
        }
        if c.id.backup {
          if c.id.suffix !in backupSuffixes {
            ok := Issue(DeleteClaim(c.id));
            return unused, true, ok;
          }
        } else {
          if c.id.suffix !in used {
            if c.spec == spec {
              Regroup(unused, [c.id.suffix], Collect(claims[i + 1..], used, backupSuffixes, spec).unused);
              unused := unused + [c.id.suffix];
            } else {
              ok := Issue(DeleteClaim(c.id));
              return unused, true, ok;
            }
          }
        }
      }
      assert claims[|claims|..] == [];
      CollectsNothing(claims, used, backupSuffixes, spec);
      operation, ok := false, true;
    }

    /** checkMysqlUpgrade: at most one standalone pod a round. */
    method CheckMysqlUpgrade(claims: seq<Claim>) returns (operation: bool, ok: bool)
      modifies `log, `budget
      ensures operation <==> FirstToUpgrade(unready, claims).Some?
      ensures operation ==> var (calls, planned) := UpgradeNode(FirstToUpgrade(unready, claims).value, claims);
        Ran(old(log), old(budget), log, budget, calls, planned, ok)
      ensures !operation ==> ok && log == old(log) && budget == old(budget)
    {
      hide Ran, UpgradeNode, ClaimRevision;
      for i := 0 to |unready|
        invariant log == old(log) && budget == old(budget)
        invariant FirstToUpgrade(unready, claims) == FirstToUpgrade(unready[i..], claims)
      {
        assert unready[i..][1..] == unready[i + 1..];
        if unready[i].health.Ready? {
          if unready[i].labels.rev != ClaimRevision(claims, unready[i].suffix) {
            ok := UpgradeStandalone(unready[i], claims);
            return true, ok;
          }
        }
      }
      assert unready[|unready|..] == [];
      operation, ok := false, true;
    }

    // ---- Creation -------------------------------------------------------------------------

    /** The first unready pod that is in the way. */
    method CheckUnready(pods: seq<Pod>) returns (gate: Gate)
      ensures gate == UnreadyGate(pods)
    {
      for i := 0 to |pods|
        invariant UnreadyGate(pods) == UnreadyGate(pods[i..])
      {
        assert pods[i..][1..] == pods[i + 1..];
        if pods[i].health.Failed? {
          return Replace(pods[i]);
        }
        if pods[i].terminating {
          return Wait;
        }
        if !pods[i].health.Ready? {
          return Wait;
        }
      }
      assert pods[|pods|..] == [];
      gate := Pass;
    }

    /** checkUnreadyPodBeforeCreatingPod. */
    method CreateUnlessUnready(x: Input, spec: Template, pods: seq<Pod>, chosen: Revision, role: Role,
                               noAddress: bool, used: seq<Suffix>, unused: seq<Suffix>) returns (ok: bool)
      requires exists d :: d in x.draws && d !in used
      modifies `log, `budget, `status
      ensures var plan := CreateOrWait(x, spec, old(status), pods, chosen, role, noAddress, used, unused);
        Ran(old(log), old(budget), log, budget, plan.calls, plan.ok, ok) && (ok ==> status == plan.status)
    {
      hide Ran, UnreadyGate, PickSuffix, StateFor, NewPod, CreatePodAndClaim;
      RanNone(log, budget, true);
      var init := false;
      if !status.phase.Restoring? && noAddress {
        init := true;
      }
      var gate := CheckUnready(pods);
      match gate {
        case Wait =>
          return true;
        case Replace(p) =>
          ok := Issue(DeletePod(p.suffix));
          if ok {
            if p.labels.rev == x.currentRev {
              status := status.(currentReplicas := status.currentReplicas - 1);
            }
            if p.labels.rev == x.nextRev {
              status := status.(nextReplicas := status.nextReplicas - 1);
            }
          }
          return;
        case Pass =>
      }
      var s := PickSuffix(x, used, unused);
      var p := NewPod(s, role, chosen, StateFor(s, role, chosen, x.claims), spec.image, spec.env, noAddress, init);
      ok := CreatePodWithClaims(p, role, spec.claimSpec, x.claims);
      if ok {
        status := status.(replicas := status.replicas + 1);
        if chosen == x.currentRev {
          status := status.(currentReplicas := status.currentReplicas + 1);
        } else {
          status := status.(nextReplicas := status.nextReplicas + 1);
        }
      }
    }

    /** manageSpecialNode. */
    method ManageSpecialNode(x: Input, env: seq<EnvVar>, spec: ClaimSpec, noAddress: bool,
        unused: seq<Suffix>) returns (ok: bool)
      requires exists d :: d in x.draws && d !in suffixes
      modifies `log, `budget
      ensures var plan := ManageSpecial(x, env, spec, status, special, noAddress, suffixes, unused);
        Ran(old(log), old(budget), log, budget, plan.calls, plan.ok, ok)
    {
      hide Ran, PickSuffix, StateFor, NewPod, CreatePodAndClaim, UpgradeNode, DeleteForUpgrade, ClaimRevision;
      RanNone(log, budget, true);
      if special.None? {
        var s := PickSuffix(x, suffixes, unused);
        var p := NewPod(s, Special, x.nextRev, StateFor(s, Special, x.nextRev, x.claims), x.next.image, env, noAddress,
            false);
        ok := CreatePodWithClaims(p, Special, spec, x.claims);
        return;
      }
      var p := special.value;
      if p.health.Failed? {
        ok := Issue(DeletePod(p.suffix));
        return;
      }
      if p.terminating {
        return true;
      }
      if !p.health.Ready? {
        return true;
      }
      if p.labels.rev != ClaimRevision(x.claims, p.suffix) {
        ok := UpgradeStandalone(p, x.claims);
        return;
      }
      if p.labels.rev != x.nextRev {
        ok := DeleteSyncedPodForUpgrade(p, x.claims, spec);
        return;
      }
      ok := true;
    }

    // ---- Termination and upgrade ----------------------------------------------------------

    /** The first claim under one of the suffixes. */
    method FindOrphanClaim(claims: seq<Claim>, unused: seq<Suffix>) returns (claim: Option<Claim>)
      ensures claim == FirstUnused(claims, unused)
    {
      for i := 0 to |claims|
        invariant FirstUnused(claims, unused) == FirstUnused(claims[i..], unused)
      {
        assert claims[i..][1..] == claims[i + 1..];
        var clear := false;
        for k := 0 to |unused|
          invariant clear <==> claims[i].id.suffix in unused[..k]
        {
          if claims[i].id.suffix == unused[k] {
            clear := true;
          }
          assert unused[..k + 1] == unused[..k] + [unused[k]];
        }
        assert unused[..|unused|] == unused;
        if clear {
          return Some(claims[i]);
        }
      }
      assert claims[|claims|..] == [];
      claim := None;
    }

    /** Deletes the pods one after the other. */
    method DeletePods(pods: seq<Pod>) returns (ok: bool)
      modifies `log, `budget
      ensures Ran(old(log), old(budget), log, budget, DeleteAll(pods), true, ok)
    {
      hide Ran;
      RanNone(log, budget, true);
      ghost var done: seq<ApiCall> := [];
      for i := 0 to |pods|
        invariant Ran(old(log), old(budget), log, budget, done, true, true)
        invariant DeleteAll(pods) == done + DeleteAll(pods[i..])
      {
        assert pods[i..][1..] == pods[i + 1..];
        ghost var one := [DeletePod(pods[i].suffix)];
        ghost var l1, b1 := log, budget;
        ok := Issue(DeletePod(pods[i].suffix));
        Regroup(done, one, DeleteAll(pods[i + 1..]));
        RanThen(old(log), old(budget), l1, b1, log, budget, done, one, true, ok);
        if !ok {
          RanOut(old(log), old(budget), log, budget, done + one, DeleteAll(pods[i + 1..]), true);
          return;
        }
        done := done + one;
      }
      assert pods[|pods|..] == [] && done + [] == done;
      ok := true;
    }

    /** The first plain reader. */
    method FindPlain(pods: seq<Pod>) returns (plain: Option<Pod>)
      ensures plain == FirstPlain(pods)
    {
      for i := 0 to |pods|
        invariant FirstPlain(pods) == FirstPlain(pods[i..])
      {
        assert pods[i..][1..] == pods[i + 1..];
        if pods[i].labels.role.Some? {
          continue;
        }
        if pods[i].labels.backup.Some? {
          continue;
        }
        return Some(pods[i]);
      }
      assert pods[|pods|..] == [];
      plain := None;
    }

    /** considerPodAndClaimTermination. */
    method ConsiderTermination(x: Input, readyPods: seq<Pod>, unreadyPods: seq<Pod>, unused: seq<Suffix>) returns (ok: bool)
      modifies `log, `budget, `status
      ensures var plan := Terminate(x, old(status), readyPods, unreadyPods, unused);
        Ran(old(log), old(budget), log, budget, plan.calls, plan.ok, ok) && (ok ==> status == plan.status)
    {
      hide Ran, FirstUnused, FirstPlain, DeleteAll;
      RanNone(log, budget, true);
      var canProcess := true;
      if x.special.Some? && status.members.special.None? {
        canProcess := false;
      }
      ghost var deletions := if canProcess then DeleteAll(unreadyPods) else [];
      ok := true;
      if canProcess {
        var orphan := FindOrphanClaim(x.claims, unused);
        if orphan.Some? {
          ok := Issue(DeleteClaim(orphan.value.id));
          return;
        }
        ok := DeletePods(unreadyPods);
      }
      ghost var excess := if |readyPods| > x.replicas then FirstPlain(readyPods) else None;
      ghost var last := if excess.Some? then [DeletePod(excess.value.suffix)] else [];
      if !ok {
        RanOut(old(log), old(budget), log, budget, deletions, last, true);
        return;
      }
      if |readyPods| > x.replicas {
        var p := FindPlain(readyPods);
        if p.Some? {
          ghost var l1, b1 := log, budget;
          ok := Issue(DeletePod(p.value.suffix));
          RanThen(old(log), old(budget), l1, b1, log, budget, deletions, last, true, ok);
          if !ok {
            return;
          }
          if p.value.labels.rev == x.currentRev {
            status := status.(currentReplicas := status.currentReplicas - 1);
          }
          if p.value.labels.rev == x.nextRev {
            status := status.(nextReplicas := status.nextReplicas - 1);
          }
        }
      }
    }

    /** deletePodForUpgrade; `action` says that the round ends here. */
    method DeletePodForUpgrade(x: Input, spec: ClaimSpec) returns (action: bool, ok: bool)
      modifies `log, `budget, `status
      ensures var plan := Upgrade(x, spec, old(status), ready);
        if plan.None? then !action && ok && log == old(log) && budget == old(budget) && status == old(status)
        else action && Ran(old(log), old(budget), log, budget, plan.value.calls, plan.value.ok, ok)
             && (ok ==> status == plan.value.status)
    {
      hide Ran, DeleteForUpgrade, Healthy;
      RanNone(log, budget, true);
      if x.currentRev == x.nextRev {
        return false, true;
      }
      for i := 0 to |ready|
        invariant log == old(log) && budget == old(budget) && status == old(status)
        invariant NextTurn(ready, x.nextRev) == NextTurn(ready[i..], x.nextRev)
      {
        assert ready[i..][1..] == ready[i + 1..];
        if !Healthy(ready[i]) {
          return true, true;
        }
        if ready[i].labels.rev != x.nextRev {
          ok := DeleteSyncedPodForUpgrade(ready[i], x.claims, spec);
          status := status.(currentReplicas := status.currentReplicas - 1);
          return true, ok;
        }
      }
      assert ready[|ready|..] == [];
      action, ok := false, true;
    }

    // ---- The round ------------------------------------------------------------------------

    /** runGalera from the collection of claims on. */
    method Proceed(x: Input) returns (ok: bool)
      requires exists d :: d in x.draws && d !in suffixes
      requires forall i, j :: 0 <= i < j < |ready| ==> ready[i] != ready[j]
      modifies `log, `budget, `status
      ensures var plan := Reconcile(x, old(Tallied()), old(status));
        Ran(old(log), old(budget), log, budget, plan.calls, plan.ok, ok) && (ok ==> status == plan.status)
    {
      hide Ran, Collect, FirstToUpgrade, UpgradeNode, CreateOrWait, Terminate, AfterTermination,
           Bootstrap.NoAddress;
      ghost var t := Tallied();
      var unused, operation, done := DeleteNoMatchingClaims(x.claims, suffixes, backups, x.next.claimSpec);
      if operation || !done {
        return done;
      }
      var addresses, _ := Bootstrap.BootstrapAddresses(ready);
      var noAddress := addresses == [] || addresses == [""];
      operation, done := CheckMysqlUpgrade(x.claims);
      if operation || !done {
        return done;
      }
      if |ready| < x.replicas {
        var chosen := x.nextRev;
        if status.phase.Restoring? {
          chosen := x.currentRev;
        }
        ok := CreateUnlessUnready(x, x.next, unready, chosen, ChooseRole(status.members), noAddress, suffixes, unused);
        return;
      }
      ghost var terminated := Terminate(x, status, ready, unready, unused);
      TerminateSucceeds(x, status, ready, unready, unused);
      ok := ConsiderTermination(x, ready, unready, unused);
      if !ok {
        ghost var rest := AfterTermination(x, t, terminated.status, noAddress, unused);
        RanOut(old(log), old(budget), log, budget, terminated.calls, rest.calls, rest.ok);
        return;
      }
      ghost var l1, b1 := log, budget;
      ghost var u := Tallied();
      ok := Finish(x, noAddress, unused);
      AfterIgnoresStatus(x, t, u, terminated.status, noAddress, unused);
      ghost var rest := AfterTermination(x, t, terminated.status, noAddress, unused);
      RanThen(old(log), old(budget), l1, b1, log, budget, terminated.calls, rest.calls, rest.ok, ok);
    }

    /** runGalera after the termination pass: the upgrade, then the special node. */
    method Finish(x: Input, noAddress: bool, unused: seq<Suffix>) returns (ok: bool)
      requires exists d :: d in x.draws && d !in suffixes
      modifies `log, `budget, `status
      ensures var plan := AfterTermination(x, old(Tallied()), old(status), noAddress, unused);
        Ran(old(log), old(budget), log, budget, plan.calls, plan.ok, ok) && (ok ==> status == plan.status)
    {
      hide Ran, Upgrade, DeletePodAndClaim;
      RanNone(log, budget, true);
      var action, done := DeletePodForUpgrade(x, x.next.claimSpec);
      if action || !done {
        return done;
      }
      match x.special {
        case Some(env) =>
          SpecialKeepsStatus(x, env, x.next.claimSpec, status, special, noAddress, suffixes, unused);
          ok := ManageSpecialNode(x, env, x.next.claimSpec, noAddress, unused);
        case None =>
          if special.Some? && !special.value.terminating {
            ok := ForceDeletePodAndClaim(special.value, x.claims);
          } else {
            ok := true;
          }
      }
    }

    /** runGalera. */
    method RunGalera(x: Input) returns (ok: bool)
      requires CanDraw(x) && Distinct(x.pods)
      modifies this
      ensures var plan := PlanRound(x);
        Ran(old(log), old(budget), log, budget, plan.calls, plan.ok, ok) && (ok ==> status == plan.status)
    {
      hide Ran, Orphan, Classify, Settle, SetLabels;
      status := Fresh(x);
      var found, done := DeleteOrphanPod(x.pods, x.claims);
      if found {
        return done;
      }
      ready, unready, special, suffixes, backups, terminating := [], [], None, [], [], false;
      ghost var s := Classify(x.pods, Start(x), x);
      ClassifySuffixes(x.pods, Start(x), x);
      var more: bool;
      more, ok := ClassifyAll(x);
      if !more {
        if s.Go? {
          ghost var settled := Settle(x, s.tally);
          RanOut(old(log), old(budget), log, budget, s.calls, settled.calls, settled.ok);
        }
        return;
      }
      ghost var l1, b1 := log, budget;
      ReadyAreDistinct(x);
      ok := SettleRound(x);
      RanThen(old(log), old(budget), l1, b1, log, budget, s.calls, Settle(x, s.tally).calls, Settle(x, s.tally).ok, ok);
    }

    /** The names of the pods, in order. */
    method MemberNames(pods: seq<Pod>) returns (names: seq<Suffix>)
      ensures names == SuffixesOf(pods)
    {
      names := [];
      for i := 0 to |pods|
        invariant SuffixesOf(pods) == names + SuffixesOf(pods[i..])
      {
        assert pods[i..][1..] == pods[i + 1..];
        Regroup(names, [pods[i].suffix], SuffixesOf(pods[i + 1..]));
        names := names + [pods[i].suffix];
      }
      assert pods[|pods|..] == [] && names + [] == names;
    }

    /** runGalera once every pod is classified. */
    method SettleRound(x: Input) returns (ok: bool)
      requires exists d :: d in x.draws && d !in suffixes
      requires forall i, j :: 0 <= i < j < |ready| ==> ready[i] != ready[j]
      modifies `log, `budget, `status
      ensures var plan := Settle(x, old(Tallied()));
        Ran(old(log), old(budget), log, budget, plan.calls, plan.ok, ok) && (ok ==> status == plan.status)
    {
      hide Ran, SetLabels, SetPhase, Reconcile;
      ghost var t := Tallied();
      var readyNames := MemberNames(ready);
      var unreadyNames := MemberNames(unready);
      LabelsIgnoreLists(ready, status.members, readyNames, unreadyNames);
      status := status.(members := status.members.(ready := readyNames, unready := unreadyNames));
      ghost var l := SetLabels(ready, t.status.members);
      ghost var rest := Reconcile(x, t, Phased(x, t));
      ok := SetRoleLabels();
      if !ok {
        Unlabelled(old(log), old(budget), log, budget, l, rest);
        return;
      }
      AllRan(old(log), old(budget), log, budget, l.calls, l.ok);
      if terminating {
        return true;
      }
      var newImage := false;
      if x.current.image != x.next.image {
        newImage := true;
      }
      ghost var l1, b1 := log, budget;
      ok := SetStatusPhaseAndConditions(x.replicas, |ready|, |unready|, x.next.image, newImage);
      if !ok {
        FailedAfter(old(log), old(budget), log, budget, l.calls);
        return;
      }
      ghost var u := Tallied();
      ReconcileIgnoresStatus(x, t, u, status);
      ok := Proceed(x);
      RanThen(old(log), old(budget), l1, b1, log, budget, l.calls, rest.calls, rest.ok, ok);
    }

    // ---- The sync -------------------------------------------------------------------------

    /** The loop of the restore schedule: sorts the restore pods, and stops at the first pod that is
        something else. */
    method SortRestorePods(x: Input) returns (readyPods: seq<Pod>, unreadyPods: seq<Pod>, podSuffixes: seq<Suffix>,
        stranger: Option<Pod>)
      requires status == Fresh(x)
      modifies `status
      ensures stranger == FirstStranger(x.pods, x.currentRev)
      ensures stranger.Some? ==> var n := BeforeStranger(x.pods, x.currentRev);
        status == Fresh(x).(replicas := n + 1, currentReplicas := n)
      ensures stranger.None? ==>
        && readyPods == RunningOnes(x.pods) && unreadyPods == WaitingOnes(x.pods) && podSuffixes == SuffixesOf(x.pods)
        && status == Fresh(x).(replicas := |x.pods|, currentReplicas := |x.pods|)
    {
      hide RunningOnes, WaitingOnes, SuffixesOf, FirstStranger, BeforeStranger;
      readyPods, unreadyPods, podSuffixes := [], [], [];
      assert x.pods[0..] == x.pods;
      for i := 0 to |x.pods|
        invariant FirstStranger(x.pods, x.currentRev) == FirstStranger(x.pods[i..], x.currentRev)
        invariant BeforeStranger(x.pods, x.currentRev) == i + BeforeStranger(x.pods[i..], x.currentRev)
        invariant status == Fresh(x).(replicas := i, currentReplicas := i)
        invariant RunningOnes(x.pods) == readyPods + RunningOnes(x.pods[i..])
        invariant WaitingOnes(x.pods) == unreadyPods + WaitingOnes(x.pods[i..])
        invariant SuffixesOf(x.pods) == podSuffixes + SuffixesOf(x.pods[i..])
      {
        var p := x.pods[i];
        SortStep(x.pods, x.currentRev, i);
        status := status.(replicas := status.replicas + 1);
        if p.labels.role == Some(Restore) && p.labels.rev == x.currentRev {
          if p.health.Ready? {
            Regroup(readyPods, [p], RunningOnes(x.pods[i + 1..]));
            readyPods := readyPods + [p];
          } else {
            Regroup(unreadyPods, [p], WaitingOnes(x.pods[i + 1..]));
            unreadyPods := unreadyPods + [p];
          }
          status := status.(currentReplicas := status.currentReplicas + 1);
        } else {
          stranger := Some(p);
          return;
        }
        Regroup(podSuffixes, [p.suffix], SuffixesOf(x.pods[i + 1..]));
        podSuffixes := podSuffixes + [p.suffix];
      }
      stranger := None;
      assert x.pods[|x.pods|..] == [];
      SortEnd(x.currentRev);
    }

    static lemma SortEnd(rev: Revision)
      ensures FirstStranger([], rev).None? && BeforeStranger([], rev) == 0
      ensures RunningOnes([]) == [] && WaitingOnes([]) == [] && SuffixesOf([]) == []
    {
    }

    /** What one turn of that loop takes off the specification. */
    static lemma SortStep(pods: seq<Pod>, rev: Revision, i: nat)
      requires i < |pods|
      ensures var p, rest := pods[i], pods[i + 1..];
        && FirstStranger(pods[i..], rev) == (if RestorePod(p, rev) then FirstStranger(rest, rev) else Some(p))
        && BeforeStranger(pods[i..], rev) == (if RestorePod(p, rev) then BeforeStranger(rest, rev) + 1 else 0)
        && RunningOnes(pods[i..]) == (if p.health.Ready? then [p] else []) + RunningOnes(rest)
        && WaitingOnes(pods[i..]) == (if p.health.Ready? then [] else [p]) + WaitingOnes(rest)
        && SuffixesOf(pods[i..]) == [p.suffix] + SuffixesOf(rest)
    {
      assert pods[i..][1..] == pods[i + 1..];
    }

    /** scheduleGaleraRestore. */
    method ScheduleGaleraRestore(x: Input) returns (ok: bool)
      requires CanDraw(x) && status == Fresh(x)
      modifies `log, `budget, `status
      ensures var plan := Schedule(x);
        Ran(old(log), old(budget), log, budget, plan.calls, plan.ok, ok) && (ok ==> status == plan.status)
    {
      hide Ran, Collect, CreateOrWait, Terminate, RunningOnes, WaitingOnes, SuffixesOf, FirstStranger,
           BeforeStranger, DeletePodAndClaim;
      var readyPods, unreadyPods, podSuffixes, stranger := SortRestorePods(x);
      if stranger.Some? {
        ok := ForceDeletePodAndClaim(stranger.value, x.claims);
        return;
      }
      var readyNames := MemberNames(readyPods);
      var unreadyNames := MemberNames(unreadyPods);
      status := status.(members := status.members.(ready := readyNames, unready := unreadyNames));
      var unused, operation, done := DeleteNoMatchingClaims(x.claims, podSuffixes, [], x.current.claimSpec);
      if operation || !done {
        return done;
      }
      if |readyPods| < x.replicas {
        ok := CreateUnlessUnready(Frozen(x), x.current, unreadyPods, x.currentRev, Restore, true, podSuffixes, unused);
      } else {
        ok := ConsiderTermination(Frozen(x), readyPods, unreadyPods, unused);
      }
    }

    /** Counts the pods while claims are copied. */
    method CountPods(x: Input)
      requires status == Fresh(x)
      modifies `status
      ensures status == CountAll(x)
    {
      var readyPods: seq<Pod>, unreadyPods: seq<Pod> := [], [];
      for i := 0 to |x.pods|
        invariant status == Fresh(x).(replicas := i, currentReplicas := i)
        invariant RunningOnes(x.pods) == readyPods + RunningOnes(x.pods[i..])
        invariant WaitingOnes(x.pods) == unreadyPods + WaitingOnes(x.pods[i..])
      {
        var p := x.pods[i];
        assert x.pods[i..][1..] == x.pods[i + 1..];
        status := status.(replicas := status.replicas + 1);
        if p.health.Ready? {
          Regroup(readyPods, [p], RunningOnes(x.pods[i + 1..]));
          readyPods := readyPods + [p];
        } else {
          Regroup(unreadyPods, [p], WaitingOnes(x.pods[i + 1..]));
          unreadyPods := unreadyPods + [p];
        }
        status := status.(currentReplicas := status.currentReplicas + 1);
      }
      assert x.pods[|x.pods|..] == [];
      assert readyPods + [] == readyPods && unreadyPods + [] == unreadyPods;
      var readyNames := MemberNames(readyPods);
      var unreadyNames := MemberNames(unreadyPods);
      status := status.(members := status.members.(ready := readyNames, unready := unreadyNames));
    }

    /** The data claims among the claims. */
    method SplitClaims(claims: seq<Claim>) returns (data: seq<Claim>)
      ensures forall c :: c in data <==> c in claims && !c.id.backup
    {
      data := [];
      for i := 0 to |claims|
        invariant forall c :: c in data <==> c in claims[..i] && !c.id.backup
      {
        assert forall c :: c in claims[..i + 1] <==> c in claims[..i] || c == claims[i];
        if !claims[i].id.backup {
          data := data + [claims[i]];
        }
      }
      assert claims[..|claims|] == claims;
    }

    /** The copy step of a restore: it only watches. */
    method WatchCopy(x: Input)
      requires status == Fresh(x)
      modifies `status
      ensures status == CountAll(x).(phase :=
        if x.pods == [] then Restoring else if forall c :: c in x.claims ==> c.id.backup then FailedPhase else x.phase)
    {
      hide RunningOnes, WaitingOnes, SuffixesOf;
      CountPods(x);
      var data := SplitClaims(x.claims);
      SomebodyIn(data);
      if |data| == 0 {
        status := status.(phase := FailedPhase);
      }
      if |x.pods| == 0 {
        status := status.(phase := Restoring);
      }
    }

    /** syncGalera. */
    method SyncPhases(y: SyncInput) returns (ok: bool)
      requires CanDraw(y.round) && Distinct(y.round.pods)
      modifies this
      ensures var plan := SyncPlan(y);
        Ran(old(log), old(budget), log, budget, plan.calls, plan.ok, ok) && (ok ==> status == plan.status)
    {
      hide Ran, PlanRound, Schedule, RunningOnes, WaitingOnes, SuffixesOf;
      RanNone(log, budget, true);
      RanNone(log, budget, false);
      var x := y.round;
      status := Fresh(x).(phase := Unset, conditions := []);
      if y.deleting {
        return true;
      }
      if !y.credentials {
        return false;
      }
      if Lookup(x.conditions, IsUpgradingKind).None? {
        if y.permit.Errored? {
          return false;
        }
        if y.permit.Refused? {
          x := x.(next := x.current);
        }
      }
      status := Fresh(x);
      match x.phase {
        case Unset =>
          var s := new GaleraStatus(Unset, x.conditions);
          if y.restore.None? {
            s.phase := Creating;
            s.Set(ScalingUp(0, x.replicas));
          } else {
            s.phase := ScheduleRestore;
            s.Set(RestoringFrom(y.restore.value));
          }
          status := status.(phase := s.phase, conditions := s.conditions);
          ok := true;
        case FailedPhase =>
          ok := false;
        case ScheduleRestore =>
          ok := ScheduleGaleraRestore(x);
          if ok { AllRan(old(log), old(budget), log, budget, Schedule(x).calls, Schedule(x).ok); }
          if ok && |status.members.ready| == x.replicas {
            status := status.(phase := CopyRestore);
          }
        case CopyRestore =>
          WatchCopy(x);
          ok := true;
        case Creating | Backuping | Restoring | Running =>
          ok := RunGalera(x);
        case UnknownPhase =>
          status := status.(phase := FailedPhase);
          ok := true;
      }
    }
  }

  /** The status object of the cluster. */
  class StoredStatus {
    var stored: Stored

    constructor (stored: Stored)
      ensures this.stored == stored
    {
      this.stored := stored;
    }

    /** updateGaleraStatus: completes the rolling update, and writes what looks different. */
    method UpdateGaleraStatus(computed: Stored, replicas: int)
      modifies this
      ensures stored == (var now := CompleteRollingUpdate(computed, replicas); if Inconsistent(old(stored), now) then now else old(stored))
    {
      var now := computed;
      if now.summary.nextReplicas == now.summary.replicas && |now.summary.members.ready| == now.summary.replicas
         && replicas == now.summary.replicas {
        now := now.(summary := now.summary.(currentReplicas := now.summary.nextReplicas));
        now := now.(currentRev := now.nextRev);
        now := now.(summary := now.summary.(nextReplicas := 0));
        now := now.(nextRev := "");
      }
      if Inconsistent(stored, now) {
        stored := now;
      }
    }

    /** SyncGalera: the status is updated only when no call was rejected and nothing ended in an error. */
    method SyncGalera(control: GaleraControl, y: SyncInput, generation: int) returns (ok: bool)
      requires CanDraw(y.round) && Distinct(y.round.pods)
      modifies this, control
      ensures stored == if |SyncPlan(y).calls| <= old(control.budget) then Store(old(stored), y, generation) else old(stored)
      ensures control.log == old(control.log) + Issued(SyncPlan(y).calls, old(control.budget))
      ensures ok <==> SyncPlan(y).ok && |SyncPlan(y).calls| <= old(control.budget)
    {
      hide SyncPlan, CompleteRollingUpdate, Inconsistent;
      ok := control.SyncPhases(y);
      if ok {
        UpdateGaleraStatus(Stored(generation, y.round.currentRev, y.round.nextRev, control.status), y.round.replicas);
      }
    }
  }

  /** A plan that failed in its first part: for want of budget, or as planned. */
  lemma StoppedAt(l0: seq<ApiCall>, b0: nat, l1: seq<ApiCall>, b1: nat, c1: seq<ApiCall>, p1: bool, c2: seq<ApiCall>,
      p2: bool)
    requires Ran(l0, b0, l1, b1, c1, p1, false)
    ensures p1 ==> Ran(l0, b0, l1, b1, c1 + c2, p2, false)
  {
    if p1 { RanOut(l0, b0, l1, b1, c1, c2, p2); }
  }

  lemma AllRan(l0: seq<ApiCall>, b0: nat, l1: seq<ApiCall>, b1: nat, c: seq<ApiCall>, p: bool)
    requires Ran(l0, b0, l1, b1, c, p, true)
    ensures p && Ran(l0, b0, l1, b1, c, true, true)
  {
  }

  lemma FailedAnyway(l0: seq<ApiCall>, b0: nat, l1: seq<ApiCall>, b1: nat, c: seq<ApiCall>)
    requires Ran(l0, b0, l1, b1, c, true, false)
    ensures Ran(l0, b0, l1, b1, c, false, false)
  {
  }

  lemma FailedAfter(l0: seq<ApiCall>, b0: nat, l1: seq<ApiCall>, b1: nat, c: seq<ApiCall>)
    requires Ran(l0, b0, l1, b1, c, true, true)
    ensures Ran(l0, b0, l1, b1, c, false, false)
  {
  }

  lemma PrependNone(s: Step)
    ensures Prepend([], s) == s
  {
    assert [] + s.calls == s.calls;
  }

  lemma PrependTwice(a: seq<ApiCall>, b: seq<ApiCall>, s: Step)
    ensures Prepend(a, Prepend(b, s)) == Prepend(a + b, s)
  {
    Regroup(a, b, s.calls);
  }

  lemma {:induction false} CollectsNothing(claims: seq<Claim>, used: seq<Suffix>, backups: seq<Suffix>, spec: ClaimSpec)
    ensures var col := Collect(claims, used, backups, spec); !col.operation ==> col.calls == []
  {
    if claims != [] { CollectsNothing(claims[1..], used, backups, spec); }
  }

  lemma TerminateSucceeds(x: Input, st: Summary, ready: seq<Pod>, unready: seq<Pod>, unused: seq<Suffix>)
    ensures Terminate(x, st, ready, unready, unused).ok
  {
    hide FirstUnused, FirstPlain, DeleteAll;
  }

  lemma AfterIgnoresStatus(x: Input, t: Tally, u: Tally, st: Summary, noAddress: bool, unused: seq<Suffix>)
    requires exists d :: d in x.draws && d !in t.suffixes
    requires u == t.(status := u.status)
    ensures AfterTermination(x, u, st, noAddress, unused) == AfterTermination(x, t, st, noAddress, unused)
  {
  }

  lemma SpecialKeepsStatus(x: Input, env: seq<EnvVar>, spec: ClaimSpec, st: Summary, special: Option<Pod>,
                           noAddress: bool, used: seq<Suffix>, unused: seq<Suffix>)
    requires exists d :: d in x.draws && d !in used
    ensures ManageSpecial(x, env, spec, st, special, noAddress, used, unused).status == st
  {
    hide PickSuffix, StateFor, NewPod, CreatePodAndClaim, UpgradeNode, DeleteForUpgrade;
  }

  lemma ReadyAreDistinct(x: Input)
    requires Distinct(x.pods) && Classify(x.pods, Start(x), x).Go?
    ensures var ready := Classify(x.pods, Start(x), x).tally.ready;
      forall i, j :: 0 <= i < j < |ready| ==> ready[i] != ready[j]
  {
    hide Classify, IsListed;
    ClosedLists(x.pods, Start(x), x);
    FilterDistinct(x.pods, IsListed);
    assert [] + Filter(x.pods, IsListed) == Filter(x.pods, IsListed);
  }

  /** The labelling that failed: for want of budget, or of a candidate. */
  lemma Unlabelled(l0: seq<ApiCall>, b0: nat, l1: seq<ApiCall>, b1: nat, l: Labelling, rest: Plan)
    requires Ran(l0, b0, l1, b1, l.calls, l.ok, false)
    ensures Ran(l0, b0, l1, b1, l.calls, false, false)
    ensures l.ok ==> forall p :: Ran(l0, b0, l1, b1, l.calls, p, false) && Ran(l0, b0, l1, b1, l.calls + rest.calls, p, false)
  {
    if l.ok {
      forall p ensures Ran(l0, b0, l1, b1, l.calls + rest.calls, p, false) {
        RanOut(l0, b0, l1, b1, l.calls, rest.calls, p);
      }
    }
  }

  lemma ReconcileIgnoresStatus(x: Input, t: Tally, u: Tally, st: Summary)
    requires exists d :: d in x.draws && d !in t.suffixes
    requires u == t.(status := u.status)
    ensures Reconcile(x, u, st) == Reconcile(x, t, st)
  {
    hide Collect, FirstToUpgrade, CreateOrWait, Terminate, Upgrade, ManageSpecial, Bootstrap.NoAddress;
  }
}
