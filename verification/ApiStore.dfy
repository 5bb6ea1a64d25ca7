/** The API store as the operator sees it: the pods and volume claims of one cluster, and the
    calls that change them. Objects are keyed by their name suffix: module Names proves that, for
    a member of the cluster, name and suffix determine each other. */
module ApiStore {

  datatype Option<+T> = None | Some(value: T)

  type Suffix = string
  type Revision = string
  type Image = string
  type ClaimSpec = string

  /** Values of the role label, and the roles a pod can be created for. */
  datatype Role = Writer | BackupWriter | Special | Backup | Reader | Restore | Unknown

  datatype State = Cluster | Standalone

  /** The labels the operator reads. An absent label is None; for the backup and reader labels
      Some(true) is the value "true" and Some(false) any other value. */
  datatype Labels = Labels(
    role: Option<Role>,
    backup: Option<bool>,
    reader: Option<bool>,
    state: State,
    rev: Revision)

  /** Pod phase and container states, folded: NoPhase is a pod the kubelet has not seen, Failed
      covers the Failed phase and a terminated container, Ready is running with every container
      ready. */
  datatype Health = NoPhase | Starting | Ready | Failed

  /** The answer of the wsrep_cluster_status query on a pod. */
  datatype Wsrep = Primary | NonPrimary | Unreachable

  datatype Pod = Pod(
    suffix: Suffix,
    labels: Labels,
    health: Health,
    wsrep: Wsrep,
    terminating: bool,
    ip: string,
    clusterInit: bool,
    image: Image)

  datatype ClaimId = ClaimId(suffix: Suffix, backup: bool)

  datatype Claim = Claim(id: ClaimId, rev: Revision, spec: ClaimSpec, terminating: bool)

  /** `prepared[s]` is a history variable: the revisions the data on data claim s was made ready
      for, because the claim was created at that revision or mysql_upgrade finished on it there. */
  datatype World = World(
    pods: map<Suffix, Pod>,
    claims: map<ClaimId, Claim>,
    prepared: map<Suffix, set<Revision>>)

  datatype ApiCall =
    | PatchPod(suffix: Suffix, labels: Labels)
    | DeletePod(suffix: Suffix)
    | DeleteClaim(id: ClaimId)
    | CreateClaim(id: ClaimId, rev: Revision, spec: ClaimSpec)
    | CreatePod(pod: Pod)
    | MysqlUpgrade(suffix: Suffix)
    | PatchClaim(suffix: Suffix, rev: Revision)

  function DataId(s: Suffix): ClaimId { ClaimId(s, false) }

  function BackupId(s: Suffix): ClaimId { ClaimId(s, true) }

  /** The API server accepts the call: the object named exists, or, for a creation, does not. */
  predicate Accepts(w: World, c: ApiCall) {
    match c
    case PatchPod(s, _) => s in w.pods
    case DeletePod(s) => s in w.pods
    case DeleteClaim(id) => id in w.claims
    case CreateClaim(id, _, _) => id !in w.claims
    case CreatePod(p) => p.suffix !in w.pods
    case MysqlUpgrade(s) => s in w.pods
    case PatchClaim(s, _) => DataId(s) in w.claims
  }

  /** The effect of an accepted call. Deletions are graceful: they set the deletion timestamp. */
  function Apply(w: World, c: ApiCall): World
    requires Accepts(w, c)
  {
    match c
    case PatchPod(s, l) => w.(pods := w.pods[s := w.pods[s].(labels := l)])
    case DeletePod(s) => w.(pods := w.pods[s := w.pods[s].(terminating := true)])
    case DeleteClaim(id) => w.(claims := w.claims[id := w.claims[id].(terminating := true)])
    case CreateClaim(id, rev, spec) =>
      w.(claims := w.claims[id := Claim(id, rev, spec, false)],
         prepared := if id.backup then w.prepared else w.prepared[id.suffix := {rev}])
    case CreatePod(p) => w.(pods := w.pods[p.suffix := p])
    case MysqlUpgrade(s) =>
      var before := if s in w.prepared then w.prepared[s] else {};
      w.(prepared := w.prepared[s := before + {w.pods[s].labels.rev}])
    case PatchClaim(s, rev) =>
      w.(claims := w.claims[DataId(s) := w.claims[DataId(s)].(rev := rev)])
  }

  /** The world after the calls, a rejected call changing nothing. */
  function ApplyAll(w: World, calls: seq<ApiCall>): World
    decreases calls
  {
    if calls == [] then w
    else ApplyAll(if Accepts(w, calls[0]) then Apply(w, calls[0]) else w, calls[1..])
  }

  lemma {:induction false} ApplyAllConcat(w: World, a: seq<ApiCall>, b: seq<ApiCall>)
    ensures ApplyAll(w, a + b) == ApplyAll(ApplyAll(w, a), b)
    decreases a
  {
    if a == [] {
      assert a + b == b;
    } else {
      assert (a + b)[1..] == a[1..] + b;
      ApplyAllConcat(if Accepts(w, a[0]) then Apply(w, a[0]) else w, a[1..], b);
    }
  }

  lemma ApplyOne(w: World, call: ApiCall)
    requires Accepts(w, call)
    ensures ApplyAll(w, [call]) == Apply(w, call)
  {
    hide Accepts, Apply;
    assert [call][1..] == [];
  }

  lemma ApplyTwo(w: World, a: ApiCall, b: ApiCall)
    requires Accepts(w, a) && Accepts(Apply(w, a), b)
    ensures ApplyAll(w, [a, b]) == Apply(Apply(w, a), b)
  {
    hide Accepts, Apply;
    assert [a, b][1..] == [b];
    ApplyOne(Apply(w, a), b);
  }

  lemma ApplyThree(w: World, a: ApiCall, b: ApiCall, d: ApiCall)
    requires Accepts(w, a) && Accepts(Apply(w, a), b) && Accepts(Apply(Apply(w, a), b), d)
    ensures ApplyAll(w, [a, b, d]) == Apply(Apply(Apply(w, a), b), d)
  {
    hide Accepts, Apply;
    assert [a, b, d][1..] == [b, d];
    ApplyTwo(Apply(w, a), b, d);
  }

  lemma SomebodyIn<T>(xs: seq<T>)
    ensures xs != [] ==> exists x :: x in xs
  {
    assert xs != [] ==> xs[0] in xs;
  }

  lemma Regroup<T>(a: seq<T>, b: seq<T>, c: seq<T>)
    ensures (a + b) + c == a + (b + c)
  {
  }

  /** `pods` and `claims` list the objects of the store, each once, in some order. */
  ghost predicate Lists(w: World, pods: seq<Pod>, claims: seq<Claim>) {
    && (forall p :: p in pods ==> p.suffix in w.pods && w.pods[p.suffix] == p)
    && (forall s :: s in w.pods ==> w.pods[s].suffix == s && w.pods[s] in pods)
    && (forall c :: c in claims ==> c.id in w.claims && w.claims[c.id] == c)
    && (forall id :: id in w.claims ==> w.claims[id].id == id && w.claims[id] in claims)
    && Distinct(pods)
    && DistinctClaims(claims)
  }

  ghost predicate Distinct(pods: seq<Pod>) {
    forall i, j :: 0 <= i < j < |pods| ==> pods[i].suffix != pods[j].suffix
  }

  ghost predicate DistinctClaims(claims: seq<Claim>) {
    forall i, j :: 0 <= i < j < |claims| ==> claims[i].id != claims[j].id
  }
}
