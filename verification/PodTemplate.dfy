/** Labels and environment of the pods the operator creates. */
module PodTemplate {
  import opened ApiStore

  datatype EnvVar = EnvVar(name: string, value: string)

  const CLUSTER_INIT := "CLUSTER_INIT"

  /** mergeEnvs: e1, then the entries of e2 that are not CLUSTER_INIT. */
  function MergeEnvs(e1: seq<EnvVar>, e2: seq<EnvVar>): seq<EnvVar>
    decreases e2
  {
    if e2 == [] then e1
    else MergeEnvs(if e2[0].name == CLUSTER_INIT then e1 else e1 + [e2[0]], e2[1..])
  }

  /** appendGaleraEnv. */
  function GaleraEnv(user: seq<EnvVar>, noAddress: bool, init: bool): seq<EnvVar> {
    MergeEnvs(if noAddress && init then [EnvVar(CLUSTER_INIT, "true")] else [], user)
  }

  predicate HasClusterInit(env: seq<EnvVar>) {
    exists i :: 0 <= i < |env| && env[i].name == CLUSTER_INIT
  }

  function Others(env: seq<EnvVar>): seq<EnvVar> {
    if env == [] then []
    else (if env[0].name == CLUSTER_INIT then [] else [env[0]]) + Others(env[1..])
  }

  lemma {:induction false} MergeIsFilter(e1: seq<EnvVar>, e2: seq<EnvVar>)
    ensures MergeEnvs(e1, e2) == e1 + Others(e2)
    decreases e2
  {
    hide HasClusterInit;
    if e2 == [] {
      assert e1 + [] == e1;
    } else {
      var e := if e2[0].name == CLUSTER_INIT then e1 else e1 + [e2[0]];
      MergeIsFilter(e, e2[1..]);
      var first := if e2[0].name == CLUSTER_INIT then [] else [e2[0]];
      Regroup(e1, first, Others(e2[1..]));
    }
  }

  lemma {:induction false} OthersClean(env: seq<EnvVar>)
    ensures !HasClusterInit(Others(env))
    ensures Others(Others(env)) == Others(env)
  {
    if env != [] {
      OthersClean(env[1..]);
      var rest := Others(env[1..]);
      if env[0].name == CLUSTER_INIT {
        assert Others(env) == rest;
      } else {
        assert Others(env) == [env[0]] + rest;
        assert Others(env)[1..] == rest;
        forall i | 0 <= i < |Others(env)| ensures Others(env)[i].name != CLUSTER_INIT {
          assert i > 0 ==> Others(env)[i] == rest[i - 1];
        }
      }
    }
  }

  /** A container is told to start a new cluster exactly when it has no address to join and the
      operator asked for it: the user's own variables can neither add nor remove the order. */
  lemma OnlyOperatorBootstraps(user: seq<EnvVar>, noAddress: bool, init: bool)
    ensures HasClusterInit(GaleraEnv(user, noAddress, init)) <==> noAddress && init
    ensures Others(GaleraEnv(user, noAddress, init)) == Others(user)
    ensures GaleraEnv(user, noAddress, init) ==
      (if noAddress && init then [EnvVar("CLUSTER_INIT", "true")] else []) + Others(user)
  {
    var e1 := if noAddress && init then [EnvVar(CLUSTER_INIT, "true")] else [];
    MergeIsFilter(e1, user);
    OthersClean(user);
    if noAddress && init {
      assert (e1 + Others(user))[0].name == CLUSTER_INIT;
      assert (e1 + Others(user))[1..] == Others(user);
    } else {
      assert [] + Others(user) == Others(user);
    }
  }

  /** mergeEnvs as the loop that appends. */
  method MergeEnvLists(e1: seq<EnvVar>, e2: seq<EnvVar>) returns (env: seq<EnvVar>)
    ensures env == e1 + Others(e2)
  {
    env := e1;
    var i := 0;
    while i < |e2|
      invariant 0 <= i <= |e2|
      invariant MergeEnvs(e1, e2) == MergeEnvs(env, e2[i..])
    {
      assert e2[i..][1..] == e2[i + 1..];
      if e2[i].name != CLUSTER_INIT {
        env := env + [e2[i]];
      }
      i := i + 1;
    }
    MergeIsFilter(e1, e2);
  }

  /** PodLabelsForGalera: the labels of a new pod. */
  function PodLabels(role: Role, rev: Revision, state: State): Labels {
    match role
    case Writer | Special => Labels(Some(role), None, Some(false), state, rev)
    case BackupWriter => Labels(Some(role), None, Some(true), state, rev)
    case Backup => Labels(None, Some(true), Some(true), state, rev)
    case Restore => Labels(Some(role), None, None, state, rev)
    case Reader => Labels(None, None, Some(true), state, rev)
    case Unknown => Labels(None, None, None, state, rev)
  }
}
