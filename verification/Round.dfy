/** One reconcile round as a function of its snapshot: the API calls it issues when the API accepts
    them all, the error it may end in, and the status it returns. A round that meets a rejected
    call stops there, so what a round really issues is a prefix of its plan (module Control). */
module Round {
  import opened ApiStore
  import opened Status
  import opened PodTemplate
  import opened Bootstrap

  datatype Members = Members(
    ready: seq<Suffix>,
    unready: seq<Suffix>,
    writer: Option<Suffix>,
    backupWriter: Option<Suffix>,
    backup: Option<Suffix>,
    special: Option<Suffix>)

  const NOBODY := Members([], [], None, None, None, None)

  datatype Summary = Summary(
    phase: Phase,
    conditions: seq<Condition>,
    replicas: int,
    currentReplicas: int,
    nextReplicas: int,
    members: Members)

  /** What ApplyRevision puts in a cluster object: the pod template and the claim spec. */
  datatype Template = Template(image: Image, claimSpec: ClaimSpec, env: seq<EnvVar>)

  datatype Input = Input(
    phase: Phase,
    conditions: seq<Condition>,
    replicas: int,
    special: Option<seq<EnvVar>>,
    current: Template,
    next: Template,
    currentRev: Revision,
    nextRev: Revision,
    pods: seq<Pod>,
    claims: seq<Claim>,
    draws: seq<Suffix>)

  datatype Plan = Plan(calls: seq<ApiCall>, ok: bool, status: Summary)

  function After(calls: seq<ApiCall>, p: Plan): Plan { p.(calls := calls + p.calls) }

  // ---- Label patches ----------------------------------------------------------------------

  datatype PatchAction = AddReader | RemoveReader | AddWriter | AddBackupWriter | RemoveRole

  function Act(l: Labels, a: PatchAction): Labels {
    match a
    case AddReader => l.(reader := Some(true))
    case RemoveReader => l.(reader := Some(false))
    case AddWriter => l.(role := Some(Writer))
    case AddBackupWriter => l.(role := Some(BackupWriter))
    case RemoveRole => l.(role := None)
  }

  /** A patch replaces the whole label map by the snapshot's labels, modified. */
  function Patch(p: Pod, a: PatchAction): ApiCall { PatchPod(p.suffix, Act(p.labels, a)) }

  function Patch2(p: Pod, a: PatchAction, b: PatchAction): ApiCall {
    PatchPod(p.suffix, Act(Act(p.labels, a), b))
  }

  // ---- Claims -----------------------------------------------------------------------------

  function FindClaim(claims: seq<Claim>, id: ClaimId): Option<Claim> {
    if claims == [] then None
    else if claims[0].id == id then Some(claims[0])
    else FindClaim(claims[1..], id)
  }

  predicate HasSuffix(claims: seq<Claim>, s: Suffix) {
    exists c :: c in claims && c.id.suffix == s
  }

  /** ForceDeletePodAndClaim; false is the error of a claim that cannot be found. */
  function DeletePodAndClaim(p: Pod, claims: seq<Claim>): (seq<ApiCall>, bool) {
    var alsoBackup := p.labels.role == Some(Restore) || p.labels.role == Some(Backup);
    if alsoBackup && FindClaim(claims, BackupId(p.suffix)).None? then ([], false)
    else
      var first := if alsoBackup then [DeleteClaim(BackupId(p.suffix))] else [];
      if FindClaim(claims, DataId(p.suffix)).None? then (first, false)
      else (first + [DeleteClaim(DataId(p.suffix)), DeletePod(p.suffix)], true)
  }

  /** DeleteSyncedPodForUpgrade: the data claim goes too when it does not match the spec. */
  function DeleteForUpgrade(p: Pod, claims: seq<Claim>, spec: ClaimSpec): (seq<ApiCall>, bool) {
    match FindClaim(claims, DataId(p.suffix))
    case None => ([], false)
    case Some(c) =>
      if c.spec == spec then ([DeletePod(p.suffix)], true)
      else ([DeleteClaim(c.id), DeletePod(p.suffix)], true)
  }

  // ---- Classification ---------------------------------------------------------------------

  predicate Healthy(p: Pod) { p.health.Ready? && !p.terminating }

  predicate IsBackup(p: Pod) { p.labels.backup == Some(true) }

  predicate LacksClaims(p: Pod, claims: seq<Claim>) {
    if IsBackup(p)
    then !(exists c :: c in claims && c.id == DataId(p.suffix))
      || !(exists c :: c in claims && c.id == BackupId(p.suffix))
    else !HasSuffix(claims, p.suffix)
  }

  /** The first healthy pod whose claims are missing. */
  function Orphan(pods: seq<Pod>, claims: seq<Claim>): Option<Pod> {
    if pods == [] then None
    else if Healthy(pods[0]) && LacksClaims(pods[0], claims) then Some(pods[0])
    else Orphan(pods[1..], claims)
  }

  datatype Tally = Tally(
    status: Summary,
    ready: seq<Pod>,
    unready: seq<Pod>,
    special: Option<Pod>,
    suffixes: seq<Suffix>,
    backups: seq<Suffix>,
    terminating: bool)

  /** Either the loop goes on with a new tally, or the round ends here. */
  datatype Step = Go(tally: Tally, calls: seq<ApiCall>) | Stop(calls: seq<ApiCall>, ok: bool, status: Summary)

  function Prepend(calls: seq<ApiCall>, s: Step): Step {
    match s
    case Go(t, cs) => Go(t, calls + cs)
    case Stop(cs, ok, st) => Stop(calls + cs, ok, st)
  }

  function StopDeleting(p: Pod, claims: seq<Claim>, st: Summary): Step {
    var (calls, ok) := DeletePodAndClaim(p, claims);
    Stop(calls, ok, st)
  }

  /** What the role label of a ready primary pod leads to; the flag says the pod joins the ready ones. */
  datatype RoleStep = Joined(tally: Tally, joins: bool, calls: seq<ApiCall>) | Rejected(tally: Tally)

  function ByRole(p: Pod, t: Tally): RoleStep {
    var m := t.status.members;
    match p.labels.role
    case None => Joined(t, false, [])
    case Some(Writer) =>
      if m.writer.None? then Joined(t.(status := t.status.(members := m.(writer := Some(p.suffix)))), true, [])
      else Joined(t, true, [Patch2(p, RemoveRole, AddReader)])
    case Some(BackupWriter) =>
      if m.backupWriter.None? then Joined(t.(status := t.status.(members := m.(backupWriter := Some(p.suffix)))), true, [])
      else Joined(t, true, [Patch2(p, RemoveRole, AddReader)])
    case Some(Special) =>
      var fewer := t.status.(replicas := t.status.replicas - 1);
      if m.special.None?
      then Joined(t.(special := Some(p), status := fewer.(members := m.(special := Some(p.suffix)))), false, [])
      else Rejected(t.(status := fewer))
    case Some(_) => Rejected(t)
  }

  function ClassifyPrimary(p: Pod, t: Tally, claims: seq<Claim>): Step {
    match ByRole(p, t)
    case Rejected(t1) => StopDeleting(p, claims, t1.status)
    case Joined(t1, joins, calls) =>
      var m := t1.status.members;
      if IsBackup(p) && m.backup.Some? then Prepend(calls, StopDeleting(p, claims, t1.status))
      else
        var t2 := if IsBackup(p)
          then t1.(status := t1.status.(members := m.(backup := Some(p.suffix))), backups := t1.backups + [p.suffix])
          else t1;
        var listed := joins || IsBackup(p) || p.labels.reader == Some(true);
        Go(if listed then t2.(ready := t2.ready + [p]) else t2, calls)
  }

  function ClassifyUnready(p: Pod, t: Tally): Tally {
    var t1 := if p.labels.role == Some(Special) then t.(special := Some(p)) else t.(unready := t.unready + [p]);
    if IsBackup(p) then t1.(backups := t1.backups + [p.suffix]) else t1
  }

  function Count(p: Pod, t: Tally, currentRev: Revision, nextRev: Revision): Tally {
    var counted := !p.health.NoPhase? && !p.terminating && t.special != Some(p);
    var st := t.status;
    t.(suffixes := t.suffixes + [p.suffix],
       status := st.(
         currentReplicas := st.currentReplicas + (if counted && p.labels.rev == currentRev then 1 else 0),
         nextReplicas := st.nextReplicas + (if counted && p.labels.rev == nextRev then 1 else 0)))
  }

  /** One turn of the classification loop. */
  function ClassifyPod(p: Pod, t: Tally, x: Input): Step {
    var t0 := t.(status := t.status.(replicas := t.status.replicas + 1));
    if p.terminating then Go(t0.(terminating := true), [])
    else if p.health.Ready? && p.wsrep.Unreachable? then Stop([], false, t0.status)
    else if p.health.Ready? && p.wsrep.Primary? then
      match ClassifyPrimary(p, t0, x.claims)
      case Stop(calls, ok, st) => Stop(calls, ok, st)
      case Go(t1, calls) => Go(Count(p, t1, x.currentRev, x.nextRev), calls)
    else Go(Count(p, ClassifyUnready(p, t0), x.currentRev, x.nextRev), [])
  }

  function Classify(pods: seq<Pod>, t: Tally, x: Input): Step
    decreases pods
  {
    if pods == [] then Go(t, [])
    else match ClassifyPod(pods[0], t, x)
      case Stop(calls, ok, st) => Stop(calls, ok, st)
      case Go(t1, calls) => Prepend(calls, Classify(pods[1..], t1, x))
  }

  function Fresh(x: Input): Summary { Summary(x.phase, x.conditions, 0, 0, 0, NOBODY) }

  function Start(x: Input): Tally { Tally(Fresh(x), [], [], None, [], [], false) }

  function SuffixesOf(pods: seq<Pod>): seq<Suffix> {
    if pods == [] then [] else [pods[0].suffix] + SuffixesOf(pods[1..])
  }

  // ---- Roles ------------------------------------------------------------------------------

  datatype Labelling = Labelling(calls: seq<ApiCall>, ok: bool, members: Members)

  /** The last pod that carries the backup label at all. */
  function LastBackup(ready: seq<Pod>): Option<Pod> {
    if ready == [] then None
    else if LastBackup(ready[1..]).Some? then LastBackup(ready[1..])
    else if ready[0].labels.backup.Some? then Some(ready[0]) else None
  }

  /** The first pod without role and backup labels, other than the one excluded. */
  function Candidate(ready: seq<Pod>, excluded: Option<Suffix>): Option<Pod> {
    if ready == [] then None
    else if ready[0].labels.backup.None? && ready[0].labels.role.None? && excluded != Some(ready[0].suffix)
    then Some(ready[0])
    else Candidate(ready[1..], excluded)
  }

  /** Takes the writer out of the readers, if the snapshot has it there. */
  function DropReader(ready: seq<Pod>, writer: Option<Suffix>): seq<ApiCall> {
    if ready == [] then []
    else if writer == Some(ready[0].suffix) && ready[0].labels.reader == Some(true)
    then [Patch(ready[0], RemoveReader)]
    else DropReader(ready[1..], writer)
  }

  /** Makes backup writers of the pods other than the writer: with two ready pods, of the other one. */
  function OthersToBackupWriter(ready: seq<Pod>, m: Members): Labelling
    decreases ready
  {
    if ready == [] then Labelling([], true, m)
    else if m.writer != Some(ready[0].suffix) then
      var rest := OthersToBackupWriter(ready[1..], m.(backupWriter := Some(ready[0].suffix)));
      rest.(calls := [Patch2(ready[0], AddReader, AddBackupWriter)] + rest.calls)
    else OthersToBackupWriter(ready[1..], m)
  }

  function LabelTwo(ready: seq<Pod>, m: Members): Labelling
    requires |ready| == 2
  {
    if m.writer.None? then
      var b := LastBackup(ready);
      var w := if b == Some(ready[0]) then ready[1] else ready[0];
      var other := if b.Some? then b.value else ready[1];
      Labelling([Patch2(w, RemoveReader, AddWriter), Patch2(other, AddReader, AddBackupWriter)], true,
                m.(writer := Some(w.suffix), backupWriter := Some(other.suffix)))
    else
      var l := if m.backupWriter.None? then OthersToBackupWriter(ready, m) else Labelling([], true, m);
      l.(calls := l.calls + DropReader(ready, l.members.writer))
  }

  function LabelMany(ready: seq<Pod>, m: Members): Labelling {
    var w := Candidate(ready, None);
    if m.writer.None? && w.None? then Labelling([], false, m)
    else
      var (c1, m1) := if m.writer.None?
        then ([Patch2(w.value, RemoveReader, AddWriter)], m.(writer := Some(w.value.suffix)))
        else ([], m);
      var b := Candidate(ready, m1.writer);
      if m1.backupWriter.None? && b.None? then Labelling(c1, false, m1)
      else
        // The backup-writer candidate is recorded as writer.
        var (c2, m2) := if m1.backupWriter.None?
          then ([Patch2(b.value, AddReader, AddBackupWriter)], m1.(writer := Some(b.value.suffix)))
          else ([], m1);
        Labelling(c1 + c2 + DropReader(ready, m2.writer), true, m2)
  }

  function SetLabels(ready: seq<Pod>, m: Members): Labelling {
    if |ready| == 0 then Labelling([], true, m)
    else if |ready| == 1 then Labelling([Patch2(ready[0], AddReader, AddWriter)], true, m)
    else if |ready| == 2 then LabelTwo(ready, m)
    else LabelMany(ready, m)
  }

  function ChooseRole(m: Members): Role {
    if m.writer.None? then Writer
    else if m.backupWriter.None? then BackupWriter
    else if m.backup.None? then Backup
    else Reader
  }

  // ---- Phase and conditions ---------------------------------------------------------------

  /** Lost when every node is out of the primary component; the round then ends in an error. */
  predicate MajorityLost(ready: int, unready: int) { ready == 0 && unready > 1 }

  /** The status computed then. */
  function Lost(st: Summary): Summary {
    var failed := SetCondition(st.conditions, DISASTER);
    st.(phase := FailedPhase,
        conditions := ClearCondition(ClearCondition(ClearCondition(failed, IsReadyKind), IsScalingKind), IsUpgradingKind))
  }

  function SetPhase(st: Summary, replicas: int, image: Image, newImage: bool): Summary {
    var scaled :=
      if st.replicas < replicas then SetCondition(st.conditions, ScalingUp(st.replicas, replicas))
      else if st.replicas > replicas then SetCondition(st.conditions, ScalingDown(st.replicas, replicas))
      else ClearCondition(st.conditions, IsScalingKind);
    match st.phase
    case Creating | Restoring =>
      if st.replicas == replicas
      then st.(phase := Running, conditions := SetCondition(ClearCondition(scaled, IsRestoringKind), READY))
      else st.(conditions := scaled)
    case Running | Backuping =>
      st.(conditions := if newImage then SetCondition(scaled, UpgradingTo(image)) else ClearCondition(scaled, IsUpgradingKind))
    case _ => st.(conditions := scaled)
  }

  // ---- Claim collection -------------------------------------------------------------------

  datatype Collected = Collected(unused: seq<Suffix>, calls: seq<ApiCall>, operation: bool)

  function Collect(claims: seq<Claim>, used: seq<Suffix>, backups: seq<Suffix>, spec: ClaimSpec): Collected {
    if claims == [] then Collected([], [], false)
    else
      var c := claims[0];
      if c.terminating then Collected([], [], true)
      else if (if c.id.backup then c.id.suffix in backups else c.id.suffix in used)
      then Collect(claims[1..], used, backups, spec)
      else if c.id.backup || c.spec != spec then Collected([], [DeleteClaim(c.id)], true)
      else
        var rest := Collect(claims[1..], used, backups, spec);
        rest.(unused := [c.id.suffix] + rest.unused)
  }

  // ---- mysql_upgrade ----------------------------------------------------------------------

  function ClaimRevision(claims: seq<Claim>, s: Suffix): Revision {
    match FindClaim(claims, DataId(s)) case None => "" case Some(c) => c.rev
  }

  /** Upgrade, then delete the pod, then relabel its claim; the claim is looked up last. */
  function UpgradeNode(p: Pod, claims: seq<Claim>): (seq<ApiCall>, bool) {
    if FindClaim(claims, DataId(p.suffix)).None? then ([MysqlUpgrade(p.suffix), DeletePod(p.suffix)], false)
    else ([MysqlUpgrade(p.suffix), DeletePod(p.suffix), PatchClaim(p.suffix, p.labels.rev)], true)
  }

  predicate NeedsUpgrade(p: Pod, claims: seq<Claim>) {
    p.health.Ready? && p.labels.rev != ClaimRevision(claims, p.suffix)
  }

  function FirstToUpgrade(unready: seq<Pod>, claims: seq<Claim>): Option<Pod> {
    if unready == [] then None
    else if NeedsUpgrade(unready[0], claims) then Some(unready[0])
    else FirstToUpgrade(unready[1..], claims)
  }

  // ---- Pod creation -----------------------------------------------------------------------

  datatype Gate = Pass | Wait | Replace(pod: Pod)

  function UnreadyGate(unready: seq<Pod>): Gate {
    if unready == [] then Pass
    else if unready[0].health.Failed? then Replace(unready[0])
    else if unready[0].terminating || !unready[0].health.Ready? then Wait
    else UnreadyGate(unready[1..])
  }

  function FirstFresh(draws: seq<Suffix>, existing: seq<Suffix>): Suffix
    requires exists d :: d in draws && d !in existing
  {
    if draws[0] !in existing then draws[0] else FirstFresh(draws[1..], existing)
  }

  function PickSuffix(x: Input, existing: seq<Suffix>, available: seq<Suffix>): Suffix
    requires exists d :: d in x.draws && d !in existing
  {
    if available != [] then available[0] else FirstFresh(x.draws, existing)
  }

  /** The claim for the pod, unless it exists; a terminating one is an error. */
  function EnsureClaim(id: ClaimId, rev: Revision, spec: ClaimSpec, claims: seq<Claim>): (seq<ApiCall>, bool) {
    match FindClaim(claims, id)
    case None => ([CreateClaim(id, rev, spec)], true)
    case Some(c) => ([], !c.terminating)
  }

  function CreatePodAndClaim(p: Pod, role: Role, spec: ClaimSpec, claims: seq<Claim>): (seq<ApiCall>, bool) {
    var (c1, ok1) := EnsureClaim(DataId(p.suffix), p.labels.rev, spec, claims);
    if !ok1 then (c1, false)
    else if role.Backup? then
      var (c2, ok2) := EnsureClaim(BackupId(p.suffix), p.labels.rev, spec, claims);
      if !ok2 then (c1 + c2, false) else (c1 + c2 + [CreatePod(p)], true)
    else (c1 + [CreatePod(p)], true)
  }

  /** The pod object newGaleraPod builds, as the API stores it: not yet seen by a kubelet. */
  function NewPod(s: Suffix, role: Role, rev: Revision, state: State, image: Image, env: seq<EnvVar>,
                  noAddress: bool, init: bool): Pod
  {
    Pod(s, PodLabels(role, rev, state), NoPhase, NonPrimary, false, "",
        HasClusterInit(GaleraEnv(env, noAddress, init)), image)
  }

  function StateFor(s: Suffix, role: Role, rev: Revision, claims: seq<Claim>): State {
    var c := FindClaim(claims, DataId(s));
    if role.Restore? || (c.Some? && c.value.rev != rev) then Standalone else Cluster
  }

  /** Creates a pod of the chosen revision, or deals with an unready one first. */
  function CreateOrWait(x: Input, spec: Template, st: Summary, unready: seq<Pod>, chosen: Revision, role: Role,
                        noAddress: bool, used: seq<Suffix>, unused: seq<Suffix>): Plan
    requires exists d :: d in x.draws && d !in used
  {
    match UnreadyGate(unready)
    case Wait => Plan([], true, st)
    case Replace(p) =>
      Plan([DeletePod(p.suffix)], true,
           st.(currentReplicas := st.currentReplicas - (if p.labels.rev == x.currentRev then 1 else 0),
               nextReplicas := st.nextReplicas - (if p.labels.rev == x.nextRev then 1 else 0)))
    case Pass =>
      var s := PickSuffix(x, used, unused);
      var init := !st.phase.Restoring? && noAddress;
      var p := NewPod(s, role, chosen, StateFor(s, role, chosen, x.claims), spec.image, spec.env, noAddress, init);
      var (calls, ok) := CreatePodAndClaim(p, role, spec.claimSpec, x.claims);
      var more := st.(replicas := st.replicas + 1);
      Plan(calls, ok, if chosen == x.currentRev then more.(currentReplicas := st.currentReplicas + 1)
                      else more.(nextReplicas := st.nextReplicas + 1))
  }

  // ---- Special node -----------------------------------------------------------------------

  function ManageSpecial(x: Input, env: seq<EnvVar>, spec: ClaimSpec, st: Summary, special: Option<Pod>,
                         noAddress: bool, used: seq<Suffix>, unused: seq<Suffix>): Plan
    requires exists d :: d in x.draws && d !in used
  {
    match special
    case None =>
      var s := PickSuffix(x, used, unused);
      var p := NewPod(s, Special, x.nextRev, StateFor(s, Special, x.nextRev, x.claims), x.next.image, env, noAddress, false);
      var (calls, ok) := CreatePodAndClaim(p, Special, spec, x.claims);
      Plan(calls, ok, st)
    case Some(p) =>
      if p.health.Failed? then Plan([DeletePod(p.suffix)], true, st)
      else if p.terminating || !p.health.Ready? then Plan([], true, st)
      else if NeedsUpgrade(p, x.claims) then
        var (calls, ok) := UpgradeNode(p, x.claims);
        Plan(calls, ok, st)
      else if p.labels.rev != x.nextRev then
        var (calls, ok) := DeleteForUpgrade(p, x.claims, spec);
        Plan(calls, ok, st)
      else Plan([], true, st)
  }

  // ---- Termination and upgrade ------------------------------------------------------------

  function DeleteAll(pods: seq<Pod>): seq<ApiCall> {
    if pods == [] then [] else [DeletePod(pods[0].suffix)] + DeleteAll(pods[1..])
  }

  /** The first claim, data or backup, whose suffix is among the unused ones. */
  function FirstUnused(claims: seq<Claim>, unused: seq<Suffix>): Option<Claim> {
    if claims == [] then None
    else if claims[0].id.suffix in unused then Some(claims[0])
    else FirstUnused(claims[1..], unused)
  }

  predicate Plain(p: Pod) { p.labels.role.None? && p.labels.backup.None? }

  function FirstPlain(ready: seq<Pod>): Option<Pod> {
    if ready == [] then None else if Plain(ready[0]) then Some(ready[0]) else FirstPlain(ready[1..])
  }

  function Terminate(x: Input, st: Summary, ready: seq<Pod>, unready: seq<Pod>, unused: seq<Suffix>): Plan {
    var process := x.special.None? || st.members.special.Some?;
    var orphan := if process then FirstUnused(x.claims, unused) else None;
    if orphan.Some? then Plan([DeleteClaim(orphan.value.id)], true, st)
    else
      var deletions := if process then DeleteAll(unready) else [];
      var excess := if |ready| > x.replicas then FirstPlain(ready) else None;
      match excess
      case None => Plan(deletions, true, st)
      case Some(p) =>
        Plan(deletions + [DeletePod(p.suffix)], true,
             st.(currentReplicas := st.currentReplicas - (if p.labels.rev == x.currentRev then 1 else 0),
                 nextReplicas := st.nextReplicas - (if p.labels.rev == x.nextRev then 1 else 0)))
  }

  datatype Turn = NobodysTurn | Unhealthy | TurnOf(pod: Pod)

  /** Whose turn it is to be replaced: the first ready pod that is not at the next revision. */
  function NextTurn(ready: seq<Pod>, nextRev: Revision): Turn {
    if ready == [] then NobodysTurn
    else if !Healthy(ready[0]) then Unhealthy
    else if ready[0].labels.rev != nextRev then TurnOf(ready[0])
    else NextTurn(ready[1..], nextRev)
  }

  /** None when the round goes on to the special node. */
  function Upgrade(x: Input, spec: ClaimSpec, st: Summary, ready: seq<Pod>): Option<Plan> {
    if x.currentRev == x.nextRev then None
    else match NextTurn(ready, x.nextRev)
      case NobodysTurn => None
      case Unhealthy => Some(Plan([], true, st))
      case TurnOf(p) =>
        var (calls, ok) := DeleteForUpgrade(p, x.claims, spec);
        Some(Plan(calls, ok, st.(currentReplicas := st.currentReplicas - 1)))
  }

  // ---- The round --------------------------------------------------------------------------

  predicate CanDraw(x: Input) { exists d :: d in x.draws && d !in SuffixesOf(x.pods) }

  /** From the point where every pod is classified and the role labels are set. */
  function Reconcile(x: Input, t: Tally, st: Summary): Plan
    requires exists d :: d in x.draws && d !in t.suffixes
  {
    var col := Collect(x.claims, t.suffixes, t.backups, x.next.claimSpec);
    if col.operation then Plan(col.calls, true, st)
    else match FirstToUpgrade(t.unready, x.claims)
      case Some(p) =>
        var (calls, ok) := UpgradeNode(p, x.claims);
        Plan(calls, ok, st)
      case None =>
        var noAddress := NoAddress(t.ready);
        if |t.ready| < x.replicas then
          CreateOrWait(x, x.next, st, t.unready, if st.phase.Restoring? then x.currentRev else x.nextRev,
                       ChooseRole(st.members), noAddress, t.suffixes, col.unused)
        else
          var terminated := Terminate(x, st, t.ready, t.unready, col.unused);
          After(terminated.calls, AfterTermination(x, t, terminated.status, noAddress, col.unused))
  }

  function AfterTermination(x: Input, t: Tally, st: Summary, noAddress: bool, unused: seq<Suffix>): Plan
    requires exists d :: d in x.draws && d !in t.suffixes
  {
    match Upgrade(x, x.next.claimSpec, st, t.ready)
    case Some(p) => p
    case None =>
      match x.special
      case Some(env) => ManageSpecial(x, env, x.next.claimSpec, st, t.special, noAddress, t.suffixes, unused)
      case None =>
        if t.special.Some? && !t.special.value.terminating then
          var (calls, ok) := DeletePodAndClaim(t.special.value, x.claims);
          Plan(calls, ok, st)
        else Plan([], true, st)
  }

  /** The status once the role labels are set and the members listed. */
  function Listed(t: Tally): Summary {
    var l := SetLabels(t.ready, t.status.members);
    t.status.(members := l.members.(ready := SuffixesOf(t.ready), unready := SuffixesOf(t.unready)))
  }

  function Phased(x: Input, t: Tally): Summary {
    SetPhase(Listed(t), x.replicas, x.next.image, x.current.image != x.next.image)
  }

  function Settle(x: Input, t: Tally): Plan
    requires exists d :: d in x.draws && d !in t.suffixes
  {
    var l := SetLabels(t.ready, t.status.members);
    var st := Listed(t);
    if !l.ok then Plan(l.calls, false, st)
    else if t.terminating then Plan(l.calls, true, st)
    else if MajorityLost(|t.ready|, |t.unready|) then Plan(l.calls, false, Lost(st))
    else
      After(l.calls, Reconcile(x, t, Phased(x, t)))
  }

  function PlanRound(x: Input): Plan
    requires CanDraw(x)
  {
    match Orphan(x.pods, x.claims)
    case Some(p) => Plan([DeletePod(p.suffix)], true, Fresh(x))
    case None =>
      match Classify(x.pods, Start(x), x)
      case Stop(calls, ok, st) => Plan(calls, ok, st)
      case Go(t, calls) =>
        ClassifySuffixes(x.pods, Start(x), x);
        After(calls, Settle(x, t))
  }

  /** The suffixes gathered are pod suffixes, so a draw that avoids the pods avoids them too. */
  lemma {:induction false} ClassifySuffixes(pods: seq<Pod>, t: Tally, x: Input)
    ensures var s := Classify(pods, t, x);
      s.Go? ==> forall f :: f in s.tally.suffixes ==> f in t.suffixes || f in SuffixesOf(pods)
    decreases pods
  {
    if pods != [] {
      var s := ClassifyPod(pods[0], t, x);
      if s.Go? {
        ClassifySuffixes(pods[1..], s.tally, x);
        ClassifyPodSuffixes(pods[0], t, x);
      }
    }
  }

  lemma ClassifyPodSuffixes(p: Pod, t: Tally, x: Input)
    requires ClassifyPod(p, t, x).Go?
    ensures ClassifyPod(p, t, x).tally.suffixes == if p.terminating then t.suffixes else t.suffixes + [p.suffix]
  {
    hide DeletePodAndClaim, Patch2;
  }
}
