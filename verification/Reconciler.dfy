/**
 syncHandler as a sequence of API steps (controller.go).  Every step reads or writes the
 register of one key; between two steps anything else may happen.
 */
module Reconciler {
  import opened Basics
  import opened Settings
  import opened Cluster

  /** Gone: the injector is not in the lister any more, which ends the sync without an error. */
  datatype Verdict = Gone | Failed | Succeeded

  datatype Pc =
    | Start
    | GetIssuer | ApplyIssuer | GetCertificate | ApplyCertificate
    | GetSecret | CreateSecret
    | GetWebhook | CreateWebhook
    | GetDeployment | CreateDeployment
    | GetService | CreateService
    | PutStatus
    | Done(verdict: Verdict)

  /**
   The local variables of one sync: the injector as the lister showed it and the version
   that was, serverCertificate ("" is nil), the deployment and service in hand, and the
   length of the register at the last live Get.
   */
  datatype SyncState = SyncState(
    name: string, pc: Pc, uid: string, spec: Spec, status: Status, owners: seq<OwnerRef>, readAt: nat,
    cert: string, deploymentName: string, podCount: int, serviceReady: bool, mark: nat)

  /** What the world decides about one step: how the call goes, and values only the world knows. */
  datatype Choice = Choice(outcome: Outcome, certs: Option<(string, string)>, clusterIP: string)

  function Begun(name: string): SyncState {
    SyncState(name, Start, "", Spec("", None, None), Status("", 0, false), [], 0, "", "", 0, false, 0)
  }

  /** The one key the next step touches. */
  function Target(cfg: Config, t: SyncState): Key {
    match t.pc
    case Start => InjectorKey(t.name)
    case GetIssuer => IssuerKey(cfg, t.name)
    case ApplyIssuer => IssuerKey(cfg, t.name)
    case GetCertificate => CertificateKey(cfg, t.name)
    case ApplyCertificate => CertificateKey(cfg, t.name)
    case GetSecret => SecretKey(cfg, t.name)
    case CreateSecret => SecretKey(cfg, t.name)
    case GetWebhook => WebhookKey(t.name)
    case CreateWebhook => WebhookKey(t.name)
    case GetDeployment => DeploymentKey(cfg, t.status.deploymentName)
    case CreateDeployment => HandlerKey(cfg, t.name)
    case GetService => ServiceKey(cfg, t.name)
    case CreateService => ServiceKey(cfg, t.name)
    case PutStatus => InjectorKey(t.name)
    case Done(_) => InjectorKey(t.name)
  }

  function Fail(t: SyncState): SyncState { t.(pc := Done(Failed)) }

  /** After the lister found the injector: POD_NAMESPACE, then the certificate mode. */
  function AfterStart(cfg: Config, t: SyncState): SyncState {
    if cfg.namespace == "" then Fail(t)
    else t.(pc := if cfg.useCertManager then GetIssuer else GetSecret)
  }

  /** After the webhook: WEBHOOK_CONTAINER_IMAGE, then the status name decides about the lookup. */
  function AfterWebhook(cfg: Config, t: SyncState): SyncState {
    if cfg.image == "" then Fail(t)
    else t.(pc := if t.status.deploymentName == "" then CreateDeployment else GetDeployment)
  }

  function PodCount(o: Obj): int { if o.DeploymentObj? then o.availableReplicas else 0 }

  predicate ServiceReady(o: Obj) { o.ServiceObj? && |o.ports| > 0 && o.clusterIP != "" }

  function AfterDeployment(t: SyncState, name: string, o: Obj): SyncState {
    t.(pc := GetService, deploymentName := name, podCount := PodCount(o))
  }

  function AfterService(t: SyncState, o: Obj): SyncState {
    t.(pc := PutStatus, serviceReady := ServiceReady(o))
  }

  /** The injector with the status the sync computed. */
  function StatusUpdate(t: SyncState): Obj {
    InjectorObj(t.owners, t.uid, t.spec, Status(t.deploymentName, t.podCount, t.serviceReady))
  }

  /** The sync's local copy of the injector and the version it was read at. */
  predicate Holds(t: SyncState, n: string, o: Obj, readAt: nat)
    requires o.InjectorObj?
  {
    && t.name == n && t.uid == o.uid && t.spec == o.spec && t.status == o.status
    && t.owners == o.owners && t.readAt == readAt
  }

  predicate Writes(pc: Pc) {
    || pc.ApplyIssuer? || pc.ApplyCertificate? || pc.CreateSecret? || pc.CreateWebhook?
    || pc.CreateDeployment? || pc.CreateService? || pc.PutStatus?
  }

  /** A step that only reads: a lister, or a live Get for cert-manager's objects. */
  function Read(cfg: Config, t: SyncState, r: Register, c: Choice): SyncState {
    if c.outcome != Fine then Fail(t)
    else match t.pc
      case Start => ReadInjector(cfg, t, r)
      case GetIssuer => t.(pc := if Live(r).None? then ApplyIssuer else GetCertificate, mark := |r.hist|)
      case GetCertificate => t.(pc := if Live(r).None? then ApplyCertificate else GetWebhook, mark := |r.hist|)
      case _ => ReadChild(cfg, t, Cached(r))
  }

  function ReadInjector(cfg: Config, t: SyncState, r: Register): SyncState {
    if Cached(r).None? || !Cached(r).value.InjectorObj? then t.(pc := Done(Gone))
    else
      var o := Cached(r).value;
      AfterStart(cfg, t.(uid := o.uid, spec := o.spec, status := o.status, owners := o.owners, readAt := r.pos))
  }

  /** The lister lookups: absent means create, present must be controlled by the injector. */
  function ReadChild(cfg: Config, t: SyncState, answer: Option<Obj>): SyncState {
    match answer
    case None =>
      (match t.pc
       case GetSecret => t.(pc := CreateSecret)
       case GetWebhook => t.(pc := CreateWebhook)
       case GetDeployment => t.(pc := CreateDeployment)
       case GetService => t.(pc := CreateService)
       case _ => t)
    case Some(o) =>
      if !ControlledBy(o, t.uid) then Fail(t)
      else match t.pc
        case GetSecret => t.(pc := GetWebhook)
        case GetWebhook => AfterWebhook(cfg, t)
        case GetDeployment => AfterDeployment(t, t.status.deploymentName, o)
        case GetService => AfterService(t, o)
        case _ => t
  }

  /** The object a writing step sends; None when no certificate could be generated. */
  function Request(cfg: Config, t: SyncState, c: Choice): Option<Obj> {
    match t.pc
    case ApplyIssuer => Some(NewIssuer(t.name, t.uid))
    case ApplyCertificate => Some(NewCertificate(cfg, t.name, t.uid))
    case CreateSecret =>
      if c.certs.None? then None else Some(NewSecret(t.name, t.uid, c.certs.value.0, c.certs.value.1))
    case CreateWebhook => Some(NewWebhook(cfg, t.name, t.uid, t.cert))
    case CreateDeployment => Some(NewDeployment(cfg, t.name, t.uid, t.spec))
    case CreateService => Some(NewService(t.name, t.uid, c.clusterIP))
    case _ => Some(StatusUpdate(t))
  }

  function Call(t: SyncState, r: Register, o: Obj, outcome: Outcome, w: Writer): (Register, Reply) {
    if (t.pc.ApplyIssuer? || t.pc.ApplyCertificate?) then Apply(r, o, outcome, w)
    else if t.pc == PutStatus then Update(r, t.readAt, o, outcome, w)
    else Create(r, o, outcome, w)
  }

  /** The local state after the reply to a writing step. */
  function Written(cfg: Config, t: SyncState, reply: Reply, c: Choice): SyncState {
    if reply.CallFailed? then Fail(t)
    else match t.pc
      case ApplyIssuer => t.(pc := GetCertificate)
      case ApplyCertificate => t.(pc := GetWebhook)
      case PutStatus => t.(pc := Done(Succeeded))
      case _ => Created(cfg, t, reply.obj, c)
  }

  function Created(cfg: Config, t: SyncState, o: Obj, c: Choice): SyncState {
    if !ControlledBy(o, t.uid) then Fail(t)
    else match t.pc
      case CreateSecret => t.(pc := GetWebhook, cert := if c.certs.Some? then c.certs.value.1 else "")
      case CreateWebhook => AfterWebhook(cfg, t)
      case CreateDeployment => AfterDeployment(t, HandlerName(t.name), o)
      case CreateService => AfterService(t, o)
      case _ => t
  }

  /** One step of sync `id` on the register of its target. */
  function Step(cfg: Config, id: nat, t: SyncState, r: Register, c: Choice): (Register, SyncState) {
    if t.pc.Done? then (r, t)
    else if !Writes(t.pc) then (r, Read(cfg, t, r, c))
    else match Request(cfg, t, c)
      case None => (r, Fail(t))
      case Some(o) =>
        var (r', reply) := Call(t, r, o, c.outcome, Sync(id));
        (r', Written(cfg, t, reply, c))
  }

  // ----- The world and its runs -----

  datatype World = World(regs: map<Key, Register>, syncs: map<nat, SyncState>)

  function Reg(w: World, k: Key): Register { if k in w.regs then w.regs[k] else EMPTY }

  /**
   What can happen: another party stores or deletes an object, an informer cache moves to
   any version of a key, a worker begins a sync, or a sync takes its next step.
   */
  datatype Action =
    | Outside(key: Key, obj: Option<Obj>)
    | Refresh(key: Key, pos: nat)
    | Begin(id: nat, name: string)
    | Advance(id: nat, name: string, choice: Choice)

  /** UIDs are never reused under a name, and never change while an injector lives. */
  predicate UidRule(r: Register, o: Obj) {
    o.InjectorObj? ==>
      match Live(r)
      case Some(x) => x.InjectorObj? && x.uid == o.uid
      case None => forall i | 0 <= i < |r.hist| && r.hist[i].obj.Some? && r.hist[i].obj.value.InjectorObj? ::
                     r.hist[i].obj.value.uid != o.uid
  }

  predicate Enabled(w: World, a: Action) {
    match a
    case Outside(k, o) => o.Some? ==> HasKind(o.value, k.kind) && UidRule(Reg(w, k), o.value)
    case Refresh(k, pos) => pos < |Reg(w, k).hist|
    case Begin(id, _) => id !in w.syncs
    case Advance(id, name, _) => id in w.syncs && w.syncs[id].name == name && !w.syncs[id].pc.Done?
  }

  function Do(cfg: Config, w: World, a: Action): World
    requires Enabled(w, a)
  {
    match a
    case Outside(k, o) => w.(regs := w.regs[k := Store(Reg(w, k), o, Outsider)])
    case Refresh(k, pos) => w.(regs := w.regs[k := Reg(w, k).(pos := pos)])
    case Begin(id, name) => w.(syncs := w.syncs[id := Begun(name)])
    case Advance(id, _, c) =>
      var t := w.syncs[id];
      var (r, t') := Step(cfg, id, t, Reg(w, Target(cfg, t)), c);
      World(w.regs[Target(cfg, t) := r], w.syncs[id := t'])
  }

  predicate Valid(cfg: Config, w: World, run: seq<Action>)
    decreases |run|
  {
    run == [] || (Enabled(w, run[0]) && Valid(cfg, Do(cfg, w, run[0]), run[1..]))
  }

  /** The world after a run. */
  function After(cfg: Config, w: World, run: seq<Action>): World
    requires Valid(cfg, w, run)
    decreases |run|
  {
    if run == [] then w else After(cfg, Do(cfg, w, run[0]), run[1..])
  }

  /** No sync has begun and nothing was stored by one: children may exist, but others made them. */
  predicate Initial(w: World) {
    && w.syncs == map[]
    && forall k, i | k in w.regs && 0 <= i < |w.regs[k].hist| :: w.regs[k].hist[i].writer == Outsider
  }

  lemma {:induction false} RunSplit(cfg: Config, w: World, a: seq<Action>, b: seq<Action>)
    ensures Valid(cfg, w, a + b) <==> Valid(cfg, w, a) && Valid(cfg, After(cfg, w, a), b)
    ensures Valid(cfg, w, a + b) ==> After(cfg, w, a + b) == After(cfg, After(cfg, w, a), b)
    decreases |a|
  {
    if a == [] {
      assert a + b == b;
    } else {
      assert (a + b)[0] == a[0] && (a + b)[1..] == a[1..] + b;
      if Enabled(w, a[0]) {
        RunSplit(cfg, Do(cfg, w, a[0]), a[1..], b);
      }
    }
  }

  lemma Extend(cfg: Config, w: World, run: seq<Action>, a: Action)
    requires Valid(cfg, w, run) && Enabled(After(cfg, w, run), a)
    ensures Valid(cfg, w, run + [a]) && After(cfg, w, run + [a]) == Do(cfg, After(cfg, w, run), a)
  {
    var v := After(cfg, w, run);
    assert [a][1..] == [];
    assert Valid(cfg, Do(cfg, v, a), []);
    assert Valid(cfg, v, [a]);
    RunSplit(cfg, w, run, [a]);
  }
}
