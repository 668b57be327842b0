/**
 The cluster as the controller sees it: typed objects under (kind, namespace, name) keys.
 Each key has a register: the history of what the API server stored there, and the
 position the controller's informer cache has reached in it.
 */
module Cluster {
  import opened Basics
  import opened Settings

  datatype Kind = Injector | Secret | Webhook | Deployment | Service | Issuer | Certificate

  datatype Key = Key(kind: Kind, namespace: string, name: string)

  datatype OwnerRef = OwnerRef(kind: string, name: string, uid: string, controller: bool)

  datatype Status = Status(deploymentName: string, podCount: int, serviceReady: bool)

  /** One entry of MutatingWebhookConfiguration.Webhooks; "" is a nil CABundle. */
  datatype Hook = Hook(name: string, serviceNamespace: string, serviceName: string, path: string, caBundle: string)

  datatype Obj =
    | InjectorObj(owners: seq<OwnerRef>, uid: string, spec: Spec, status: Status)
    | SecretObj(owners: seq<OwnerRef>, tlsKey: string, tlsCrt: string)
    | WebhookObj(owners: seq<OwnerRef>, hooks: seq<Hook>, injectCaFrom: Option<string>)
    | DeploymentObj(owners: seq<OwnerRef>, secretName: string, image: string, env: seq<EnvVar>, availableReplicas: int)
    | ServiceObj(owners: seq<OwnerRef>, ports: seq<int>, clusterIP: string)
    | IssuerObj(owners: seq<OwnerRef>)
    | CertificateObj(owners: seq<OwnerRef>, secretName: string, issuerName: string, dnsNames: seq<string>)

  predicate HasKind(o: Obj, kind: Kind) {
    match kind
    case Injector => o.InjectorObj?
    case Secret => o.SecretObj?
    case Webhook => o.WebhookObj?
    case Deployment => o.DeploymentObj?
    case Service => o.ServiceObj?
    case Issuer => o.IssuerObj?
    case Certificate => o.CertificateObj?
  }

  /** metav1.GetControllerOf: the first owner reference marked as controller. */
  function ControllerOf(owners: seq<OwnerRef>): Option<OwnerRef> {
    if owners == [] then None
    else if owners[0].controller then Some(owners[0])
    else ControllerOf(owners[1..])
  }

  /** metav1.IsControlledBy compares UIDs only. */
  predicate ControlledBy(o: Obj, uid: string) {
    ControllerOf(o.owners).Some? && ControllerOf(o.owners).value.uid == uid
  }

  lemma {:induction false} ControllerIsFirst(owners: seq<OwnerRef>, i: nat)
    requires i < |owners| && owners[i].controller && forall j | 0 <= j < i :: !owners[j].controller
    ensures ControllerOf(owners) == Some(owners[i])
    decreases i
  {
    if i > 0 {
      assert forall j | 0 <= j < i - 1 :: owners[1..][j] == owners[j + 1];
      ControllerIsFirst(owners[1..], i - 1);
    }
  }

  lemma {:induction false} FirstIsController(owners: seq<OwnerRef>) returns (i: nat)
    requires ControllerOf(owners).Some?
    ensures i < |owners| && owners[i].controller && ControllerOf(owners) == Some(owners[i])
    ensures forall j | 0 <= j < i :: !owners[j].controller
    decreases |owners|
  {
    if owners[0].controller {
      i := 0;
    } else {
      var k := FirstIsController(owners[1..]);
      i := k + 1;
      forall j | 0 <= j < i ensures !owners[j].controller {
        if j > 0 {
          assert owners[j] == owners[1..][j - 1];
        }
      }
    }
  }

  /** Controlled by a UID: the first owner reference that claims control has it; name and kind do not matter. */
  lemma ControlledByFirst(o: Obj, uid: string)
    ensures ControlledBy(o, uid) <==>
            exists i | 0 <= i < |o.owners| ::
              o.owners[i].controller && o.owners[i].uid == uid && forall j | 0 <= j < i :: !o.owners[j].controller
  {
    if ControllerOf(o.owners).Some? {
      var i := FirstIsController(o.owners);
    }
    forall i | 0 <= i < |o.owners| && o.owners[i].controller && forall j | 0 <= j < i :: !o.owners[j].controller
      ensures ControllerOf(o.owners) == Some(o.owners[i])
    {
      ControllerIsFirst(o.owners, i);
    }
  }

  // ----- Registers -----

  /** Who stored a version: somebody else, or the sync with that id. */
  datatype Writer = Outsider | Sync(id: nat)

  datatype Version = Version(obj: Option<Obj>, writer: Writer)

  datatype RawRegister = Register(hist: seq<Version>, pos: nat)

  type Register = r: RawRegister | r.pos < |r.hist| witness Register([Version(None, Outsider)], 0)

  const EMPTY: Register := Register([Version(None, Outsider)], 0)

  /** What the API server holds now. */
  function Live(r: Register): Option<Obj> { Last(r.hist).obj }

  /** What the lister answers. */
  function Cached(r: Register): Option<Obj> { r.hist[r.pos].obj }

  predicate UpToDate(r: Register) { r.pos == |r.hist| - 1 }

  function Store(r: Register, o: Option<Obj>, writer: Writer): Register {
    r.(hist := r.hist + [Version(o, writer)])
  }

  // ----- API calls -----

  /** A call may succeed, fail before it takes effect, or take effect while its reply is lost. */
  datatype Outcome = Fine | Rejected | ReplyLost

  datatype Reply = Accepted(obj: Obj) | CallFailed

  /** Create fails with AlreadyExists when the name is taken. */
  function Create(r: Register, o: Obj, outcome: Outcome, writer: Writer): (Register, Reply) {
    if outcome == Rejected || Live(r).Some? then (r, CallFailed)
    else (Store(r, Some(o), writer), if outcome == ReplyLost then CallFailed else Accepted(o))
  }

  /** Update fails unless the version read is still the live one; an update that changes nothing stores nothing. */
  function Update(r: Register, readAt: nat, o: Obj, outcome: Outcome, writer: Writer): (Register, Reply) {
    if outcome == Rejected || readAt != |r.hist| - 1 || Live(r).None? then (r, CallFailed)
    else (if Live(r) == Some(o) then r else Store(r, Some(o), writer),
          if outcome == ReplyLost then CallFailed else Accepted(o))
  }

  /** Server-side apply of a whole manifest: creates the object or brings it to the manifest. */
  function Apply(r: Register, o: Obj, outcome: Outcome, writer: Writer): (Register, Reply) {
    if outcome == Rejected then (r, CallFailed)
    else (if Live(r) == Some(o) then r else Store(r, Some(o), writer),
          if outcome == ReplyLost then CallFailed else Accepted(o))
  }

  // ----- Names -----

  /** The process environment and the --use-cert-manager flag. */
  datatype Config = Config(namespace: string, image: string, useCertManager: bool)

  function InjectorKey(n: string): Key { Key(Injector, "", n) }
  function SecretKey(cfg: Config, n: string): Key { Key(Secret, cfg.namespace, "sidecar-injector-certs-" + n) }
  function WebhookKey(n: string): Key { Key(Webhook, "", "sidecar-injector-webhook-" + n) }
  function DeploymentKey(cfg: Config, name: string): Key { Key(Deployment, cfg.namespace, name) }
  function ServiceKey(cfg: Config, n: string): Key { Key(Service, cfg.namespace, ServiceName(n)) }
  function IssuerKey(cfg: Config, n: string): Key { Key(Issuer, cfg.namespace, "sidecar-injector-issuer-" + n) }
  function CertificateKey(cfg: Config, n: string): Key { Key(Certificate, cfg.namespace, CertificateName(n)) }

  function ServiceName(n: string): string { "sidecar-injector-" + n }
  function CertificateName(n: string): string { "sidecar-injecter-certificate-" + n }
  function HandlerName(n: string): string { n + "-handler" }
  function HandlerKey(cfg: Config, n: string): Key { DeploymentKey(cfg, HandlerName(n)) }

  /** The injector and everything the controller makes for it. */
  predicate Belongs(cfg: Config, n: string, k: Key) {
    match k.kind
    case Injector => k == InjectorKey(n)
    case Secret => k == SecretKey(cfg, n)
    case Webhook => k == WebhookKey(n)
    case Deployment => k == HandlerKey(cfg, n)
    case Service => k == ServiceKey(cfg, n)
    case Issuer => k == IssuerKey(cfg, n)
    case Certificate => k == CertificateKey(cfg, n)
  }

  lemma PrefixInjective(p: string, a: string, b: string)
    requires p + a == p + b
    ensures a == b
  {
    assert (p + a)[|p|..] == a && (p + b)[|p|..] == b;
  }

  lemma HandlerNameInjective(a: string, b: string)
    requires HandlerName(a) == HandlerName(b)
    ensures a == b
  {
    assert |a| == |b|;
    assert HandlerName(a)[..|a|] == a && HandlerName(b)[..|b|] == b;
  }

  /** No key serves two injectors, whatever their names. */
  lemma NamesDisjoint(cfg: Config, a: string, b: string, k: Key)
    requires Belongs(cfg, a, k) && Belongs(cfg, b, k)
    ensures a == b
  {
    match k.kind
    case Injector =>
    case Secret => PrefixInjective("sidecar-injector-certs-", a, b);
    case Webhook => PrefixInjective("sidecar-injector-webhook-", a, b);
    case Deployment => HandlerNameInjective(a, b);
    case Service => PrefixInjective("sidecar-injector-", a, b);
    case Issuer => PrefixInjective("sidecar-injector-issuer-", a, b);
    case Certificate => PrefixInjective("sidecar-injecter-certificate-", a, b);
  }

  // ----- The object builders of generator.go -----

  function OwnedBy(n: string, uid: string): seq<OwnerRef> { [OwnerRef("SidecarInjector", n, uid, true)] }

  lemma OwnedByController(n: string, uid: string)
    ensures ControllerOf(OwnedBy(n, uid)) == Some(OwnerRef("SidecarInjector", n, uid, true))
  {
  }

  function NewSecret(n: string, uid: string, key: string, cert: string): Obj {
    SecretObj(OwnedBy(n, uid), key, cert)
  }

  function NewHooks(cfg: Config, n: string): seq<Hook> {
    [Hook(ServiceName(n) + "." + cfg.namespace + ".svc", cfg.namespace, ServiceName(n), "/mutate", "")]
  }

  function WithBundle(hooks: seq<Hook>, ca: string): (r: seq<Hook>)
    ensures |r| == |hooks| && forall i | 0 <= i < |r| :: r[i] == hooks[i].(caBundle := ca)
  {
    if hooks == [] then [] else WithBundle(hooks[..|hooks| - 1], ca) + [Last(hooks).(caBundle := ca)]
  }

  function NewWebhook(cfg: Config, n: string, uid: string, ca: string): Obj {
    if cfg.useCertManager
    then WebhookObj(OwnedBy(n, uid), NewHooks(cfg, n), Some(cfg.namespace + "/" + CertificateName(n)))
    else WebhookObj(OwnedBy(n, uid), WithBundle(NewHooks(cfg, n), ca), None)
  }

  function NewDeployment(cfg: Config, n: string, uid: string, spec: Spec): Obj {
    DeploymentObj(OwnedBy(n, uid), SecretKey(cfg, n).name, cfg.image, DeploymentEnv(spec), 0)
  }

  /** The API server picks the cluster IP. */
  function NewService(n: string, uid: string, clusterIP: string): Obj {
    ServiceObj(OwnedBy(n, uid), [443], clusterIP)
  }

  function NewIssuer(n: string, uid: string): Obj { IssuerObj(OwnedBy(n, uid)) }

  function NewCertificate(cfg: Config, n: string, uid: string): Obj {
    var host := ServiceName(n) + "." + cfg.namespace + ".svc";
    CertificateObj(OwnedBy(n, uid), SecretKey(cfg, n).name, IssuerKey(cfg, n).name, [host, host + ".cluster.local"])
  }
}
