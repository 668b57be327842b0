/**
 syncHandler as the program runs it: calls to listers and API clients one after another,
 with other parties acting before each call.  Every execution is a run of the reconciler's
 state machine, so what is proved of all runs holds of the program.
 */
module Handler {
  import opened Basics
  import opened Cluster
  import opened Keys
  import opened Reconciler
  import opened Safety

  /** What others do before a call, and how the call goes. */
  datatype Tick = Tick(others: seq<Action>, choice: Choice)

  /** A lookup finds the object, reports IsNotFound, or fails otherwise. */
  datatype Answer = Found(obj: Obj) | NotFound | Broken

  function AnswerOf(o: Option<Obj>, c: Choice): Answer {
    if c.outcome != Fine then Broken
    else match o
      case Some(x) => Found(x)
      case None => NotFound
  }

  datatype Verb = CreateIt | UpdateAt(version: nat) | ApplyIt

  function Execute(verb: Verb, r: Register, o: Obj, outcome: Outcome, w: Writer): (Register, Reply) {
    match verb
    case CreateIt => Create(r, o, outcome, w)
    case UpdateAt(version) => Update(r, version, o, outcome, w)
    case ApplyIt => Apply(r, o, outcome, w)
  }

  /** The loop of createMutatingWebhookConfiguration: every webhook gets the certificate, in place. */
  method BundleHooks(hooks: array<Hook>, ca: string)
    modifies hooks
    ensures hooks[..] == WithBundle(old(hooks[..]), ca)
  {
    var i := 0;
    while i < hooks.Length
      invariant 0 <= i <= hooks.Length
      invariant forall j | 0 <= j < i :: hooks[j] == old(hooks[j]).(caBundle := ca)
      invariant forall j | i <= j < hooks.Length :: hooks[j] == old(hooks[j])
    {
      hooks[i] := hooks[i].(caBundle := ca);
      i := i + 1;
    }
  }

  /** createMutatingWebhookConfiguration and its variant for cert-manager, up to the API call. */
  method BuildWebhook(cfg: Config, n: string, uid: string, ca: string) returns (o: Obj)
    ensures o == NewWebhook(cfg, n, uid, ca)
  {
    var built := NewHooks(cfg, n);
    if cfg.useCertManager {
      o := WebhookObj(OwnedBy(n, uid), built, Some(cfg.namespace + "/" + CertificateName(n)));
    } else {
      var hooks := new Hook[|built|](i requires 0 <= i < |built| => built[i]);
      assert hooks[..] == built;
      BundleHooks(hooks, ca);
      o := WebhookObj(OwnedBy(n, uid), hooks[..], None);
    }
  }

  /** The injector in the store is the given one, and its status tells of these two objects. */
  predicate StatusStored(w: World, n: string, injector: Obj, deploymentName: string, deployment: Obj, service: Obj)
    requires injector.InjectorObj?
  {
    var o := Live(Reg(w, Key(Injector, "", n)));
    && o.Some? && o.value.InjectorObj? && o.value == injector.(status := o.value.status)
    && o.value.status.deploymentName == deploymentName
    && (deployment.DeploymentObj? ==> o.value.status.podCount == deployment.availableReplicas)
    && (service.ServiceObj? ==> (o.value.status.serviceReady <==> service.ports != [] && service.clusterIP != ""))
  }

  lemma AcceptedIsStored(verb: Verb, r: Register, o: Obj, outcome: Outcome, w: Writer)
    ensures var (r', reply) := Execute(verb, r, o, outcome, w);
            reply.Accepted? ==> reply.obj == o && Live(r') == Some(o)
  {
  }

  class Controller {
    const cfg: Config
    var world: World
    var script: seq<Tick>
    ghost var start: World
    ghost var trace: seq<Action>

    constructor (cfg: Config, world: World, script: seq<Tick>)
      ensures Reachable() && this.cfg == cfg && this.world == world && start == world && trace == []
    {
      this.cfg, this.world, this.script := cfg, world, script;
      start, trace := world, [];
    }

    /** The world is what the recorded run makes of the world at the start. */
    ghost predicate Reachable()
      reads this
    {
      Valid(cfg, start, trace) && After(cfg, start, trace) == world
    }

    method Perform(a: Action)
      requires Reachable() && Enabled(world, a)
      modifies `world, `trace
      ensures Reachable() && world == Do(cfg, old(world), a) && trace == old(trace) + [a]
    {
      Extend(cfg, start, trace, a);
      world := Do(cfg, world, a);
      trace := trace + [a];
    }

    /** Others act; the sync's own variables stay. */
    method Await(id: nat) returns (c: Choice)
      requires Reachable() && id in world.syncs
      modifies `world, `script, `trace
      ensures Reachable() && old(trace) <= trace
      ensures id in world.syncs && world.syncs[id] == old(world.syncs[id])
    {
      var tick := if script == [] then Tick([], Choice(Fine, None, "")) else script[0];
      script := if script == [] then [] else script[1..];
      var i := 0;
      while i < |tick.others|
        invariant Reachable() && old(trace) <= trace
        invariant id in world.syncs && world.syncs[id] == old(world.syncs[id])
      {
        var a := tick.others[i];
        if Enabled(world, a) && !(a.Advance? && a.id == id) {
          Perform(a);
        }
        i := i + 1;
      }
      c := tick.choice;
    }

    // ----- API calls of sync id -----

    /** The sync is in flight and its next step is a call on k. */
    predicate Ready(id: nat, k: Key)
      reads this
    {
      id in world.syncs && !world.syncs[id].pc.Done? && k == Target(cfg, world.syncs[id])
    }

    /** A read from a lister, or a live Get. */
    method Get(id: nat, k: Key, live: bool, c: Choice) returns (answer: Answer)
      requires Reachable() && Ready(id, k) && !Writes(world.syncs[id].pc)
      requires live <==> world.syncs[id].pc.GetIssuer? || world.syncs[id].pc.GetCertificate?
      modifies `world, `trace
      ensures Reachable() && old(trace) <= trace
      ensures answer == AnswerOf(if live then Live(old(Reg(world, k))) else Cached(old(Reg(world, k))), c)
      ensures id in world.syncs
      ensures world.syncs[id] == Read(cfg, old(world.syncs[id]), old(Reg(world, k)), c)
    {
      answer := AnswerOf(if live then Live(Reg(world, k)) else Cached(Reg(world, k)), c);
      Perform(Advance(id, world.syncs[id].name, c));
    }

    /** A Create, Update or Apply of the object o. */
    method Send(id: nat, verb: Verb, k: Key, o: Obj, c: Choice) returns (reply: Reply)
      requires Reachable() && Ready(id, k) && Writes(world.syncs[id].pc)
      requires verb.ApplyIt? <==> world.syncs[id].pc.ApplyIssuer? || world.syncs[id].pc.ApplyCertificate?
      requires verb.UpdateAt? <==> world.syncs[id].pc.PutStatus?
      requires verb.UpdateAt? ==> verb.version == world.syncs[id].readAt
      requires Request(cfg, world.syncs[id], c) == Some(o)
      modifies `world, `trace
      ensures Reachable() && old(trace) <= trace
      ensures (Reg(world, k), reply) == Execute(verb, old(Reg(world, k)), o, c.outcome, Sync(id))
      ensures reply.Accepted? ==> reply.obj == o && Live(Reg(world, k)) == Some(o)
      ensures id in world.syncs
      ensures world.syncs[id] == Written(cfg, old(world.syncs[id]), reply, c)
    {
      AcceptedIsStored(verb, Reg(world, k), o, c.outcome, Sync(id));
      reply := Execute(verb, Reg(world, k), o, c.outcome, Sync(id)).1;
      Perform(Advance(id, world.syncs[id].name, c));
    }

    // ----- The steps of syncHandler -----

    /** Sync id works on injector n as read at the given version. */
    predicate At(id: nat, n: string, injector: Obj, version: nat)
      requires injector.InjectorObj?
      reads this
    {
      id in world.syncs && Holds(world.syncs[id], n, injector, version)
    }

    /** The sync is over, with an error or on its way. */
    predicate Over(id: nat)
      reads this
    {
      id in world.syncs && world.syncs[id].pc == Done(Failed)
    }

    method EnsureSecret(id: nat, n: string, injector: Obj, version: nat) returns (err: bool, serverCertificate: string)
      requires injector.InjectorObj? && Reachable() && At(id, n, injector, version)
      requires world.syncs[id].pc.GetSecret? && world.syncs[id].cert == ""
      modifies `world, `script, `trace
      ensures Reachable() && old(trace) <= trace
      ensures if err then Over(id)
              else At(id, n, injector, version) && world.syncs[id].pc.GetWebhook?
                   && world.syncs[id].cert == serverCertificate
    {
      serverCertificate := "";
      var k := SecretKey(cfg, n);
      var c := Await(id);
      var answer := Get(id, k, false, c);
      if answer.Broken? {
        return true, "";
      }
      var secret: Obj;
      if answer.NotFound? {
        c := Await(id);
        if c.certs.None? {
          Perform(Advance(id, n, c));
          return true, "";
        }
        var reply := Send(id, CreateIt, k, NewSecret(n, injector.uid, c.certs.value.0, c.certs.value.1), c);
        if reply.CallFailed? {
          return true, "";
        }
        secret, serverCertificate := reply.obj, c.certs.value.1;
      } else {
        secret := answer.obj;
      }
      err := !ControlledBy(secret, injector.uid);
    }

    /** applyIssuer and applyCertificate: a live Get, and an Apply when there is nothing. */
    method EnsureManifest(id: nat, n: string, injector: Obj, version: nat, k: Key, o: Obj) returns (err: bool)
      requires injector.InjectorObj? && Reachable() && At(id, n, injector, version)
      requires world.syncs[id].pc.GetIssuer? || world.syncs[id].pc.GetCertificate?
      requires k == Target(cfg, world.syncs[id])
      requires o == if world.syncs[id].pc.GetIssuer? then NewIssuer(n, injector.uid)
                    else NewCertificate(cfg, n, injector.uid)
      modifies `world, `script, `trace
      ensures Reachable() && old(trace) <= trace
      ensures if err then Over(id)
              else At(id, n, injector, version)
                   && world.syncs[id].pc == (if old(world.syncs[id].pc).GetIssuer? then GetCertificate else GetWebhook)
                   && world.syncs[id].cert == old(world.syncs[id].cert)
    {
      var c := Await(id);
      var answer := Get(id, k, true, c);
      if answer.Broken? {
        return true;
      }
      if answer.NotFound? {
        c := Await(id);
        var reply := Send(id, ApplyIt, k, o, c);
        if reply.CallFailed? {
          return true;
        }
      }
      err := false;
    }

    method EnsureWebhook(id: nat, n: string, injector: Obj, version: nat, serverCertificate: string) returns (err: bool)
      requires injector.InjectorObj? && Reachable() && At(id, n, injector, version)
      requires world.syncs[id].pc.GetWebhook? && world.syncs[id].cert == serverCertificate
      modifies `world, `script, `trace
      ensures Reachable() && old(trace) <= trace
      ensures if err then Over(id)
              else At(id, n, injector, version) && cfg.image != ""
                   && (world.syncs[id].pc ==
                         if injector.status.deploymentName == "" then CreateDeployment else GetDeployment)
    {
      hide Execute;
      hide NewWebhook;
      hide Do;
      var k := WebhookKey(n);
      var c := Await(id);
      var answer := Get(id, k, false, c);
      if answer.Broken? {
        return true;
      }
      var mutating: Obj;
      if answer.NotFound? {
        c := Await(id);
        var built := BuildWebhook(cfg, n, injector.uid, serverCertificate);
        var reply := Send(id, CreateIt, k, built, c);
        if reply.CallFailed? {
          return true;
        }
        mutating := reply.obj;
      } else {
        mutating := answer.obj;
      }
      if !ControlledBy(mutating, injector.uid) {
        return true;
      }
      err := cfg.image == "";
    }

    /** createDeployment and the ownership check of its reply. */
    method MakeDeployment(id: nat, n: string, injector: Obj, version: nat) returns (err: bool, deployment: Obj)
      requires injector.InjectorObj? && Reachable() && At(id, n, injector, version)
      requires world.syncs[id].pc.CreateDeployment?
      modifies `world, `script, `trace
      ensures Reachable() && old(trace) <= trace
      ensures if err then Over(id)
              else At(id, n, injector, version) && world.syncs[id].pc.GetService?
                   && world.syncs[id].deploymentName == HandlerName(n)
                   && world.syncs[id].podCount == PodCount(deployment)
    {
      deployment := NewDeployment(cfg, n, injector.uid, injector.spec);
      var c := Await(id);
      var reply := Send(id, CreateIt, HandlerKey(cfg, n), deployment, c);
      if reply.CallFailed? {
        return true, deployment;
      }
      deployment := reply.obj;
      err := !ControlledBy(deployment, injector.uid);
    }

    method EnsureDeployment(id: nat, n: string, injector: Obj, version: nat)
      returns (err: bool, deploymentName: string, deployment: Obj)
      requires injector.InjectorObj? && Reachable() && At(id, n, injector, version)
      requires world.syncs[id].pc == if injector.status.deploymentName == "" then CreateDeployment else GetDeployment
      modifies `world, `script, `trace
      ensures Reachable() && old(trace) <= trace
      ensures if err then Over(id)
              else At(id, n, injector, version) && world.syncs[id].pc.GetService?
                   && world.syncs[id].deploymentName == deploymentName
                   && world.syncs[id].podCount == PodCount(deployment)
                   && (deployment.DeploymentObj? ==> world.syncs[id].podCount == deployment.availableReplicas)
    {
      deploymentName, deployment := injector.status.deploymentName, injector;
      var answer := NotFound;
      if deploymentName != "" {
        var c := Await(id);
        answer := Get(id, DeploymentKey(cfg, deploymentName), false, c);
        if answer.Broken? {
          return true, "", injector;
        }
      }
      if answer.NotFound? {
        deploymentName := HandlerName(n);
        err, deployment := MakeDeployment(id, n, injector, version);
      } else {
        deployment := answer.obj;
        err := !ControlledBy(deployment, injector.uid);
      }
    }

    method EnsureService(id: nat, n: string, injector: Obj, version: nat) returns (err: bool, service: Obj)
      requires injector.InjectorObj? && Reachable() && At(id, n, injector, version) && world.syncs[id].pc.GetService?
      modifies `world, `script, `trace
      ensures Reachable() && old(trace) <= trace
      ensures if err then Over(id)
              else At(id, n, injector, version) && world.syncs[id].pc.PutStatus?
                   && world.syncs[id].deploymentName == old(world.syncs[id].deploymentName)
                   && world.syncs[id].podCount == old(world.syncs[id].podCount)
                   && world.syncs[id].serviceReady == ServiceReady(service)
    {
      var k := ServiceKey(cfg, n);
      service := NewService(n, injector.uid, "");
      var c := Await(id);
      var answer := Get(id, k, false, c);
      if answer.Broken? {
        return true, service;
      }
      if answer.NotFound? {
        c := Await(id);
        var reply := Send(id, CreateIt, k, NewService(n, injector.uid, c.clusterIP), c);
        if reply.CallFailed? {
          return true, service;
        }
        service := reply.obj;
      } else {
        service := answer.obj;
      }
      err := !ControlledBy(service, injector.uid);
    }

    /** updateSidecarInjectorStatus: an Update of the whole object at the version that was read. */
    method UpdateStatus(
        id: nat, n: string, injector: Obj, version: nat, deploymentName: string, deployment: Obj, service: Obj)
      returns (err: bool)
      requires injector.InjectorObj? && Reachable() && At(id, n, injector, version) && world.syncs[id].pc.PutStatus?
      requires world.syncs[id].deploymentName == deploymentName && world.syncs[id].podCount == PodCount(deployment)
      requires world.syncs[id].serviceReady == ServiceReady(service)
      modifies `world, `script, `trace
      ensures Reachable() && old(trace) <= trace
      ensures id in world.syncs && world.syncs[id].name == n
      ensures world.syncs[id].pc == Done(if err then Failed else Succeeded)
      ensures !err ==> StatusStored(world, n, injector, deploymentName, deployment, service)
    {
      hide Execute;
      var injectorCopy := injector.(status := Status(deploymentName, PodCount(deployment), ServiceReady(service)));
      var c := Await(id);
      var reply := Send(id, UpdateAt(version), InjectorKey(n), injectorCopy, c);
      err := reply.CallFailed?;
    }

    /** From the start to the certificates. */
    method EnsureCertificates(id: nat, n: string, injector: Obj, version: nat)
      returns (err: bool, serverCertificate: string)
      requires injector.InjectorObj? && Reachable() && At(id, n, injector, version)
      requires world.syncs[id].pc == if cfg.useCertManager then GetIssuer else GetSecret
      requires world.syncs[id].cert == ""
      modifies `world, `script, `trace
      ensures Reachable() && old(trace) <= trace
      ensures if err then Over(id)
              else At(id, n, injector, version) && world.syncs[id].pc.GetWebhook?
                   && world.syncs[id].cert == serverCertificate
    {
      if cfg.useCertManager {
        serverCertificate := "";
        err := EnsureManifest(id, n, injector, version, IssuerKey(cfg, n), NewIssuer(n, injector.uid));
        if err {
          return;
        }
        err := EnsureManifest(id, n, injector, version, CertificateKey(cfg, n), NewCertificate(cfg, n, injector.uid));
      } else {
        err, serverCertificate := EnsureSecret(id, n, injector, version);
      }
    }

    /** The sync proper, once the lister has shown the injector. */
    method Reconcile(id: nat, n: string, injector: Obj, version: nat) returns (err: bool)
      requires injector.InjectorObj? && Reachable() && At(id, n, injector, version)
      requires world.syncs[id].pc == if cfg.useCertManager then GetIssuer else GetSecret
      requires world.syncs[id].cert == ""
      modifies `world, `script, `trace
      ensures Reachable() && old(trace) <= trace
      ensures id in world.syncs && world.syncs[id].pc == Done(if err then Failed else Succeeded)
      ensures !err ==> world.syncs[id].name == n
    {
      var serverCertificate: string, deploymentName: string, deployment: Obj, service: Obj;
      err, serverCertificate := EnsureCertificates(id, n, injector, version);
      if err {
        return;
      }
      err := EnsureWebhook(id, n, injector, version, serverCertificate);
      if err {
        return;
      }
      err, deploymentName, deployment := EnsureDeployment(id, n, injector, version);
      if err {
        return;
      }
      err, service := EnsureService(id, n, injector, version);
      if err {
        return;
      }
      err := UpdateStatus(id, n, injector, version, deploymentName, deployment, service);
    }

    /** The sync with its first lookup: the injector may be gone, and POD_NAMESPACE may be missing. */
    method Run(id: nat, name: string) returns (err: bool)
      requires Reachable() && id in world.syncs && world.syncs[id] == Begun(name)
      modifies `world, `script, `trace
      ensures Reachable() && old(trace) <= trace
      ensures id in world.syncs && world.syncs[id].pc.Done? && (err <==> world.syncs[id].pc.verdict.Failed?)
      ensures world.syncs[id].pc.verdict.Succeeded? ==> world.syncs[id].name == name
    {
      var c := Await(id);
      var version := Reg(world, InjectorKey(name)).pos;
      var answer := Get(id, InjectorKey(name), false, c);
      if answer.Broken? {
        return true;
      }
      if answer.NotFound? || !answer.obj.InjectorObj? {
        return false;
      }
      if cfg.namespace == "" {
        return true;
      }
      err := Reconcile(id, name, answer.obj, version);
    }

    /**
     One call of syncHandler: a run of the cluster in which sync id goes from beginning to
     end.  It returns nil for a malformed key, for an injector that is gone, and for a sync
     that succeeded; after the last it owns its children.
     */
    method SyncHandler(id: nat, key: string) returns (err: bool)
      requires Reachable() && id !in world.syncs
      modifies `world, `script, `trace
      ensures Reachable() && old(trace) <= trace
      ensures SplitMetaNamespaceKey(key).None? ==> !err && world == old(world) && trace == old(trace)
      ensures SplitMetaNamespaceKey(key).Some? ==>
                && id in world.syncs && world.syncs[id].pc.Done?
                && (err <==> world.syncs[id].pc.verdict.Failed?)
                && (Initial(start) && world.syncs[id].pc.verdict.Succeeded? ==>
                      Owned(cfg, world, world.syncs[id]) && world.syncs[id].name == SplitMetaNamespaceKey(key).value.1)
    {
      var parts := SplitMetaNamespaceKey(key);
      if parts.None? {
        return false;
      }
      var name := parts.value.1;
      Perform(Begin(id, name));
      err := Run(id, name);
      if Initial(start) && world.syncs[id].pc.verdict.Succeeded? {
        SuccessMeansOwnership(cfg, start, trace, id);
      }
    }
  }
}
