/**
 Where the objects in the store come from: every version a sync stored is what generator.go
 builds from the injector version that sync read.  So the configuration of a live webhook
 Deployment can be traced to a custom resource, and from there into the sidecars.
 */
module Provenance {
  import opened Basics
  import opened Settings
  import opened Pods
  import opened Documented
  import opened Cluster
  import opened Reconciler
  import opened Safety
  import opened CaBundle

  function BundleOf(o: Obj): string {
    if o.WebhookObj? && o.hooks != [] then o.hooks[0].caBundle else ""
  }

  /** o is what the sync with these variables asks the API server to store. */
  predicate Built(cfg: Config, t: SyncState, o: Obj) {
    match o
    case InjectorObj(_, _, _, status) => o == InjectorObj(t.owners, t.uid, t.spec, status)
    case SecretObj(_, key, crt) => o == NewSecret(t.name, t.uid, key, crt)
    case WebhookObj(_, _, _) => o == NewWebhook(cfg, t.name, t.uid, BundleOf(o))
    case DeploymentObj(_, _, _, _, _) => o == NewDeployment(cfg, t.name, t.uid, t.spec)
    case ServiceObj(_, _, ip) => o == NewService(t.name, t.uid, ip)
    case IssuerObj(_) => o == NewIssuer(t.name, t.uid)
    case CertificateObj(_, _, _, _) => o == NewCertificate(cfg, t.name, t.uid)
  }

  lemma WebhookBundle(cfg: Config, n: string, uid: string, ca: string)
    ensures var o := NewWebhook(cfg, n, uid, ca);
            o.WebhookObj? && o == NewWebhook(cfg, n, uid, BundleOf(o)) && |o.hooks| == 1
  {
    assert |WithBundle(NewHooks(cfg, n), ca)| == 1;
  }

  lemma RequestIsBuilt(cfg: Config, t: SyncState, c: Choice)
    requires Writes(t.pc) && Request(cfg, t, c).Some?
    ensures Built(cfg, t, Request(cfg, t, c).value)
  {
    WebhookBundle(cfg, t.name, t.uid, t.cert);
  }

  lemma BuiltStays(cfg: Config, t: SyncState, t': SyncState, o: Obj)
    requires Same(t, t') && Built(cfg, t, o)
    ensures Built(cfg, t', o)
  {
  }

  /**
   A version stored by a sync under k: built, as an object of k's kind, from an injector
   version that is in the history, and k is one of that injector's own keys.
   */
  predicate Authored(cfg: Config, w: World, k: Key, v: Version) {
    v.writer.Sync? ==>
      && v.writer.id in w.syncs && v.obj.Some? && HasKind(v.obj.value, k.kind)
      && var t := w.syncs[v.writer.id];
         Belongs(cfg, t.name, k) && !t.pc.Start? && HoldsSnapshot(w, t) && Built(cfg, t, v.obj.value)
  }

  predicate AllAuthored(cfg: Config, w: World) {
    forall k, i | k in w.regs && 0 <= i < |w.regs[k].hist| :: Authored(cfg, w, k, w.regs[k].hist[i])
  }

  lemma SnapshotStays(w: World, w': World, t: SyncState, t': SyncState)
    requires Grows(w, w') && Same(t, t') && HoldsSnapshot(w, t)
    ensures HoldsSnapshot(w', t')
  {
    var r, r' := Reg(w, InjectorKey(t.name)), Reg(w', InjectorKey(t.name));
    assert r.hist <= r'.hist;
    assert r'.hist[t.readAt] == r.hist[t.readAt];
  }

  /** After its first step a sync keeps name, UID, spec and the version it read. */
  lemma StepIsSame(cfg: Config, id: nat, t: SyncState, r: Register, c: Choice)
    requires !t.pc.Start?
    ensures Same(t, Step(cfg, id, t, r, c).1) && !Step(cfg, id, t, r, c).1.pc.Start?
  {
    if !t.pc.Done? {
      if !Writes(t.pc) {
        ReadFrame(cfg, t, r, c);
      } else if Request(cfg, t, c).Some? {
        WriteFrame(cfg, t, Call(t, r, Request(cfg, t, c).value, c.outcome, Sync(id)).1, c);
      }
    }
  }

  /** What was authored stays authored. */
  lemma AuthoredStays(cfg: Config, w: World, a: Action, k: Key, v: Version)
    requires Enabled(w, a) && Authored(cfg, w, k, v)
    ensures Authored(cfg, Do(cfg, w, a), k, v)
  {
    if v.writer.Sync? {
      var w', id := Do(cfg, w, a), v.writer.id;
      var t := w.syncs[id];
      DoGrows(cfg, w, a);
      if a.Advance? && a.id == id {
        AdvanceIs(cfg, w, a);
        StepIsSame(cfg, id, t, Reg(w, Target(cfg, t)), a.choice);
      }
      SnapshotStays(w, w', t, w'.syncs[id]);
      BuiltStays(cfg, t, w'.syncs[id], v.obj.value);
    }
  }

  lemma NewVersionIsRequest(cfg: Config, w: World, a: Action, k: Key)
    requires Enabled(w, a) && a.Advance? && Reg(Do(cfg, w, a), k).hist != Reg(w, k).hist
    ensures var t := w.syncs[a.id];
            && Writes(t.pc) && Request(cfg, t, a.choice).Some?
            && k == Target(cfg, t) && Belongs(cfg, t.name, k) && HasKind(Request(cfg, t, a.choice).value, k.kind)
            && Last(Reg(Do(cfg, w, a), k).hist) == Version(Request(cfg, t, a.choice), Sync(a.id))
  {
    var t := w.syncs[a.id];
    AdvanceIs(cfg, w, a);
    StepStores(cfg, a.id, t, Reg(w, Target(cfg, t)), a.choice);
  }

  lemma WriterHoldsSnapshot(cfg: Config, w: World, id: nat)
    requires SyncsOk(cfg, w) && id in w.syncs && Writes(w.syncs[id].pc)
    ensures HoldsSnapshot(w, w.syncs[id]) && !w.syncs[id].pc.Start?
  {
    assert SyncOk(cfg, w, w.syncs[id]);
  }

  lemma SyncAfter(cfg: Config, w: World, a: Action)
    requires Enabled(w, a) && a.Advance? && !w.syncs[a.id].pc.Start?
    ensures a.id in Do(cfg, w, a).syncs
    ensures Same(w.syncs[a.id], Do(cfg, w, a).syncs[a.id]) && !Do(cfg, w, a).syncs[a.id].pc.Start?
  {
    AdvanceIs(cfg, w, a);
    StepIsSame(cfg, a.id, w.syncs[a.id], Reg(w, Target(cfg, w.syncs[a.id])), a.choice);
  }

  /** What a step stores is authored by its sync. */
  lemma NewVersionAuthored(cfg: Config, w: World, a: Action, k: Key)
    requires Enabled(w, a) && a.Advance? && SyncsOk(cfg, w)
    requires Reg(Do(cfg, w, a), k).hist != Reg(w, k).hist
    ensures Authored(cfg, Do(cfg, w, a), k, Last(Reg(Do(cfg, w, a), k).hist))
  {
    hide Built;
    hide Request;
    hide HoldsSnapshot;
    hide SyncsOk;
    hide Do;
    hide Same;
    hide Belongs;
    hide HasKind;
    hide Target;
    var t, w' := w.syncs[a.id], Do(cfg, w, a);
    NewVersionIsRequest(cfg, w, a, k);
    WriterHoldsSnapshot(cfg, w, a.id);
    SyncAfter(cfg, w, a);
    DoGrows(cfg, w, a);
    SnapshotStays(w, w', t, w'.syncs[a.id]);
    RequestIsBuilt(cfg, t, a.choice);
    BuiltStays(cfg, t, w'.syncs[a.id], Request(cfg, t, a.choice).value);
  }

  lemma AuthoredStep(cfg: Config, w: World, a: Action)
    requires Enabled(w, a) && SyncsOk(cfg, w) && AllAuthored(cfg, w)
    ensures AllAuthored(cfg, Do(cfg, w, a))
  {
    hide Authored;
    hide SyncsOk;
    var w' := Do(cfg, w, a);
    forall k, i | k in w'.regs && 0 <= i < |w'.regs[k].hist| ensures Authored(cfg, w', k, w'.regs[k].hist[i]) {
      var r, r' := Reg(w, k), Reg(w', k);
      DoStores(cfg, w, a, k);
      if i < |r.hist| {
        assert r'.hist[i] == r.hist[i];
        OldAuthored(cfg, w, k, i);
        AuthoredStays(cfg, w, a, k, r.hist[i]);
      } else if a.Advance? {
        NewVersionAuthored(cfg, w, a, k);
      } else {
        OutsiderAuthored(cfg, w', k, r'.hist[i]);
      }
    }
  }

  lemma OldAuthored(cfg: Config, w: World, k: Key, i: nat)
    requires AllAuthored(cfg, w) && i < |Reg(w, k).hist|
    ensures Authored(cfg, w, k, Reg(w, k).hist[i])
  {
  }

  lemma OutsiderAuthored(cfg: Config, w: World, k: Key, v: Version)
    requires v.writer.Outsider?
    ensures Authored(cfg, w, k, v)
  {
  }

  lemma {:induction false} AuthoredRun(cfg: Config, w: World, run: seq<Action>)
    requires Valid(cfg, w, run) && SyncsOk(cfg, w) && AllAuthored(cfg, w)
    ensures AllAuthored(cfg, After(cfg, w, run))
    decreases |run|
  {
    if run != [] {
      AuthoredStep(cfg, w, run[0]);
      SyncsOkStep(cfg, w, run[0]);
      AuthoredRun(cfg, Do(cfg, w, run[0]), run[1..]);
    }
  }

  /** In every run, each version a sync stored is built from an injector version in the history. */
  lemma EveryWriteIsBuilt(cfg: Config, w: World, run: seq<Action>, k: Key, i: nat)
    requires Initial(w) && Valid(cfg, w, run) && i < |Reg(After(cfg, w, run), k).hist|
    ensures Authored(cfg, After(cfg, w, run), k, Reg(After(cfg, w, run), k).hist[i])
  {
    assert AllAuthored(cfg, w);
    AuthoredRun(cfg, w, run);
    OldAuthored(cfg, After(cfg, w, run), k, i);
  }

  /**
   End to end: a Deployment a sync made configures its sidecars as one version of the
   custom resource says.  Whatever pod is injected under that Deployment's environment sees,
   for every setting, the annotation, else the field of that version, else the default.
   */
  lemma DeploymentConfiguresSidecar(cfg: Config, w: World, run: seq<Action>, k: Key, i: nat, pod: Pod)
    returns (n: string, spec: Spec)
    requires Initial(w) && Valid(cfg, w, run) && i < |Reg(After(cfg, w, run), k).hist|
    requires var v := Reg(After(cfg, w, run), k).hist[i];
             v.writer.Sync? && v.obj.Some? && v.obj.value.DeploymentObj?
    ensures k == HandlerKey(cfg, n)
    ensures exists j, o :: 0 <= j < |Reg(After(cfg, w, run), InjectorKey(n)).hist|
                           && Reg(After(cfg, w, run), InjectorKey(n)).hist[j].obj == Some(o)
                           && o.InjectorObj? && o.spec == spec
    ensures var env := Reg(After(cfg, w, run), k).hist[i].obj.value.env;
            && (forall c, s | Supports(c, s) && Inject(c, env, pod).Ok? ::
                  SidecarSetting(Last(Inject(c, env, pod).value.containers), s) ==
                  Expected(spec, pod.annotations, c, s))
            && (forall c | Inject(c, env, pod).Ok? ::
                  Configured(c, Last(Inject(c, env, pod).value.containers), spec, pod.annotations))
            && EffectiveCollector(env, pod.annotations) == ExpectedCollector(spec, pod.annotations)
  {
    EveryWriteIsBuilt(cfg, w, run, k, i);
    var w' := After(cfg, w, run);
    var t := w'.syncs[Reg(w', k).hist[i].writer.id];
    n, spec := t.name, t.spec;
    assert Reg(w', InjectorKey(n)).hist[t.readAt].obj == Some(InjectorObj(t.owners, t.uid, t.spec, t.status));
    var env := Reg(w', k).hist[i].obj.value.env;
    assert env == DeploymentEnv(spec);
    forall c, s | Supports(c, s) && Inject(c, env, pod).Ok?
      ensures SidecarSetting(Last(Inject(c, env, pod).value.containers), s) == Expected(spec, pod.annotations, c, s)
    {
      SidecarFaithful(spec, pod, c, s);
    }
    forall c | Inject(c, env, pod).Ok?
      ensures Configured(c, Last(Inject(c, env, pod).value.containers), spec, pod.annotations)
    {
      SidecarIsConfigured(c, spec, pod);
    }
    CollectorFaithful(spec, pod.annotations);
  }

  /**
   The children of one injector fit together: the Deployment mounts the Secret that either
   mode fills, the webhook calls the Service under the host the Certificate is for, and the
   CA is taken from that Certificate.
   */
  lemma ChildrenFit(cfg: Config, t: SyncState, webhook: Obj, deployment: Obj, certificate: Obj)
    requires webhook.WebhookObj? && Built(cfg, t, webhook)
    requires deployment.DeploymentObj? && Built(cfg, t, deployment)
    requires certificate.CertificateObj? && Built(cfg, t, certificate)
    ensures deployment.secretName == SecretKey(cfg, t.name).name == certificate.secretName
    ensures forall i | 0 <= i < |webhook.hooks| ::
              && Key(Service, webhook.hooks[i].serviceNamespace, webhook.hooks[i].serviceName) ==
                 ServiceKey(cfg, t.name)
              && webhook.hooks[i].name == certificate.dnsNames[0]
    ensures |webhook.hooks| == 1 && |certificate.dnsNames| == 2
    ensures certificate.issuerName == IssuerKey(cfg, t.name).name
    ensures cfg.useCertManager ==> webhook.injectCaFrom == Some(cfg.namespace + "/" + CertificateKey(cfg, t.name).name)
    ensures ControlledBy(webhook, t.uid) && ControlledBy(deployment, t.uid) && ControlledBy(certificate, t.uid)
  {
    WebhookBundle(cfg, t.name, t.uid, BundleOf(webhook));
    OwnedByController(t.name, t.uid);
  }
}
