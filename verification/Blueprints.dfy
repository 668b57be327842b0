/**
 The objects in the store by their own names and fields: which key a sync writes to, whose the
 object is, and what it says.  Nothing here speaks of builders or key functions.
 */
module Blueprints {
  import opened Basics
  import opened Settings
  import opened Documented
  import opened Cluster
  import opened Reconciler
  import opened Safety
  import opened CaBundle
  import opened Provenance

  /** Owned by injector n, as its controller, and by nobody else. */
  predicate OwnedAlone(owners: seq<OwnerRef>, n: string, uid: string) {
    && |owners| == 1 && owners[0].controller
    && owners[0].kind == "SidecarInjector" && owners[0].name == n && owners[0].uid == uid
  }

  /** One webhook, calling /mutate of the injector's Service. */
  predicate CallsService(cfg: Config, n: string, hooks: seq<Hook>) {
    && |hooks| == 1
    && hooks[0].name == "sidecar-injector-" + n + "." + cfg.namespace + ".svc"
    && hooks[0].serviceNamespace == cfg.namespace && hooks[0].serviceName == "sidecar-injector-" + n
    && hooks[0].path == "/mutate"
  }

  /** An object of injector n, with this UID and spec, under k. */
  predicate Looks(cfg: Config, n: string, uid: string, spec: Spec, k: Key, o: Obj) {
    var ns := cfg.namespace;
    match o
    case InjectorObj(_, u, s, _) => k == Key(Injector, "", n) && u == uid && s == spec
    case SecretObj(owners, _, _) =>
      k == Key(Secret, ns, "sidecar-injector-certs-" + n) && OwnedAlone(owners, n, uid)
    case WebhookObj(owners, hooks, injectCaFrom) =>
      && k == Key(Webhook, "", "sidecar-injector-webhook-" + n) && OwnedAlone(owners, n, uid)
      && CallsService(cfg, n, hooks)
      && (if cfg.useCertManager then
            hooks[0].caBundle == "" && injectCaFrom == Some(ns + "/" + ("sidecar-injecter-certificate-" + n))
          else injectCaFrom == None)
    case DeploymentObj(owners, secretName, image, env, _) =>
      && k == Key(Deployment, ns, n + "-handler") && OwnedAlone(owners, n, uid)
      && secretName == "sidecar-injector-certs-" + n && image == cfg.image && WritesSpec(env, spec)
    case ServiceObj(owners, ports, _) =>
      k == Key(Service, ns, "sidecar-injector-" + n) && OwnedAlone(owners, n, uid) && ports == [443]
    case IssuerObj(owners) => k == Key(Issuer, ns, "sidecar-injector-issuer-" + n) && OwnedAlone(owners, n, uid)
    case CertificateObj(owners, secretName, issuerName, dnsNames) =>
      && k == Key(Certificate, ns, "sidecar-injecter-certificate-" + n) && OwnedAlone(owners, n, uid)
      && secretName == "sidecar-injector-certs-" + n && issuerName == "sidecar-injector-issuer-" + n
      && var host := "sidecar-injector-" + n + "." + ns + ".svc";
      dnsNames == [host, host + ".cluster.local"]
  }

  lemma WebhookLooks(cfg: Config, n: string, uid: string, spec: Spec, ca: string)
    ensures Looks(cfg, n, uid, spec, WebhookKey(n), NewWebhook(cfg, n, uid, ca))
  {
    var o := NewWebhook(cfg, n, uid, ca);
    assert cfg.useCertManager ==> o.hooks == NewHooks(cfg, n);
    assert o.hooks[0] == NewHooks(cfg, n)[0].(caBundle := o.hooks[0].caBundle);
  }

  lemma BuiltLooks(cfg: Config, t: SyncState, k: Key, o: Obj)
    requires Built(cfg, t, o) && Belongs(cfg, t.name, k) && HasKind(o, k.kind)
    ensures Looks(cfg, t.name, t.uid, t.spec, k, o)
  {
    hide NewWebhook;
    hide WritesSpec;
    if o.WebhookObj? {
      WebhookLooks(cfg, t.name, t.uid, t.spec, BundleOf(o));
    } else if o.DeploymentObj? {
      DeploymentEnvSays(t.spec);
    }
  }

  /** Some version of injector n had this UID and spec. */
  predicate WasInjector(w: World, n: string, uid: string, spec: Spec) {
    var r := Reg(w, Key(Injector, "", n));
    exists j | 0 <= j < |r.hist| && r.hist[j].obj.Some? ::
      r.hist[j].obj.value.InjectorObj? && r.hist[j].obj.value.uid == uid && r.hist[j].obj.value.spec == spec
  }

  /**
   In every run, every version a sync stored, under whatever key, is an object of one injector,
   as one version of that injector asks for it, with its names, owner and contents in full.
   */
  lemma EveryWriteLooks(cfg: Config, w: World, run: seq<Action>, k: Key, i: nat)
    returns (n: string, uid: string, spec: Spec)
    requires Initial(w) && Valid(cfg, w, run) && i < |Reg(After(cfg, w, run), k).hist|
    requires Reg(After(cfg, w, run), k).hist[i].writer.Sync?
    ensures WasInjector(After(cfg, w, run), n, uid, spec)
    ensures var v := Reg(After(cfg, w, run), k).hist[i]; v.obj.Some? && Looks(cfg, n, uid, spec, k, v.obj.value)
  {
    EveryWriteIsBuilt(cfg, w, run, k, i);
    var v := After(cfg, w, run);
    var t := v.syncs[Reg(v, k).hist[i].writer.id];
    n, uid, spec := t.name, t.uid, t.spec;
    BuiltLooks(cfg, t, k, Reg(v, k).hist[i].obj.value);
    assert Reg(v, Key(Injector, "", n)).hist[t.readAt].obj.Some?;
  }

  // ----- Certificates -----

  lemma {:induction false} HistoryStays(cfg: Config, w: World, run: seq<Action>, k: Key, i: nat)
    requires Valid(cfg, w, run) && i < |Reg(w, k).hist|
    ensures i < |Reg(After(cfg, w, run), k).hist| && Reg(After(cfg, w, run), k).hist[i] == Reg(w, k).hist[i]
    decreases |run|
  {
    if run != [] {
      DoGrows(cfg, w, run[0]);
      HistoryStays(cfg, Do(cfg, w, run[0]), run[1..], k, i);
    }
  }

  lemma StoredSecret(cfg: Config, w: World, a: Action, k: Key)
    requires Enabled(w, a) && k.kind.Secret? && |Reg(Do(cfg, w, a), k).hist| > |Reg(w, k).hist|
    requires Reg(Do(cfg, w, a), k).hist[|Reg(w, k).hist|].writer.Sync?
    ensures |Reg(Do(cfg, w, a), k).hist| == |Reg(w, k).hist| + 1
    ensures a.Advance? && a.choice.certs.Some?
    ensures var v := Last(Reg(Do(cfg, w, a), k).hist);
            && v.writer == Sync(a.id) && v.obj.Some? && v.obj.value.SecretObj?
            && (v.obj.value.tlsKey, v.obj.value.tlsCrt) == a.choice.certs.value
  {
    DoStores(cfg, w, a, k);
    if a.Advance? {
      AdvanceIs(cfg, w, a);
      StepStores(cfg, a.id, w.syncs[a.id], Reg(w, Target(cfg, w.syncs[a.id])), a.choice);
    }
  }

  /** Key and certificate of a Secret that a sync stored in a run are one pair, generated at that very step. */
  lemma {:induction false} SecretIsOnePair(cfg: Config, w: World, run: seq<Action>, k: Key, i: nat) returns (j: nat)
    requires Valid(cfg, w, run) && k.kind.Secret?
    requires |Reg(w, k).hist| <= i < |Reg(After(cfg, w, run), k).hist|
    requires Reg(After(cfg, w, run), k).hist[i].writer.Sync?
    ensures j < |run| && run[j].Advance? && run[j].choice.certs.Some?
    ensures var v := Reg(After(cfg, w, run), k).hist[i];
            && v.writer == Sync(run[j].id) && v.obj.Some? && v.obj.value.SecretObj?
            && (v.obj.value.tlsKey, v.obj.value.tlsCrt) == run[j].choice.certs.value
    decreases |run|
  {
    var w' := Do(cfg, w, run[0]);
    if i < |Reg(w', k).hist| {
      j := 0;
      HistoryStays(cfg, w', run[1..], k, i);
      DoStores(cfg, w, run[0], k);
      StoredSecret(cfg, w, run[0], k);
    } else {
      var l := SecretIsOnePair(cfg, w', run[1..], k, i);
      j := l + 1;
    }
  }
}
