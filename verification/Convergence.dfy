/**
 One sync in quiet surroundings: caches up to date, no faults, no foreign object at a child
 name.  When it succeeds, what it leaves behind, and why the next one changes nothing.
 */
module Convergence {
  import opened Basics
  import opened Cluster
  import opened Reconciler
  import opened Safety

  // ----- Running a sync to its end -----

  function Rank(pc: Pc): nat {
    match pc
    case Start => 14
    case GetIssuer => 13
    case ApplyIssuer => 12
    case GetCertificate => 11
    case ApplyCertificate => 10
    case GetSecret => 9
    case CreateSecret => 8
    case GetWebhook => 7
    case CreateWebhook => 6
    case GetDeployment => 5
    case CreateDeployment => 4
    case GetService => 3
    case CreateService => 2
    case PutStatus => 1
    case Done(_) => 0
  }

  lemma ReadDescends(cfg: Config, t: SyncState, r: Register, c: Choice)
    requires !t.pc.Done? && !Writes(t.pc)
    ensures Rank(Read(cfg, t, r, c).pc) < Rank(t.pc)
  {
  }

  lemma WriteDescends(cfg: Config, t: SyncState, reply: Reply, c: Choice)
    requires Writes(t.pc)
    ensures Rank(Written(cfg, t, reply, c).pc) < Rank(t.pc)
  {
  }

  /** Whatever happens, a sync comes nearer to its end with every step, so it takes at most 14. */
  lemma StepDescends(cfg: Config, id: nat, t: SyncState, r: Register, c: Choice)
    requires !t.pc.Done?
    ensures Rank(Step(cfg, id, t, r, c).1.pc) < Rank(t.pc)
  {
    if !Writes(t.pc) {
      ReadDescends(cfg, t, r, c);
    } else if Request(cfg, t, c).Some? {
      WriteDescends(cfg, t, Call(t, r, Request(cfg, t, c).value, c.outcome, Sync(id)).1, c);
    }
  }

  lemma BenignIsSmooth(ch: Pc -> Choice)
    requires Benign(ch)
    ensures Smooth(ch)
  {
  }

  function Next(cfg: Config, w: World, id: nat, ch: Pc -> Choice): World
    requires id in w.syncs && !w.syncs[id].pc.Done?
  {
    Do(cfg, w, Advance(id, w.syncs[id].name, ch(w.syncs[id].pc)))
  }

  /** The sync's remaining steps with nothing in between. */
  function Finish(cfg: Config, w: World, id: nat, ch: Pc -> Choice): World
    requires id in w.syncs
    decreases Rank(w.syncs[id].pc)
  {
    if w.syncs[id].pc.Done? then w
    else
      var t := w.syncs[id];
      StepDescends(cfg, id, t, Reg(w, Target(cfg, t)), ch(t.pc));
      Finish(cfg, Next(cfg, w, id, ch), id, ch)
  }

  /** The call does not fail, and a certificate can be generated. */
  predicate Harmless(c: Choice) { c.outcome == Fine && c.certs.Some? }

  /** No fault at all. */
  ghost predicate Benign(ch: Pc -> Choice) {
    forall pc :: Harmless(ch(pc))
  }

  /** No fault up to the Deployment. */
  ghost predicate Smooth(ch: Pc -> Choice) {
    forall pc :: Rank(pc) >= Rank(CreateDeployment) ==> Harmless(ch(pc))
  }

  /** The cache is current and what is there belongs to this injector. */
  predicate Calm(r: Register, uid: string) {
    UpToDate(r) && (Live(r).Some? ==> ControlledBy(Live(r).value, uid))
  }

  predicate Mine(r: Register, uid: string) {
    Live(r).Some? && ControlledBy(Live(r).value, uid)
  }

  /** A child that was there is untouched; one that was not is there now and is ours. */
  predicate Settled(r: Register, r': Register, uid: string) {
    Mine(r', uid) && (Live(r).Some? ==> r' == r)
  }

  /** From w to v only the register of k and the local state of sync id changed. */
  ghost predicate OnlyAt(w: World, v: World, k: Key, id: nat) {
    && id in w.syncs && id in v.syncs
    && v.syncs == w.syncs[id := v.syncs[id]]
    && forall k' :: k' != k ==> Reg(v, k') == Reg(w, k')
  }

  /** One step towards the end; `v` is the world after it. */
  lemma TakeStep(cfg: Config, w: World, id: nat, ch: Pc -> Choice) returns (v: World)
    requires id in w.syncs && !w.syncs[id].pc.Done?
    ensures var t := w.syncs[id];
            && OnlyAt(w, v, Target(cfg, t), id)
            && (Reg(v, Target(cfg, t)), v.syncs[id]) == Step(cfg, id, t, Reg(w, Target(cfg, t)), ch(t.pc))
            && Finish(cfg, w, id, ch) == Finish(cfg, v, id, ch)
  {
    AdvanceIs(cfg, w, Advance(id, w.syncs[id].name, ch(w.syncs[id].pc)));
    StepDescends(cfg, id, w.syncs[id], Reg(w, Target(cfg, w.syncs[id])), ch(w.syncs[id].pc));
    v := Next(cfg, w, id, ch);
  }

  /** Those steps as a run of the cluster. */
  function FinishRun(cfg: Config, w: World, id: nat, ch: Pc -> Choice): seq<Action>
    requires id in w.syncs
    decreases Rank(w.syncs[id].pc)
  {
    if w.syncs[id].pc.Done? then []
    else
      var t := w.syncs[id];
      StepDescends(cfg, id, t, Reg(w, Target(cfg, t)), ch(t.pc));
      [Advance(id, t.name, ch(t.pc))] + FinishRun(cfg, Next(cfg, w, id, ch), id, ch)
  }

  lemma {:induction false} FinishIsRun(cfg: Config, w: World, id: nat, ch: Pc -> Choice)
    requires id in w.syncs
    ensures Valid(cfg, w, FinishRun(cfg, w, id, ch))
    ensures After(cfg, w, FinishRun(cfg, w, id, ch)) == Finish(cfg, w, id, ch)
    ensures |FinishRun(cfg, w, id, ch)| <= Rank(w.syncs[id].pc) <= 14
    decreases Rank(w.syncs[id].pc)
  {
    if !w.syncs[id].pc.Done? {
      var t := w.syncs[id];
      StepDescends(cfg, id, t, Reg(w, Target(cfg, t)), ch(t.pc));
      FinishIsRun(cfg, Next(cfg, w, id, ch), id, ch);
      var rest := FinishRun(cfg, Next(cfg, w, id, ch), id, ch);
      assert ([Advance(id, t.name, ch(t.pc))] + rest)[1..] == rest;
    }
  }

  lemma {:induction false} FinishEnds(cfg: Config, w: World, id: nat, ch: Pc -> Choice)
    requires id in w.syncs
    ensures id in Finish(cfg, w, id, ch).syncs && Finish(cfg, w, id, ch).syncs[id].pc.Done?
    decreases Rank(w.syncs[id].pc)
  {
    if !w.syncs[id].pc.Done? {
      StepDescends(cfg, id, w.syncs[id], Reg(w, Target(cfg, w.syncs[id])), ch(w.syncs[id].pc));
      FinishEnds(cfg, Next(cfg, w, id, ch), id, ch);
    }
  }

  lemma FinishDone(cfg: Config, w: World, id: nat, ch: Pc -> Choice)
    requires id in w.syncs && w.syncs[id].pc.Done?
    ensures Finish(cfg, w, id, ch) == w
  {
  }

  // ----- Stages -----

  predicate ChildGet(pc: Pc) { pc.GetSecret? || pc.GetWebhook? || pc.GetDeployment? || pc.GetService? }

  predicate ChildCreate(pc: Pc) { pc.CreateSecret? || pc.CreateWebhook? || pc.CreateDeployment? || pc.CreateService? }

  lemma GetIs(cfg: Config, id: nat, t: SyncState, r: Register, c: Choice)
    requires ChildGet(t.pc) && c.outcome == Fine && UpToDate(r)
    ensures Step(cfg, id, t, r, c) == (r, ReadChild(cfg, t, Live(r)))
  {
  }

  lemma CreateIs(cfg: Config, id: nat, t: SyncState, r: Register, c: Choice)
    requires ChildCreate(t.pc) && c.outcome == Fine && c.certs.Some?
    ensures Request(cfg, t, c).Some? && ControlledBy(Request(cfg, t, c).value, t.uid)
    ensures var o := Request(cfg, t, c).value;
            Step(cfg, id, t, r, c) ==
            if Live(r).Some? then (r, Fail(t)) else (Store(r, Some(o), Sync(id)), Created(cfg, t, o, c))
  {
    OwnedByController(t.name, t.uid);
  }

  /** A lookup, and a create when it found nothing: the child is settled either way. */
  lemma ChildStage(cfg: Config, w: World, id: nat, ch: Pc -> Choice, k: Key, create: Pc) returns (v: World)
    requires id in w.syncs && Harmless(ch(w.syncs[id].pc)) && Harmless(ch(create))
    requires ChildGet(w.syncs[id].pc) && k == Target(cfg, w.syncs[id])
    requires Calm(Reg(w, k), w.syncs[id].uid) && ChildCreate(create)
    requires ReadChild(cfg, w.syncs[id], None) == w.syncs[id].(pc := create)
    requires Target(cfg, w.syncs[id].(pc := create)) == k
    ensures var t := w.syncs[id];
            && OnlyAt(w, v, k, id) && Settled(Reg(w, k), Reg(v, k), t.uid)
            && Finish(cfg, w, id, ch) == Finish(cfg, v, id, ch)
            && v.syncs[id] == if Live(Reg(w, k)).Some? then ReadChild(cfg, t, Live(Reg(w, k)))
                              else Created(cfg, t.(pc := create), Live(Reg(v, k)).value, ch(create))
  {
    hide Finish;
    hide ReadChild;
    hide Created;
    hide Request;
    var t := w.syncs[id];
    GetIs(cfg, id, t, Reg(w, k), ch(t.pc));
    v := TakeStep(cfg, w, id, ch);
    if Live(Reg(w, k)).None? {
      var t', u := v.syncs[id], v;
      CreateIs(cfg, id, t', Reg(u, k), ch(create));
      hide Step;
      v := TakeStep(cfg, u, id, ch);
    }
  }

  predicate LiveGet(pc: Pc) { pc.GetIssuer? || pc.GetCertificate? }

  function AfterManifest(pc: Pc): Pc { if pc.GetIssuer? || pc.ApplyIssuer? then GetCertificate else GetWebhook }

  lemma LiveGetIs(cfg: Config, id: nat, t: SyncState, r: Register, c: Choice)
    requires LiveGet(t.pc) && c.outcome == Fine
    ensures var apply := if t.pc.GetIssuer? then ApplyIssuer else ApplyCertificate;
            Step(cfg, id, t, r, c) ==
            (r, t.(pc := if Live(r).None? then apply else AfterManifest(t.pc), mark := |r.hist|))
  {
  }

  lemma ApplyIs(cfg: Config, id: nat, t: SyncState, r: Register, c: Choice)
    requires (t.pc.ApplyIssuer? || t.pc.ApplyCertificate?) && c.outcome == Fine && Live(r).None?
    ensures var (r', t') := Step(cfg, id, t, r, c); Live(r').Some? && t' == t.(pc := AfterManifest(t.pc))
  {
  }

  lemma CertManagerStage(cfg: Config, w: World, id: nat, ch: Pc -> Choice) returns (v: World)
    requires id in w.syncs && Smooth(ch) && LiveGet(w.syncs[id].pc)
    ensures var t, k := w.syncs[id], Target(cfg, w.syncs[id]);
            && OnlyAt(w, v, k, id) && Live(Reg(v, k)).Some?
            && (Live(Reg(w, k)).Some? ==> Reg(v, k) == Reg(w, k))
            && v.syncs[id] == t.(pc := AfterManifest(t.pc), mark := v.syncs[id].mark)
            && Finish(cfg, w, id, ch) == Finish(cfg, v, id, ch)
  {
    hide Finish;
    var t := w.syncs[id];
    var k := Target(cfg, t);
    LiveGetIs(cfg, id, t, Reg(w, k), ch(t.pc));
    v := TakeStep(cfg, w, id, ch);
    if Live(Reg(w, k)).None? {
      ApplyIs(cfg, id, v.syncs[id], Reg(v, k), ch(v.syncs[id].pc));
      hide Step;
      v := TakeStep(cfg, v, id, ch);
    }
  }

  lemma SecretStage(cfg: Config, w: World, id: nat, ch: Pc -> Choice) returns (v: World)
    requires id in w.syncs && Smooth(ch) && w.syncs[id].pc.GetSecret?
    requires Calm(Reg(w, SecretKey(cfg, w.syncs[id].name)), w.syncs[id].uid)
    ensures var t, k := w.syncs[id], SecretKey(cfg, w.syncs[id].name);
            && OnlyAt(w, v, k, id) && Settled(Reg(w, k), Reg(v, k), t.uid)
            && v.syncs[id] == t.(pc := GetWebhook, cert := v.syncs[id].cert)
            && Finish(cfg, w, id, ch) == Finish(cfg, v, id, ch)
  {
    hide Finish;
    v := ChildStage(cfg, w, id, ch, SecretKey(cfg, w.syncs[id].name), CreateSecret);
  }

  lemma WebhookStage(cfg: Config, w: World, id: nat, ch: Pc -> Choice) returns (v: World)
    requires id in w.syncs && Smooth(ch) && w.syncs[id].pc.GetWebhook?
    requires Calm(Reg(w, WebhookKey(w.syncs[id].name)), w.syncs[id].uid)
    ensures var t, k := w.syncs[id], WebhookKey(w.syncs[id].name);
            && OnlyAt(w, v, k, id) && Settled(Reg(w, k), Reg(v, k), t.uid)
            && v.syncs[id] == AfterWebhook(cfg, t)
            && Finish(cfg, w, id, ch) == Finish(cfg, v, id, ch)
  {
    hide Finish;
    v := ChildStage(cfg, w, id, ch, WebhookKey(w.syncs[id].name), CreateWebhook);
  }

  /** The status names a Deployment that is there: it is used as it is. */
  lemma DeploymentFound(cfg: Config, w: World, id: nat, ch: Pc -> Choice) returns (v: World)
    requires id in w.syncs && Smooth(ch) && w.syncs[id].pc.GetDeployment?
    requires Calm(Reg(w, DeploymentKey(cfg, w.syncs[id].status.deploymentName)), w.syncs[id].uid)
    requires Live(Reg(w, DeploymentKey(cfg, w.syncs[id].status.deploymentName))).Some?
    ensures var t, k := w.syncs[id], DeploymentKey(cfg, w.syncs[id].status.deploymentName);
            && OnlyAt(w, v, k, id) && Reg(v, k) == Reg(w, k)
            && v.syncs[id] == AfterDeployment(t, t.status.deploymentName, Live(Reg(w, k)).value)
            && Finish(cfg, w, id, ch) == Finish(cfg, v, id, ch)
  {
    hide Finish;
    v := TakeStep(cfg, w, id, ch);
  }

  lemma DeploymentMissing(cfg: Config, w: World, id: nat, ch: Pc -> Choice) returns (v: World)
    requires id in w.syncs && Smooth(ch) && w.syncs[id].pc.GetDeployment?
    requires UpToDate(Reg(w, DeploymentKey(cfg, w.syncs[id].status.deploymentName)))
    requires Live(Reg(w, DeploymentKey(cfg, w.syncs[id].status.deploymentName))).None?
    ensures forall k :: Reg(v, k) == Reg(w, k)
    ensures id in v.syncs && v.syncs == w.syncs[id := w.syncs[id].(pc := CreateDeployment)]
    ensures Finish(cfg, w, id, ch) == Finish(cfg, v, id, ch)
  {
    hide Finish;
    v := TakeStep(cfg, w, id, ch);
  }

  /** Creating the handler works exactly when its name is free. */
  lemma HandlerStage(cfg: Config, w: World, id: nat, ch: Pc -> Choice) returns (v: World)
    requires id in w.syncs && Smooth(ch) && w.syncs[id].pc.CreateDeployment?
    ensures var t, k := w.syncs[id], HandlerKey(cfg, w.syncs[id].name);
            && OnlyAt(w, v, k, id) && Finish(cfg, w, id, ch) == Finish(cfg, v, id, ch)
            && (if Live(Reg(w, k)).Some?
                then v.syncs[id] == Fail(t) && Reg(v, k) == Reg(w, k)
                else Mine(Reg(v, k), t.uid)
                     && v.syncs[id] == AfterDeployment(t, HandlerName(t.name), Live(Reg(v, k)).value))
  {
    hide Finish;
    v := TakeStep(cfg, w, id, ch);
  }

  lemma ServiceStage(cfg: Config, w: World, id: nat, ch: Pc -> Choice) returns (v: World)
    requires id in w.syncs && Benign(ch) && w.syncs[id].pc.GetService?
    requires Calm(Reg(w, ServiceKey(cfg, w.syncs[id].name)), w.syncs[id].uid)
    ensures var t, k := w.syncs[id], ServiceKey(cfg, w.syncs[id].name);
            && OnlyAt(w, v, k, id) && Settled(Reg(w, k), Reg(v, k), t.uid)
            && v.syncs[id] == AfterService(t, Live(Reg(v, k)).value)
            && Finish(cfg, w, id, ch) == Finish(cfg, v, id, ch)
  {
    hide Finish;
    v := ChildStage(cfg, w, id, ch, ServiceKey(cfg, w.syncs[id].name), CreateService);
  }

  lemma StatusStage(cfg: Config, w: World, id: nat, ch: Pc -> Choice) returns (v: World)
    requires id in w.syncs && Benign(ch) && w.syncs[id].pc.PutStatus?
    requires w.syncs[id].readAt == |Reg(w, InjectorKey(w.syncs[id].name)).hist| - 1
    requires Live(Reg(w, InjectorKey(w.syncs[id].name))).Some?
    ensures var t, k := w.syncs[id], InjectorKey(w.syncs[id].name);
            && OnlyAt(w, v, k, id) && Live(Reg(v, k)) == Some(StatusUpdate(t))
            && (Live(Reg(w, k)) == Some(StatusUpdate(t)) ==> Reg(v, k) == Reg(w, k))
            && v.syncs[id] == t.(pc := Done(Succeeded))
            && Finish(cfg, w, id, ch) == v
  {
    v := TakeStep(cfg, w, id, ch);
  }

  // ----- The whole sync -----

  /** A sync is about to begin, and the lister is up to date about its injector. */
  predicate Starting(w: World, id: nat) {
    && id in w.syncs && w.syncs[id] == Begun(w.syncs[id].name)
    && UpToDate(Reg(w, InjectorKey(w.syncs[id].name)))
  }

  /** And the injector exists, with both settings in place. */
  predicate AboutToSync(cfg: Config, w: World, id: nat) {
    && cfg.namespace != "" && cfg.image != ""
    && Starting(w, id) && HasInjector(w, w.syncs[id].name)
  }

  predicate HasInjector(w: World, n: string) {
    Live(Reg(w, InjectorKey(n))).Some? && Live(Reg(w, InjectorKey(n))).value.InjectorObj?
  }

  function LiveInjector(w: World, n: string): (o: Obj)
    requires HasInjector(w, n)
    ensures o.InjectorObj?
  {
    Live(Reg(w, InjectorKey(n))).value
  }

  /** No foreign object sits at a name the sync looks up. */
  predicate NoForeigner(cfg: Config, w: World, n: string)
    requires HasInjector(w, n)
  {
    var o := LiveInjector(w, n);
    && (!cfg.useCertManager ==> Calm(Reg(w, SecretKey(cfg, n)), o.uid))
    && Calm(Reg(w, WebhookKey(n)), o.uid)
    && (o.status.deploymentName != "" ==> Calm(Reg(w, DeploymentKey(cfg, o.status.deploymentName)), o.uid))
    && Calm(Reg(w, ServiceKey(cfg, n)), o.uid)
  }

  /** What a caller can check beforehand: a recorded deployment that exists, or a free handler name. */
  predicate CanSucceed(cfg: Config, w: World, n: string)
    requires HasInjector(w, n)
  {
    var name := LiveInjector(w, n).status.deploymentName;
    (name != "" && Live(Reg(w, DeploymentKey(cfg, name))).Some?) || Live(Reg(w, HandlerKey(cfg, n))).None?
  }

  predicate CertificateKind(kind: Kind) { kind.Secret? || kind.Issuer? || kind.Certificate? }

  /** The certificate objects of the chosen mode are in place, and those that were there are untouched. */
  predicate CertificatesSettled(cfg: Config, w: World, v: World, n: string, uid: string) {
    if cfg.useCertManager then
      && Live(Reg(v, IssuerKey(cfg, n))).Some? && Live(Reg(v, CertificateKey(cfg, n))).Some?
      && (Live(Reg(w, IssuerKey(cfg, n))).Some? ==> Reg(v, IssuerKey(cfg, n)) == Reg(w, IssuerKey(cfg, n)))
      && (Live(Reg(w, CertificateKey(cfg, n))).Some? ==>
            Reg(v, CertificateKey(cfg, n)) == Reg(w, CertificateKey(cfg, n)))
    else Settled(Reg(w, SecretKey(cfg, n)), Reg(v, SecretKey(cfg, n)), uid)
  }

  lemma StartStage(cfg: Config, w: World, id: nat, ch: Pc -> Choice) returns (v: World)
    requires cfg.namespace != "" && Starting(w, id) && HasInjector(w, w.syncs[id].name) && Smooth(ch)
    ensures var n := w.syncs[id].name;
            && (forall k :: Reg(v, k) == Reg(w, k))
            && id in v.syncs && v.syncs == w.syncs[id := v.syncs[id]]
            && Holds(v.syncs[id], n, LiveInjector(w, n), |Reg(w, InjectorKey(n)).hist| - 1)
            && (v.syncs[id].pc == if cfg.useCertManager then GetIssuer else GetSecret)
            && Finish(cfg, w, id, ch) == Finish(cfg, v, id, ch)
  {
    hide Finish;
    v := TakeStep(cfg, w, id, ch);
  }

  lemma CertificatesStage(cfg: Config, w: World, id: nat, ch: Pc -> Choice) returns (v: World)
    requires id in w.syncs && Smooth(ch)
    requires w.syncs[id].pc == if cfg.useCertManager then GetIssuer else GetSecret
    requires !cfg.useCertManager ==> Calm(Reg(w, SecretKey(cfg, w.syncs[id].name)), w.syncs[id].uid)
    ensures var t := w.syncs[id];
            && id in v.syncs && v.syncs[id] == t.(pc := GetWebhook, cert := v.syncs[id].cert, mark := v.syncs[id].mark)
            && CertificatesSettled(cfg, w, v, t.name, t.uid)
            && (forall k: Key :: !CertificateKind(k.kind) ==> Reg(v, k) == Reg(w, k))
            && Finish(cfg, w, id, ch) == Finish(cfg, v, id, ch)
  {
    hide Finish;
    if cfg.useCertManager {
      var u := CertManagerStage(cfg, w, id, ch);
      v := CertManagerStage(cfg, u, id, ch);
    } else {
      v := SecretStage(cfg, w, id, ch);
    }
  }

  lemma CertificatesFrame(cfg: Config, w: World, u: World, x: World, v: World, n: string, uid: string)
    requires CertificatesSettled(cfg, u, x, n, uid)
    requires forall k :: Reg(u, k) == Reg(w, k)
    requires forall k: Key :: CertificateKind(k.kind) ==> Reg(v, k) == Reg(x, k)
    ensures CertificatesSettled(cfg, w, v, n, uid)
  {
  }

  /** Up to the webhook nothing can go wrong; then the image must be set. */
  lemma FirstHalf(cfg: Config, w: World, id: nat, ch: Pc -> Choice) returns (v: World)
    requires cfg.namespace != "" && Starting(w, id) && HasInjector(w, w.syncs[id].name) && Smooth(ch)
    requires NoForeigner(cfg, w, w.syncs[id].name)
    ensures var n, o := w.syncs[id].name, LiveInjector(w, w.syncs[id].name);
            && id in v.syncs
            && Holds(v.syncs[id], n, o, |Reg(w, InjectorKey(n)).hist| - 1)
            && v.syncs[id].pc == (if cfg.image == "" then Done(Failed)
                                  else if o.status.deploymentName == "" then CreateDeployment else GetDeployment)
            && CertificatesSettled(cfg, w, v, n, o.uid)
            && Settled(Reg(w, WebhookKey(n)), Reg(v, WebhookKey(n)), o.uid)
            && (forall k: Key :: k.kind.Injector? || k.kind.Deployment? || k.kind.Service? ==> Reg(v, k) == Reg(w, k))
            && Finish(cfg, w, id, ch) == Finish(cfg, v, id, ch)
  {
    hide Finish;
    hide Smooth;
    hide CertificatesSettled;
    hide Settled;
    var u := StartStage(cfg, w, id, ch);
    assert NoForeigner(cfg, u, w.syncs[id].name);
    var x := CertificatesStage(cfg, u, id, ch);
    v := WebhookStage(cfg, x, id, ch);
    CertificatesFrame(cfg, w, u, x, v, w.syncs[id].name, LiveInjector(w, w.syncs[id].name).uid);
  }

  /** The status names the live Deployment and reports what it and the live Service show. */
  predicate StatusAccurate(cfg: Config, w: World, n: string, o: Obj)
    requires o.InjectorObj?
  {
    && Mine(Reg(w, DeploymentKey(cfg, o.status.deploymentName)), o.uid)
    && Mine(Reg(w, ServiceKey(cfg, n)), o.uid)
    && o.status.podCount == PodCount(Live(Reg(w, DeploymentKey(cfg, o.status.deploymentName))).value)
    && o.status.serviceReady == ServiceReady(Live(Reg(w, ServiceKey(cfg, n))).value)
  }

  /** The Deployment, once found or made, is followed by Service and status without fail. */
  lemma LastStages(cfg: Config, w: World, id: nat, ch: Pc -> Choice) returns (v: World)
    requires id in w.syncs && Benign(ch) && w.syncs[id].pc.GetService?
    requires var t := w.syncs[id];
             && Mine(Reg(w, DeploymentKey(cfg, t.deploymentName)), t.uid)
             && t.podCount == PodCount(Live(Reg(w, DeploymentKey(cfg, t.deploymentName))).value)
             && Calm(Reg(w, ServiceKey(cfg, t.name)), t.uid)
             && t.readAt == |Reg(w, InjectorKey(t.name)).hist| - 1
             && Live(Reg(w, InjectorKey(t.name))).Some?
    ensures v == Finish(cfg, w, id, ch) && id in v.syncs && v.syncs[id].pc == Done(Succeeded)
    ensures var t := w.syncs[id];
            var o' := InjectorObj(t.owners, t.uid, t.spec,
                                  Status(t.deploymentName, t.podCount, v.syncs[id].serviceReady));
            && Settled(Reg(w, ServiceKey(cfg, t.name)), Reg(v, ServiceKey(cfg, t.name)), t.uid)
            && Live(Reg(v, InjectorKey(t.name))) == Some(o') && StatusAccurate(cfg, v, t.name, o')
            && (Live(Reg(w, InjectorKey(t.name))) == Some(o') ==>
                  Reg(v, InjectorKey(t.name)) == Reg(w, InjectorKey(t.name)))
            && forall k :: k != ServiceKey(cfg, t.name) && k != InjectorKey(t.name) ==> Reg(v, k) == Reg(w, k)
  {
    hide Finish;
    var u := ServiceStage(cfg, w, id, ch);
    v := StatusStage(cfg, u, id, ch);
  }

  /** The Deployment the sync settles on: the recorded one while it exists, the handler otherwise. */
  function ChosenName(cfg: Config, w: World, n: string): string
    requires HasInjector(w, n)
  {
    var name := LiveInjector(w, n).status.deploymentName;
    if name != "" && Live(Reg(w, DeploymentKey(cfg, name))).Some? then name else HandlerName(n)
  }

  /** From the Deployment on, the handler's name decides. */
  lemma DeploymentStage(cfg: Config, w: World, id: nat, ch: Pc -> Choice) returns (v: World)
    requires id in w.syncs && Smooth(ch) && HasInjector(w, w.syncs[id].name)
    requires var t := w.syncs[id];
             && t.status == LiveInjector(w, t.name).status
             && (t.pc == if t.status.deploymentName == "" then CreateDeployment else GetDeployment)
             && (t.status.deploymentName != "" ==> Calm(Reg(w, DeploymentKey(cfg, t.status.deploymentName)), t.uid))
    ensures id in v.syncs && Finish(cfg, w, id, ch) == Finish(cfg, v, id, ch)
    ensures !CanSucceed(cfg, w, w.syncs[id].name) ==>
              v.syncs[id].pc == Done(Failed) && forall k :: Reg(v, k) == Reg(w, k)
    ensures CanSucceed(cfg, w, w.syncs[id].name) ==>
              var t, name := w.syncs[id], ChosenName(cfg, w, w.syncs[id].name);
              && Settled(Reg(w, DeploymentKey(cfg, name)), Reg(v, DeploymentKey(cfg, name)), t.uid)
              && v.syncs[id] == AfterDeployment(t, name, Live(Reg(v, DeploymentKey(cfg, name))).value)
              && forall k :: k != DeploymentKey(cfg, name) ==> Reg(v, k) == Reg(w, k)
  {
    hide Finish;
    var t := w.syncs[id];
    if t.pc.GetDeployment? && Live(Reg(w, DeploymentKey(cfg, t.status.deploymentName))).Some? {
      v := DeploymentFound(cfg, w, id, ch);
    } else {
      var u := w;
      if t.pc.GetDeployment? {
        u := DeploymentMissing(cfg, w, id, ch);
      }
      v := HandlerStage(cfg, u, id, ch);
    }
  }

  /** What a successful sync leaves: every child in place, what was there untouched, an accurate status. */
  predicate Converged(cfg: Config, w: World, v: World, n: string)
    requires HasInjector(w, n)
  {
    var o, name := LiveInjector(w, n), ChosenName(cfg, w, n);
    && ChildrenSettled(cfg, w, v, n, name, o.uid)
    && HasInjector(v, n)
    && LiveInjector(v, n) == o.(status := LiveInjector(v, n).status)
    && LiveInjector(v, n).status.deploymentName == name
    && StatusAccurate(cfg, v, n, LiveInjector(v, n))
    && (LiveInjector(v, n) == o ==> Reg(v, InjectorKey(n)) == Reg(w, InjectorKey(n)))
  }

  predicate ChildrenSettled(cfg: Config, w: World, v: World, n: string, name: string, uid: string) {
    && CertificatesSettled(cfg, w, v, n, uid)
    && Settled(Reg(w, WebhookKey(n)), Reg(v, WebhookKey(n)), uid)
    && Settled(Reg(w, DeploymentKey(cfg, name)), Reg(v, DeploymentKey(cfg, name)), uid)
    && Settled(Reg(w, ServiceKey(cfg, n)), Reg(v, ServiceKey(cfg, n)), uid)
  }

  lemma Kinds(cfg: Config, n: string, name: string)
    ensures SecretKey(cfg, n).kind.Secret? && IssuerKey(cfg, n).kind.Issuer? && CertificateKey(cfg, n).kind.Certificate?
    ensures WebhookKey(n).kind.Webhook? && ServiceKey(cfg, n).kind.Service? && InjectorKey(n).kind.Injector?
    ensures DeploymentKey(cfg, name).kind.Deployment?
  {
  }

  /** The parts of a sync each settle their own kinds. */
  lemma PartsSettle(cfg: Config, w: World, x: World, v: World, n: string, name: string, uid: string)
    requires CertificatesSettled(cfg, w, x, n, uid) && Settled(Reg(w, WebhookKey(n)), Reg(x, WebhookKey(n)), uid)
    requires Settled(Reg(w, DeploymentKey(cfg, name)), Reg(x, DeploymentKey(cfg, name)), uid)
    requires Settled(Reg(x, ServiceKey(cfg, n)), Reg(v, ServiceKey(cfg, n)), uid)
    requires Reg(x, ServiceKey(cfg, n)) == Reg(w, ServiceKey(cfg, n))
    requires forall k :: k != ServiceKey(cfg, n) && k != InjectorKey(n) ==> Reg(v, k) == Reg(x, k)
    ensures ChildrenSettled(cfg, w, v, n, name, uid)
  {
    Kinds(cfg, n, name);
    hide SecretKey;
    hide IssuerKey;
    hide CertificateKey;
    hide WebhookKey;
    hide ServiceKey;
    hide DeploymentKey;
    hide InjectorKey;
    hide Mine;
  }

  lemma CertificatesStay(cfg: Config, w: World, u: World, x: World, n: string, uid: string)
    requires CertificatesSettled(cfg, w, u, n, uid)
    requires forall k: Key :: CertificateKind(k.kind) ==> Reg(x, k) == Reg(u, k)
    ensures CertificatesSettled(cfg, w, x, n, uid)
  {
  }

  /** The sync up to the point where it has its Deployment in hand. */
  lemma ThroughDeployment(cfg: Config, w: World, id: nat, ch: Pc -> Choice) returns (v: World)
    requires AboutToSync(cfg, w, id) && Smooth(ch) && NoForeigner(cfg, w, w.syncs[id].name)
    requires CanSucceed(cfg, w, w.syncs[id].name)
    ensures id in v.syncs && Finish(cfg, w, id, ch) == Finish(cfg, v, id, ch)
    ensures var n, o, name := w.syncs[id].name, LiveInjector(w, w.syncs[id].name), ChosenName(cfg, w, w.syncs[id].name);
            var k := DeploymentKey(cfg, name);
            && Holds(v.syncs[id], n, o, |Reg(w, InjectorKey(n)).hist| - 1)
            && v.syncs[id].pc.GetService? && v.syncs[id].deploymentName == name
            && CertificatesSettled(cfg, w, v, n, o.uid)
            && Settled(Reg(w, WebhookKey(n)), Reg(v, WebhookKey(n)), o.uid)
            && Settled(Reg(w, k), Reg(v, k), o.uid) && v.syncs[id].podCount == PodCount(Live(Reg(v, k)).value)
            && (forall k: Key :: k.kind.Injector? || k.kind.Service? ==> Reg(v, k) == Reg(w, k))
  {
    hide Finish;
    hide Smooth;
    hide CertificatesSettled;
    hide Belongs;
    var n := w.syncs[id].name;
    var u := FirstHalf(cfg, w, id, ch);
    v := DeploymentStage(cfg, u, id, ch);
    CertificatesStay(cfg, w, u, v, n, LiveInjector(w, n).uid);
  }

  /** A failing sync stops at the Deployment: no Service, no status, no Deployment is written. */
  ghost predicate Stuck(w: World, v: World) {
    forall k: Key | k.kind.Deployment? || k.kind.Service? || k.kind.Injector? :: Reg(v, k) == Reg(w, k)
  }

  lemma SuccessfulSync(cfg: Config, w: World, id: nat, ch: Pc -> Choice) returns (v: World)
    requires AboutToSync(cfg, w, id) && Benign(ch) && NoForeigner(cfg, w, w.syncs[id].name)
    requires CanSucceed(cfg, w, w.syncs[id].name)
    ensures v == Finish(cfg, w, id, ch) && id in v.syncs && v.syncs[id].pc == Done(Succeeded)
    ensures Converged(cfg, w, v, w.syncs[id].name)
  {
    BenignIsSmooth(ch);
    hide Finish;
    hide Benign;
    hide Smooth;
    hide Belongs;
    hide CertificatesSettled;
    var n := w.syncs[id].name;
    var x := ThroughDeployment(cfg, w, id, ch);
    v := LastStages(cfg, x, id, ch);
    PartsSettle(cfg, w, x, v, n, ChosenName(cfg, w, n), LiveInjector(w, n).uid);
  }

  lemma FailingSync(cfg: Config, w: World, id: nat, ch: Pc -> Choice) returns (v: World)
    requires AboutToSync(cfg, w, id) && Smooth(ch) && NoForeigner(cfg, w, w.syncs[id].name)
    requires !CanSucceed(cfg, w, w.syncs[id].name)
    ensures v == Finish(cfg, w, id, ch) && id in v.syncs && v.syncs[id].pc == Done(Failed)
    ensures Stuck(w, v)
  {
    var n := w.syncs[id].name;
    var u := FirstHalf(cfg, w, id, ch);
    v := DeploymentStage(cfg, u, id, ch);
  }

  /**
   Exact convergence: with current caches, no fault, both settings present and no foreign
   object in the way, the sync succeeds if and only if a recorded Deployment exists or the
   handler's name is free.
   */
  lemma ExactConvergence(cfg: Config, w: World, id: nat, ch: Pc -> Choice)
    requires AboutToSync(cfg, w, id) && Benign(ch) && NoForeigner(cfg, w, w.syncs[id].name)
    ensures var n, v := w.syncs[id].name, Finish(cfg, w, id, ch);
            && id in v.syncs
            && v.syncs[id].pc == Done(if CanSucceed(cfg, w, n) then Succeeded else Failed)
            && (if CanSucceed(cfg, w, n) then Converged(cfg, w, v, n) else Stuck(w, v))
  {
    if CanSucceed(cfg, w, w.syncs[id].name) {
      var v := SuccessfulSync(cfg, w, id, ch);
    } else {
      var v := FailingSync(cfg, w, id, ch);
    }
  }

  // ----- And again -----

  /** Caches current, every child in place, the status recorded and accurate. */
  predicate Steady(cfg: Config, w: World, n: string) {
    && HasInjector(w, n) && UpToDate(Reg(w, InjectorKey(n)))
    && var o := LiveInjector(w, n);
    && o.status.deploymentName != "" && StatusAccurate(cfg, w, n, o)
    && (if cfg.useCertManager then Live(Reg(w, IssuerKey(cfg, n))).Some? && Live(Reg(w, CertificateKey(cfg, n))).Some?
        else Mine(Reg(w, SecretKey(cfg, n)), o.uid) && UpToDate(Reg(w, SecretKey(cfg, n))))
    && Mine(Reg(w, WebhookKey(n)), o.uid) && UpToDate(Reg(w, WebhookKey(n)))
    && UpToDate(Reg(w, DeploymentKey(cfg, o.status.deploymentName))) && UpToDate(Reg(w, ServiceKey(cfg, n)))
  }

  /** A sync that has found everything so far and is about to find the rest. */
  predicate Coasting(cfg: Config, w: World, t: SyncState)
    requires HasInjector(w, t.name)
  {
    var o := LiveInjector(w, t.name);
    && !(Writes(t.pc) && !t.pc.PutStatus?)
    && (t.pc.Done? ==> t.pc.verdict.Succeeded?)
    && ((t.pc.GetIssuer? || t.pc.GetCertificate?) ==> cfg.useCertManager)
    && (t.pc.GetSecret? ==> !cfg.useCertManager)
    && (!t.pc.Start? ==> Holds(t, t.name, o, |Reg(w, InjectorKey(t.name)).hist| - 1))
    && (t.pc.GetService? || t.pc.PutStatus? ==>
          t.deploymentName == o.status.deploymentName && t.podCount == o.status.podCount)
    && (t.pc.PutStatus? ==> t.serviceReady == o.status.serviceReady)
  }

  lemma CoastStart(cfg: Config, w: World, t: SyncState, c: Choice)
    requires Steady(cfg, w, t.name) && t.pc.Start? && cfg.namespace != "" && c.outcome == Fine
    ensures var t' := Read(cfg, t, Reg(w, Target(cfg, t)), c); t'.name == t.name && Coasting(cfg, w, t')
  {
    hide StatusAccurate;
  }

  lemma CoastCertificates(cfg: Config, w: World, t: SyncState, c: Choice)
    requires Steady(cfg, w, t.name) && Coasting(cfg, w, t) && Stage(t.pc) == 1 && c.outcome == Fine
    ensures var t' := Read(cfg, t, Reg(w, Target(cfg, t)), c); t'.name == t.name && Coasting(cfg, w, t')
  {
    hide StatusAccurate;
  }

  lemma CoastWebhook(cfg: Config, w: World, t: SyncState, c: Choice)
    requires Steady(cfg, w, t.name) && Coasting(cfg, w, t) && Stage(t.pc) == 2 && cfg.image != "" && c.outcome == Fine
    ensures var t' := Read(cfg, t, Reg(w, Target(cfg, t)), c); t'.name == t.name && Coasting(cfg, w, t')
  {
    hide StatusAccurate;
  }

  lemma CoastLate(cfg: Config, w: World, t: SyncState, c: Choice)
    requires Steady(cfg, w, t.name) && Coasting(cfg, w, t) && (t.pc.GetDeployment? || t.pc.GetService?)
    requires c.outcome == Fine
    ensures var t' := Read(cfg, t, Reg(w, Target(cfg, t)), c); t'.name == t.name && Coasting(cfg, w, t')
  {
  }

  lemma CoastPut(cfg: Config, w: World, id: nat, t: SyncState, c: Choice)
    requires Steady(cfg, w, t.name) && Coasting(cfg, w, t) && t.pc.PutStatus? && c.outcome == Fine
    ensures var (r', t') := Step(cfg, id, t, Reg(w, Target(cfg, t)), c);
            r' == Reg(w, Target(cfg, t)) && t'.name == t.name && Coasting(cfg, w, t')
  {
    hide StatusAccurate;
    hide Mine;
    assert StatusUpdate(t) == LiveInjector(w, t.name);
  }

  lemma SteadySame(cfg: Config, w: World, v: World, t: SyncState)
    requires forall k :: Reg(v, k) == Reg(w, k)
    requires Steady(cfg, w, t.name) && Coasting(cfg, w, t)
    ensures Steady(cfg, v, t.name) && Coasting(cfg, v, t)
  {
  }

  /** In a steady cluster a sync stores nothing, from wherever it stands, and succeeds. */
  lemma {:induction false} SteadySyncChangesNothing(cfg: Config, w: World, id: nat, ch: Pc -> Choice)
    requires id in w.syncs && Steady(cfg, w, w.syncs[id].name) && Coasting(cfg, w, w.syncs[id])
    requires cfg.namespace != "" && cfg.image != "" && Benign(ch)
    ensures id in Finish(cfg, w, id, ch).syncs && Finish(cfg, w, id, ch).syncs[id].pc == Done(Succeeded)
    ensures forall k :: Reg(Finish(cfg, w, id, ch), k) == Reg(w, k)
    decreases Rank(w.syncs[id].pc)
  {
    var t := w.syncs[id];
    if t.pc.Done? {
      FinishDone(cfg, w, id, ch);
    } else {
      hide Finish;
      StepIs(cfg, id, t, Reg(w, Target(cfg, t)), ch(t.pc));
      if t.pc.PutStatus? {
        CoastPut(cfg, w, id, t, ch(t.pc));
      } else if t.pc.Start? {
        CoastStart(cfg, w, t, ch(t.pc));
      } else if Stage(t.pc) == 1 {
        CoastCertificates(cfg, w, t, ch(t.pc));
      } else if Stage(t.pc) == 2 {
        CoastWebhook(cfg, w, t, ch(t.pc));
      } else {
        CoastLate(cfg, w, t, ch(t.pc));
      }
      StepDescends(cfg, id, t, Reg(w, Target(cfg, t)), ch(t.pc));
      var v := TakeStep(cfg, w, id, ch);
      SteadySame(cfg, w, v, v.syncs[id]);
      SteadySyncChangesNothing(cfg, v, id, ch);
    }
  }

  /** Nothing new was stored, and every cache has caught up. */
  ghost predicate CaughtUp(w: World, v: World) {
    forall k :: Reg(v, k).hist == Reg(w, k).hist && UpToDate(Reg(v, k))
  }

  lemma ConvergedIsSteady(cfg: Config, w: World, v: World, v': World, n: string)
    requires HasInjector(w, n) && Converged(cfg, w, v, n) && CaughtUp(v, v')
    ensures Steady(cfg, v', n)
  {
  }

  /**
   Once the caches have caught up with a successful sync, another sync of the same injector
   creates nothing, rewrites the same status, and succeeds.
   */
  lemma SecondSyncChangesNothing(
      cfg: Config, w: World, id: nat, ch: Pc -> Choice, v: World, id': nat, ch': Pc -> Choice)
    requires AboutToSync(cfg, w, id) && Benign(ch) && NoForeigner(cfg, w, w.syncs[id].name)
    requires CanSucceed(cfg, w, w.syncs[id].name)
    requires CaughtUp(Finish(cfg, w, id, ch), v)
    requires id' in v.syncs && v.syncs[id'] == Begun(w.syncs[id].name) && Benign(ch')
    ensures var v' := Finish(cfg, v, id', ch');
            && id' in v'.syncs && v'.syncs[id'].pc == Done(Succeeded)
            && forall k :: Reg(v', k) == Reg(v, k)
  {
    hide Finish;
    ExactConvergence(cfg, w, id, ch);
    ConvergedIsSteady(cfg, w, Finish(cfg, w, id, ch), v, w.syncs[id].name);
    SteadySyncChangesNothing(cfg, v, id', ch');
  }

  /** The status carries no name but the controller's own. */
  predicate OwnNames(w: World, n: string)
    requires HasInjector(w, n)
  {
    var name := LiveInjector(w, n).status.deploymentName;
    name == "" || name == HandlerName(n)
  }

  /**
   With names as the controller writes them the condition is the short one: a recorded name,
   or no handler.
   */
  lemma CanSucceedWithOwnNames(cfg: Config, w: World, n: string)
    requires HasInjector(w, n)
    requires OwnNames(w, n)
    ensures CanSucceed(cfg, w, n) <==> ShortCondition(cfg, w, n)
  {
  }

  /** A recorded name, or no handler: the condition one would like. */
  predicate ShortCondition(cfg: Config, w: World, n: string)
    requires HasInjector(w, n)
  {
    LiveInjector(w, n).status.deploymentName != "" || Live(Reg(w, HandlerKey(cfg, n))).None?
  }

  /** The recorded Deployment is gone while a handler, then under another name, is in place. */
  predicate Forsaken(cfg: Config, w: World, n: string)
    requires HasInjector(w, n)
  {
    var name := LiveInjector(w, n).status.deploymentName;
    name != "" && Live(Reg(w, DeploymentKey(cfg, name))).None? && Live(Reg(w, HandlerKey(cfg, n))).Some?
  }

  /** A sync of a forsaken injector fails, although a name is recorded. */
  lemma ForeignNameFails(cfg: Config, w: World, id: nat, ch: Pc -> Choice)
    requires AboutToSync(cfg, w, id) && Benign(ch) && NoForeigner(cfg, w, w.syncs[id].name)
    requires Forsaken(cfg, w, w.syncs[id].name)
    ensures ShortCondition(cfg, w, w.syncs[id].name)
    ensures LiveInjector(w, w.syncs[id].name).status.deploymentName != HandlerName(w.syncs[id].name)
    ensures id in Finish(cfg, w, id, ch).syncs && Finish(cfg, w, id, ch).syncs[id].pc == Done(Failed)
  {
    ExactConvergence(cfg, w, id, ch);
  }

  /** So the short condition is right exactly when the injector is not forsaken. */
  lemma ShortConditionExact(cfg: Config, w: World, id: nat, ch: Pc -> Choice)
    requires AboutToSync(cfg, w, id) && Benign(ch) && NoForeigner(cfg, w, w.syncs[id].name)
    ensures id in Finish(cfg, w, id, ch).syncs
    ensures (Finish(cfg, w, id, ch).syncs[id].pc == Done(Succeeded) <==> ShortCondition(cfg, w, w.syncs[id].name)) <==>
            !Forsaken(cfg, w, w.syncs[id].name)
  {
    ExactConvergence(cfg, w, id, ch);
  }

  /** How many children the injector is missing. */
  function Missing(cfg: Config, w: World, n: string): nat
    requires HasInjector(w, n)
  {
    var absent := (k: Key) => if Live(Reg(w, k)).None? then 1 else 0;
    (if cfg.useCertManager then absent(IssuerKey(cfg, n)) + absent(CertificateKey(cfg, n))
     else absent(SecretKey(cfg, n)))
    + absent(WebhookKey(n)) + absent(DeploymentKey(cfg, ChosenName(cfg, w, n))) + absent(ServiceKey(cfg, n))
  }

  lemma ConvergedMissesNothing(cfg: Config, w: World, v: World, n: string)
    requires HasInjector(w, n) && Converged(cfg, w, v, n)
    ensures Missing(cfg, v, n) == 0
  {
  }
}
