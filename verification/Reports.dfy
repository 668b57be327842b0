/**
 What the status says is true: every pod count and every readiness a sync writes is that of a
 Deployment and of a Service that were in the store, under the injector's UID.
 */
module Reports {
  import opened Basics
  import opened Cluster
  import opened Reconciler
  import opened Safety
  import opened Convergence

  /** The API server keeps objects of one kind under keys of that kind. */
  predicate KindedRegister(r: Register, kind: Kind) {
    forall i | 0 <= i < |r.hist| && r.hist[i].obj.Some? :: HasKind(r.hist[i].obj.value, kind)
  }

  ghost predicate Kinded(w: World) {
    forall k: Key :: KindedRegister(Reg(w, k), k.kind)
  }

  /** A Deployment with that many available replicas, controlled by the UID. */
  predicate Pods(o: Obj, uid: string, podCount: int) {
    o.DeploymentObj? && ControlledBy(o, uid) && o.availableReplicas == podCount
  }

  /** A Service controlled by the UID that is ready, with a port and an address, or is not. */
  predicate Readiness(o: Obj, uid: string, ready: bool) {
    o.ServiceObj? && ControlledBy(o, uid) && (ready <==> o.ports != [] && o.clusterIP != "")
  }

  predicate PodsShown(r: Register, uid: string, podCount: int) {
    exists i | 0 <= i < |r.hist| && r.hist[i].obj.Some? :: Pods(r.hist[i].obj.value, uid, podCount)
  }

  predicate ReadinessShown(r: Register, uid: string, ready: bool) {
    exists i | 0 <= i < |r.hist| && r.hist[i].obj.Some? :: Readiness(r.hist[i].obj.value, uid, ready)
  }

  /** What a sync has in hand has been in the store. */
  predicate Informed(cfg: Config, w: World, t: SyncState) {
    && (Stage(t.pc) >= 4 ==> PodsShown(Reg(w, DeploymentKey(cfg, t.deploymentName)), t.uid, t.podCount))
    && (Stage(t.pc) >= 5 ==> ReadinessShown(Reg(w, ServiceKey(cfg, t.name)), t.uid, t.serviceReady))
  }

  /** The status of an injector names a Deployment, and tells of it and of the Service what was once so. */
  predicate Truthful(cfg: Config, w: World, n: string, o: Obj)
    requires o.InjectorObj?
  {
    && PodsShown(Reg(w, Key(Deployment, cfg.namespace, o.status.deploymentName)), o.uid, o.status.podCount)
    && ReadinessShown(Reg(w, Key(Service, cfg.namespace, "sidecar-injector-" + n)), o.uid, o.status.serviceReady)
  }

  predicate TruthfulVersion(cfg: Config, w: World, n: string, v: Version) {
    v.writer.Sync? ==> v.obj.Some? && v.obj.value.InjectorObj? && Truthful(cfg, w, n, v.obj.value)
  }

  ghost predicate AllTruthful(cfg: Config, w: World) {
    forall n, i | 0 <= i < |Reg(w, InjectorKey(n)).hist| ::
      TruthfulVersion(cfg, w, n, Reg(w, InjectorKey(n)).hist[i])
  }

  ghost predicate Honest(cfg: Config, w: World) {
    Kinded(w) && AllTruthful(cfg, w) && forall id | id in w.syncs :: Informed(cfg, w, w.syncs[id])
  }

  // ----- Growing histories -----

  lemma ShownStays(r: Register, r': Register, uid: string, podCount: int, ready: bool)
    requires r.hist <= r'.hist
    ensures PodsShown(r, uid, podCount) ==> PodsShown(r', uid, podCount)
    ensures ReadinessShown(r, uid, ready) ==> ReadinessShown(r', uid, ready)
  {
    assert forall i | 0 <= i < |r.hist| :: r'.hist[i] == r.hist[i];
  }

  lemma InformedStays(cfg: Config, w: World, w': World, t: SyncState)
    requires Grows(w, w') && Informed(cfg, w, t)
    ensures Informed(cfg, w', t)
  {
    var d, s := DeploymentKey(cfg, t.deploymentName), ServiceKey(cfg, t.name);
    ShownStays(Reg(w, d), Reg(w', d), t.uid, t.podCount, t.serviceReady);
    ShownStays(Reg(w, s), Reg(w', s), t.uid, t.podCount, t.serviceReady);
  }

  lemma TruthfulStays(cfg: Config, w: World, w': World, n: string, o: Obj)
    requires o.InjectorObj? && Grows(w, w') && Truthful(cfg, w, n, o)
    ensures Truthful(cfg, w', n, o)
  {
    var d := Key(Deployment, cfg.namespace, o.status.deploymentName);
    var s := Key(Service, cfg.namespace, "sidecar-injector-" + n);
    ShownStays(Reg(w, d), Reg(w', d), o.uid, o.status.podCount, o.status.serviceReady);
    ShownStays(Reg(w, s), Reg(w', s), o.uid, o.status.podCount, o.status.serviceReady);
  }

  lemma KindedStep(cfg: Config, w: World, a: Action)
    requires Enabled(w, a) && Kinded(w)
    ensures Kinded(Do(cfg, w, a))
  {
    var w' := Do(cfg, w, a);
    forall k: Key ensures KindedRegister(Reg(w', k), k.kind) {
      assert KindedRegister(Reg(w, k), k.kind);
      if a.Advance? {
        var t := w.syncs[a.id];
        StepStores(cfg, a.id, t, Reg(w, Target(cfg, t)), a.choice);
      }
    }
  }

  // ----- One step of a sync -----

  lemma InformedByRead(cfg: Config, w: World, t: SyncState, c: Choice)
    requires !Writes(t.pc) && !t.pc.Done? && Informed(cfg, w, t)
    requires KindedRegister(Reg(w, Target(cfg, t)), Target(cfg, t).kind)
    ensures Informed(cfg, w, Read(cfg, t, Reg(w, Target(cfg, t)), c))
  {
  }

  /** `w` is the world with the reply's object stored. */
  lemma InformedByWrite(cfg: Config, w: World, t: SyncState, reply: Reply, c: Choice)
    requires Writes(t.pc) && Informed(cfg, w, t)
    requires KindedRegister(Reg(w, Target(cfg, t)), Target(cfg, t).kind)
    requires reply.Accepted? ==> Live(Reg(w, Target(cfg, t))) == Some(reply.obj)
    ensures Informed(cfg, w, Written(cfg, t, reply, c))
  {
  }

  lemma InformedStep(cfg: Config, w: World, a: Action)
    requires Enabled(w, a) && a.Advance? && Kinded(w) && Informed(cfg, w, w.syncs[a.id])
    ensures a.id in Do(cfg, w, a).syncs && Informed(cfg, Do(cfg, w, a), Do(cfg, w, a).syncs[a.id])
  {
    var w', t, c := Do(cfg, w, a), w.syncs[a.id], a.choice;
    var r := Reg(w, Target(cfg, t));
    AdvanceIs(cfg, w, a);
    DoGrows(cfg, w, a);
    KindedStep(cfg, w, a);
    InformedStays(cfg, w, w', t);
    StepIs(cfg, a.id, t, r, c);
    hide Informed;
    hide Read;
    hide Written;
    hide Step;
    hide Do;
    if !Writes(t.pc) {
      InformedByRead(cfg, w', t, c);
    } else if Request(cfg, t, c).Some? {
      CallAccepted(t, r, Request(cfg, t, c).value, c.outcome, Sync(a.id));
      InformedByWrite(cfg, w', t, Call(t, r, Request(cfg, t, c).value, c.outcome, Sync(a.id)).1, c);
    } else {
      FailedIsInformed(cfg, w', t);
    }
  }

  lemma FailedIsInformed(cfg: Config, w: World, t: SyncState)
    ensures Informed(cfg, w, Fail(t))
  {
  }

  /** Only a status update stores a version of an injector, and it tells what the sync has in hand. */
  lemma UpdateIsTruthful(cfg: Config, w: World, a: Action, n: string)
    requires Enabled(w, a) && a.Advance? && Informed(cfg, w, w.syncs[a.id])
    requires Reg(Do(cfg, w, a), InjectorKey(n)).hist != Reg(w, InjectorKey(n)).hist
    ensures var r, r' := Reg(w, InjectorKey(n)), Reg(Do(cfg, w, a), InjectorKey(n));
            r'.hist == r.hist + [Last(r'.hist)] && TruthfulVersion(cfg, w, n, Last(r'.hist))
  {
    var t := w.syncs[a.id];
    AdvanceIs(cfg, w, a);
    StepStores(cfg, a.id, t, Reg(w, Target(cfg, t)), a.choice);
  }

  lemma TruthfulVersionStays(cfg: Config, w: World, w': World, n: string, v: Version)
    requires Grows(w, w') && TruthfulVersion(cfg, w, n, v)
    ensures TruthfulVersion(cfg, w', n, v)
  {
    if v.writer.Sync? {
      TruthfulStays(cfg, w, w', n, v.obj.value);
    }
  }

  lemma VersionsStep(cfg: Config, w: World, a: Action, n: string, i: nat)
    requires Enabled(w, a) && Honest(cfg, w) && i < |Reg(Do(cfg, w, a), InjectorKey(n)).hist|
    ensures TruthfulVersion(cfg, Do(cfg, w, a), n, Reg(Do(cfg, w, a), InjectorKey(n)).hist[i])
  {
    var w' := Do(cfg, w, a);
    var r, r' := Reg(w, InjectorKey(n)), Reg(w', InjectorKey(n));
    DoGrows(cfg, w, a);
    if a.Advance? && r'.hist != r.hist {
      UpdateIsTruthful(cfg, w, a, n);
    }
    hide TruthfulVersion;
    if i < |r.hist| {
      assert r'.hist[i] == r.hist[i] && TruthfulVersion(cfg, w, n, r.hist[i]);
      TruthfulVersionStays(cfg, w, w', n, r.hist[i]);
    } else if a.Advance? {
      TruthfulVersionStays(cfg, w, w', n, r'.hist[i]);
    } else {
      OutsideIsTruthful(cfg, w', n, r'.hist[i]);
    }
  }

  lemma OutsideIsTruthful(cfg: Config, w: World, n: string, v: Version)
    requires v.writer.Outsider?
    ensures TruthfulVersion(cfg, w, n, v)
  {
  }

  lemma HonestStep(cfg: Config, w: World, a: Action)
    requires Enabled(w, a) && Honest(cfg, w)
    ensures Honest(cfg, Do(cfg, w, a))
  {
    var w' := Do(cfg, w, a);
    KindedStep(cfg, w, a);
    DoGrows(cfg, w, a);
    hide TruthfulVersion;
    forall n, i | 0 <= i < |Reg(w', InjectorKey(n)).hist|
      ensures TruthfulVersion(cfg, w', n, Reg(w', InjectorKey(n)).hist[i])
    {
      VersionsStep(cfg, w, a, n, i);
    }
    forall id | id in w'.syncs ensures Informed(cfg, w', w'.syncs[id]) {
      if a.Advance? && a.id == id {
        InformedStep(cfg, w, a);
      } else if id in w.syncs {
        InformedStays(cfg, w, w', w.syncs[id]);
      }
    }
  }

  lemma {:induction false} HonestRun(cfg: Config, w: World, run: seq<Action>)
    requires Valid(cfg, w, run) && Honest(cfg, w)
    ensures Honest(cfg, After(cfg, w, run))
    decreases |run|
  {
    if run != [] {
      HonestStep(cfg, w, run[0]);
      HonestRun(cfg, Do(cfg, w, run[0]), run[1..]);
    }
  }

  /**
   In every run, under any staleness, faults and interleaving, each status a sync wrote, lost
   replies included, names a Deployment that was there with as many available replicas as it
   says, and says of the injector's Service what was so, both under the injector's UID.
   */
  lemma StatusTellsTruth(cfg: Config, w: World, run: seq<Action>, n: string, i: nat)
    requires Initial(w) && Kinded(w) && Valid(cfg, w, run)
    requires i < |Reg(After(cfg, w, run), InjectorKey(n)).hist|
    requires Reg(After(cfg, w, run), InjectorKey(n)).hist[i].writer.Sync?
    ensures var v := Reg(After(cfg, w, run), InjectorKey(n)).hist[i];
            v.obj.Some? && v.obj.value.InjectorObj? && Truthful(cfg, After(cfg, w, run), n, v.obj.value)
  {
    assert forall m: string :: Reg(w, InjectorKey(m)).hist == EMPTY.hist || InjectorKey(m) in w.regs;
    assert AllTruthful(cfg, w);
    HonestRun(cfg, w, run);
    assert TruthfulVersion(cfg, After(cfg, w, run), n, Reg(After(cfg, w, run), InjectorKey(n)).hist[i]);
  }

  /** After an undisturbed sync that succeeds it is that of the Deployment and the Service in the store. */
  lemma StatusReportsLive(cfg: Config, w: World, id: nat, ch: Pc -> Choice)
    requires AboutToSync(cfg, w, id) && Benign(ch) && NoForeigner(cfg, w, w.syncs[id].name)
    requires CanSucceed(cfg, w, w.syncs[id].name)
    ensures var n, v := w.syncs[id].name, Finish(cfg, w, id, ch);
            && HasInjector(v, n)
            && var o, ns := LiveInjector(v, n), cfg.namespace;
            var deployment := Live(Reg(v, Key(Deployment, ns, o.status.deploymentName)));
            var service := Live(Reg(v, Key(Service, ns, "sidecar-injector-" + n)));
            && deployment.Some? && service.Some?
            && (deployment.value.DeploymentObj? ==> o.status.podCount == deployment.value.availableReplicas)
            && (service.value.ServiceObj? ==>
                  (o.status.serviceReady <==> service.value.ports != [] && service.value.clusterIP != ""))
  {
    hide Finish;
    ExactConvergence(cfg, w, id, ch);
  }
}
