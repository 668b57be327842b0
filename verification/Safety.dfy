/**
 What every run keeps, under stale caches, failing calls, lost replies and any number of
 interleaved syncs: nothing is clobbered, success means ownership, and of the objects that
 exist only the injector's status is rewritten, but for interleaved applies.
 */
module Safety {
  import opened Basics
  import opened Settings
  import opened Cluster
  import opened Reconciler

  /** The kinds the controller creates through typed clients. */
  predicate TypedChild(kind: Kind) {
    (kind.Secret? || kind.Webhook? || kind.Deployment? || kind.Service?)
  }

  // ----- One step -----

  /** A step reads, or fails to build its request, or makes its call. */
  lemma StepIs(cfg: Config, id: nat, t: SyncState, r: Register, c: Choice)
    requires !t.pc.Done?
    ensures !Writes(t.pc) ==> Step(cfg, id, t, r, c) == (r, Read(cfg, t, r, c))
    ensures Writes(t.pc) && Request(cfg, t, c).None? ==> Step(cfg, id, t, r, c) == (r, Fail(t))
    ensures Writes(t.pc) && Request(cfg, t, c).Some? ==>
              var (r', reply) := Call(t, r, Request(cfg, t, c).value, c.outcome, Sync(id));
              Step(cfg, id, t, r, c) == (r', Written(cfg, t, reply, c))
  {
  }

  lemma StepKeepsName(cfg: Config, id: nat, t: SyncState, r: Register, c: Choice)
    ensures Step(cfg, id, t, r, c).1.name == t.name
  {
  }

  lemma RequestKind(cfg: Config, t: SyncState, c: Choice)
    requires Writes(t.pc) && Request(cfg, t, c).Some?
    ensures HasKind(Request(cfg, t, c).value, Target(cfg, t).kind)
    ensures t.pc.PutStatus? <==> Target(cfg, t).kind.Injector?
    ensures (t.pc.ApplyIssuer? || t.pc.ApplyCertificate?) <==>
            (Target(cfg, t).kind.Issuer? || Target(cfg, t).kind.Certificate?)
  {
  }

  /** All a step can do to its register is store the object it asked for, under the rules of its kind. */
  lemma StepStores(cfg: Config, id: nat, t: SyncState, r: Register, c: Choice)
    ensures var r' := Step(cfg, id, t, r, c).0;
            && r'.pos == r.pos
            && (r' != r ==>
                  && Writes(t.pc) && Request(cfg, t, c).Some?
                  && r'.hist == r.hist + [Version(Request(cfg, t, c), Sync(id))]
                  && HasKind(Request(cfg, t, c).value, Target(cfg, t).kind)
                  && (TypedChild(Target(cfg, t).kind) ==> Live(r).None?)
                  && (t.pc.PutStatus? <==> Target(cfg, t).kind.Injector?)
                  && (t.pc.PutStatus? ==> Live(r).Some? && t.readAt == |r.hist| - 1))
  {
    if Writes(t.pc) && Request(cfg, t, c).Some? {
      RequestKind(cfg, t, c);
    }
  }

  /** Histories only grow, and only at one key. */
  ghost predicate Grows(w: World, w': World) {
    forall k :: Reg(w, k).hist <= Reg(w', k).hist
  }

  lemma DoGrows(cfg: Config, w: World, a: Action)
    requires Enabled(w, a)
    ensures Grows(w, Do(cfg, w, a))
  {
    if a.Advance? {
      var t := w.syncs[a.id];
      StepStores(cfg, a.id, t, Reg(w, Target(cfg, t)), a.choice);
    }
  }

  // ----- No clobbering -----

  /** Number of actions of the run in which a sync stored something at k. */
  function Stored(cfg: Config, w: World, run: seq<Action>, k: Key): nat
    requires Valid(cfg, w, run)
    decreases |run|
  {
    if run == [] then 0
    else
      var w' := Do(cfg, w, run[0]);
      (if run[0].Advance? && Reg(w', k).hist != Reg(w, k).hist then 1 else 0) + Stored(cfg, w', run[1..], k)
  }

  /** Another party makes (up) or removes (!up) the object at k with this action. */
  function Turned(w: World, a: Action, k: Key, up: bool): nat {
    if a.Outside? && a.key == k && Live(Reg(w, k)).Some? == !up && a.obj.Some? == up then 1 else 0
  }

  /** Number of times another party made (up) or removed (!up) the object at k. */
  function Outsiders(cfg: Config, w: World, run: seq<Action>, k: Key, up: bool): nat
    requires Valid(cfg, w, run)
    decreases |run|
  {
    if run == [] then 0
    else
      Turned(w, run[0], k, up) + Outsiders(cfg, Do(cfg, w, run[0]), run[1..], k, up)
  }

  function Present(w: World, k: Key): nat { if Live(Reg(w, k)).Some? then 1 else 0 }

  /** A sync step leaves every existing typed child as it is. */
  lemma AdvanceKeepsChildren(cfg: Config, w: World, a: Action, k: Key)
    requires Enabled(w, a) && a.Advance? && TypedChild(k.kind)
    ensures Live(Reg(w, k)).Some? ==> Reg(Do(cfg, w, a), k) == Reg(w, k)
    ensures Reg(Do(cfg, w, a), k).hist != Reg(w, k).hist ==> Live(Reg(Do(cfg, w, a), k)).Some?
  {
    var t := w.syncs[a.id];
    StepStores(cfg, a.id, t, Reg(w, Target(cfg, t)), a.choice);
  }

  /** Conservation: what was there plus what was made is what is there plus what others removed. */
  lemma {:induction false} ChildBalance(cfg: Config, w: World, run: seq<Action>, k: Key)
    requires Valid(cfg, w, run) && TypedChild(k.kind)
    ensures Present(w, k) + Stored(cfg, w, run, k) + Outsiders(cfg, w, run, k, true) ==
            Present(After(cfg, w, run), k) + Outsiders(cfg, w, run, k, false)
    decreases |run|
  {
    if run != [] {
      ChildBalance(cfg, Do(cfg, w, run[0]), run[1..], k);
      if run[0].Advance? {
        AdvanceKeepsChildren(cfg, w, run[0], k);
        StepStores(cfg, run[0].id, w.syncs[run[0].id], Reg(w, Target(cfg, w.syncs[run[0].id])), run[0].choice);
      }
    }
  }

  predicate UntouchedByOthers(run: seq<Action>, k: Key) {
    forall i | 0 <= i < |run| :: !(run[i].Outside? && run[i].key == k)
  }

  /** Between outside deletions a child is written at most once, and once there it stays what it is. */
  lemma {:induction false} NoClobber(cfg: Config, w: World, run: seq<Action>, k: Key)
    requires Valid(cfg, w, run) && TypedChild(k.kind) && UntouchedByOthers(run, k)
    ensures Stored(cfg, w, run, k) + Present(w, k) <= 1
    ensures Live(Reg(w, k)).Some? ==> Reg(After(cfg, w, run), k).hist == Reg(w, k).hist
    decreases |run|
  {
    if run != [] {
      var w' := Do(cfg, w, run[0]);
      assert UntouchedByOthers(run[1..], k) by {
        forall i | 0 <= i < |run[1..]| ensures !(run[1..][i].Outside? && run[1..][i].key == k) {
          assert run[1..][i] == run[i + 1];
        }
      }
      NoClobber(cfg, w', run[1..], k);
      if run[0].Advance? {
        AdvanceKeepsChildren(cfg, w, run[0], k);
      }
    }
  }

  // ----- The invariant of a sync -----

  predicate Observed(r: Register, uid: string) {
    exists i | 0 <= i < |r.hist| :: r.hist[i].obj.Some? && ControlledBy(r.hist[i].obj.value, uid)
  }

  predicate Seen(r: Register) {
    exists i | 0 <= i < |r.hist| :: r.hist[i].obj.Some?
  }

  predicate Contains(r: Register, o: Obj) {
    exists i | 0 <= i < |r.hist| :: r.hist[i].obj == Some(o)
  }

  predicate WroteTo(r: Register, id: nat) {
    exists i | 0 <= i < |r.hist| :: r.hist[i].writer == Sync(id)
  }

  /** How far a sync has come: 0 unknown, 1 certificates, 2 webhook, 3 deployment, 4 service, 5 status, 6 success. */
  function Stage(pc: Pc): nat {
    match pc
    case Start => 0
    case GetIssuer | ApplyIssuer | GetCertificate | ApplyCertificate | GetSecret | CreateSecret => 1
    case GetWebhook | CreateWebhook => 2
    case GetDeployment | CreateDeployment => 3
    case GetService | CreateService => 4
    case PutStatus => 5
    case Done(v) => if v.Succeeded? then 6 else 0
  }

  /** The injector object the sync holds is the one stored at the version it remembers. */
  predicate HoldsSnapshot(w: World, t: SyncState) {
    var r := Reg(w, InjectorKey(t.name));
    && t.readAt < |r.hist|
    && r.hist[t.readAt].obj == Some(InjectorObj(t.owners, t.uid, t.spec, t.status))
  }

  /** What has been in the store at some instant of the run. */
  datatype Evidence = Evidence(
    snapshot: bool, issuer: bool, certificate: bool, secret: bool, webhook: bool, deployment: bool, service: bool,
    put: bool)

  function EvidenceOf(cfg: Config, w: World, t: SyncState): Evidence {
    Evidence(
      HoldsSnapshot(w, t), Seen(Reg(w, IssuerKey(cfg, t.name))), Seen(Reg(w, CertificateKey(cfg, t.name))),
      Observed(Reg(w, SecretKey(cfg, t.name)), t.uid), Observed(Reg(w, WebhookKey(t.name)), t.uid),
      Observed(Reg(w, DeploymentKey(cfg, t.deploymentName)), t.uid), Observed(Reg(w, ServiceKey(cfg, t.name)), t.uid),
      Contains(Reg(w, InjectorKey(t.name)), StatusUpdate(t)))
  }

  /** The evidence a sync must have at each stage. */
  predicate Ladder(cfg: Config, t: SyncState, e: Evidence) {
    && (Stage(t.pc) >= 1 ==> e.snapshot)
    && (Stage(t.pc) >= 2 ==> if cfg.useCertManager then e.issuer && e.certificate else e.secret)
    && ((t.pc.GetCertificate? || t.pc.ApplyCertificate?) ==> e.issuer)
    && ((t.pc.GetIssuer? || t.pc.ApplyIssuer? || t.pc.GetCertificate? || t.pc.ApplyCertificate?) ==> cfg.useCertManager)
    && ((t.pc.GetSecret? || t.pc.CreateSecret?) ==> !cfg.useCertManager)
    && (Stage(t.pc) >= 3 ==> e.webhook)
    && (Stage(t.pc) >= 4 ==>
          e.deployment && (t.deploymentName == t.status.deploymentName || t.deploymentName == HandlerName(t.name)))
    && (Stage(t.pc) >= 5 ==> e.service)
    && (Stage(t.pc) == 6 ==> e.put)
  }

  predicate Leq(e: Evidence, e': Evidence) {
    && (e.snapshot ==> e'.snapshot) && (e.issuer ==> e'.issuer) && (e.certificate ==> e'.certificate)
    && (e.secret ==> e'.secret) && (e.webhook ==> e'.webhook) && (e.deployment ==> e'.deployment)
    && (e.service ==> e'.service) && (e.put ==> e'.put)
  }

  /** Every stage passed has shown the sync a child controlled by exactly its injector's UID. */
  predicate Earned(cfg: Config, w: World, t: SyncState) {
    Ladder(cfg, t, EvidenceOf(cfg, w, t))
  }

  /** An apply only follows a Get that found nothing. */
  predicate Marked(cfg: Config, w: World, t: SyncState) {
    (t.pc.ApplyIssuer? || t.pc.ApplyCertificate?) ==>
      var r := Reg(w, Target(cfg, t));
      0 < t.mark <= |r.hist| && r.hist[t.mark - 1].obj.None?
  }

  lemma RegisterGrows(r: Register, r': Register, uid: string, o: Obj)
    requires r.hist <= r'.hist
    ensures Observed(r, uid) ==> Observed(r', uid)
    ensures Seen(r) ==> Seen(r')
    ensures Contains(r, o) ==> Contains(r', o)
    ensures forall i | 0 <= i < |r.hist| :: r'.hist[i] == r.hist[i]
  {
    assert forall i | 0 <= i < |r.hist| :: r'.hist[i] == r.hist[i];
  }

  lemma EvidenceGrows(cfg: Config, w: World, w': World, t: SyncState)
    requires Grows(w, w')
    ensures Leq(EvidenceOf(cfg, w, t), EvidenceOf(cfg, w', t))
  {
    var o := StatusUpdate(t);
    forall k ensures Observed(Reg(w, k), t.uid) ==> Observed(Reg(w', k), t.uid)
             ensures Seen(Reg(w, k)) ==> Seen(Reg(w', k))
             ensures Contains(Reg(w, k), o) ==> Contains(Reg(w', k), o)
    {
      RegisterGrows(Reg(w, k), Reg(w', k), t.uid, o);
    }
    RegisterGrows(Reg(w, InjectorKey(t.name)), Reg(w', InjectorKey(t.name)), t.uid, o);
  }

  lemma EarnedGrows(cfg: Config, w: World, w': World, t: SyncState)
    requires Grows(w, w') && Earned(cfg, w, t) && Marked(cfg, w, t)
    ensures Earned(cfg, w', t) && Marked(cfg, w', t)
  {
    EvidenceGrows(cfg, w, w', t);
    var m, m' := Reg(w, Target(cfg, t)), Reg(w', Target(cfg, t));
    assert forall i | 0 <= i < |m.hist| :: m'.hist[i] == m.hist[i];
  }

  lemma CachedMeansObserved(r: Register, uid: string)
    requires Cached(r).Some?
    ensures Seen(r) && (ControlledBy(Cached(r).value, uid) ==> Observed(r, uid))
  {
  }

  lemma LiveMeansObserved(r: Register, uid: string)
    requires Live(r).Some?
    ensures Seen(r) && (ControlledBy(Live(r).value, uid) ==> Observed(r, uid))
  {
    assert r.hist[|r.hist| - 1].obj.Some?;
  }

  /** The evidence about the child of the current stage is what its register shows. */
  predicate Link(t: SyncState, r: Register, e: Evidence) {
    match t.pc
    case GetIssuer | ApplyIssuer => e.issuer == Seen(r)
    case GetCertificate | ApplyCertificate => e.certificate == Seen(r)
    case GetSecret | CreateSecret => e.secret == Observed(r, t.uid)
    case GetWebhook | CreateWebhook => e.webhook == Observed(r, t.uid)
    case GetDeployment => t.status.deploymentName == t.deploymentName ==> e.deployment == Observed(r, t.uid)
    case CreateDeployment => HandlerName(t.name) == t.deploymentName ==> e.deployment == Observed(r, t.uid)
    case GetService | CreateService => e.service == Observed(r, t.uid)
    case _ => true
  }

  /** The deployment a sync points at may change in one step; the other evidence stays. */
  function Retarget(t: SyncState, t': SyncState, r: Register, e: Evidence): Evidence {
    if t'.deploymentName == t.deploymentName then e else e.(deployment := Observed(r, t.uid))
  }

  lemma LinkHolds(cfg: Config, w: World, t: SyncState)
    ensures Link(t, Reg(w, Target(cfg, t)), EvidenceOf(cfg, w, t))
  {
  }

  lemma LadderLiveGet(cfg: Config, t: SyncState, r: Register, c: Choice, e: Evidence)
    requires (t.pc.GetIssuer? || t.pc.GetCertificate?) && Ladder(cfg, t, e) && Link(t, r, e)
    ensures var t' := Read(cfg, t, r, c); Ladder(cfg, t', Retarget(t, t', r, e))
  {
    if Live(r).Some? {
      LiveMeansObserved(r, t.uid);
    }
  }

  lemma LadderSecret(cfg: Config, t: SyncState, r: Register, c: Choice, e: Evidence)
    requires t.pc.GetSecret? && Ladder(cfg, t, e) && Link(t, r, e)
    ensures var t' := Read(cfg, t, r, c); Ladder(cfg, t', Retarget(t, t', r, e))
  {
    if Cached(r).Some? {
      CachedMeansObserved(r, t.uid);
    }
  }

  lemma LadderWebhook(cfg: Config, t: SyncState, r: Register, c: Choice, e: Evidence)
    requires t.pc.GetWebhook? && Ladder(cfg, t, e) && Link(t, r, e)
    ensures var t' := Read(cfg, t, r, c); Ladder(cfg, t', Retarget(t, t', r, e))
  {
    if Cached(r).Some? {
      CachedMeansObserved(r, t.uid);
    }
  }

  lemma LadderDeployment(cfg: Config, t: SyncState, r: Register, c: Choice, e: Evidence)
    requires t.pc.GetDeployment? && Ladder(cfg, t, e) && Link(t, r, e)
    ensures var t' := Read(cfg, t, r, c); Ladder(cfg, t', Retarget(t, t', r, e))
  {
    if Cached(r).Some? {
      CachedMeansObserved(r, t.uid);
    }
  }

  lemma LadderService(cfg: Config, t: SyncState, r: Register, c: Choice, e: Evidence)
    requires t.pc.GetService? && Ladder(cfg, t, e) && Link(t, r, e)
    ensures var t' := Read(cfg, t, r, c); Ladder(cfg, t', Retarget(t, t', r, e))
  {
    if Cached(r).Some? {
      CachedMeansObserved(r, t.uid);
    }
  }

  lemma LadderApply(cfg: Config, t: SyncState, r: Register, reply: Reply, c: Choice, e: Evidence)
    requires (t.pc.ApplyIssuer? || t.pc.ApplyCertificate?) && Ladder(cfg, t, e) && Link(t, r, e)
    requires reply.Accepted? ==> Live(r) == Some(reply.obj)
    ensures var t' := Written(cfg, t, reply, c); Ladder(cfg, t', Retarget(t, t', r, e))
  {
    if reply.Accepted? {
      LiveMeansObserved(r, t.uid);
    }
  }

  lemma LadderCreate(cfg: Config, t: SyncState, r: Register, reply: Reply, c: Choice, e: Evidence)
    requires (t.pc.CreateSecret? || t.pc.CreateWebhook?) && Ladder(cfg, t, e) && Link(t, r, e)
    requires reply.Accepted? ==> Live(r) == Some(reply.obj)
    ensures var t' := Written(cfg, t, reply, c); Ladder(cfg, t', Retarget(t, t', r, e))
  {
    if reply.Accepted? {
      LiveMeansObserved(r, t.uid);
    }
  }

  lemma LadderLateCreate(cfg: Config, t: SyncState, r: Register, reply: Reply, c: Choice, e: Evidence)
    requires (t.pc.CreateDeployment? || t.pc.CreateService?) && Ladder(cfg, t, e) && Link(t, r, e)
    requires reply.Accepted? ==> Live(r) == Some(reply.obj)
    ensures var t' := Written(cfg, t, reply, c); Ladder(cfg, t', Retarget(t, t', r, e))
  {
    if reply.Accepted? {
      LiveMeansObserved(r, t.uid);
    }
  }

  lemma LadderPut(cfg: Config, t: SyncState, r: Register, reply: Reply, c: Choice, e: Evidence)
    requires t.pc.PutStatus? && e.put && Ladder(cfg, t, e) && Link(t, r, e)
    requires reply.Accepted? ==> Live(r) == Some(reply.obj)
    ensures var t' := Written(cfg, t, reply, c); Ladder(cfg, t', Retarget(t, t', r, e))
  {
    if reply.Accepted? {
      LiveMeansObserved(r, t.uid);
    }
  }

  /** What no step after the first changes. */
  predicate Same(t: SyncState, t': SyncState) {
    && t'.name == t.name && t'.uid == t.uid && t'.spec == t.spec && t'.status == t.status
    && t'.owners == t.owners && t'.readAt == t.readAt
  }

  lemma ReadFrame(cfg: Config, t: SyncState, r: Register, c: Choice)
    requires !Writes(t.pc) && !t.pc.Done? && !t.pc.Start?
    ensures var t' := Read(cfg, t, r, c);
            && Same(t, t') && !(t'.pc == Done(Succeeded))
            && (t'.deploymentName != t.deploymentName ==>
                  t.pc.GetDeployment? && t'.deploymentName == t.status.deploymentName)
  {
  }

  lemma WriteFrame(cfg: Config, t: SyncState, reply: Reply, c: Choice)
    requires Writes(t.pc)
    ensures var t' := Written(cfg, t, reply, c);
            && Same(t, t') && (t'.pc == Done(Succeeded) ==> t.pc.PutStatus? && t' == t.(pc := t'.pc))
            && (t'.deploymentName != t.deploymentName ==>
                  t.pc.CreateDeployment? && t'.deploymentName == HandlerName(t.name))
  {
  }

  /** A step keeps name and UID, so the other evidence carries over. */
  lemma RetargetIsEvidence(cfg: Config, w: World, t: SyncState, t': SyncState, k: Key)
    requires Same(t, t')
    requires t'.deploymentName != t.deploymentName ==> k == DeploymentKey(cfg, t'.deploymentName)
    ensures Retarget(t, t', Reg(w, k), EvidenceOf(cfg, w, t)) ==
            EvidenceOf(cfg, w, t').(put := EvidenceOf(cfg, w, t).put)
  {
  }

  lemma LadderStart(cfg: Config, t: SyncState, r: Register, c: Choice, e: Evidence)
    requires t.pc.Start?
    ensures var t' := Read(cfg, t, r, c);
            && t'.name == t.name && Stage(t'.pc) <= 1
            && (Stage(t'.pc) == 1 ==>
                  t'.readAt == r.pos && Cached(r) == Some(InjectorObj(t'.owners, t'.uid, t'.spec, t'.status)))
            && ((Stage(t'.pc) == 1 ==> e.snapshot) ==> Ladder(cfg, t', e))
            && !t'.pc.ApplyIssuer? && !t'.pc.ApplyCertificate?
  {
  }

  lemma EarnedByStart(cfg: Config, w: World, t: SyncState, c: Choice)
    requires t.pc.Start?
    ensures Earned(cfg, w, Read(cfg, t, Reg(w, Target(cfg, t)), c))
    ensures Marked(cfg, w, Read(cfg, t, Reg(w, Target(cfg, t)), c))
  {
    var r := Reg(w, InjectorKey(t.name));
    assert Target(cfg, t) == InjectorKey(t.name);
    var t' := Read(cfg, t, r, c);
    LadderStart(cfg, t, r, c, EvidenceOf(cfg, w, t'));
  }

  lemma EarnedByRead(cfg: Config, w: World, t: SyncState, c: Choice)
    requires !Writes(t.pc) && !t.pc.Done? && !t.pc.Start? && Earned(cfg, w, t)
    ensures Earned(cfg, w, Read(cfg, t, Reg(w, Target(cfg, t)), c))
  {
    hide Read;
    hide Observed;
    hide Seen;
    hide HoldsSnapshot;
    hide Retarget;
    var r, e := Reg(w, Target(cfg, t)), EvidenceOf(cfg, w, t);
    var t' := Read(cfg, t, r, c);
    ReadFrame(cfg, t, r, c);
    LinkHolds(cfg, w, t);
    assert Ladder(cfg, t', Retarget(t, t', r, e)) by {
      if t.pc.GetSecret? {
        LadderSecret(cfg, t, r, c, e);
      } else if t.pc.GetWebhook? {
        LadderWebhook(cfg, t, r, c, e);
      } else if t.pc.GetDeployment? {
        LadderDeployment(cfg, t, r, c, e);
      } else if t.pc.GetService? {
        LadderService(cfg, t, r, c, e);
      } else {
        LadderLiveGet(cfg, t, r, c, e);
      }
    }
    LadderIsEarned(cfg, w, t, t', Target(cfg, t));
  }

  lemma MarkedByRead(cfg: Config, w: World, t: SyncState, c: Choice)
    requires !Writes(t.pc) && !t.pc.Done? && !t.pc.Start?
    ensures Marked(cfg, w, Read(cfg, t, Reg(w, Target(cfg, t)), c))
  {
  }

  lemma MarkedByWrite(cfg: Config, w: World, t: SyncState, reply: Reply, c: Choice)
    requires Writes(t.pc)
    ensures Marked(cfg, w, Written(cfg, t, reply, c))
  {
  }

  /** Evidence after the step is evidence before it, but for the deployment the sync points at. */
  lemma LadderIsEarned(cfg: Config, w: World, t: SyncState, t': SyncState, k: Key)
    requires Same(t, t') && Ladder(cfg, t', Retarget(t, t', Reg(w, k), EvidenceOf(cfg, w, t)))
    requires t'.deploymentName != t.deploymentName ==> k == DeploymentKey(cfg, t'.deploymentName)
    requires t'.pc == Done(Succeeded) ==> t' == t.(pc := t'.pc)
    ensures Earned(cfg, w, t')
  {
    RetargetIsEvidence(cfg, w, t, t', k);
  }

  lemma FailedIsEarned(cfg: Config, w: World, t: SyncState)
    ensures Earned(cfg, w, Fail(t)) && Marked(cfg, w, Fail(t))
  {
  }

  lemma WrittenFailed(cfg: Config, t: SyncState, reply: Reply, c: Choice)
    requires Writes(t.pc)
    ensures reply.CallFailed? ==> Written(cfg, t, reply, c) == Fail(t)
  {
  }

  /** `w` is the world with the reply's object stored. */
  lemma EarnedByWrite(cfg: Config, w: World, t: SyncState, reply: Reply, c: Choice)
    requires Writes(t.pc) && Earned(cfg, w, t)
    requires reply.Accepted? ==> Live(Reg(w, Target(cfg, t))) == Some(reply.obj)
    requires reply.Accepted? && t.pc.PutStatus? ==> reply.obj == StatusUpdate(t)
    ensures Earned(cfg, w, Written(cfg, t, reply, c))
  {
    WrittenFailed(cfg, t, reply, c);
    FailedIsEarned(cfg, w, t);
    hide Written;
    hide Observed;
    hide Seen;
    hide HoldsSnapshot;
    hide Retarget;
    var r, e := Reg(w, Target(cfg, t)), EvidenceOf(cfg, w, t);
    var t' := Written(cfg, t, reply, c);
    if reply.Accepted? {
      assert r.hist[|r.hist| - 1].obj == Some(reply.obj);
      WriteFrame(cfg, t, reply, c);
      LinkHolds(cfg, w, t);
      assert Ladder(cfg, t', Retarget(t, t', r, e)) by {
        if t.pc.PutStatus? {
          LadderPut(cfg, t, r, reply, c, e);
        } else if t.pc.ApplyIssuer? || t.pc.ApplyCertificate? {
          LadderApply(cfg, t, r, reply, c, e);
        } else if t.pc.CreateSecret? || t.pc.CreateWebhook? {
          LadderCreate(cfg, t, r, reply, c, e);
        } else {
          LadderLateCreate(cfg, t, r, reply, c, e);
        }
      }
      LadderIsEarned(cfg, w, t, t', Target(cfg, t));
    }
  }

  lemma CallAccepted(t: SyncState, r: Register, o: Obj, outcome: Outcome, w: Writer)
    ensures var (r', reply) := Call(t, r, o, outcome, w);
            reply.Accepted? ==> reply.obj == o && Live(r') == Some(o)
  {
  }

  /** A sync step changes its target's register and its own local state, nothing else. */
  lemma AdvanceIs(cfg: Config, w: World, a: Action)
    requires a.Advance? && Enabled(w, a)
    ensures var t, w' := w.syncs[a.id], Do(cfg, w, a);
            var (r', t') := Step(cfg, a.id, t, Reg(w, Target(cfg, t)), a.choice);
            && w'.syncs == w.syncs[a.id := t']
            && Reg(w', Target(cfg, t)) == r'
            && forall k :: k != Target(cfg, t) ==> Reg(w', k) == Reg(w, k)
  {
  }

  lemma EarnedByStep(cfg: Config, w: World, w': World, id: nat, t: SyncState, c: Choice)
    requires !t.pc.Done? && Earned(cfg, w', t)
    requires Reg(w', Target(cfg, t)) == Step(cfg, id, t, Reg(w, Target(cfg, t)), c).0
    ensures Earned(cfg, w', Step(cfg, id, t, Reg(w, Target(cfg, t)), c).1)
    ensures Marked(cfg, w', Step(cfg, id, t, Reg(w, Target(cfg, t)), c).1)
  {
    hide Earned;
    hide Marked;
    hide Written;
    hide Read;
    FailedIsEarned(cfg, w', t);
    var r := Reg(w, Target(cfg, t));
    if !Writes(t.pc) {
      if t.pc.Start? {
        EarnedByStart(cfg, w', t, c);
      } else {
        EarnedByRead(cfg, w', t, c);
        MarkedByRead(cfg, w', t, c);
      }
    } else if Request(cfg, t, c).Some? {
      var (r', reply) := Call(t, r, Request(cfg, t, c).value, c.outcome, Sync(id));
      CallAccepted(t, r, Request(cfg, t, c).value, c.outcome, Sync(id));
      EarnedByWrite(cfg, w', t, reply, c);
      MarkedByWrite(cfg, w', t, reply, c);
    }
  }

  predicate SyncOk(cfg: Config, w: World, t: SyncState) { Earned(cfg, w, t) && Marked(cfg, w, t) }

  predicate SyncsOk(cfg: Config, w: World) {
    forall id | id in w.syncs :: SyncOk(cfg, w, w.syncs[id])
  }

  lemma BegunOk(cfg: Config, w: World, name: string)
    ensures SyncOk(cfg, w, Begun(name))
  {
  }

  lemma SyncOkStep(cfg: Config, w: World, a: Action, id: nat)
    requires Enabled(w, a) && id in w.syncs && SyncOk(cfg, w, w.syncs[id])
    ensures id in Do(cfg, w, a).syncs && SyncOk(cfg, Do(cfg, w, a), Do(cfg, w, a).syncs[id])
  {
    DoGrows(cfg, w, a);
    EarnedGrows(cfg, w, Do(cfg, w, a), w.syncs[id]);
    if a.Advance? && id == a.id {
      AdvanceIs(cfg, w, a);
      EarnedByStep(cfg, w, Do(cfg, w, a), id, w.syncs[id], a.choice);
    }
  }

  lemma SyncsOkStep(cfg: Config, w: World, a: Action)
    requires Enabled(w, a) && SyncsOk(cfg, w)
    ensures SyncsOk(cfg, Do(cfg, w, a))
  {
    var w' := Do(cfg, w, a);
    forall id | id in w'.syncs ensures SyncOk(cfg, w', w'.syncs[id]) {
      if id in w.syncs {
        SyncOkStep(cfg, w, a, id);
      } else {
        BegunOk(cfg, w', a.name);
      }
    }
  }

  lemma {:induction false} SyncsOkRun(cfg: Config, w: World, run: seq<Action>)
    requires Valid(cfg, w, run) && SyncsOk(cfg, w)
    ensures SyncsOk(cfg, After(cfg, w, run))
    decreases |run|
  {
    if run != [] {
      SyncsOkStep(cfg, w, run[0]);
      SyncsOkRun(cfg, Do(cfg, w, run[0]), run[1..]);
    }
  }

  /**
   Every child of the chosen certificate mode was in the store, at some instant, with a
   controller reference to exactly this sync's injector UID, and the status names them.
   */
  predicate Owned(cfg: Config, w: World, t: SyncState) {
    && HoldsSnapshot(w, t)
    && (if cfg.useCertManager
        then Seen(Reg(w, IssuerKey(cfg, t.name))) && Seen(Reg(w, CertificateKey(cfg, t.name)))
        else Observed(Reg(w, SecretKey(cfg, t.name)), t.uid))
    && Observed(Reg(w, WebhookKey(t.name)), t.uid)
    && Observed(Reg(w, DeploymentKey(cfg, t.deploymentName)), t.uid)
    && (t.deploymentName == t.status.deploymentName || t.deploymentName == HandlerName(t.name))
    && Observed(Reg(w, ServiceKey(cfg, t.name)), t.uid)
    && Contains(Reg(w, InjectorKey(t.name)), StatusUpdate(t))
  }

  lemma EarnedIsOwned(cfg: Config, w: World, t: SyncState)
    requires SyncOk(cfg, w, t) && t.pc == Done(Succeeded)
    ensures Owned(cfg, w, t)
  {
  }

  /** Success means ownership, in every run and for every sync. */
  lemma SuccessMeansOwnership(cfg: Config, w: World, run: seq<Action>, id: nat)
    requires Initial(w) && Valid(cfg, w, run)
    requires id in After(cfg, w, run).syncs && After(cfg, w, run).syncs[id].pc == Done(Succeeded)
    ensures Owned(cfg, After(cfg, w, run), After(cfg, w, run).syncs[id])
  {
    SyncsOkRun(cfg, w, run);
    EarnedIsOwned(cfg, After(cfg, w, run), After(cfg, w, run).syncs[id]);
  }

  /** The typed children a successful sync must have seen under its own UID; the Deployment is the one it settled on. */
  predicate MustOwn(cfg: Config, n: string, deploymentName: string, k: Key) {
    || k == WebhookKey(n) || k == ServiceKey(cfg, n) || (!cfg.useCertManager && k == SecretKey(cfg, n))
    || k == DeploymentKey(cfg, deploymentName)
  }

  /**
   Others may report status on the object at k, relabel it or replace it, but they do not
   remove it and do not make uid its controller.
   */
  predicate StaysForeign(run: seq<Action>, k: Key, uid: string) {
    forall i | 0 <= i < |run| && run[i].Outside? && run[i].key == k ::
      run[i].obj.Some? && !ControlledBy(run[i].obj.value, uid)
  }

  lemma ForeignStaysStep(cfg: Config, w: World, a: Action, k: Key, uid: string)
    requires Enabled(w, a) && TypedChild(k.kind) && StaysForeign([a], k, uid)
    requires Live(Reg(w, k)).Some? && !Observed(Reg(w, k), uid)
    ensures Live(Reg(Do(cfg, w, a), k)).Some? && !Observed(Reg(Do(cfg, w, a), k), uid)
  {
    var r, r' := Reg(w, k), Reg(Do(cfg, w, a), k);
    if a.Advance? {
      AdvanceKeepsChildren(cfg, w, a, k);
    } else if a.Outside? && a.key == k {
      assert StaysForeign([a], k, uid) && [a][0] == a;
      assert r'.hist == r.hist + [Version(a.obj, Outsider)];
      assert forall i | 0 <= i < |r.hist| :: r'.hist[i] == r.hist[i];
    } else {
      assert r'.hist == r.hist;
    }
  }

  lemma {:induction false} ForeignStays(cfg: Config, w: World, run: seq<Action>, k: Key, uid: string)
    requires Valid(cfg, w, run) && TypedChild(k.kind) && StaysForeign(run, k, uid)
    requires Live(Reg(w, k)).Some? && !Observed(Reg(w, k), uid)
    ensures Live(Reg(After(cfg, w, run), k)).Some? && !Observed(Reg(After(cfg, w, run), k), uid)
    decreases |run|
  {
    if run != [] {
      assert StaysForeign([run[0]], k, uid);
      assert StaysForeign(run[1..], k, uid) by {
        forall i | 0 <= i < |run[1..]| && run[1..][i].Outside? && run[1..][i].key == k
          ensures run[1..][i].obj.Some? && !ControlledBy(run[1..][i].obj.value, uid)
        {
          assert run[1..][i] == run[i + 1];
        }
      }
      ForeignStaysStep(cfg, w, run[0], k, uid);
      ForeignStays(cfg, Do(cfg, w, run[0]), run[1..], k, uid);
    }
  }

  /**
   A recreated injector never adopts: while a child made for another UID stays in place,
   whatever others report or change on it, no sync for the new UID succeeds, in any run.
   */
  lemma RecreatedNeverAdopts(cfg: Config, w: World, run: seq<Action>, n: string, k: Key, id: nat)
    requires SyncsOk(cfg, w) && Valid(cfg, w, run)
    requires id in After(cfg, w, run).syncs && After(cfg, w, run).syncs[id].name == n
    requires MustOwn(cfg, n, After(cfg, w, run).syncs[id].deploymentName, k)
    requires Live(Reg(w, k)).Some? && StaysForeign(run, k, After(cfg, w, run).syncs[id].uid)
    requires !Observed(Reg(w, k), After(cfg, w, run).syncs[id].uid)
    ensures After(cfg, w, run).syncs[id].pc != Done(Succeeded)
  {
    SyncsOkRun(cfg, w, run);
    var v := After(cfg, w, run);
    ForeignStays(cfg, w, run, k, v.syncs[id].uid);
    if v.syncs[id].pc == Done(Succeeded) {
      SyncIsOk(cfg, v, id);
      EarnedIsOwned(cfg, v, v.syncs[id]);
    }
  }

  lemma SyncIsOk(cfg: Config, w: World, id: nat)
    requires SyncsOk(cfg, w) && id in w.syncs
    ensures SyncOk(cfg, w, w.syncs[id])
  {
  }

  predicate Manifested(cfg: Config, n: string, k: Key) { k == IssuerKey(cfg, n) || k == CertificateKey(cfg, n) }

  predicate AboutToApply(cfg: Config, t: SyncState, k: Key) {
    (t.pc.ApplyIssuer? || t.pc.ApplyCertificate?) && Target(cfg, t) == k
  }

  /** Nobody is about to apply over something. */
  predicate NothingInTheWay(cfg: Config, w: World, k: Key) {
    forall id | id in w.syncs && AboutToApply(cfg, w.syncs[id], k) :: Live(Reg(w, k)).None?
  }

  predicate OthersAtRest(w: World, n: string, id: nat) {
    forall other | other in w.syncs && other != id && w.syncs[other].name == n ::
      w.syncs[other].pc.Done? || w.syncs[other].pc.Start?
  }

  /** When a sync of n takes a step no other sync of n is under way, as the work queue sees to. */
  predicate OneAtATime(cfg: Config, w: World, run: seq<Action>, n: string)
    requires Valid(cfg, w, run)
    decreases |run|
  {
    run == [] ||
    (&& (run[0].Advance? && run[0].name == n ==>
           OthersAtRest(w, n, run[0].id))
     && OneAtATime(cfg, Do(cfg, w, run[0]), run[1..], n))
  }

  /** A sync of another injector leaves the Issuer and the Certificate alone. */
  lemma OthersLeaveManifests(cfg: Config, w: World, a: Action, n: string, k: Key)
    requires Enabled(w, a) && a.Advance? && a.name != n && Manifested(cfg, n, k)
    ensures Reg(Do(cfg, w, a), k) == Reg(w, k)
    ensures !AboutToApply(cfg, Do(cfg, w, a).syncs[a.id], k)
  {
    var t := w.syncs[a.id];
    AdvanceIs(cfg, w, a);
    StepKeepsName(cfg, a.id, t, Reg(w, Target(cfg, t)), a.choice);
    StepStores(cfg, a.id, t, Reg(w, Target(cfg, t)), a.choice);
    if k == IssuerKey(cfg, a.name) || k == CertificateKey(cfg, a.name) {
      NamesDisjoint(cfg, n, a.name, k);
    }
  }

  /** A step of n's own sync stores over nothing, and asks to apply only where it found nothing. */
  lemma OwnApply(cfg: Config, w: World, a: Action, k: Key)
    requires Enabled(w, a) && a.Advance? && Manifested(cfg, a.name, k) && NothingInTheWay(cfg, w, k)
    ensures Live(Reg(w, k)).Some? ==> Reg(Do(cfg, w, a), k) == Reg(w, k)
    ensures Reg(Do(cfg, w, a), k).hist != Reg(w, k).hist ==> Live(Reg(Do(cfg, w, a), k)).Some?
    ensures AboutToApply(cfg, Do(cfg, w, a).syncs[a.id], k) ==> Live(Reg(Do(cfg, w, a), k)).None?
  {
    var t := w.syncs[a.id];
    AdvanceIs(cfg, w, a);
    assert AboutToApply(cfg, t, k) ==> Live(Reg(w, k)).None?;
    ApplyStep(cfg, a.id, t, Reg(w, Target(cfg, t)), a.choice);
  }

  lemma ApplyAfterRead(cfg: Config, t: SyncState, r: Register, c: Choice)
    requires !t.pc.Done? && !Writes(t.pc)
    ensures var t' := Read(cfg, t, r, c);
            && (t'.pc.ApplyIssuer? ==> t.pc.GetIssuer? && Live(r).None?)
            && (t'.pc.ApplyCertificate? ==> t.pc.GetCertificate? && Live(r).None?)
  {
  }

  lemma NoApplyAfterWrite(cfg: Config, t: SyncState, reply: Reply, c: Choice)
    requires Writes(t.pc)
    ensures var t' := Written(cfg, t, reply, c); !t'.pc.ApplyIssuer? && !t'.pc.ApplyCertificate?
  {
  }

  lemma ApplyStep(cfg: Config, id: nat, t: SyncState, r: Register, c: Choice)
    requires !t.pc.Done?
    ensures var (r', t') := Step(cfg, id, t, r, c);
            && t'.name == t.name
            && (t'.pc.ApplyIssuer? || t'.pc.ApplyCertificate? ==> r' == r && Live(r).None?)
            && (t'.pc.ApplyIssuer? ==> t.pc.GetIssuer?) && (t'.pc.ApplyCertificate? ==> t.pc.GetCertificate?)
            && (r' != r ==> Live(r').Some?)
            && (r' != r && (Target(cfg, t).kind.Issuer? || Target(cfg, t).kind.Certificate?) ==>
                  t.pc.ApplyIssuer? || t.pc.ApplyCertificate?)
  {
    StepKeepsName(cfg, id, t, r, c);
    StepStores(cfg, id, t, r, c);
    hide Read;
    hide Written;
    if !Writes(t.pc) {
      ApplyAfterRead(cfg, t, r, c);
    } else if Request(cfg, t, c).Some? {
      NoApplyAfterWrite(cfg, t, Call(t, r, Request(cfg, t, c).value, c.outcome, Sync(id)).1, c);
    }
  }

  lemma NothingInTheWayStep(cfg: Config, w: World, a: Action, n: string, k: Key)
    requires Enabled(w, a) && Manifested(cfg, n, k) && NothingInTheWay(cfg, w, k)
    requires !(a.Outside? && a.key == k)
    requires a.Advance? && a.name == n ==>
               OthersAtRest(w, n, a.id)
    ensures NothingInTheWay(cfg, Do(cfg, w, a), k)
    ensures a.Advance? && Live(Reg(w, k)).Some? ==> Reg(Do(cfg, w, a), k) == Reg(w, k)
    ensures a.Advance? && Reg(Do(cfg, w, a), k).hist != Reg(w, k).hist ==> Live(Reg(Do(cfg, w, a), k)).Some?
  {
    var w' := Do(cfg, w, a);
    if a.Advance? {
      AdvanceIs(cfg, w, a);
      if a.name == n {
        OwnApply(cfg, w, a, k);
      } else {
        OthersLeaveManifests(cfg, w, a, n, k);
      }
    }
    forall id | id in w'.syncs && AboutToApply(cfg, w'.syncs[id], k) ensures Live(Reg(w', k)).None? {
      if !(a.Advance? && a.id == id) {
        assert id in w.syncs && w'.syncs[id] == w.syncs[id];
        OwnerOfTarget(cfg, w.syncs[id], n, k);
      }
    }
  }

  lemma OwnerOfTarget(cfg: Config, t: SyncState, n: string, k: Key)
    requires AboutToApply(cfg, t, k) && Manifested(cfg, n, k)
    ensures t.name == n
  {
    NamesDisjoint(cfg, t.name, n, k);
  }

  /**
   No clobbering for cert-manager's objects, which are applied without an ownership check:
   with one sync of the injector at a time and nobody else at the key, the Issuer and the
   Certificate are stored at most once, and once there they stay what they are.
   */
  lemma {:induction false} NoClobberManifests(cfg: Config, w: World, run: seq<Action>, n: string, k: Key)
    requires Valid(cfg, w, run) && Manifested(cfg, n, k) && NothingInTheWay(cfg, w, k)
    requires OneAtATime(cfg, w, run, n) && UntouchedByOthers(run, k)
    ensures Stored(cfg, w, run, k) + Present(w, k) <= 1
    ensures Live(Reg(w, k)).Some? ==> Reg(After(cfg, w, run), k).hist == Reg(w, k).hist
    decreases |run|
  {
    if run != [] {
      NothingInTheWayStep(cfg, w, run[0], n, k);
      assert UntouchedByOthers(run[1..], k) by {
        forall i | 0 <= i < |run[1..]| ensures !(run[1..][i].Outside? && run[1..][i].key == k) {
          assert run[1..][i] == run[i + 1];
        }
      }
      NoClobberManifests(cfg, Do(cfg, w, run[0]), run[1..], n, k);
    }
  }

  /** Others do not make the object at k while a sync stands between its Get and its Apply there. */
  predicate NotRaced(cfg: Config, w: World, a: Action, k: Key) {
    a.Outside? && a.key == k && a.obj.Some? ==>
      forall id | id in w.syncs :: !AboutToApply(cfg, w.syncs[id], k)
  }

  predicate Unraced(cfg: Config, w: World, run: seq<Action>, k: Key)
    decreases |run|
  {
    run != [] && Enabled(w, run[0]) ==>
      NotRaced(cfg, w, run[0], k) && Unraced(cfg, Do(cfg, w, run[0]), run[1..], k)
  }

  lemma OutsideLeavesWayClear(cfg: Config, w: World, a: Action, k: Key)
    requires Enabled(w, a) && a.Outside? && NotRaced(cfg, w, a, k) && NothingInTheWay(cfg, w, k)
    ensures NothingInTheWay(cfg, Do(cfg, w, a), k)
  {
    var w' := Do(cfg, w, a);
    forall id | id in w'.syncs && AboutToApply(cfg, w'.syncs[id], k) ensures Live(Reg(w', k)).None? {
      assert AboutToApply(cfg, w.syncs[id], k);
    }
  }

  lemma WayClearStep(cfg: Config, w: World, a: Action, n: string, k: Key)
    requires Enabled(w, a) && Manifested(cfg, n, k) && NothingInTheWay(cfg, w, k) && NotRaced(cfg, w, a, k)
    requires a.Advance? && a.name == n ==> OthersAtRest(w, n, a.id)
    ensures NothingInTheWay(cfg, Do(cfg, w, a), k)
    ensures a.Advance? && Live(Reg(w, k)).Some? ==> Reg(Do(cfg, w, a), k) == Reg(w, k)
    ensures a.Advance? && Reg(Do(cfg, w, a), k).hist != Reg(w, k).hist ==> Live(Reg(Do(cfg, w, a), k)).Some?
  {
    if a.Outside? {
      OutsideLeavesWayClear(cfg, w, a, k);
    } else {
      NothingInTheWayStep(cfg, w, a, n, k);
    }
  }

  /** One action of the balance. */
  lemma BalanceStep(cfg: Config, w: World, a: Action, k: Key)
    requires Enabled(w, a)
    requires a.Advance? && Live(Reg(w, k)).Some? ==> Reg(Do(cfg, w, a), k) == Reg(w, k)
    requires a.Advance? && Reg(Do(cfg, w, a), k).hist != Reg(w, k).hist ==> Live(Reg(Do(cfg, w, a), k)).Some?
    ensures var w' := Do(cfg, w, a);
            var stored := if a.Advance? && Reg(w', k).hist != Reg(w, k).hist then 1 else 0;
            Present(w, k) + stored + Turned(w, a, k, true) ==
            Present(w', k) + Turned(w, a, k, false)
  {
  }

  /**
   Conservation for cert-manager's objects, which are applied without an ownership check: with
   one sync of the injector at a time and no race, what was there plus what syncs and others
   made is what is there plus what others removed, status reports and updates included.  So a
   sync stores an Issuer or a Certificate only where there is none.
   */
  lemma {:induction false} ManifestBalance(cfg: Config, w: World, run: seq<Action>, n: string, k: Key)
    requires Valid(cfg, w, run) && Manifested(cfg, n, k) && NothingInTheWay(cfg, w, k)
    requires OneAtATime(cfg, w, run, n) && Unraced(cfg, w, run, k)
    ensures Present(w, k) + Stored(cfg, w, run, k) + Outsiders(cfg, w, run, k, true) ==
            Present(After(cfg, w, run), k) + Outsiders(cfg, w, run, k, false)
    decreases |run|
  {
    if run != [] {
      WayClearStep(cfg, w, run[0], n, k);
      BalanceStep(cfg, w, run[0], k);
      ManifestBalance(cfg, Do(cfg, w, run[0]), run[1..], n, k);
    }
  }

  // ----- The injector itself -----

  function Identity(o: Obj): Option<(seq<OwnerRef>, string, Spec)> {
    if o.InjectorObj? then Some((o.owners, o.uid, o.spec)) else None
  }

  lemma PutKeepsIdentity(cfg: Config, id: nat, t: SyncState, r: Register, c: Choice)
    requires t.pc.PutStatus? && t.readAt < |r.hist|
    requires r.hist[t.readAt].obj == Some(InjectorObj(t.owners, t.uid, t.spec, t.status))
    ensures var r' := Step(cfg, id, t, r, c).0;
            r'.hist != r.hist ==>
              && Live(r).Some? && Live(r') == Some(StatusUpdate(t))
              && Identity(Live(r').value) == Identity(Live(r).value) && Identity(Live(r).value).Some?
  {
  }

  /**
   The ways in which a sync may rewrite an object that is there: its injector, in the
   status only, or by an apply its Issuer or Certificate.
   */
  predicate Rewrites(cfg: Config, t: SyncState, k: Key, before: Obj, after: Obj) {
    || (&& t.pc.PutStatus? && k == InjectorKey(t.name) && after == StatusUpdate(t)
        && Identity(before).Some? && Identity(after) == Identity(before))
    || (t.pc.ApplyIssuer? && k == IssuerKey(cfg, t.name) && after == NewIssuer(t.name, t.uid))
    || (t.pc.ApplyCertificate? && k == CertificateKey(cfg, t.name) && after == NewCertificate(cfg, t.name, t.uid))
  }

  lemma ApplyRewrites(cfg: Config, id: nat, t: SyncState, r: Register, c: Choice)
    requires t.pc.ApplyIssuer? || t.pc.ApplyCertificate?
    requires Live(r).Some? && Step(cfg, id, t, r, c).0 != r
    ensures var r' := Step(cfg, id, t, r, c).0;
            Live(r').Some? && Rewrites(cfg, t, Target(cfg, t), Live(r).value, Live(r').value)
  {
  }

  /** Create is refused where something is, and a read changes nothing. */
  lemma OthersRewriteNothing(cfg: Config, id: nat, t: SyncState, r: Register, c: Choice)
    requires !t.pc.PutStatus? && !t.pc.ApplyIssuer? && !t.pc.ApplyCertificate? && Live(r).Some?
    ensures Step(cfg, id, t, r, c).0 == r
  {
  }

  lemma PutRewrites(cfg: Config, id: nat, t: SyncState, r: Register, c: Choice)
    requires t.pc.PutStatus? && t.readAt < |r.hist|
    requires r.hist[t.readAt].obj == Some(InjectorObj(t.owners, t.uid, t.spec, t.status))
    requires Live(r).Some? && Step(cfg, id, t, r, c).0 != r
    ensures var r' := Step(cfg, id, t, r, c).0;
            Live(r').Some? && Rewrites(cfg, t, Target(cfg, t), Live(r).value, Live(r').value)
  {
    StepStores(cfg, id, t, r, c);
    PutKeepsIdentity(cfg, id, t, r, c);
  }

  lemma PutHoldsSnapshot(cfg: Config, w: World, id: nat)
    requires SyncsOk(cfg, w) && id in w.syncs && w.syncs[id].pc.PutStatus?
    ensures HoldsSnapshot(w, w.syncs[id])
  {
    assert SyncOk(cfg, w, w.syncs[id]);
  }

  lemma RewritesTarget(cfg: Config, w: World, id: nat, c: Choice)
    requires SyncsOk(cfg, w) && id in w.syncs
    requires var t := w.syncs[id];
             && Live(Reg(w, Target(cfg, t))).Some?
             && Step(cfg, id, t, Reg(w, Target(cfg, t)), c).0 != Reg(w, Target(cfg, t))
    ensures var t := w.syncs[id];
            var r, r' := Reg(w, Target(cfg, t)), Step(cfg, id, t, Reg(w, Target(cfg, t)), c).0;
            Live(r').Some? && Rewrites(cfg, t, Target(cfg, t), Live(r).value, Live(r').value)
  {
    hide SyncsOk;
    hide Step;
    hide Rewrites;
    var t := w.syncs[id];
    if t.pc.PutStatus? {
      PutHoldsSnapshot(cfg, w, id);
      PutRewrites(cfg, id, t, Reg(w, Target(cfg, t)), c);
    } else if t.pc.ApplyIssuer? || t.pc.ApplyCertificate? {
      ApplyRewrites(cfg, id, t, Reg(w, Target(cfg, t)), c);
    } else {
      OthersRewriteNothing(cfg, id, t, Reg(w, Target(cfg, t)), c);
    }
  }

  lemma StepRewrites(cfg: Config, w: World, a: Action, k: Key)
    requires SyncsOk(cfg, w) && Enabled(w, a) && a.Advance?
    requires Live(Reg(w, k)).Some? && Reg(Do(cfg, w, a), k) != Reg(w, k)
    ensures Live(Reg(Do(cfg, w, a), k)).Some?
    ensures Rewrites(cfg, w.syncs[a.id], k, Live(Reg(w, k)).value, Live(Reg(Do(cfg, w, a), k)).value)
  {
    AdvanceIs(cfg, w, a);
    hide SyncsOk;
    hide Step;
    hide Do;
    hide Rewrites;
    hide Target;
    RewritesTarget(cfg, w, a.id, a.choice);
  }

  /**
   In every reachable world and for every key of every kind: a sync step that touches an
   object which exists rewrites the status of its own injector and nothing else of it, or is
   an apply of its own Issuer or Certificate.
   */
  lemma OnlyStatusChanges(cfg: Config, w: World, run: seq<Action>, a: Action, k: Key)
    requires Initial(w) && Valid(cfg, w, run)
    requires Enabled(After(cfg, w, run), a) && a.Advance?
    requires Live(Reg(After(cfg, w, run), k)).Some?
    requires Reg(Do(cfg, After(cfg, w, run), a), k) != Reg(After(cfg, w, run), k)
    ensures var v, v' := After(cfg, w, run), Do(cfg, After(cfg, w, run), a);
            && Live(Reg(v', k)).Some?
            && Rewrites(cfg, v.syncs[a.id], k, Live(Reg(v, k)).value, Live(Reg(v', k)).value)
  {
    SyncsOkRun(cfg, w, run);
    StepRewrites(cfg, After(cfg, w, run), a, k);
  }
}
