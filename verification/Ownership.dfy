/**
 The surroundings the convergence theorems ask for are reached by themselves: as long as
 others keep the owner of an injector's children, no foreign object ever sits at their names.
 */
module Ownership {
  import opened Cluster
  import opened Reconciler
  import opened Safety
  import opened Provenance
  import opened NonInterference
  import opened Convergence
  import opened Trap

  /** What others have stored under this key, reports and relabelled copies included, names uid as its controller. */
  predicate OwnerKept(r: Register, uid: string) {
    forall i | 0 <= i < |r.hist| && r.hist[i].writer.Outsider? && r.hist[i].obj.Some? ::
      ControlledBy(r.hist[i].obj.value, uid)
  }

  /** The injector has not been made anew under another UID. */
  predicate OneUid(w: World, n: string, uid: string) {
    var r := Reg(w, InjectorKey(n));
    forall i | 0 <= i < |r.hist| && r.hist[i].obj.Some? && r.hist[i].obj.value.InjectorObj? ::
      r.hist[i].obj.value.uid == uid
  }

  lemma BuiltIsControlled(cfg: Config, t: SyncState, o: Obj)
    requires Built(cfg, t, o) && !o.InjectorObj?
    ensures ControlledBy(o, t.uid)
  {
    OwnedByController(t.name, t.uid);
    if o.WebhookObj? {
      WebhookBundle(cfg, t.name, t.uid, BundleOf(o));
    }
  }

  predicate ChildKey(cfg: Config, n: string, k: Key) { Belongs(cfg, n, k) && !k.kind.Injector? }

  lemma AuthoredIsControlled(cfg: Config, w: World, n: string, k: Key, v: Version, uid: string)
    requires Authored(cfg, w, k, v) && v.writer.Sync? && ChildKey(cfg, n, k) && OneUid(w, n, uid)
    ensures v.obj.Some? && ControlledBy(v.obj.value, uid)
  {
    var t := w.syncs[v.writer.id];
    NamesDisjoint(cfg, n, t.name, k);
    BuiltIsControlled(cfg, t, v.obj.value);
    assert Reg(w, InjectorKey(n)).hist[t.readAt].obj.value.uid == t.uid;
  }

  /**
   Over any run, under any staleness and any faults, whatever others update, delete and make
   anew as long as they keep the owner: a child key is, whenever it is occupied, occupied by
   a child controlled by the injector's UID.
   */
  lemma ChildrenAreOurs(cfg: Config, w: World, run: seq<Action>, n: string, k: Key, uid: string)
    requires Initial(w) && Valid(cfg, w, run) && ChildKey(cfg, n, k)
    requires OwnerKept(Reg(After(cfg, w, run), k), uid) && OneUid(After(cfg, w, run), n, uid)
    ensures Live(Reg(After(cfg, w, run), k)).Some? ==> ControlledBy(Live(Reg(After(cfg, w, run), k)).value, uid)
  {
    var v := After(cfg, w, run);
    var r := Reg(v, k);
    var last := |r.hist| - 1;
    if r.hist[last].writer.Sync? {
      EveryWriteIsBuilt(cfg, w, run, k, last);
      AuthoredIsControlled(cfg, v, n, k, r.hist[last], uid);
    }
  }

  // ----- Convergence after any run -----

  /** The keys whose owner a sync checks; with cert-manager the Secret is not among them. */
  predicate CheckedKey(cfg: Config, n: string, k: Key) {
    Belongs(cfg, n, k) && TypedChild(k.kind) && (k.kind.Secret? ==> !cfg.useCertManager)
  }

  /** Outsiders keep the owner of what a sync checks. */
  ghost predicate OwnersKept(cfg: Config, w: World, n: string, uid: string) {
    forall k | CheckedKey(cfg, n, k) :: OwnerKept(Reg(w, k), uid)
  }

  lemma CalmAfter(cfg: Config, w: World, run: seq<Action>, n: string, v: World, k: Key, uid: string)
    requires Initial(w) && Valid(cfg, w, run) && OwnersKept(cfg, After(cfg, w, run), n, uid)
    requires OneUid(After(cfg, w, run), n, uid) && CaughtUp(After(cfg, w, run), v) && CheckedKey(cfg, n, k)
    ensures Calm(Reg(v, k), uid)
  {
    ChildrenAreOurs(cfg, w, run, n, k, uid);
    assert Reg(v, k).hist == Reg(After(cfg, w, run), k).hist;
  }

  /** The live status carries the controller's own name, or none. */
  lemma OwnName(cfg: Config, w: World, run: seq<Action>, n: string, v: World)
    requires NamesOk(w) && Valid(cfg, w, run) && (forall i | 0 <= i < |run| :: Respects(run[i]))
    requires CaughtUp(After(cfg, w, run), v) && HasInjector(v, n)
    ensures NameOk(n, LiveInjector(v, n).status.deploymentName)
  {
    StatusNamesInvariant(cfg, w, run);
    var k := InjectorKey(n);
    var r := Reg(After(cfg, w, run), k);
    assert Reg(v, k).hist == r.hist;
    assert RegisterOk(k, r);
    assert VersionOk(k, r.hist[|r.hist| - 1]);
  }

  lemma NoForeignerAfter(cfg: Config, w: World, run: seq<Action>, n: string, v: World)
    requires Initial(w) && Valid(cfg, w, run) && CaughtUp(After(cfg, w, run), v) && HasInjector(v, n)
    requires OwnersKept(cfg, After(cfg, w, run), n, LiveInjector(v, n).uid)
    requires OneUid(After(cfg, w, run), n, LiveInjector(v, n).uid)
    requires NameOk(n, LiveInjector(v, n).status.deploymentName)
    ensures NoForeigner(cfg, v, n)
  {
    hide OwnersKept;
    hide OneUid;
    hide Calm;
    var uid := LiveInjector(v, n).uid;
    if !cfg.useCertManager {
      CalmAfter(cfg, w, run, n, v, SecretKey(cfg, n), uid);
    }
    CalmAfter(cfg, w, run, n, v, WebhookKey(n), uid);
    CalmAfter(cfg, w, run, n, v, HandlerKey(cfg, n), uid);
    CalmAfter(cfg, w, run, n, v, ServiceKey(cfg, n), uid);
  }

  /**
   Whatever has happened before, faults, stale reads, half-finished syncs, status reports,
   filled Secrets and deleted children included: if outsiders kept the owners and wrote no
   foreign status name, then once caches have caught up an undisturbed sync succeeds if and
   only if a name is recorded or there is no handler.  If it cannot, and no other sync is
   past its Deployment, the injector is trapped.
   */
  lemma ConvergesAfterAnyRun(cfg: Config, w: World, run: seq<Action>, v: World, id: nat, ch: Pc -> Choice)
    requires Initial(w) && NamesOk(w) && Valid(cfg, w, run) && (forall i | 0 <= i < |run| :: Respects(run[i]))
    requires CaughtUp(After(cfg, w, run), v) && AboutToSync(cfg, v, id) && Benign(ch)
    requires OwnersKept(cfg, After(cfg, w, run), v.syncs[id].name, LiveInjector(v, v.syncs[id].name).uid)
    requires OneUid(After(cfg, w, run), v.syncs[id].name, LiveInjector(v, v.syncs[id].name).uid)
    ensures var n, f := v.syncs[id].name, Finish(cfg, v, id, ch);
            && id in f.syncs
            && f.syncs[id].pc == Done(if ShortCondition(cfg, v, n) then Succeeded else Failed)
            && (ShortCondition(cfg, v, n) ==> Converged(cfg, v, f, n))
            && (!ShortCondition(cfg, v, n) && AllCornered(v, n) ==>
                  Trapped(cfg, v, n, |Reg(v, InjectorKey(n)).hist| - 1))
  {
    hide Finish;
    hide OwnersKept;
    var n := v.syncs[id].name;
    OwnName(cfg, w, run, n, v);
    NoForeignerAfter(cfg, w, run, n, v);
    CanSucceedWithOwnNames(cfg, v, n);
    ExactConvergence(cfg, v, id, ch);
    if AllCornered(v, n) {
      TrapIsTheComplement(cfg, v, n);
    }
  }
}
