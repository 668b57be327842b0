/**
 Where syncs never succeed again: the handler exists while the injector's status records no
 deployment.  Every sync then tries to create the handler and is refused.
 */
module Trap {
  import opened Basics
  import opened Cluster
  import opened Reconciler
  import opened Safety
  import opened Convergence

  predicate Nameless(v: Version) {
    v.obj.Some? && v.obj.value.InjectorObj? ==> v.obj.value.status.deploymentName == ""
  }

  /** The injector's versions from `base` on record no deployment, and the cache shows one of them. */
  predicate NamelessSince(r: Register, base: nat) {
    base <= r.pos && forall i | base <= i < |r.hist| :: Nameless(r.hist[i])
  }

  /** A sync in flight holds such a version and has not got past the Deployment. */
  predicate Cornered(t: SyncState) {
    || t.pc.Start?
    || t.pc.Done?
    || ((Stage(t.pc) == 1 || Stage(t.pc) == 2 || t.pc.CreateDeployment?) && t.status.deploymentName == "")
  }

  predicate AllCornered(w: World, n: string) {
    forall id | id in w.syncs && w.syncs[id].name == n :: Cornered(w.syncs[id])
  }

  predicate Trapped(cfg: Config, w: World, n: string, base: nat) {
    && Live(Reg(w, HandlerKey(cfg, n))).Some?
    && NamelessSince(Reg(w, InjectorKey(n)), base)
    && AllCornered(w, n)
  }

  /**
   Nobody else deletes the handler or writes a deployment name into the status, and the
   cache does not fall back to versions before the trap.
   */
  predicate LeavesTrapShut(cfg: Config, n: string, base: nat, a: Action) {
    match a
    case Outside(k, o) =>
      (k == HandlerKey(cfg, n) ==> o.Some?) && (k == InjectorKey(n) ==> Nameless(Version(o, Outsider)))
    case Refresh(k, pos) => k == InjectorKey(n) ==> base <= pos
    case _ => true
  }

  // ----- Closed -----

  lemma CorneredStart(cfg: Config, t: SyncState, r: Register, c: Choice)
    requires t.pc.Start? && Nameless(r.hist[r.pos])
    ensures var t' := Read(cfg, t, r, c); Cornered(t') && t'.pc != Done(Succeeded)
  {
  }

  lemma CorneredRead(cfg: Config, t: SyncState, r: Register, c: Choice)
    requires !t.pc.Start? && !t.pc.Done? && !Writes(t.pc) && Cornered(t)
    ensures var t' := Read(cfg, t, r, c); Cornered(t') && t'.pc != Done(Succeeded)
  {
  }

  lemma CorneredWrite(cfg: Config, t: SyncState, reply: Reply, c: Choice)
    requires Writes(t.pc) && Cornered(t) && (t.pc.CreateDeployment? ==> reply.CallFailed?)
    ensures var t' := Written(cfg, t, reply, c); Cornered(t') && t'.pc != Done(Succeeded)
  {
  }

  lemma CorneredStep(cfg: Config, id: nat, t: SyncState, r: Register, c: Choice)
    requires Cornered(t) && !t.pc.Done?
    requires t.pc.CreateDeployment? ==> Live(r).Some?
    requires t.pc.Start? ==> Nameless(r.hist[r.pos])
    ensures var (r', t') := Step(cfg, id, t, r, c);
            Cornered(t') && t'.pc != Done(Succeeded) && (t.pc.CreateDeployment? ==> r' == r)
  {
    if t.pc.Start? {
      CorneredStart(cfg, t, r, c);
    } else if !Writes(t.pc) {
      CorneredRead(cfg, t, r, c);
    } else if Request(cfg, t, c).Some? {
      CorneredWrite(cfg, t, Call(t, r, Request(cfg, t, c).value, c.outcome, Sync(id)).1, c);
    }
  }

  /** The keys that stay as they are in the trap, as far as syncs go. */
  predicate Withheld(cfg: Config, n: string, k: Key) {
    k == InjectorKey(n) || k == ServiceKey(cfg, n) || k == HandlerKey(cfg, n)
  }

  /** A sync of another injector cannot touch what the trap withholds, except to look. */
  lemma OthersStayOut(cfg: Config, w: World, a: Action, n: string, k: Key)
    requires Enabled(w, a) && a.Advance? && a.name != n && Withheld(cfg, n, k)
    ensures Reg(Do(cfg, w, a), k) == Reg(w, k)
  {
    var t := w.syncs[a.id];
    AdvanceIs(cfg, w, a);
    StepStores(cfg, a.id, t, Reg(w, Target(cfg, t)), a.choice);
    if Target(cfg, t) == k && Writes(t.pc) {
      assert Belongs(cfg, t.name, k) && Belongs(cfg, n, k);
      NamesDisjoint(cfg, t.name, n, k);
    }
  }

  lemma OwnStaysOut(cfg: Config, w: World, a: Action, n: string, base: nat, k: Key)
    requires Enabled(w, a) && a.Advance? && a.name == n && Withheld(cfg, n, k) && Trapped(cfg, w, n, base)
    ensures Reg(Do(cfg, w, a), k) == Reg(w, k)
    ensures Cornered(Do(cfg, w, a).syncs[a.id]) && Do(cfg, w, a).syncs[a.id].pc != Done(Succeeded)
  {
    var t := w.syncs[a.id];
    var r := Reg(w, Target(cfg, t));
    AdvanceIs(cfg, w, a);
    StepStores(cfg, a.id, t, r, a.choice);
    CorneredStep(cfg, a.id, t, r, a.choice);
  }

  lemma AdvanceInTrap(cfg: Config, w: World, a: Action, n: string, base: nat)
    requires Enabled(w, a) && a.Advance? && Trapped(cfg, w, n, base)
    ensures Trapped(cfg, Do(cfg, w, a), n, base)
    ensures Do(cfg, w, a).syncs[a.id].name == w.syncs[a.id].name
    ensures a.name == n ==> Do(cfg, w, a).syncs[a.id].pc != Done(Succeeded)
    ensures Reg(Do(cfg, w, a), InjectorKey(n)) == Reg(w, InjectorKey(n))
    ensures Reg(Do(cfg, w, a), ServiceKey(cfg, n)) == Reg(w, ServiceKey(cfg, n))
  {
    forall k | Withheld(cfg, n, k)
      ensures Reg(Do(cfg, w, a), k) == Reg(w, k)
      ensures a.name == n ==> Cornered(Do(cfg, w, a).syncs[a.id]) && Do(cfg, w, a).syncs[a.id].pc != Done(Succeeded)
    {
      if a.name == n {
        OwnStaysOut(cfg, w, a, n, base, k);
      } else {
        OthersStayOut(cfg, w, a, n, k);
      }
    }
    assert Withheld(cfg, n, InjectorKey(n)) && Withheld(cfg, n, ServiceKey(cfg, n));
    assert Withheld(cfg, n, HandlerKey(cfg, n));
    AdvanceIs(cfg, w, a);
    StepKeepsName(cfg, a.id, w.syncs[a.id], Reg(w, Target(cfg, w.syncs[a.id])), a.choice);
  }

  lemma OthersInTrap(cfg: Config, w: World, a: Action, n: string, base: nat)
    requires Enabled(w, a) && !a.Advance? && LeavesTrapShut(cfg, n, base, a) && Trapped(cfg, w, n, base)
    ensures Trapped(cfg, Do(cfg, w, a), n, base)
  {
    var r, r' := Reg(w, InjectorKey(n)), Reg(Do(cfg, w, a), InjectorKey(n));
    forall i | base <= i < |r'.hist| ensures Nameless(r'.hist[i]) {
      if i < |r.hist| {
        assert r'.hist[i] == r.hist[i];
      }
    }
  }

  predicate Shut(cfg: Config, n: string, base: nat, run: seq<Action>) {
    forall i | 0 <= i < |run| :: LeavesTrapShut(cfg, n, base, run[i])
  }

  /** Whoever has succeeded after the run had succeeded before it. */
  predicate NoNewSuccess(w: World, w': World, n: string) {
    forall id | id in w'.syncs && w'.syncs[id].name == n && w'.syncs[id].pc == Done(Succeeded) ::
      id in w.syncs && w.syncs[id] == w'.syncs[id]
  }

  /**
   The trap is closed: over any run, whatever the interleaving, staleness and faults, no
   sync of the injector succeeds, creates the Service or changes the injector, until somebody
   deletes the handler or writes the status.
   */
  lemma {:induction false} TrapIsClosed(cfg: Config, w: World, run: seq<Action>, n: string, base: nat)
    requires Valid(cfg, w, run) && Trapped(cfg, w, n, base) && Shut(cfg, n, base, run)
    ensures Trapped(cfg, After(cfg, w, run), n, base)
    ensures NoNewSuccess(w, After(cfg, w, run), n)
    ensures Stored(cfg, w, run, ServiceKey(cfg, n)) == 0 && Stored(cfg, w, run, InjectorKey(n)) == 0
    decreases |run|
  {
    if run != [] {
      var a, w' := run[0], Do(cfg, w, run[0]);
      if a.Advance? {
        AdvanceInTrap(cfg, w, a, n, base);
        AdvanceIs(cfg, w, a);
      } else {
        OthersInTrap(cfg, w, a, n, base);
      }
      forall i | 0 <= i < |run[1..]| ensures LeavesTrapShut(cfg, n, base, run[1..][i]) {
        assert run[1..][i] == run[i + 1];
      }
      TrapIsClosed(cfg, w', run[1..], n, base);
    }
  }

  // ----- Ways out -----

  /** Deleting the handler opens the trap. */
  lemma DeletingHandlerOpens(cfg: Config, w: World, n: string, base: nat)
    requires Trapped(cfg, w, n, base) && HasInjector(w, n)
    ensures !CanSucceed(cfg, w, n)
    ensures var w' := Do(cfg, w, Outside(HandlerKey(cfg, n), None));
            HasInjector(w', n) && CanSucceed(cfg, w', n)
  {
    var r := Reg(w, InjectorKey(n));
    assert Nameless(r.hist[|r.hist| - 1]);
  }

  /** So does writing the handler's name into the status. */
  lemma WritingStatusOpens(cfg: Config, w: World, n: string, base: nat, o: Obj)
    requires Trapped(cfg, w, n, base) && HasInjector(w, n)
    requires o.InjectorObj? && Identity(o) == Identity(LiveInjector(w, n)) && o.status.deploymentName == HandlerName(n)
    ensures var a := Outside(InjectorKey(n), Some(o));
            Enabled(w, a) && HasInjector(Do(cfg, w, a), n) && CanSucceed(cfg, Do(cfg, w, a), n)
  {
  }

  /** One of the two ways out: the handler is deleted, or the status records it. */
  predicate Opens(cfg: Config, w: World, n: string, a: Action)
    requires HasInjector(w, n)
  {
    || a == Outside(HandlerKey(cfg, n), None)
    || (a.Outside? && a.key == InjectorKey(n) && a.obj.Some? && a.obj.value.InjectorObj?
        && Identity(a.obj.value) == Identity(LiveInjector(w, n))
        && a.obj.value.status.deploymentName == HandlerName(n))
  }

  /** In the trap even an undisturbed sync fails, and writes no Deployment, Service or injector. */
  lemma TrappedSyncFails(cfg: Config, w: World, n: string, base: nat, id: nat, ch: Pc -> Choice)
    requires Trapped(cfg, w, n, base)
    requires AboutToSync(cfg, w, id) && w.syncs[id].name == n && NoForeigner(cfg, w, n) && Benign(ch)
    ensures id in Finish(cfg, w, id, ch).syncs && Finish(cfg, w, id, ch).syncs[id].pc == Done(Failed)
    ensures Stuck(w, Finish(cfg, w, id, ch))
  {
    hide Finish;
    DeletingHandlerOpens(cfg, w, n, base);
    ExactConvergence(cfg, w, id, ch);
  }

  /** The trap is the complement: with the controller's own names, what cannot succeed is trapped, and nothing else. */
  lemma TrapIsTheComplement(cfg: Config, w: World, n: string)
    requires HasInjector(w, n) && UpToDate(Reg(w, InjectorKey(n))) && AllCornered(w, n)
    requires OwnNames(w, n)
    ensures !CanSucceed(cfg, w, n) <==> Trapped(cfg, w, n, |Reg(w, InjectorKey(n)).hist| - 1)
  {
    var r := Reg(w, InjectorKey(n));
    assert Nameless(r.hist[|r.hist| - 1]) <==> LiveInjector(w, n).status.deploymentName == "";
  }

  /** After either way out, once caches catch up, a sync succeeds. */
  lemma OutOfTheTrap(cfg: Config, w: World, n: string, base: nat, a: Action, v: World, id: nat, ch: Pc -> Choice)
    requires Trapped(cfg, w, n, base) && HasInjector(w, n) && Opens(cfg, w, n, a)
    requires Enabled(w, a) && CaughtUp(Do(cfg, w, a), v)
    requires AboutToSync(cfg, v, id) && v.syncs[id].name == n && NoForeigner(cfg, v, n) && Benign(ch)
    ensures !CanSucceed(cfg, w, n)
    ensures id in Finish(cfg, v, id, ch).syncs && Finish(cfg, v, id, ch).syncs[id].pc == Done(Succeeded)
  {
    hide Finish;
    DeletingHandlerOpens(cfg, w, n, base);
    if a.key == InjectorKey(n) {
      WritingStatusOpens(cfg, w, n, base, a.obj.value);
    }
    ExactConvergence(cfg, v, id, ch);
  }

  // ----- The way in -----

  predicate Late(t: SyncState) { Stage(t.pc) == 4 || t.pc.PutStatus? || t.pc.Done? }

  /** Past the Deployment only the Service and, last of all, the injector are written. */
  lemma {:induction false} LateFailure(cfg: Config, w: World, id: nat, ch: Pc -> Choice)
    requires id in w.syncs && Late(w.syncs[id])
    requires ch(PutStatus).outcome != ReplyLost
    ensures var v := Finish(cfg, w, id, ch);
            && id in v.syncs && v.syncs == w.syncs[id := v.syncs[id]] && v.syncs[id].pc.Done?
            && v.syncs[id].name == w.syncs[id].name
            && (forall k :: k != ServiceKey(cfg, w.syncs[id].name) && k != InjectorKey(w.syncs[id].name) ==>
                  Reg(v, k) == Reg(w, k))
            && (v.syncs[id].pc == Done(Failed) ==>
                  Reg(v, InjectorKey(w.syncs[id].name)) == Reg(w, InjectorKey(w.syncs[id].name)))
    decreases Rank(w.syncs[id].pc)
  {
    var t := w.syncs[id];
    if t.pc.Done? {
      FinishDone(cfg, w, id, ch);
    } else {
      hide Finish;
      var v := TakeStep(cfg, w, id, ch);
      StepDescends(cfg, id, t, Reg(w, Target(cfg, t)), ch(t.pc));
      LateStep(cfg, id, t, Reg(w, Target(cfg, t)), ch(t.pc));
      if v.syncs[id].pc.Done? {
        FinishDone(cfg, v, id, ch);
      } else {
        LateFailure(cfg, v, id, ch);
      }
    }
  }

  lemma LateStep(cfg: Config, id: nat, t: SyncState, r: Register, c: Choice)
    requires Late(t) && !t.pc.Done?
    ensures var (r', t') := Step(cfg, id, t, r, c);
            && Late(t') && t'.name == t.name
            && (t.pc.PutStatus? ==> t'.pc.Done?)
            && (t.pc.PutStatus? && c.outcome != ReplyLost && t'.pc == Done(Failed) ==> r' == r)
  {
  }

  lemma {:induction false} OthersIdle(cfg: Config, w: World, id: nat, ch: Pc -> Choice)
    requires id in w.syncs
    ensures var v := Finish(cfg, w, id, ch);
            id in v.syncs && v.syncs == w.syncs[id := v.syncs[id]] && v.syncs[id].name == w.syncs[id].name
    decreases Rank(w.syncs[id].pc)
  {
    var t := w.syncs[id];
    if t.pc.Done? {
      FinishDone(cfg, w, id, ch);
    } else {
      hide Finish;
      var v := TakeStep(cfg, w, id, ch);
      StepDescends(cfg, id, t, Reg(w, Target(cfg, t)), ch(t.pc));
      StepKeepsName(cfg, id, t, Reg(w, Target(cfg, t)), ch(t.pc));
      OthersIdle(cfg, v, id, ch);
    }
  }

  /**
   A first sync that makes the Deployment and then fails, at the Service or at the status
   update, leaves the injector trapped.
   */
  lemma FailureAfterDeploymentTraps(cfg: Config, w: World, id: nat, ch: Pc -> Choice)
    requires AboutToSync(cfg, w, id) && Smooth(ch) && NoForeigner(cfg, w, w.syncs[id].name)
    requires LiveInjector(w, w.syncs[id].name).status.deploymentName == ""
    requires Live(Reg(w, HandlerKey(cfg, w.syncs[id].name))).None?
    requires AllCornered(w, w.syncs[id].name) && ch(PutStatus).outcome != ReplyLost
    requires id in Finish(cfg, w, id, ch).syncs && Finish(cfg, w, id, ch).syncs[id].pc == Done(Failed)
    ensures var n := w.syncs[id].name;
            Trapped(cfg, Finish(cfg, w, id, ch), n, |Reg(w, InjectorKey(n)).hist| - 1)
  {
    hide Finish;
    hide Smooth;
    hide CertificatesSettled;
    OthersIdle(cfg, w, id, ch);
    var x := ThroughDeployment(cfg, w, id, ch);
    LateFailure(cfg, x, id, ch);
  }
}
