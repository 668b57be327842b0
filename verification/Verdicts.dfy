/**
 How a sync ends: gone, failed or succeeded.  Over any run, what a failing call and a missing
 setting mean; for an undisturbed sync, the whole table.
 */
module Verdicts {
  import opened Cluster
  import opened Reconciler
  import opened Safety
  import opened CaBundle
  import opened Convergence

  // ----- Failing calls -----

  /** A call that goes wrong, at whatever step, ends the sync in failure; only its register can have changed. */
  lemma FaultEndsSync(cfg: Config, id: nat, t: SyncState, r: Register, c: Choice)
    requires !t.pc.Done? && (c.outcome != Fine || (t.pc.CreateSecret? && c.certs.None?))
    ensures Step(cfg, id, t, r, c).1.pc == Done(Failed)
    ensures c.outcome != ReplyLost || !Writes(t.pc) ==> Step(cfg, id, t, r, c).0 == r
  {
  }

  /** A lost reply is the worst of it: the object is stored, the sync does not know, and fails. */
  lemma LostReplyStores(cfg: Config, id: nat, t: SyncState, r: Register, c: Choice)
    requires Writes(t.pc) && !t.pc.PutStatus? && c.outcome == ReplyLost
    requires Live(r).None? && Request(cfg, t, c).Some?
    ensures var (r', t') := Step(cfg, id, t, r, c);
            Live(r') == Request(cfg, t, c) && |r'.hist| == |r.hist| + 1 && t'.pc == Done(Failed)
  {
  }

  lemma {:induction false} DoneStays(cfg: Config, w: World, run: seq<Action>, id: nat)
    requires Valid(cfg, w, run) && id in w.syncs && w.syncs[id].pc.Done?
    ensures id in After(cfg, w, run).syncs && After(cfg, w, run).syncs[id] == w.syncs[id]
    decreases |run|
  {
    if run != [] {
      DoneStays(cfg, Do(cfg, w, run[0]), run[1..], id);
    }
  }

  /** Over any run: a sync that has not failed has had no call that failed. */
  lemma {:induction false} NoFaultUnlessFailed(cfg: Config, w: World, run: seq<Action>, id: nat, i: nat)
    requires Valid(cfg, w, run) && i < |run| && run[i].Advance? && run[i].id == id
    requires id in After(cfg, w, run).syncs && After(cfg, w, run).syncs[id].pc != Done(Failed)
    ensures run[i].choice.outcome == Fine
    decreases |run|
  {
    var w' := Do(cfg, w, run[0]);
    if i > 0 {
      assert run[1..][i - 1] == run[i];
      NoFaultUnlessFailed(cfg, w', run[1..], id, i - 1);
    } else if run[0].choice.outcome != Fine {
      var t := w.syncs[id];
      AdvanceIs(cfg, w, run[0]);
      FaultEndsSync(cfg, id, t, Reg(w, Target(cfg, t)), run[0].choice);
      DoneStays(cfg, w', run[1..], id);
    }
  }

  // ----- Missing settings -----

  /** A sync that has got nowhere, and without POD_NAMESPACE never will. */
  predicate Grounded(pc: Pc) { pc.Start? || pc == Done(Gone) || pc == Done(Failed) }

  /** A sync that has not got past the webhook, and without an image never will. */
  predicate Early(pc: Pc) { Grounded(pc) || 1 <= Stage(pc) <= 2 }

  lemma GroundedStep(cfg: Config, id: nat, t: SyncState, r: Register, c: Choice)
    requires cfg.namespace == "" && Grounded(t.pc)
    ensures Grounded(Step(cfg, id, t, r, c).1.pc) && Step(cfg, id, t, r, c).0 == r
  {
  }

  lemma EarlyRead(cfg: Config, t: SyncState, r: Register, c: Choice)
    requires cfg.image == "" && Early(t.pc) && !Writes(t.pc) && !t.pc.Done?
    ensures Early(Read(cfg, t, r, c).pc)
  {
  }

  lemma EarlyWritten(cfg: Config, t: SyncState, reply: Reply, c: Choice)
    requires cfg.image == "" && Early(t.pc) && Writes(t.pc)
    ensures Early(Written(cfg, t, reply, c).pc)
  {
  }

  predicate LateKind(kind: Kind) { kind.Deployment? || kind.Service? || kind.Injector? }

  lemma EarlyStep(cfg: Config, id: nat, t: SyncState, r: Register, c: Choice)
    requires cfg.image == "" && Early(t.pc)
    ensures Early(Step(cfg, id, t, r, c).1.pc)
    ensures LateKind(Target(cfg, t).kind) ==> Step(cfg, id, t, r, c).0 == r
  {
    if !t.pc.Done? {
      StepIs(cfg, id, t, r, c);
      if !Writes(t.pc) {
        EarlyRead(cfg, t, r, c);
      } else if Request(cfg, t, c).Some? {
        EarlyWritten(cfg, t, Call(t, r, Request(cfg, t, c).value, c.outcome, Sync(id)).1, c);
      }
    }
  }

  /** Without POD_NAMESPACE no sync ever stores anything, and every one ends gone or failed. */
  lemma {:induction false} NamespaceIsRequired(cfg: Config, w: World, run: seq<Action>, k: Key)
    requires cfg.namespace == "" && Valid(cfg, w, run) && forall id | id in w.syncs :: Grounded(w.syncs[id].pc)
    ensures Stored(cfg, w, run, k) == 0
    ensures forall id | id in After(cfg, w, run).syncs :: Grounded(After(cfg, w, run).syncs[id].pc)
    decreases |run|
  {
    if run != [] {
      if run[0].Advance? {
        var t := w.syncs[run[0].id];
        AdvanceIs(cfg, w, run[0]);
        GroundedStep(cfg, run[0].id, t, Reg(w, Target(cfg, t)), run[0].choice);
      }
      NamespaceIsRequired(cfg, Do(cfg, w, run[0]), run[1..], k);
    }
  }

  /** Without WEBHOOK_CONTAINER_IMAGE no sync stores a Deployment, a Service or a status, and none succeeds. */
  lemma {:induction false} ImageIsRequired(cfg: Config, w: World, run: seq<Action>, k: Key)
    requires cfg.image == "" && Valid(cfg, w, run) && forall id | id in w.syncs :: Early(w.syncs[id].pc)
    ensures LateKind(k.kind) ==> Stored(cfg, w, run, k) == 0
    ensures forall id | id in After(cfg, w, run).syncs :: Early(After(cfg, w, run).syncs[id].pc)
    decreases |run|
  {
    if run != [] {
      if run[0].Advance? {
        var t := w.syncs[run[0].id];
        AdvanceIs(cfg, w, run[0]);
        EarlyStep(cfg, run[0].id, t, Reg(w, Target(cfg, t)), run[0].choice);
      }
      ImageIsRequired(cfg, Do(cfg, w, run[0]), run[1..], k);
    }
  }

  // ----- An injector that is gone -----

  /** At some time there was no injector under the name. */
  predicate AbsentOnce(r: Register) {
    exists i | 0 <= i < |r.hist| :: r.hist[i].obj.None? || !r.hist[i].obj.value.InjectorObj?
  }

  ghost predicate WroteNothing(w: World, id: nat) { forall k :: !WroteTo(Reg(w, k), id) }

  /** Syncs that have not begun, have only begun, or have ended as gone. */
  predicate Idle(w: World, id: nat) { id !in w.syncs || w.syncs[id].pc.Start? || w.syncs[id].pc == Done(Gone) }

  ghost predicate GoneRight(w: World) {
    && (forall id | Idle(w, id) :: WroteNothing(w, id))
    && forall id | id in w.syncs && w.syncs[id].pc == Done(Gone) :: AbsentOnce(Reg(w, InjectorKey(w.syncs[id].name)))
  }

  lemma IdleWritesNothing(cfg: Config, w: World, a: Action, id: nat)
    requires Enabled(w, a) && GoneRight(w) && Idle(Do(cfg, w, a), id)
    ensures WroteNothing(Do(cfg, w, a), id)
  {
    var w' := Do(cfg, w, a);
    if a.Advance? {
      var t := w.syncs[a.id];
      AdvanceIs(cfg, w, a);
      OnlyStartEndsGone(cfg, a.id, t, Reg(w, Target(cfg, t)), a.choice);
    }
    assert Idle(w, id) && WroteNothing(w, id);
    forall k ensures !WroteTo(Reg(w', k), id) {
      DoStores(cfg, w, a, k);
      assert !WroteTo(Reg(w, k), id);
      var r, r' := Reg(w, k), Reg(w', k);
      assert forall i | 0 <= i < |r.hist| :: r'.hist[i] == r.hist[i];
    }
  }

  /** Gone is what the first lookup says, and nothing else does. */
  lemma OnlyStartEndsGone(cfg: Config, id: nat, t: SyncState, r: Register, c: Choice)
    requires !t.pc.Done?
    ensures var (r', t') := Step(cfg, id, t, r, c);
            && !t'.pc.Start? && t'.name == t.name
            && (t.pc.Start? ==> r' == r)
            && (t'.pc == Done(Gone) <==>
                  t.pc.Start? && c.outcome == Fine && (Cached(r).None? || !Cached(r).value.InjectorObj?))
  {
    StepIs(cfg, id, t, r, c);
    hide Step;
    hide Call;
    if !Writes(t.pc) {
      ReadEndsGone(cfg, t, r, c);
    } else if Request(cfg, t, c).Some? {
      WrittenIsNotGone(cfg, t, Call(t, r, Request(cfg, t, c).value, c.outcome, Sync(id)).1, c);
    }
  }

  lemma ReadEndsGone(cfg: Config, t: SyncState, r: Register, c: Choice)
    requires !t.pc.Done? && !Writes(t.pc)
    ensures var t' := Read(cfg, t, r, c);
            && !t'.pc.Start? && t'.name == t.name
            && (t'.pc == Done(Gone) <==>
                  t.pc.Start? && c.outcome == Fine && (Cached(r).None? || !Cached(r).value.InjectorObj?))
  {
  }

  lemma WrittenIsNotGone(cfg: Config, t: SyncState, reply: Reply, c: Choice)
    requires Writes(t.pc)
    ensures var t' := Written(cfg, t, reply, c); !t'.pc.Start? && t'.name == t.name && t'.pc != Done(Gone)
  {
  }

  lemma GoneStep(cfg: Config, w: World, a: Action)
    requires Enabled(w, a) && GoneRight(w)
    ensures GoneRight(Do(cfg, w, a))
  {
    var w' := Do(cfg, w, a);
    DoGrows(cfg, w, a);
    forall id | Idle(w', id) ensures WroteNothing(w', id) {
      IdleWritesNothing(cfg, w, a, id);
    }
    forall id | id in w'.syncs && w'.syncs[id].pc == Done(Gone)
      ensures AbsentOnce(Reg(w', InjectorKey(w'.syncs[id].name)))
    {
      if a.Advance? && a.id == id {
        var t := w.syncs[id];
        AdvanceIs(cfg, w, a);
        OnlyStartEndsGone(cfg, id, t, Reg(w, Target(cfg, t)), a.choice);
      } else {
        var r, r' := Reg(w, InjectorKey(w.syncs[id].name)), Reg(w', InjectorKey(w.syncs[id].name));
        assert forall i | 0 <= i < |r.hist| :: r'.hist[i] == r.hist[i];
      }
    }
  }

  lemma {:induction false} GoneRun(cfg: Config, w: World, run: seq<Action>)
    requires Valid(cfg, w, run) && GoneRight(w)
    ensures GoneRight(After(cfg, w, run))
    decreases |run|
  {
    if run != [] {
      GoneStep(cfg, w, run[0]);
      GoneRun(cfg, Do(cfg, w, run[0]), run[1..]);
    }
  }

  /** In every run a sync that ends as gone has stored nothing, and its injector was indeed once absent. */
  lemma GoneMeansAbsent(cfg: Config, w: World, run: seq<Action>, id: nat)
    requires Initial(w) && Valid(cfg, w, run)
    requires id in After(cfg, w, run).syncs && After(cfg, w, run).syncs[id].pc == Done(Gone)
    ensures AbsentOnce(Reg(After(cfg, w, run), InjectorKey(After(cfg, w, run).syncs[id].name)))
    ensures WroteNothing(After(cfg, w, run), id)
  {
    GoneRun(cfg, w, run);
  }

  // ----- The table -----

  ghost predicate Unchanged(w: World, v: World) { forall k :: Reg(v, k) == Reg(w, k) }

  lemma FirstStep(cfg: Config, id: nat, t: SyncState, r: Register, c: Choice)
    requires t.pc.Start? && c.outcome == Fine
    ensures Step(cfg, id, t, r, c).0 == r
    ensures Cached(r).None? || !Cached(r).value.InjectorObj? ==> Step(cfg, id, t, r, c).1.pc == Done(Gone)
    ensures Cached(r).Some? && Cached(r).value.InjectorObj? && cfg.namespace == "" ==>
              Step(cfg, id, t, r, c).1.pc == Done(Failed)
  {
  }

  lemma StartDecides(cfg: Config, w: World, id: nat, ch: Pc -> Choice)
    requires Starting(w, id) && Benign(ch) && (!HasInjector(w, w.syncs[id].name) || cfg.namespace == "")
    ensures var v := Finish(cfg, w, id, ch);
            && id in v.syncs && Unchanged(w, v)
            && v.syncs[id].pc == Done(if HasInjector(w, w.syncs[id].name) then Failed else Gone)
  {
    hide Finish;
    hide Step;
    var t := w.syncs[id];
    FirstStep(cfg, id, t, Reg(w, Target(cfg, t)), ch(t.pc));
    var v := TakeStep(cfg, w, id, ch);
    FinishDone(cfg, v, id, ch);
  }

  /**
   The verdict of an undisturbed sync, with current caches, no fault and no foreign object in
   the way, whatever the settings.  Without an injector it ends as gone and without POD_NAMESPACE
   in failure, and nothing has changed; without an image it fails with certificates and
   webhook in place; with both it succeeds exactly when it can.
   */
  lemma VerdictTable(cfg: Config, w: World, id: nat, ch: Pc -> Choice)
    requires Starting(w, id) && Benign(ch)
    requires HasInjector(w, w.syncs[id].name) ==> NoForeigner(cfg, w, w.syncs[id].name)
    ensures var n, v := w.syncs[id].name, Finish(cfg, w, id, ch);
            && id in v.syncs
            && (!HasInjector(w, n) ==> v.syncs[id].pc == Done(Gone) && Unchanged(w, v))
            && (HasInjector(w, n) && cfg.namespace == "" ==> v.syncs[id].pc == Done(Failed) && Unchanged(w, v))
            && (HasInjector(w, n) && cfg.namespace != "" && cfg.image == "" ==>
                  && v.syncs[id].pc == Done(Failed) && Stuck(w, v)
                  && CertificatesSettled(cfg, w, v, n, LiveInjector(w, n).uid)
                  && Settled(Reg(w, WebhookKey(n)), Reg(v, WebhookKey(n)), LiveInjector(w, n).uid))
            && (HasInjector(w, n) && cfg.namespace != "" && cfg.image != "" ==>
                  v.syncs[id].pc == Done(if CanSucceed(cfg, w, n) then Succeeded else Failed))
  {
    if !HasInjector(w, w.syncs[id].name) || cfg.namespace == "" {
      StartDecides(cfg, w, id, ch);
    } else if cfg.image == "" {
      BenignIsSmooth(ch);
      var v := FirstHalf(cfg, w, id, ch);
      FinishDone(cfg, v, id, ch);
    } else {
      ExactConvergence(cfg, w, id, ch);
    }
  }
}
