/** processNextWorkItem and runWorker: what one worker does with the queue, whatever the others do. */
module Worker {
  import opened Basics
  import opened Keys
  import Reconciler
  import Handler
  import opened WorkQueue

  /** The entries of one worker. */
  function Own(log: seq<Entry>, w: nat): seq<Entry> {
    if log == [] then []
    else
      var e, own := Last(log), Own(log[..|log| - 1], w);
      if !e.Requested? && !e.Fired? && e.worker == w then own + [e] else own
  }

  lemma OwnStep(log: seq<Entry>, e: Entry, w: nat)
    ensures Own(log + [e], w) == if !e.Requested? && !e.Fired? && e.worker == w then Own(log, w) + [e] else Own(log, w)
  {
    assert (log + [e])[..|log|] == log;
  }

  /** What follows a Get: the sync, Forget for a nil error or a malformed item, and Done at the end. */
  function Treatment(w: nat, x: Item, ok: bool): seq<Entry> {
    if x.Junk? then [Forgot(w, x), Finished(w, x)]
    else if ok then [SyncEnded(w, x, true), Forgot(w, x), Finished(w, x)]
    else [SyncEnded(w, x, false), Finished(w, x)]
  }

  /** One whole turn. */
  function Round(w: nat, x: Item, ok: bool): seq<Entry> { [Got(w, x)] + Treatment(w, x, ok) }

  function Rounds(w: nat, turns: seq<(Item, bool)>): seq<Entry> {
    if turns == [] then [] else Rounds(w, turns[..|turns| - 1]) + Round(w, Last(turns).0, Last(turns).1)
  }

  lemma NoTurns(w: nat)
    ensures Rounds(w, []) == []
  {
  }

  lemma RoundsSnoc(w: nat, turns: seq<(Item, bool)>, x: Item, ok: bool)
    ensures Rounds(w, turns + [(x, ok)]) == Rounds(w, turns) + Round(w, x, ok)
  {
    assert (turns + [(x, ok)])[..|turns|] == turns;
  }

  /** The worker's verdict on a key is syncHandler's: an error for a failed sync and for nothing else. */
  predicate Judged(
      before: map<nat, Reconciler.SyncState>, after: map<nat, Reconciler.SyncState>, id: nat, x: Item, ok: bool)
  {
    match x
    case Junk(_) => ok && after == before
    case Text(key) =>
      if SplitMetaNamespaceKey(key).None? then ok && after == before
      else id !in before && id in after && after[id].pc.Done? && (ok <==> !after[id].pc.verdict.Failed?)
  }

  /** An id no sync has had yet. */
  method FreshId(syncs: map<nat, Reconciler.SyncState>) returns (id: nat)
    ensures id !in syncs
  {
    var rest := syncs.Keys;
    id := 0;
    while rest != {}
      invariant forall k | k in syncs :: k in rest || k < id
      decreases rest
    {
      var k :| k in rest;
      id := if k < id then id else k + 1;
      rest := rest - {k};
    }
  }

  function NextPhase(p: Phase, a: Action): Phase
    requires !p.Idle?
  {
    match a
    case EndSync(_, ok) => Synced(p.item, ok)
    case Forget(_) => Forgotten(p.item)
    case _ => Idle
  }

  function EntryFor(p: Phase, a: Action): Entry
    requires !p.Idle? && Working(a)
  {
    match a
    case EndSync(w, ok) => SyncEnded(w, p.item, ok)
    case Forget(w) => Forgot(w, p.item)
    case _ => Finished(a.worker, p.item)
  }

  class Worker {
    const w: nat
    var queue: Queue
    var script: seq<seq<Action>>
    const handler: Handler.Controller

    constructor (w: nat, script: seq<seq<Action>>, handler: Handler.Controller)
      requires handler.Reachable()
      ensures this.w == w && queue == FRESH && this.handler == handler && Valid()
    {
      this.w, queue, this.script, this.handler := w, FRESH, script, handler;
      new;
      FreshIsSound();
    }

    ghost predicate Valid()
      reads this, handler
    {
      Sound(queue) && handler.Reachable()
    }

    /** One action on the queue. */
    method Perform(a: Action)
      requires Sound(queue) && Enabled(queue, a)
      modifies `queue
      ensures Sound(queue) && queue == Do(old(queue), a)
      ensures Working(a) && a.worker == w ==> Own(queue.log, w) == Own(old(queue.log), w) + [Last(queue.log)]
      ensures !(Working(a) && a.worker == w) ==>
                PhaseOf(queue, w) == PhaseOf(old(queue), w) && Own(queue.log, w) == Own(old(queue.log), w)
    {
      SoundStep(queue, a);
      PhaseAfter(queue, a, w);
      if !a.ShutDown? {
        OwnStep(queue.log, Last(Do(queue, a).log), w);
      }
      queue := Do(queue, a);
    }

    /** Event handlers, timers and the other workers act; the script ends with nobody acting any more. */
    method Interfere()
      requires Sound(queue)
      modifies `queue, `script
      ensures Sound(queue) && PhaseOf(queue, w) == PhaseOf(old(queue), w)
      ensures Own(queue.log, w) == Own(old(queue.log), w)
      ensures if old(script) == [] then script == [] && queue == old(queue) else |script| < |old(script)|
    {
      if script == [] {
        return;
      }
      var others := script[0];
      script := script[1..];
      var i := 0;
      while i < |others|
        invariant Sound(queue) && PhaseOf(queue, w) == PhaseOf(old(queue), w)
        invariant Own(queue.log, w) == Own(old(queue.log), w) && |script| < |old(script)|
      {
        var a := others[i];
        if Enabled(queue, a) && !(Working(a) && a.worker == w) {
          Perform(a);
        }
        i := i + 1;
      }
    }

    /** workqueue.Get blocks until there is an item or the queue is shut down; the script ends with the shutdown. */
    method Get() returns (x: Item, shutdown: bool)
      requires Sound(queue) && PhaseOf(queue, w).Idle?
      modifies `queue, `script
      ensures Sound(queue)
      ensures shutdown ==> queue.down && queue.order == [] && PhaseOf(queue, w).Idle?
                           && Own(queue.log, w) == Own(old(queue.log), w)
      ensures !shutdown ==> PhaseOf(queue, w) == Holding(x) && Own(queue.log, w) == Own(old(queue.log), w) + [Got(w, x)]
      ensures if old(script) == [] then script == [] && queue.dirty <= old(queue.dirty) else |script| < |old(script)|
      ensures old(script) == [] && !shutdown ==> queue.dirty < old(queue.dirty)
    {
      Interfere();
      while queue.order == [] && !queue.down
        invariant Sound(queue) && PhaseOf(queue, w).Idle?
        invariant Own(queue.log, w) == Own(old(queue.log), w)
        invariant if old(script) == [] then script == [] && queue.dirty == old(queue.dirty)
                  else |script| < |old(script)|
        decreases |script|, !queue.down
      {
        if script == [] {
          Perform(ShutDown);
        } else {
          Interfere();
        }
      }
      if queue.order == [] {
        return Junk(0), true;
      }
      x, shutdown := queue.order[0], false;
      assert x in queue.order;
      Perform(Take(w));
    }

    /** Nobody adds to a queue that is left alone, so a turn takes one item for good. */
    predicate Progress(script0: seq<seq<Action>>, dirty0: set<Item>)
      reads this
    {
      if script0 == [] then script == [] && queue.dirty < dirty0 else |script| < |script0|
    }

    /** One queue operation of this worker, after the others have acted. */
    method Operate(a: Action)
      requires Sound(queue) && (a.EndSync? || a.Forget? || a.Finish?) && a.worker == w && Enabled(queue, a)
      modifies `queue, `script
      ensures Sound(queue) && PhaseOf(queue, w) == NextPhase(old(PhaseOf(queue, w)), a)
      ensures Own(queue.log, w) == Own(old(queue.log), w) + [EntryFor(old(PhaseOf(queue, w)), a)]
      ensures if old(script) == [] then script == [] && queue.dirty == old(queue.dirty) else |script| < |old(script)|
    {
      Interfere();
      Perform(a);
    }

    /** The body of the worker's inner function, up to the deferred Done. */
    method Treat(obj: Item) returns (ok: bool, ghost id: nat)
      requires Valid() && PhaseOf(queue, w) == Holding(obj)
      modifies this, handler
      ensures Valid() && PhaseOf(queue, w).Idle?
      ensures Own(queue.log, w) == Own(old(queue.log), w) + Treatment(w, obj, ok)
      ensures Judged(old(handler.world.syncs), handler.world.syncs, id, obj, ok)
      ensures if old(script) == [] then script == [] && queue.dirty == old(queue.dirty) else |script| < |old(script)|
    {
      ok, id := true, 0;
      if obj.Junk? {
        Operate(Forget(w));
      } else {
        var next := FreshId(handler.world.syncs);
        id := next;
        var err := handler.SyncHandler(next, obj.key);
        ok := !err;
        Operate(EndSync(w, ok));
        if ok {
          Operate(Forget(w));
        }
      }
      Operate(Finish(w));
    }

    /**
     One turn of the worker.  The item obtained is marked Done exactly once whatever
     happens; it is forgotten exactly when it is malformed or its sync returned nil; nothing is
     ever put back by the worker.
     */
    method ProcessNextWorkItem() returns (more: bool, ghost x: Item, ghost ok: bool, ghost id: nat)
      requires Valid() && PhaseOf(queue, w).Idle?
      modifies this, handler
      ensures Valid() && PhaseOf(queue, w).Idle?
      ensures Own(queue.log, w) == Own(old(queue.log), w) + if more then Round(w, x, ok) else []
      ensures if more then Judged(old(handler.world.syncs), handler.world.syncs, id, x, ok)
              else queue.down && queue.order == [] && handler.world == old(handler.world)
      ensures if more then Progress(old(script), old(queue.dirty))
              else |script| < |old(script)| || (script == old(script) && queue.dirty <= old(queue.dirty))
    {
      var obj, shutdown := Get();
      x, ok, id := obj, true, 0;
      if shutdown {
        return false, x, ok, id;
      }
      ok, id := Treat(obj);
      more := true;
    }

    /** The worker runs until the queue is shut down and empty; its log is a sequence of whole turns. */
    method RunWorker() returns (ghost turns: seq<(Item, bool)>)
      requires Valid() && PhaseOf(queue, w).Idle?
      modifies this, handler
      ensures Valid() && PhaseOf(queue, w).Idle? && queue.down && queue.order == []
      ensures Own(queue.log, w) == Own(old(queue.log), w) + Rounds(w, turns)
    {
      hide Round;
      hide Rounds;
      turns := [];
      assert Rounds(w, []) == [] by {
        NoTurns(w);
      }
      var more := true;
      while more
        invariant Valid() && PhaseOf(queue, w).Idle?
        invariant !more ==> queue.down && queue.order == []
        invariant Own(queue.log, w) == Own(old(queue.log), w) + Rounds(w, turns)
        decreases |script|, queue.dirty, more
      {
        ghost var x: Item, ok: bool, id: nat;
        more, x, ok, id := ProcessNextWorkItem();
        if more {
          RoundsSnoc(w, turns, x, ok);
          turns := turns + [(x, ok)];
        }
      }
    }
  }
}
