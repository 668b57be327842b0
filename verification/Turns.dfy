/**
 The workers of the joint system run processNextWorkItem: each makes that program's moves
 and no others, in turns with the very log entries of module Worker.
 */
module Turns {
  import opened Basics
  import opened Keys
  import Q = WorkQueue
  import W = Worker
  import opened Cluster
  import opened Reconciler
  import opened Safety
  import opened Convergence
  import opened System

  // ----- The worker's program -----

  /** The worker whose move it is; none for events, timers, shutdown and the rest of the world. */
  predicate MovedBy(m: Move, worker: nat) {
    match m
    case Queueing(a) => Q.Working(a) && a.worker == worker
    case Elsewhere(_) => false
    case StartSync(v, _) => v == worker
    case StepSync(v, _) => v == worker
    case EndSync(v) => v == worker
  }

  /** What processNextWorkItem and syncHandler do next; id is for a new sync, c the next call's fate. */
  function Program(s: State, worker: nat, id: nat, c: Choice): Move {
    match Q.PhaseOf(s.queue, worker)
    case Idle => Queueing(Q.Take(worker))
    case Holding(Junk(_)) => Queueing(Q.Forget(worker))
    case Holding(Text(_)) =>
      if !HoldsKey(s, worker) then EndSync(worker)
      else if worker !in s.jobs then StartSync(worker, id)
      else if s.jobs[worker] in s.world.syncs && !s.world.syncs[s.jobs[worker]].pc.Done? then StepSync(worker, c)
      else EndSync(worker)
    case Synced(_, ok) => if ok then Queueing(Q.Forget(worker)) else Queueing(Q.Finish(worker))
    case Forgotten(_) => Queueing(Q.Finish(worker))
  }

  /** Whatever the others have done meanwhile, the worker can always go on; only Get has to wait for an item. */
  lemma ProgramGoesOn(s: State, worker: nat, id: nat, c: Choice)
    requires Tied(s) && id !in s.world.syncs
    requires Q.PhaseOf(s.queue, worker).Idle? ==> s.queue.order != []
    ensures Can(s, Program(s, worker, id, c)) && MovedBy(Program(s, worker, id, c), worker)
  {
    if worker in s.jobs {
      assert JobHeld(s, worker);
    }
  }

  /** And it does nothing else. */
  lemma NothingButTheProgram(s: State, m: Move, worker: nat)
    requires Tied(s) && Can(s, m) && MovedBy(m, worker)
    ensures exists id, c :: m == Program(s, worker, id, c)
  {
    if worker in s.jobs {
      assert JobHeld(s, worker);
    }
    var id := if m.StartSync? then m.id else 0;
    var c := if m.StepSync? then m.choice else Choice(Fine, None, "");
    assert m == Program(s, worker, id, c);
  }

  // ----- Turns -----

  /** The worker's entries for the turn it is in. */
  function SoFar(worker: nat, p: Q.Phase): seq<Q.Entry> {
    match p
    case Idle => []
    case Holding(x) => [Q.Got(worker, x)]
    case Synced(x, ok) => [Q.Got(worker, x), Q.SyncEnded(worker, x, ok)]
    case Forgotten(x) =>
      if x.Text? then [Q.Got(worker, x), Q.SyncEnded(worker, x, true), Q.Forgot(worker, x)]
      else [Q.Got(worker, x), Q.Forgot(worker, x)]
  }

  /** Whole turns since `base`, and the one it is in; only a key gets a sync. */
  ghost predicate InTurns(q: Q.Queue, worker: nat, base: seq<Q.Entry>, turns: seq<(Q.Item, bool)>) {
    var p := Q.PhaseOf(q, worker);
    && W.Own(q.log, worker) == base + W.Rounds(worker, turns) + SoFar(worker, p)
    && (p.Synced? ==> p.item.Text?)
  }

  lemma OthersKeepTurn(q: Q.Queue, a: Q.Action, worker: nat)
    requires Q.Enabled(q, a) && !(Q.Working(a) && a.worker == worker)
    ensures Q.PhaseOf(Q.Do(q, a), worker) == Q.PhaseOf(q, worker)
    ensures W.Own(Q.Do(q, a).log, worker) == W.Own(q.log, worker)
  {
    Q.PhaseAfter(q, a, worker);
    if !a.ShutDown? {
      W.OwnStep(q.log, Last(Q.Do(q, a).log), worker);
    }
  }

  /** The entry of the worker's operation carries the turn on, or completes it. */
  lemma SoFarGrows(worker: nat, p: Q.Phase, p': Q.Phase, e: Q.Entry)
    requires match p
             case Idle => p'.Holding? && e == Q.Got(worker, p'.item)
             case Holding(x) =>
               (x.Text? && p'.Synced? && p'.item == x && e == Q.SyncEnded(worker, x, p'.ok))
               || (x.Junk? && p' == Q.Forgotten(x) && e == Q.Forgot(worker, x))
             case Synced(x, ok) => x.Text? && ok && p' == Q.Forgotten(x) && e == Q.Forgot(worker, x)
             case Forgotten(_) => false
    ensures SoFar(worker, p) + [e] == SoFar(worker, p')
  {
  }

  lemma SoFarFinished(worker: nat, p: Q.Phase)
    requires p.Forgotten? || (p.Synced? && p.item.Text? && !p.ok)
    ensures SoFar(worker, p) + [Q.Finished(worker, p.item)] == W.Round(worker, p.item, !p.Synced?)
  {
  }

  lemma Regroup(a: seq<Q.Entry>, b: seq<Q.Entry>, c: seq<Q.Entry>, d: seq<Q.Entry>)
    ensures a + b + c + d == a + b + (c + d) == a + (b + (c + d)) + []
  {
  }

  /** The worker's own operation adds its entry, and the last one completes the turn. */
  lemma OwnTurn(q: Q.Queue, a: Q.Action, base: seq<Q.Entry>, turns: seq<(Q.Item, bool)>)
    returns (turns': seq<(Q.Item, bool)>)
    requires Q.Enabled(q, a) && Q.Working(a) && InTurns(q, a.worker, base, turns)
    ensures InTurns(Q.Do(q, a), a.worker, base, turns')
    ensures var p := Q.PhaseOf(q, a.worker);
            turns' == if a.Finish? then turns + [(p.item, !p.Synced?)] else turns
  {
    var w, p, p' := a.worker, Q.PhaseOf(q, a.worker), Q.PhaseOf(Q.Do(q, a), a.worker);
    var e := Last(Q.Do(q, a).log);
    hide W.Own;
    hide W.Rounds;
    hide W.Round;
    hide SoFar;
    W.OwnStep(q.log, e, w);
    Regroup(base, W.Rounds(w, turns), SoFar(w, p), [e]);
    turns' := turns;
    if a.Finish? {
      turns' := turns + [(p.item, !p.Synced?)];
      W.RoundsSnoc(w, turns, p.item, !p.Synced?);
      SoFarFinished(w, p);
      IdleSoFar(w);
    } else {
      SoFarGrows(w, p, p', e);
    }
  }

  lemma IdleSoFar(worker: nat)
    ensures SoFar(worker, Q.Idle) == []
  {
  }

  lemma TurnMove(cfg: Config, s: State, m: Move, worker: nat, base: seq<Q.Entry>, turns: seq<(Q.Item, bool)>)
    returns (turns': seq<(Q.Item, bool)>)
    requires Can(s, m) && InTurns(s.queue, worker, base, turns)
    ensures InTurns(Make(cfg, s, m).queue, worker, base, turns')
  {
    turns' := turns;
    if m.Queueing? || m.EndSync? {
      var a := if m.Queueing? then m.op else Q.EndSync(m.worker, ReturnsNil(s, m.worker));
      if Q.Working(a) && a.worker == worker {
        turns' := OwnTurn(s.queue, a, base, turns);
      } else {
        OthersKeepTurn(s.queue, a, worker);
      }
    }
  }

  lemma {:induction false} TurnMoves(
      cfg: Config, s: State, moves: seq<Move>, worker: nat, base: seq<Q.Entry>, turns: seq<(Q.Item, bool)>)
    returns (turns': seq<(Q.Item, bool)>)
    requires CanAll(cfg, s, moves) && InTurns(s.queue, worker, base, turns)
    ensures InTurns(Final(cfg, s, moves).queue, worker, base, turns')
    decreases |moves|
  {
    turns' := turns;
    if moves != [] {
      turns' := TurnMove(cfg, s, moves[0], worker, base, turns);
      turns' := TurnMoves(cfg, Make(cfg, s, moves[0]), moves[1..], worker, base, turns');
    }
  }

  /**
   In every execution, however it interleaves, each worker's log is a sequence of the turns
   that processNextWorkItem makes, and the beginning of one more.
   */
  lemma SystemTurns(cfg: Config, s: State, moves: seq<Move>, worker: nat) returns (turns: seq<(Q.Item, bool)>)
    requires CanAll(cfg, s, moves) && Q.PhaseOf(s.queue, worker).Idle?
    ensures var q := Final(cfg, s, moves).queue;
            W.Own(q.log, worker) ==
            W.Own(s.queue.log, worker) + W.Rounds(worker, turns) + SoFar(worker, Q.PhaseOf(q, worker))
  {
    W.NoTurns(worker);
    var base := W.Own(s.queue.log, worker);
    assert base + [] + [] == base;
    turns := TurnMoves(cfg, s, moves, worker, base, []);
  }

  // ----- One whole turn, undisturbed -----

  /** From s the worker alone can make these moves; the cluster sees `run`, and v is what comes of it. */
  ghost predicate Leads(cfg: Config, s: State, worker: nat, moves: seq<Move>, run: seq<Action>, v: State) {
    && CanAll(cfg, s, moves) && (forall i | 0 <= i < |moves| :: MovedBy(moves[i], worker))
    && run == SeenByCluster(cfg, s, moves) && v == Final(cfg, s, moves)
  }

  lemma NoMove(cfg: Config, s: State, worker: nat)
    ensures Leads(cfg, s, worker, [], [], s)
  {
  }

  lemma Ahead(cfg: Config, s: State, worker: nat, m: Move, moves: seq<Move>, run: seq<Action>, v: State)
    requires Can(s, m) && MovedBy(m, worker) && Leads(cfg, Make(cfg, s, m), worker, moves, run, v)
    ensures Leads(cfg, s, worker, [m] + moves, Seen1(s, m) + run, v)
  {
    hide Can;
    hide Make;
    hide Seen1;
    var all := [m] + moves;
    assert all[0] == m && all[1..] == moves;
  }

  lemma {:induction false} Joined(
      cfg: Config, s: State, worker: nat,
      a: seq<Move>, run: seq<Action>, u: State, b: seq<Move>, run': seq<Action>, v: State)
    requires Leads(cfg, s, worker, a, run, u) && Leads(cfg, u, worker, b, run', v)
    ensures Leads(cfg, s, worker, a + b, run + run', v)
    decreases |a|
  {
    hide Make;
    hide Seen1;
    if a == [] {
      assert a + b == b && run + run' == run';
    } else {
      var m, rest := a[0], a[1..];
      var s' := Make(cfg, s, m);
      Joined(cfg, s', worker, rest, SeenByCluster(cfg, s', rest), u, b, run', v);
      Ahead(cfg, s, worker, m, rest + b, SeenByCluster(cfg, s', rest) + run', v);
      assert [m] + (rest + b) == a + b;
      assert Seen1(s, m) + (SeenByCluster(cfg, s', rest) + run') == run + run';
    }
  }

  /** The calls of syncHandler, one move each, are the remaining steps of the worker's sync. */
  lemma {:induction false} SyncMoves(cfg: Config, s: State, worker: nat, ch: Pc -> Choice) returns (moves: seq<Move>)
    requires worker in s.jobs && s.jobs[worker] in s.world.syncs
    ensures Leads(cfg, s, worker, moves, FinishRun(cfg, s.world, s.jobs[worker], ch),
                  s.(world := Finish(cfg, s.world, s.jobs[worker], ch)))
    decreases Rank(s.world.syncs[s.jobs[worker]].pc)
  {
    var id := s.jobs[worker];
    var t := s.world.syncs[id];
    moves := [];
    if t.pc.Done? {
      NoMove(cfg, s, worker);
    } else {
      var m := StepSync(worker, ch(t.pc));
      var s' := Make(cfg, s, m);
      StepDescends(cfg, id, t, Reg(s.world, Target(cfg, t)), ch(t.pc));
      AdvanceIs(cfg, s.world, Steps(s, m));
      assert s'.world == Next(cfg, s.world, id, ch);
      hide Leads;
      var rest := SyncMoves(cfg, s', worker, ch);
      moves := [m] + rest;
      Ahead(cfg, s, worker, m, rest, FinishRun(cfg, s'.world, id, ch), s'.(world := Finish(cfg, s'.world, id, ch)));
    }
  }

  /** The worker's own operation on the queue: one entry, and the cluster sees nothing. */
  lemma QueueMove(cfg: Config, s: State, worker: nat, m: Move)
    requires Can(s, m) && MovedBy(m, worker) && (m.Queueing? || m.EndSync?)
    ensures Make(cfg, s, m).world == s.world && Seen1(s, m) == []
    ensures var a := if m.Queueing? then m.op else Q.EndSync(worker, ReturnsNil(s, worker));
            && Q.Enabled(s.queue, a) && Make(cfg, s, m).queue == Q.Do(s.queue, a)
            && W.Own(Q.Do(s.queue, a).log, worker) == W.Own(s.queue.log, worker) + [Last(Q.Do(s.queue, a).log)]
  {
    var a := if m.Queueing? then m.op else Q.EndSync(worker, ReturnsNil(s, worker));
    W.OwnStep(s.queue.log, Last(Q.Do(s.queue, a).log), worker);
  }

  /** v is s with the worker idle and these entries more in its log. */
  ghost predicate Logged(s: State, v: State, worker: nat, entries: seq<Q.Entry>) {
    Q.PhaseOf(v.queue, worker).Idle? && W.Own(v.queue.log, worker) == W.Own(s.queue.log, worker) + entries
  }

  /** An entry first, and then the others. */
  lemma LoggedAhead(s: State, u: State, v: State, worker: nat, e: Q.Entry, entries: seq<Q.Entry>)
    requires W.Own(u.queue.log, worker) == W.Own(s.queue.log, worker) + [e] && Logged(u, v, worker, entries)
    ensures Logged(s, v, worker, [e] + entries)
  {
    hide W.Own;
    hide Q.PhaseOf;
  }

  /** Done, the last operation of a turn. */
  lemma Finishing(cfg: Config, s: State, worker: nat) returns (moves: seq<Move>, v: State)
    requires Can(s, Queueing(Q.Finish(worker)))
    ensures Leads(cfg, s, worker, moves, [], v) && v.world == s.world
    ensures Logged(s, v, worker, [Q.Finished(worker, Q.PhaseOf(s.queue, worker).item)])
  {
    var m := Queueing(Q.Finish(worker));
    QueueMove(cfg, s, worker, m);
    v := Make(cfg, s, m);
    NoMove(cfg, v, worker);
    Ahead(cfg, s, worker, m, [], [], v);
    moves := [m] + [];
  }

  /** Forget, and Done. */
  lemma Forgetting(cfg: Config, s: State, worker: nat) returns (moves: seq<Move>, v: State)
    requires Can(s, Queueing(Q.Forget(worker)))
    ensures Leads(cfg, s, worker, moves, [], v) && v.world == s.world
    ensures var x := Q.PhaseOf(s.queue, worker).item; Logged(s, v, worker, [Q.Forgot(worker, x), Q.Finished(worker, x)])
  {
    var m, x := Queueing(Q.Forget(worker)), Q.PhaseOf(s.queue, worker).item;
    QueueMove(cfg, s, worker, m);
    var u := Make(cfg, s, m);
    hide Leads;
    moves, v := Finishing(cfg, u, worker);
    LoggedAhead(s, u, v, worker, Q.Forgot(worker, x), [Q.Finished(worker, x)]);
    Ahead(cfg, s, worker, m, moves, [], v);
    assert [Q.Forgot(worker, x)] + [Q.Finished(worker, x)] == [Q.Forgot(worker, x), Q.Finished(worker, x)];
    moves := [m] + moves;
  }

  lemma TreatmentIs(worker: nat, x: Q.Item, ok: bool)
    ensures x.Text? && ok ==>
              W.Treatment(worker, x, ok) == [Q.SyncEnded(worker, x, ok)] + [Q.Forgot(worker, x), Q.Finished(worker, x)]
    ensures x.Text? && !ok ==>
              W.Treatment(worker, x, ok) == [Q.SyncEnded(worker, x, ok)] + [Q.Finished(worker, x)]
    ensures x.Junk? ==> W.Treatment(worker, x, ok) == [Q.Forgot(worker, x), Q.Finished(worker, x)]
  {
  }

  /** From the return of syncHandler to the end of the turn. */
  lemma Returning(cfg: Config, s: State, worker: nat) returns (moves: seq<Move>, v: State)
    requires Q.PhaseOf(s.queue, worker).Holding? && Q.PhaseOf(s.queue, worker).item.Text? && Can(s, EndSync(worker))
    ensures Leads(cfg, s, worker, moves, [], v) && v.world == s.world
    ensures Logged(s, v, worker, W.Treatment(worker, Q.PhaseOf(s.queue, worker).item, ReturnsNil(s, worker)))
  {
    var m, x, ok := EndSync(worker), Q.PhaseOf(s.queue, worker).item, ReturnsNil(s, worker);
    QueueMove(cfg, s, worker, m);
    TreatmentIs(worker, x, ok);
    var u := Make(cfg, s, m);
    assert Q.PhaseOf(u.queue, worker) == Q.Synced(x, ok);
    hide Leads;
    hide Logged;
    hide W.Own;
    hide W.Treatment;
    if ok {
      moves, v := Forgetting(cfg, u, worker);
      LoggedAhead(s, u, v, worker, Q.SyncEnded(worker, x, ok), [Q.Forgot(worker, x), Q.Finished(worker, x)]);
    } else {
      moves, v := Finishing(cfg, u, worker);
      LoggedAhead(s, u, v, worker, Q.SyncEnded(worker, x, ok), [Q.Finished(worker, x)]);
    }
    Ahead(cfg, s, worker, m, moves, [], v);
    moves := [m] + moves;
  }

  lemma Started(cfg: Config, s: State, worker: nat, id: nat)
    requires Can(s, StartSync(worker, id))
    ensures var m := StartSync(worker, id);
            var v := Make(cfg, s, m);
            && v.queue == s.queue && worker in v.jobs && v.jobs[worker] == id && Seen1(s, m) == [Steps(s, m)]
            && Enabled(s.world, Steps(s, m)) && v.world == Do(cfg, s.world, Steps(s, m)) && id in v.world.syncs
  {
  }

  /** syncHandler on a well-formed key, from its beginning to the end of the turn. */
  lemma Calling(cfg: Config, s: State, worker: nat, id: nat, ch: Pc -> Choice) returns (moves: seq<Move>, v: State)
    requires HoldsKey(s, worker) && worker !in s.jobs && id !in s.world.syncs
    ensures var a := Steps(s, StartSync(worker, id));
            && v.world == Finish(cfg, Do(cfg, s.world, a), id, ch) && id in v.world.syncs
            && Leads(cfg, s, worker, moves, [a] + FinishRun(cfg, Do(cfg, s.world, a), id, ch), v)
            && Logged(s, v, worker,
                      W.Treatment(worker, Q.PhaseOf(s.queue, worker).item, v.world.syncs[id].pc != Done(Failed)))
  {
    hide W.Own;
    hide W.Treatment;
    hide Finish;
    hide FinishRun;
    hide Leads;
    var start := StartSync(worker, id);
    Started(cfg, s, worker, id);
    var u := Make(cfg, s, start);
    var calls := SyncMoves(cfg, u, worker, ch);
    FinishEnds(cfg, u.world, id, ch);
    var f := u.(world := Finish(cfg, u.world, id, ch));
    var rest;
    rest, v := Returning(cfg, f, worker);
    var run := FinishRun(cfg, u.world, id, ch);
    Joined(cfg, u, worker, calls, run, f, rest, [], v);
    assert run + [] == run;
    Ahead(cfg, s, worker, start, calls + rest, run, v);
    moves := [start] + (calls + rest);
  }

  /** What the cluster sees of a turn on x, and the verdict: a sync from begin to end, or nothing. */
  ghost predicate Seen(
      cfg: Config, w: World, x: Q.Item, id: nat, ch: Pc -> Choice, run: seq<Action>, w': World, ok: bool)
    requires id !in w.syncs
  {
    if x.Text? && SplitMetaNamespaceKey(x.key).Some? then
      var a := Begin(id, SplitMetaNamespaceKey(x.key).value.1);
      && run == [a] + FinishRun(cfg, Do(cfg, w, a), id, ch) && w' == Finish(cfg, Do(cfg, w, a), id, ch)
      && id in w'.syncs && (ok <==> w'.syncs[id].pc != Done(Failed))
    else ok && run == [] && w' == w
  }

  /** The turn from the return of Get. */
  lemma AfterGet(cfg: Config, s: State, worker: nat, id: nat, ch: Pc -> Choice)
    returns (moves: seq<Move>, run: seq<Action>, v: State, ok: bool)
    requires Q.PhaseOf(s.queue, worker).Holding? && worker !in s.jobs && id !in s.world.syncs
    ensures Leads(cfg, s, worker, moves, run, v)
    ensures Logged(s, v, worker, W.Treatment(worker, Q.PhaseOf(s.queue, worker).item, ok))
    ensures Seen(cfg, s.world, Q.PhaseOf(s.queue, worker).item, id, ch, run, v.world, ok)
  {
    hide W.Own;
    hide Finish;
    hide FinishRun;
    hide Leads;
    hide Logged;
    var x := Q.PhaseOf(s.queue, worker).item;
    run, ok := [], true;
    TreatmentIs(worker, x, true);
    hide W.Treatment;
    if x.Junk? {
      moves, v := Forgetting(cfg, s, worker);
    } else if !HoldsKey(s, worker) {
      moves, v := Returning(cfg, s, worker);
    } else {
      moves, v := Calling(cfg, s, worker, id, ch);
      ok := v.world.syncs[id].pc != Done(Failed);
      var a := Steps(s, StartSync(worker, id));
      run := [a] + FinishRun(cfg, Do(cfg, s.world, a), id, ch);
    }
  }

  lemma IdleHasNoJob(s: State, worker: nat)
    requires Tied(s) && Q.PhaseOf(s.queue, worker).Idle?
    ensures worker !in s.jobs
  {
    assert worker in s.jobs ==> JobHeld(s, worker);
  }

  /**
   One undisturbed turn of processNextWorkItem is a sequence of enabled moves of one worker.
   Its entries in the worker's log are Worker's Round; what the cluster sees of it is
   nothing for a malformed item, and otherwise a sync begun and run to its end, whose
   verdict the round records.
   */
  lemma OneTurn(cfg: Config, s: State, worker: nat, id: nat, ch: Pc -> Choice)
    returns (moves: seq<Move>, run: seq<Action>, v: State, ok: bool)
    requires Tied(s) && Q.PhaseOf(s.queue, worker).Idle? && s.queue.order != [] && id !in s.world.syncs
    ensures Leads(cfg, s, worker, moves, run, v)
    ensures Logged(s, v, worker, W.Round(worker, s.queue.order[0], ok))
    ensures Seen(cfg, s.world, s.queue.order[0], id, ch, run, v.world, ok)
  {
    IdleHasNoJob(s, worker);
    hide Tied;
    var x, take := s.queue.order[0], Queueing(Q.Take(worker));
    QueueMove(cfg, s, worker, take);
    var u := Make(cfg, s, take);
    assert Q.PhaseOf(u.queue, worker) == Q.Holding(x) && u.jobs == s.jobs;
    hide W.Own;
    hide W.Treatment;
    hide Leads;
    hide Logged;
    hide Seen;
    moves, run, v, ok := AfterGet(cfg, u, worker, id, ch);
    LoggedAhead(s, u, v, worker, Q.Got(worker, x), W.Treatment(worker, x, ok));
    Ahead(cfg, s, worker, take, moves, run, v);
    assert [] + run == run;
    moves := [take] + moves;
  }
}
