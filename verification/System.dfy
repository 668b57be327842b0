/**
 Workers, queue and cluster together: a worker runs a sync only while it holds the key.  So
 an injector has one sync under way at a time, which is all that Issuer and Certificate
 need to be safe from the controller's own syncs.
 */
module System {
  import opened Keys
  import Q = WorkQueue
  import opened Cluster
  import opened Reconciler
  import opened Safety

  /** The queue, the cluster, and for each worker inside syncHandler the id of its sync. */
  datatype State = State(queue: Q.Queue, world: World, jobs: map<nat, nat>)

  datatype Move =
    | Queueing(op: Q.Action)                  // any operation of the queue but the end of a sync
    | Elsewhere(action: Action)               // another party, or an informer cache
    | StartSync(worker: nat, id: nat)
    | StepSync(worker: nat, choice: Choice)
    | EndSync(worker: nat)

  /** Injectors have no namespace, so a well-formed key is a name. */
  predicate Plain(x: Q.Item) {
    x.Text? && SplitMetaNamespaceKey(x.key).Some? ==> SplitMetaNamespaceKey(x.key).value == ("", x.key)
  }

  /** The worker holds a key of the form a sync can be run on. */
  predicate HoldsKey(s: State, worker: nat) {
    var p := Q.PhaseOf(s.queue, worker);
    p.Holding? && p.item.Text? && SplitMetaNamespaceKey(p.item.key).Some?
  }

  predicate Can(s: State, m: Move) {
    match m
    case Queueing(a) => Q.Enabled(s.queue, a) && !a.EndSync? && (a.Request? ==> Plain(a.item))
    case Elsewhere(a) => (a.Outside? || a.Refresh?) && Enabled(s.world, a)
    case StartSync(worker, id) => HoldsKey(s, worker) && worker !in s.jobs && id !in s.world.syncs
    case StepSync(worker, _) => worker in s.jobs && Enabled(s.world, Steps(s, m))
    case EndSync(worker) =>
      && Q.Enabled(s.queue, Q.EndSync(worker, ReturnsNil(s, worker)))
      && (HoldsKey(s, worker) ==>
            worker in s.jobs && s.jobs[worker] in s.world.syncs && s.world.syncs[s.jobs[worker]].pc.Done?)
  }

  /** The action of the cluster that a worker's move is. */
  function Steps(s: State, m: Move): Action
    requires m.StartSync? || (m.StepSync? && m.worker in s.jobs)
  {
    match m
    case StartSync(worker, id) =>
      Begin(id, if HoldsKey(s, worker) then SplitMetaNamespaceKey(Q.PhaseOf(s.queue, worker).item.key).value.1 else "")
    case StepSync(worker, c) =>
      var id := s.jobs[worker];
      Advance(id, if id in s.world.syncs then s.world.syncs[id].name else "", c)
  }

  /** syncHandler returns nil unless its sync has failed; a malformed key is no error. */
  predicate ReturnsNil(s: State, worker: nat) {
    worker in s.jobs && s.jobs[worker] in s.world.syncs ==> s.world.syncs[s.jobs[worker]].pc != Done(Failed)
  }

  function Make(cfg: Config, s: State, m: Move): State
    requires Can(s, m)
  {
    match m
    case Queueing(a) => s.(queue := Q.Do(s.queue, a))
    case Elsewhere(a) => s.(world := Do(cfg, s.world, a))
    case StartSync(worker, id) => s.(world := Do(cfg, s.world, Steps(s, m)), jobs := s.jobs[worker := id])
    case StepSync(_, _) => s.(world := Do(cfg, s.world, Steps(s, m)))
    case EndSync(worker) =>
      s.(queue := Q.Do(s.queue, Q.EndSync(worker, ReturnsNil(s, worker))), jobs := s.jobs - {worker})
  }

  predicate CanAll(cfg: Config, s: State, moves: seq<Move>)
    decreases |moves|
  {
    moves == [] || (Can(s, moves[0]) && CanAll(cfg, Make(cfg, s, moves[0]), moves[1..]))
  }

  /** What the cluster sees of a move, and of many. */
  function Seen1(s: State, m: Move): seq<Action>
    requires m.StepSync? ==> m.worker in s.jobs
  {
    match m
    case Elsewhere(a) => [a]
    case StartSync(_, _) => [Steps(s, m)]
    case StepSync(_, _) => [Steps(s, m)]
    case _ => []
  }

  function SeenByCluster(cfg: Config, s: State, moves: seq<Move>): seq<Action>
    requires CanAll(cfg, s, moves)
    decreases |moves|
  {
    if moves == [] then [] else Seen1(s, moves[0]) + SeenByCluster(cfg, Make(cfg, s, moves[0]), moves[1..])
  }

  // ----- One holder, one sync -----

  ghost predicate AllPlain(q: Q.Queue) {
    forall x :: x in q.dirty || x in q.waiting || x in q.processing ==> Plain(x)
  }

  /** A worker with a sync holds the key of that sync's injector. */
  predicate JobHeld(s: State, worker: nat)
    requires worker in s.jobs
  {
    && s.jobs[worker] in s.world.syncs
    && Q.PhaseOf(s.queue, worker) == Q.Holding(Q.Text(s.world.syncs[s.jobs[worker]].name))
    && SplitMetaNamespaceKey(s.world.syncs[s.jobs[worker]].name).Some?
  }

  /** Every sync that has not ended is some worker's. */
  ghost predicate Attended(s: State, id: nat)
    requires id in s.world.syncs
  {
    s.world.syncs[id].pc.Done? || exists worker :: worker in s.jobs && s.jobs[worker] == id
  }

  ghost predicate Tied(s: State) {
    && Q.Sound(s.queue) && AllPlain(s.queue)
    && (forall worker | worker in s.jobs :: JobHeld(s, worker))
    && (forall id | id in s.world.syncs :: Attended(s, id))
  }

  lemma FreshIsTied(w: World)
    requires w.syncs == map[]
    ensures Tied(State(Q.FRESH, w, map[]))
  {
    Q.FreshIsSound();
  }

  lemma TiedQueueing(cfg: Config, s: State, m: Move)
    requires Can(s, m) && m.Queueing? && Tied(s)
    ensures Tied(Make(cfg, s, m))
  {
    var s', a := Make(cfg, s, m), m.op;
    Q.SoundStep(s.queue, a);
    if a.Take? {
      assert s.queue.order[0] in s.queue.order;
    }
    forall worker | worker in s'.jobs ensures JobHeld(s', worker) {
      assert JobHeld(s, worker);
      Q.PhaseAfter(s.queue, a, worker);
    }
    forall id | id in s'.world.syncs ensures Attended(s', id) {
      assert Attended(s, id);
    }
  }

  lemma TiedElsewhere(cfg: Config, s: State, m: Move)
    requires Can(s, m) && m.Elsewhere? && Tied(s)
    ensures Tied(Make(cfg, s, m))
  {
    var s' := Make(cfg, s, m);
    forall worker | worker in s'.jobs ensures JobHeld(s', worker) {
      assert JobHeld(s, worker);
    }
    forall id | id in s'.world.syncs ensures Attended(s', id) {
      assert Attended(s, id);
    }
  }

  lemma TiedStart(cfg: Config, s: State, m: Move)
    requires Can(s, m) && m.StartSync? && Tied(s)
    ensures Tied(Make(cfg, s, m))
  {
    var s' := Make(cfg, s, m);
    assert Plain(Q.PhaseOf(s.queue, m.worker).item);
    forall worker | worker in s'.jobs ensures JobHeld(s', worker) {
      assert worker != m.worker ==> JobHeld(s, worker);
    }
    forall id | id in s'.world.syncs ensures Attended(s', id) {
      if id == m.id {
        assert m.worker in s'.jobs && s'.jobs[m.worker] == id;
      } else {
        assert Attended(s, id);
        if worker :| worker in s.jobs && s.jobs[worker] == id {
          assert worker in s'.jobs && s'.jobs[worker] == id;
        }
      }
    }
  }

  lemma TiedStep(cfg: Config, s: State, m: Move)
    requires Can(s, m) && m.StepSync? && Tied(s)
    ensures Tied(Make(cfg, s, m))
  {
    var s', a := Make(cfg, s, m), Steps(s, m);
    AdvanceIs(cfg, s.world, a);
    StepKeepsName(cfg, a.id, s.world.syncs[a.id], Reg(s.world, Target(cfg, s.world.syncs[a.id])), a.choice);
    forall worker | worker in s'.jobs ensures JobHeld(s', worker) {
      assert JobHeld(s, worker);
    }
    forall id | id in s'.world.syncs ensures Attended(s', id) {
      assert Attended(s, id);
    }
  }

  lemma TiedEnd(cfg: Config, s: State, m: Move)
    requires Can(s, m) && m.EndSync? && Tied(s)
    ensures Tied(Make(cfg, s, m))
  {
    var s', a := Make(cfg, s, m), Q.EndSync(m.worker, ReturnsNil(s, m.worker));
    Q.SoundStep(s.queue, a);
    forall worker | worker in s'.jobs ensures JobHeld(s', worker) {
      assert JobHeld(s, worker);
      Q.PhaseAfter(s.queue, a, worker);
    }
    assert m.worker in s.jobs ==> JobHeld(s, m.worker);
    forall id | id in s'.world.syncs ensures Attended(s', id) {
      assert Attended(s, id);
      if worker :| worker in s.jobs && s.jobs[worker] == id {
        assert worker != m.worker ==> worker in s'.jobs && s'.jobs[worker] == id;
      }
    }
  }

  lemma TiedMove(cfg: Config, s: State, m: Move)
    requires Can(s, m) && Tied(s)
    ensures Tied(Make(cfg, s, m))
  {
    hide Tied;
    hide Can;
    hide Make;
    match m
    case Queueing(_) => TiedQueueing(cfg, s, m);
    case Elsewhere(_) => TiedElsewhere(cfg, s, m);
    case StartSync(_, _) => TiedStart(cfg, s, m);
    case StepSync(_, _) => TiedStep(cfg, s, m);
    case EndSync(_) => TiedEnd(cfg, s, m);
  }

  lemma SameNameSameWorker(s: State, worker: nat, other: nat)
    requires Tied(s) && worker in s.jobs && other in s.jobs
    requires s.jobs[worker] in s.world.syncs && s.jobs[other] in s.world.syncs
    requires s.world.syncs[s.jobs[worker]].name == s.world.syncs[s.jobs[other]].name
    ensures worker == other
  {
    assert JobHeld(s, worker) && JobHeld(s, other);
  }

  /** While a worker steps its sync, every other sync of the same injector has ended. */
  lemma OneHolderOneSync(s: State, worker: nat, id: nat)
    requires Tied(s) && worker in s.jobs && id in s.world.syncs && id != s.jobs[worker]
    requires s.jobs[worker] in s.world.syncs && s.world.syncs[id].name == s.world.syncs[s.jobs[worker]].name
    ensures s.world.syncs[id].pc.Done?
  {
    assert Attended(s, id);
    if !s.world.syncs[id].pc.Done? {
      var other :| other in s.jobs && s.jobs[other] == id;
      SameNameSameWorker(s, worker, other);
    }
  }

  // ----- Runs -----

  function Final(cfg: Config, s: State, moves: seq<Move>): State
    requires CanAll(cfg, s, moves)
    decreases |moves|
  {
    if moves == [] then s else Final(cfg, Make(cfg, s, moves[0]), moves[1..])
  }

  /** A move is, for the cluster, at most one action of the state machine, and a sync steps alone. */
  lemma MoveIsAction(cfg: Config, s: State, m: Move, n: string)
    requires Can(s, m) && Tied(s)
    ensures |Seen1(s, m)| <= 1
    ensures Seen1(s, m) == [] ==> Make(cfg, s, m).world == s.world
    ensures Seen1(s, m) != [] ==>
              var a := Seen1(s, m)[0];
              && Enabled(s.world, a) && Make(cfg, s, m).world == Do(cfg, s.world, a)
              && (a.Advance? && a.name == n ==> OthersAtRest(s.world, n, a.id))
  {
    if m.StepSync? {
      var a := Steps(s, m);
      forall id | id in s.world.syncs && id != a.id && s.world.syncs[id].name == a.name
        ensures s.world.syncs[id].pc.Done?
      {
        OneHolderOneSync(s, m.worker, id);
      }
    }
  }

  /**
   Every execution of the whole system is, for the cluster, a run of the state machine in
   which an injector has one sync under way at a time.
   */
  lemma {:induction false} SystemRuns(cfg: Config, s: State, moves: seq<Move>, n: string)
    requires Tied(s) && CanAll(cfg, s, moves)
    ensures Valid(cfg, s.world, SeenByCluster(cfg, s, moves))
    ensures After(cfg, s.world, SeenByCluster(cfg, s, moves)) == Final(cfg, s, moves).world
    ensures OneAtATime(cfg, s.world, SeenByCluster(cfg, s, moves), n)
    ensures Tied(Final(cfg, s, moves))
    decreases |moves|
  {
    if moves != [] {
      var m, s' := moves[0], Make(cfg, s, moves[0]);
      var rest := SeenByCluster(cfg, s', moves[1..]);
      MoveIsAction(cfg, s, m, n);
      TiedMove(cfg, s, m);
      SystemRuns(cfg, s', moves[1..], n);
      hide Tied;
      hide Make;
      if Seen1(s, m) == [] {
        assert SeenByCluster(cfg, s, moves) == rest;
      } else {
        assert SeenByCluster(cfg, s, moves) == [Seen1(s, m)[0]] + rest && ([Seen1(s, m)[0]] + rest)[1..] == rest;
      }
    }
  }

  /**
   So syncs store an Issuer or a Certificate only where there is none, in any execution of
   queue and workers from a fresh start in which others do not make it between a sync's Get
   and its Apply; their status reports, updates and deletions are allowed.
   */
  lemma ManifestsBalanced(cfg: Config, w: World, moves: seq<Move>, n: string, k: Key)
    requires w.syncs == map[] && Manifested(cfg, n, k) && CanAll(cfg, State(Q.FRESH, w, map[]), moves)
    requires Unraced(cfg, w, SeenByCluster(cfg, State(Q.FRESH, w, map[]), moves), k)
    ensures var run := SeenByCluster(cfg, State(Q.FRESH, w, map[]), moves);
            && Valid(cfg, w, run)
            && Present(w, k) + Stored(cfg, w, run, k) + Outsiders(cfg, w, run, k, true) ==
               Present(After(cfg, w, run), k) + Outsiders(cfg, w, run, k, false)
  {
    var s := State(Q.FRESH, w, map[]);
    FreshIsTied(w);
    SystemRuns(cfg, s, moves, n);
    ManifestBalance(cfg, w, SeenByCluster(cfg, s, moves), n, k);
  }

  /**
   So no sync ever clobbers an Issuer or a Certificate that nobody else touches, in any
   execution of queue and workers from a fresh start.
   */
  lemma ManifestsSafe(cfg: Config, w: World, moves: seq<Move>, n: string, k: Key)
    requires w.syncs == map[] && Manifested(cfg, n, k) && CanAll(cfg, State(Q.FRESH, w, map[]), moves)
    requires UntouchedByOthers(SeenByCluster(cfg, State(Q.FRESH, w, map[]), moves), k)
    ensures var run := SeenByCluster(cfg, State(Q.FRESH, w, map[]), moves);
            && Valid(cfg, w, run)
            && Stored(cfg, w, run, k) + Present(w, k) <= 1
            && (Live(Reg(w, k)).Some? ==> Reg(After(cfg, w, run), k).hist == Reg(w, k).hist)
  {
    var s := State(Q.FRESH, w, map[]);
    FreshIsTied(w);
    SystemRuns(cfg, s, moves, n);
    NoClobberManifests(cfg, w, SeenByCluster(cfg, s, moves), n, k);
  }
}
