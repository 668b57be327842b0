/**
 The work queue by its contract, shared by informer events and any number of workers: a
 deduplicated queue in which a key has at most one holder, behind a rate limiter.
 */
module WorkQueue {
  import opened Basics

  /** Queue items are any values; the workers expect strings. */
  datatype Item = Text(key: string) | Junk(value: nat)

  /** Where a worker stands in processNextWorkItem. */
  datatype Phase =
    | Idle
    | Holding(item: Item)
    | Synced(item: Item, ok: bool)
    | Forgotten(item: Item)

  datatype Entry =
    | Requested(item: Item)
    | Fired(item: Item)
    | Got(worker: nat, item: Item)
    | SyncEnded(worker: nat, item: Item, ok: bool)
    | Forgot(worker: nat, item: Item)
    | Finished(worker: nat, item: Item)

  /** `waiting` holds the items whose rate-limiting delay has not passed; `log` is what has happened. */
  datatype Queue = Queue(
    order: seq<Item>, dirty: set<Item>, processing: set<Item>, waiting: set<Item>, down: bool,
    workers: map<nat, Phase>, log: seq<Entry>)

  const FRESH: Queue := Queue([], {}, {}, {}, false, map[], [])

  datatype Action =
    | Request(item: Item)                 // AddRateLimited, called by an event handler
    | Fire(item: Item)                    // the delay of an item has passed
    | Take(worker: nat)                   // Get
    | EndSync(worker: nat, ok: bool)      // syncHandler has returned
    | Forget(worker: nat)
    | Finish(worker: nat)                 // Done
    | ShutDown

  function PhaseOf(q: Queue, w: nat): Phase { if w in q.workers then q.workers[w] else Idle }

  predicate Holds(p: Phase, x: Item) { !p.Idle? && p.item == x }

  predicate Enabled(q: Queue, a: Action) {
    match a
    case Request(_) => true
    case Fire(x) => x in q.waiting
    case Take(w) => PhaseOf(q, w).Idle? && q.order != []
    case EndSync(w, _) => PhaseOf(q, w).Holding? && PhaseOf(q, w).item.Text?
    case Forget(w) =>
      (PhaseOf(q, w).Holding? && PhaseOf(q, w).item.Junk?) || (PhaseOf(q, w).Synced? && PhaseOf(q, w).ok)
    case Finish(w) => PhaseOf(q, w).Forgotten? || (PhaseOf(q, w).Synced? && !PhaseOf(q, w).ok)
    case ShutDown => true
  }

  function Log(q: Queue, e: Entry): Queue { q.(log := q.log + [e]) }

  /** Add: an item already dirty is dropped, one in process is only marked. */
  function Add(q: Queue, x: Item): Queue {
    if q.down || x in q.dirty then q
    else q.(dirty := q.dirty + {x}, order := if x in q.processing then q.order else q.order + [x])
  }

  function Do(q: Queue, a: Action): Queue
    requires Enabled(q, a)
  {
    match a
    case Request(x) => Log(if q.down then q else q.(waiting := q.waiting + {x}), Requested(x))
    case Fire(x) => Log(Add(q.(waiting := q.waiting - {x}), x), Fired(x))
    case Take(w) =>
      var x := q.order[0];
      Log(q.(order := q.order[1..], dirty := q.dirty - {x}, processing := q.processing + {x},
             workers := q.workers[w := Holding(x)]), Got(w, x))
    case EndSync(w, ok) =>
      var x := PhaseOf(q, w).item;
      Log(q.(workers := q.workers[w := Synced(x, ok)]), SyncEnded(w, x, ok))
    case Forget(w) =>
      var x := PhaseOf(q, w).item;
      Log(q.(workers := q.workers[w := Forgotten(x)]), Forgot(w, x))
    case Finish(w) =>
      var x := PhaseOf(q, w).item;
      Log(q.(processing := q.processing - {x}, order := if x in q.dirty then q.order + [x] else q.order,
             workers := q.workers[w := Idle]), Finished(w, x))
    case ShutDown => q.(down := true)
  }

  predicate Valid(q: Queue, run: seq<Action>)
    decreases |run|
  {
    run == [] || (Enabled(q, run[0]) && Valid(Do(q, run[0]), run[1..]))
  }

  function After(q: Queue, run: seq<Action>): Queue
    requires Valid(q, run)
    decreases |run|
  {
    if run == [] then q else After(Do(q, run[0]), run[1..])
  }

  // ----- Counting -----

  datatype Tally = Tally(requested: nat, fired: nat, got: nat, ok: nat, forgot: nat, finished: nat)

  function Tick(t: Tally, e: Entry): Tally {
    match e
    case Requested(_) => t.(requested := t.requested + 1)
    case Fired(_) => t.(fired := t.fired + 1)
    case Got(_, _) => t.(got := t.got + 1)
    case SyncEnded(_, _, ok) => if ok then t.(ok := t.ok + 1) else t
    case Forgot(_, _) => t.(forgot := t.forgot + 1)
    case Finished(_, _) => t.(finished := t.finished + 1)
  }

  /** What has happened to item x. */
  function Count(log: seq<Entry>, x: Item): Tally {
    if log == [] then Tally(0, 0, 0, 0, 0, 0)
    else
      var t, e := Count(log[..|log| - 1], x), Last(log);
      if e.item == x then Tick(t, e) else t
  }

  function One(b: bool): nat { if b then 1 else 0 }

  predicate Distinct(s: seq<Item>) {
    forall i, j | 0 <= i < j < |s| :: s[i] != s[j]
  }

  /** The queue proper: no item twice, and exactly the dirty items nobody processes. */
  ghost predicate Orderly(q: Queue) {
    Distinct(q.order) && forall x :: x in q.order <==> x in q.dirty && x !in q.processing
  }

  /** An item in process has one holder. */
  ghost predicate OneHolder(q: Queue) {
    && (forall w :: !PhaseOf(q, w).Idle? ==> PhaseOf(q, w).item in q.processing)
    && (forall x :: x in q.processing ==> exists w :: Holds(PhaseOf(q, w), x))
    && (forall v, w :: v != w && !PhaseOf(q, v).Idle? && !PhaseOf(q, w).Idle? ==>
          PhaseOf(q, v).item != PhaseOf(q, w).item)
  }

  /** Every Get is matched by one Done, and nothing is taken that was not requested again before. */
  predicate Balanced(q: Queue, x: Item) {
    var t := Count(q.log, x);
    && t.got == t.finished + One(x in q.processing)
    && t.got + One(x in q.dirty) <= t.fired
    && t.fired + One(x in q.waiting) <= t.requested
  }

  ghost predicate AllBalanced(q: Queue) { forall x :: Balanced(q, x) }

  ghost predicate Sound(q: Queue) { Orderly(q) && OneHolder(q) && AllBalanced(q) }

  lemma CountStep(log: seq<Entry>, e: Entry, x: Item)
    ensures Count(log + [e], x) == if e.item == x then Tick(Count(log, x), e) else Count(log, x)
  {
    assert (log + [e])[..|log|] == log;
  }

  lemma OrderlyStep(q: Queue, a: Action)
    requires Enabled(q, a) && Orderly(q) && OneHolder(q)
    ensures Orderly(Do(q, a))
  {
    var q' := Do(q, a);
    if a.Take? {
      assert q.order == [q.order[0]] + q'.order;
      assert forall i | 0 <= i < |q'.order| :: q'.order[i] == q.order[i + 1];
      forall x ensures x in q'.order <==> x in q.order && x != q.order[0] {
        if x in q'.order {
          var i :| 0 <= i < |q'.order| && q'.order[i] == x;
        }
      }
    }
  }

  predicate Working(a: Action) { a.Take? || a.EndSync? || a.Forget? || a.Finish? }

  /** Only the acting worker's phase changes. */
  lemma PhaseAfter(q: Queue, a: Action, w: nat)
    requires Enabled(q, a)
    ensures !(Working(a) && a.worker == w) ==> PhaseOf(Do(q, a), w) == PhaseOf(q, w)
    ensures Working(a) && !a.Take? && !a.Finish? && a.worker == w ==>
              !PhaseOf(q, w).Idle? && Holds(PhaseOf(Do(q, a), w), PhaseOf(q, w).item)
  {
  }

  lemma OneHolderStep(q: Queue, a: Action)
    requires Enabled(q, a) && Orderly(q) && OneHolder(q)
    ensures OneHolder(Do(q, a))
  {
    var q' := Do(q, a);
    forall w
      ensures !(Working(a) && a.worker == w) ==> PhaseOf(q', w) == PhaseOf(q, w)
      ensures Working(a) && !a.Take? && !a.Finish? && a.worker == w ==>
                !PhaseOf(q, w).Idle? && Holds(PhaseOf(q', w), PhaseOf(q, w).item)
    {
      PhaseAfter(q, a, w);
    }
    if a.Take? {
      assert q.order[0] in q.order;
    }
    forall x | x in q'.processing ensures exists w :: Holds(PhaseOf(q', w), x) {
      HolderStays(q, a, x);
    }
  }

  /** Whatever is in process afterwards has its holder. */
  lemma HolderStays(q: Queue, a: Action, x: Item)
    requires Enabled(q, a) && OneHolder(q) && x in Do(q, a).processing
    ensures exists w :: Holds(PhaseOf(Do(q, a), w), x)
  {
    var q' := Do(q, a);
    if a.Take? && x == q.order[0] {
      assert Holds(PhaseOf(q', a.worker), x);
    } else {
      assert x in q.processing;
      var w :| Holds(PhaseOf(q, w), x);
      PhaseAfter(q, a, w);
      assert Holds(PhaseOf(q', w), x);
    }
  }

  lemma BalancedOutside(q: Queue, a: Action, x: Item)
    requires Enabled(q, a) && !Working(a) && Balanced(q, x)
    ensures Balanced(Do(q, a), x)
  {
    hide Count;
    match a
    case Request(y) => CountStep(q.log, Requested(y), x);
    case Fire(y) => CountStep(q.log, Fired(y), x);
    case ShutDown =>
  }

  lemma BalancedTake(q: Queue, a: Action, x: Item)
    requires Enabled(q, a) && a.Take? && Orderly(q) && Balanced(q, x)
    ensures Balanced(Do(q, a), x)
  {
    hide Count;
    CountStep(q.log, Last(Do(q, a).log), x);
    assert q.order[0] in q.order;
  }

  lemma BalancedWork(q: Queue, a: Action, x: Item)
    requires Enabled(q, a) && Working(a) && !a.Take? && Balanced(q, x)
    requires PhaseOf(q, a.worker).item in q.processing
    ensures Balanced(Do(q, a), x)
  {
    hide Count;
    CountStep(q.log, Last(Do(q, a).log), x);
  }

  /** Whoever acts on an item after Get is its holder. */
  lemma HolderActs(q: Queue, a: Action)
    requires Enabled(q, a) && Working(a) && !a.Take? && OneHolder(q)
    ensures PhaseOf(q, a.worker).item in q.processing
  {
  }

  lemma BalancedStep(q: Queue, a: Action, x: Item)
    requires Enabled(q, a) && Orderly(q) && OneHolder(q) && Balanced(q, x)
    ensures Balanced(Do(q, a), x)
  {
    hide Balanced;
    hide Orderly;
    hide OneHolder;
    hide Do;
    if !Working(a) {
      BalancedOutside(q, a, x);
    } else if a.Take? {
      BalancedTake(q, a, x);
    } else {
      HolderActs(q, a);
      BalancedWork(q, a, x);
    }
  }

  lemma AllBalancedStep(q: Queue, a: Action)
    requires Enabled(q, a) && Orderly(q) && OneHolder(q) && AllBalanced(q)
    ensures AllBalanced(Do(q, a))
  {
    hide Balanced;
    hide Orderly;
    hide OneHolder;
    hide Do;
    forall x ensures Balanced(Do(q, a), x) {
      assert Balanced(q, x);
      BalancedStep(q, a, x);
    }
  }

  lemma SoundStep(q: Queue, a: Action)
    requires Enabled(q, a) && Sound(q)
    ensures Sound(Do(q, a))
  {
    hide AllBalanced;
    hide Orderly;
    hide OneHolder;
    hide Do;
    OrderlyStep(q, a);
    OneHolderStep(q, a);
    AllBalancedStep(q, a);
  }

  /** The protocol of the queue holds over every run, with any number of workers. */
  lemma {:induction false} SoundRun(q: Queue, run: seq<Action>)
    requires Sound(q) && Valid(q, run)
    ensures Sound(After(q, run))
    decreases |run|
  {
    if run != [] {
      SoundStep(q, run[0]);
      SoundRun(Do(q, run[0]), run[1..]);
    }
  }

  lemma FreshIsSound()
    ensures Sound(FRESH)
  {
  }

  /** Along every run each Get of an item is matched by one Done, but for the item's one holder. */
  lemma GetsMatchDones(run: seq<Action>, x: Item)
    requires Valid(FRESH, run)
    ensures var q := After(FRESH, run);
            var t := Count(q.log, x);
            && t.got == t.finished + One(x in q.processing)
            && (x in q.processing <==> exists w :: Holds(PhaseOf(q, w), x))
            && (forall v, w :: Holds(PhaseOf(q, v), x) && Holds(PhaseOf(q, w), x) ==> v == w)
            && t.got <= t.requested
  {
    FreshIsSound();
    SoundRun(FRESH, run);
    assert Balanced(After(FRESH, run), x);
  }

  // ----- Forget -----

  /** Some worker is in exactly this phase. */
  ghost predicate Somewhere(q: Queue, p: Phase) { exists w :: PhaseOf(q, w) == p }

  /**
   Forget is called once for each nil-error sync of a key and once for each Get of a
   malformed item, and for nothing else; a worker may still be about to call it.
   */
  ghost predicate ForgetsRight(q: Queue, x: Item) {
    var t := Count(q.log, x);
    match x
    case Text(_) => t.forgot + One(Somewhere(q, Synced(x, true))) == t.ok
    case Junk(_) => t.forgot + One(Somewhere(q, Holding(x))) == t.got && !Somewhere(q, Synced(x, true))
  }

  /** The item an action is about, for a worker's action. */
  function Subject(q: Queue, a: Action): Item
    requires Enabled(q, a) && Working(a)
  {
    if a.Take? then q.order[0] else PhaseOf(q, a.worker).item
  }

  /** A holder's phase is the only one about its item. */
  lemma HolderDecides(q: Queue, w: nat, p: Phase)
    requires OneHolder(q) && !p.Idle? && Holds(PhaseOf(q, w), p.item)
    ensures Somewhere(q, p) <==> PhaseOf(q, w) == p
  {
  }

  lemma NobodyHolds(q: Queue, p: Phase)
    requires OneHolder(q) && !p.Idle? && p.item !in q.processing
    ensures !Somewhere(q, p)
  {
  }

  /** Actions on another item change nothing about this one's holder. */
  lemma SomewhereStays(q: Queue, a: Action, p: Phase)
    requires Enabled(q, a) && !p.Idle? && (Working(a) ==> Subject(q, a) != p.item)
    ensures Somewhere(Do(q, a), p) <==> Somewhere(q, p)
  {
    var q' := Do(q, a);
    if w :| PhaseOf(q, w) == p {
      PhaseAfter(q, a, w);
      assert PhaseOf(q', w) == p;
    }
    if w :| PhaseOf(q', w) == p {
      PhaseAfter(q, a, w);
      assert PhaseOf(q, w) == p;
    }
  }

  lemma ForgetsOther(q: Queue, a: Action, x: Item)
    requires Enabled(q, a) && ForgetsRight(q, x) && (Working(a) ==> Subject(q, a) != x)
    ensures ForgetsRight(Do(q, a), x)
  {
    hide Somewhere;
    hide Count;
    SomewhereStays(q, a, Synced(x, true));
    SomewhereStays(q, a, Holding(x));
    match a
    case Request(y) => CountStep(q.log, Requested(y), x);
    case Fire(y) => CountStep(q.log, Fired(y), x);
    case ShutDown =>
    case _ => CountStep(q.log, Last(Do(q, a).log), x);
  }

  lemma ForgetsTake(q: Queue, a: Action)
    requires Enabled(q, a) && a.Take? && Orderly(q) && OneHolder(q) && ForgetsRight(q, Subject(q, a))
    ensures ForgetsRight(Do(q, a), Subject(q, a))
  {
    var x, q' := Subject(q, a), Do(q, a);
    assert x in q.order;
    NobodyHolds(q, Synced(x, true));
    NobodyHolds(q, Holding(x));
    OneHolderStep(q, a);
    HolderDecides(q', a.worker, Synced(x, true));
    HolderDecides(q', a.worker, Holding(x));
    CountStep(q.log, Last(q'.log), x);
    hide Somewhere;
    hide Count;
    hide OneHolder;
  }

  lemma ForgetsWork(q: Queue, a: Action)
    requires Enabled(q, a) && Working(a) && !a.Take? && !a.Finish? && Orderly(q) && OneHolder(q)
    requires ForgetsRight(q, Subject(q, a))
    ensures ForgetsRight(Do(q, a), Subject(q, a))
  {
    var x, q' := Subject(q, a), Do(q, a);
    OneHolderStep(q, a);
    HolderDecides(q, a.worker, Synced(x, true));
    HolderDecides(q, a.worker, Holding(x));
    HolderDecides(q', a.worker, Synced(x, true));
    HolderDecides(q', a.worker, Holding(x));
    CountStep(q.log, Last(q'.log), x);
    hide Somewhere;
    hide Count;
    hide OneHolder;
  }

  lemma ForgetsFinish(q: Queue, a: Action)
    requires Enabled(q, a) && a.Finish? && Orderly(q) && OneHolder(q) && ForgetsRight(q, Subject(q, a))
    ensures ForgetsRight(Do(q, a), Subject(q, a))
  {
    var x, q' := Subject(q, a), Do(q, a);
    OneHolderStep(q, a);
    HolderDecides(q, a.worker, Synced(x, true));
    HolderDecides(q, a.worker, Holding(x));
    NobodyHolds(q', Synced(x, true));
    NobodyHolds(q', Holding(x));
    CountStep(q.log, Last(q'.log), x);
    hide Somewhere;
    hide Count;
    hide OneHolder;
  }

  lemma ForgetsStep(q: Queue, a: Action, x: Item)
    requires Enabled(q, a) && Orderly(q) && OneHolder(q) && ForgetsRight(q, x)
    ensures ForgetsRight(Do(q, a), x)
  {
    hide ForgetsRight;
    hide Orderly;
    hide OneHolder;
    hide Do;
    if !Working(a) || Subject(q, a) != x {
      ForgetsOther(q, a, x);
    } else if a.Take? {
      ForgetsTake(q, a);
    } else if a.Finish? {
      ForgetsFinish(q, a);
    } else {
      ForgetsWork(q, a);
    }
  }

  lemma {:induction false} ForgetsRun(q: Queue, run: seq<Action>, x: Item)
    requires Sound(q) && ForgetsRight(q, x) && Valid(q, run)
    ensures ForgetsRight(After(q, run), x)
    decreases |run|
  {
    if run != [] {
      ForgetsStep(q, run[0], x);
      SoundStep(q, run[0]);
      ForgetsRun(Do(q, run[0]), run[1..], x);
    }
  }

  /**
   Over every run, with any number of workers: of an item nobody is processing, Forgets
   equal nil-error syncs, or Gets if it is malformed.
   */
  lemma ForgetExact(run: seq<Action>, x: Item)
    requires Valid(FRESH, run) && x !in After(FRESH, run).processing
    ensures var t := Count(After(FRESH, run).log, x);
            t.forgot == (if x.Text? then t.ok else t.got) && t.got == t.finished
  {
    FreshIsSound();
    SoundRun(FRESH, run);
    assert ForgetsRight(FRESH, x);
    ForgetsRun(FRESH, run, x);
    var q := After(FRESH, run);
    NobodyHolds(q, Synced(x, true));
    NobodyHolds(q, Holding(x));
    assert Balanced(q, x);
  }

  predicate Unrequested(run: seq<Action>, x: Item) {
    forall i | 0 <= i < |run| :: run[i] != Request(x)
  }

  lemma UnrequestedTail(run: seq<Action>, x: Item)
    requires run != [] && Unrequested(run, x)
    ensures Unrequested(run[1..], x)
  {
    forall i | 0 <= i < |run[1..]| ensures run[1..][i] != Request(x) {
      assert run[1..][i] == run[i + 1];
    }
  }

  /**
   No retry by itself: an item that is neither queued nor delayed, such as one whose sync has
   just failed, is not taken again before an event requests it, whatever the workers do.
   */
  lemma {:induction false} NoRetryWithoutEvent(q: Queue, run: seq<Action>, x: Item)
    requires Sound(q) && Valid(q, run) && Unrequested(run, x)
    requires x !in q.dirty && x !in q.waiting
    ensures x !in After(q, run).dirty && x !in After(q, run).waiting && x !in After(q, run).order
    ensures Count(After(q, run).log, x).got == Count(q.log, x).got
    decreases |run|
  {
    if run != [] {
      var q' := Do(q, run[0]);
      assert x !in q.order;
      SoundStep(q, run[0]);
      UnrequestedTail(run, x);
      if !run[0].ShutDown? {
        CountStep(q.log, Last(q'.log), x);
      }
      NoRetryWithoutEvent(q', run[1..], x);
    }
  }

  predicate Open(run: seq<Action>) { forall i | 0 <= i < |run| :: !run[i].ShutDown? }

  lemma WantedStep(q: Queue, a: Action, x: Item)
    requires Enabled(q, a) && !q.down && !a.ShutDown? && (x in q.dirty || x in q.waiting)
    ensures var q' := Do(q, a);
            && !q'.down && Count(q'.log, x).got >= Count(q.log, x).got
            && (x in q'.dirty || x in q'.waiting || Count(q'.log, x).got > Count(q.log, x).got)
  {
    hide Count;
    CountStep(q.log, Last(Do(q, a).log), x);
  }

  /** No event is lost: a requested item is taken some time after, or is still on its way. */
  lemma {:induction false} NoLostEvent(q: Queue, run: seq<Action>, x: Item)
    requires Sound(q) && Valid(q, run) && !q.down && Open(run)
    requires x in q.dirty || x in q.waiting
    ensures var q' := After(q, run);
            x in q'.dirty || x in q'.waiting || Count(q'.log, x).got > Count(q.log, x).got
    decreases |run|
  {
    if run != [] {
      hide Do;
      hide Count;
      hide Sound;
      var q' := Do(q, run[0]);
      SoundStep(q, run[0]);
      WantedStep(q, run[0], x);
      assert Open(run[1..]) by {
        forall i | 0 <= i < |run[1..]| ensures !run[1..][i].ShutDown? {
          assert run[1..][i] == run[i + 1];
        }
      }
      if x in q'.dirty || x in q'.waiting {
        NoLostEvent(q', run[1..], x);
      } else {
        GotsGrow(q', run[1..], x);
      }
    }
  }

  lemma {:induction false} GotsGrow(q: Queue, run: seq<Action>, x: Item)
    requires Valid(q, run)
    ensures Count(q.log, x).got <= Count(After(q, run).log, x).got
    decreases |run|
  {
    if run != [] {
      if !run[0].ShutDown? {
        CountStep(q.log, Last(Do(q, run[0]).log), x);
      }
      GotsGrow(Do(q, run[0]), run[1..], x);
    }
  }
}
