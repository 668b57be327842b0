/**
 The shared informer factory: registration, start and shutdown under one lock, goroutines
 counted by a wait group.  Each locked section is one event; events interleave freely.
 */
module InformerFactory {
  import opened Basics

  type Type = string

  datatype Informer = Informer(id: nat, kind: Type, resync: int, transform: Option<nat>)

  /** What the options of the constructor fixed. */
  datatype Options = Options(defaultResync: int, customResync: map<Type, int>, transform: Option<nat>)

  /**
   The fields of the factory, the goroutines that run, and how often each type has been
   built and launched so far.
   */
  datatype State = State(
    informers: map<Type, Informer>, started: set<Type>, wg: nat, shuttingDown: bool,
    running: multiset<Type>, built: multiset<Type>, launched: multiset<Type>, exits: nat)

  const EMPTY: State := State(map[], {}, 0, false, multiset{}, multiset{}, multiset{}, 0)

  datatype Event =
    | Register(kind: Type)    // InformerFor
    | Start                   // StartWithContext
    | Flag                    // the locked part of Shutdown
    | Exit(kind: Type)        // an informer's goroutine ends

  function NewInformer(opts: Options, t: Type, id: nat): Informer {
    Informer(id, t, if t in opts.customResync then opts.customResync[t] else opts.defaultResync, opts.transform)
  }

  predicate Enabled(s: State, e: Event) { e.Exit? ==> e.kind in s.running && s.wg > 0 }

  /** A goroutine for every type in ts. */
  function LaunchAll(s: State, ts: set<Type>): State {
    s.(started := s.started + ts, wg := s.wg + |ts|,
       running := s.running + multiset(ts), launched := s.launched + multiset(ts))
  }

  function Next(opts: Options, s: State, e: Event): State
    requires Enabled(s, e)
  {
    match e
    case Register(t) =>
      if t in s.informers then s
      else s.(informers := s.informers[t := NewInformer(opts, t, |s.informers|)], built := s.built + multiset{t})
    case Start =>
      if s.shuttingDown then s
      else LaunchAll(s, s.informers.Keys - s.started)
    case Flag => s.(shuttingDown := true)
    case Exit(t) => s.(running := s.running - multiset{t}, wg := s.wg - 1, exits := s.exits + 1)
  }

  predicate Valid(opts: Options, s: State, run: seq<Event>)
    decreases |run|
  {
    run == [] || (Enabled(s, run[0]) && Valid(opts, Next(opts, s, run[0]), run[1..]))
  }

  function After(opts: Options, s: State, run: seq<Event>): State
    requires Valid(opts, s, run)
    decreases |run|
  {
    if run == [] then s else After(opts, Next(opts, s, run[0]), run[1..])
  }

  // ----- The invariant -----

  function One(b: bool): nat { if b then 1 else 0 }

  /** Each type is built and launched at most once, and the wait group counts what still runs. */
  ghost predicate Sound(opts: Options, s: State) {
    && s.started <= s.informers.Keys
    && (forall t :: s.built[t] == One(t in s.informers))
    && (forall t :: s.launched[t] == One(t in s.started))
    && (forall t | t in s.informers :: s.informers[t] == NewInformer(opts, t, s.informers[t].id))
    && s.running <= s.launched
    && s.wg == |s.running| && s.wg + s.exits == |s.launched|
  }

  lemma EmptyIsSound(opts: Options)
    ensures Sound(opts, EMPTY)
  {
  }

  lemma SoundLaunch(opts: Options, s: State, ts: set<Type>)
    requires Sound(opts, s) && ts <= s.informers.Keys && ts !! s.started
    ensures Sound(opts, LaunchAll(s, ts))
  {
  }

  lemma SoundStep(opts: Options, s: State, e: Event)
    requires Sound(opts, s) && Enabled(s, e)
    ensures Sound(opts, Next(opts, s, e))
  {
    if e.Start? && !s.shuttingDown {
      SoundLaunch(opts, s, s.informers.Keys - s.started);
    }
  }

  lemma LaunchFacts(s: State, ts: set<Type>)
    ensures LaunchAll(s, ts).started == s.started + ts && LaunchAll(s, ts).informers == s.informers
    ensures LaunchAll(s, {}) == s
  {
  }

  lemma LaunchOne(s: State, t: Type)
    ensures LaunchAll(s, {t}) ==
            s.(started := s.started + {t}, wg := s.wg + 1,
               running := s.running + multiset{t}, launched := s.launched + multiset{t})
  {
    assert multiset({t}) == multiset{t};
  }

  lemma ExitIs(opts: Options, s: State, t: Type)
    requires Enabled(s, Exit(t))
    ensures Next(opts, s, Exit(t)) == s.(running := s.running - multiset{t}, wg := s.wg - 1, exits := s.exits + 1)
  {
  }

  lemma LaunchOneMore(s: State, ts: set<Type>, t: Type)
    requires t !in ts
    ensures LaunchAll(s, ts + {t}) == LaunchAll(LaunchAll(s, ts), {t})
  {
    assert multiset(ts + {t}) == multiset(ts) + multiset({t});
  }

  lemma {:induction false} SoundRun(opts: Options, s: State, run: seq<Event>)
    requires Sound(opts, s) && Valid(opts, s, run)
    ensures Sound(opts, After(opts, s, run))
    decreases |run|
  {
    if run != [] {
      SoundStep(opts, s, run[0]);
      SoundRun(opts, Next(opts, s, run[0]), run[1..]);
    }
  }

  /** From the empty factory, whatever the interleaving. */
  lemma FactoryIsSound(opts: Options, run: seq<Event>)
    requires Valid(opts, EMPTY, run)
    ensures Sound(opts, After(opts, EMPTY, run))
  {
    EmptyIsSound(opts);
    SoundRun(opts, EMPTY, run);
  }

  /** A type keeps the informer it got first. */
  lemma {:induction false} SameInformerForever(opts: Options, s: State, run: seq<Event>, t: Type)
    requires Valid(opts, s, run) && t in s.informers
    ensures t in After(opts, s, run).informers && After(opts, s, run).informers[t] == s.informers[t]
    decreases |run|
  {
    if run != [] {
      SameInformerForever(opts, Next(opts, s, run[0]), run[1..], t);
    }
  }

  /** What the options say of a type's informer: its own resync period or the default one, and the transform. */
  predicate Optioned(opts: Options, t: Type, i: Informer) {
    && i.kind == t && i.transform == opts.transform
    && (t in opts.customResync ==> i.resync == opts.customResync[t])
    && (t !in opts.customResync ==> i.resync == opts.defaultResync)
  }

  /** Once asked for, a type has an informer for good, built once and as the options say. */
  lemma RegisteredForGood(opts: Options, before: seq<Event>, t: Type, later: seq<Event>)
    requires Valid(opts, EMPTY, before)
    requires Valid(opts, Next(opts, After(opts, EMPTY, before), Register(t)), later)
    ensures var s := After(opts, Next(opts, After(opts, EMPTY, before), Register(t)), later);
            t in s.informers && s.built[t] == 1 && Optioned(opts, t, s.informers[t])
  {
    var s := After(opts, EMPTY, before);
    FactoryIsSound(opts, before);
    SoundStep(opts, s, Register(t));
    SoundRun(opts, Next(opts, s, Register(t)), later);
    SameInformerForever(opts, Next(opts, s, Register(t)), later, t);
  }

  lemma {:induction false} StartedForever(opts: Options, s: State, run: seq<Event>, t: Type)
    requires Valid(opts, s, run) && t in s.started
    ensures t in After(opts, s, run).started
    decreases |run|
  {
    if run != [] {
      StartedForever(opts, Next(opts, s, run[0]), run[1..], t);
    }
  }

  /**
   A Start before the shutdown flag gives every registered type that had none a running
   goroutine, and no type a second one; whatever happens later each has been launched once.
   */
  lemma StartLaunchesAll(opts: Options, before: seq<Event>, t: Type, later: seq<Event>)
    requires Valid(opts, EMPTY, before)
    requires t in After(opts, EMPTY, before).informers && !After(opts, EMPTY, before).shuttingDown
    requires Valid(opts, Next(opts, After(opts, EMPTY, before), Start), later)
    ensures var s, s' := After(opts, EMPTY, before), Next(opts, After(opts, EMPTY, before), Start);
            && t in s'.started && s'.launched[t] == 1
            && s'.running[t] == (if t in s.started then s.running[t] else 1)
            && t in After(opts, s', later).started && After(opts, s', later).launched[t] == 1
  {
    var s := After(opts, EMPTY, before);
    FactoryIsSound(opts, before);
    SoundStep(opts, s, Start);
    SoundRun(opts, Next(opts, s, Start), later);
    StartedForever(opts, Next(opts, s, Start), later, t);
  }

  /** The same for one Start, of every type. */
  lemma StartIs(opts: Options, s: State)
    requires Sound(opts, s)
    ensures var s' := Next(opts, s, Start);
            && Sound(opts, s') && s'.informers == s.informers && s'.shuttingDown == s.shuttingDown
            && (s.shuttingDown ==> s' == s)
            && (!s.shuttingDown ==>
                  && s'.started == s.informers.Keys
                  && forall t | t in s.informers :: s'.launched[t] == 1 && (t !in s.started ==> s'.running[t] == 1))
  {
    SoundStep(opts, s, Start);
  }

  /** Nothing but a Start before the flag launches anything, and only an informer's end stops one. */
  lemma OnlyStartLaunches(opts: Options, s: State, e: Event, t: Type)
    requires Sound(opts, s) && Enabled(s, e)
    ensures Next(opts, s, e).launched[t] != s.launched[t] ==>
              e.Start? && !s.shuttingDown && t in s.informers && t !in s.started
    ensures Next(opts, s, e).running[t] < s.running[t] <==> e == Exit(t)
  {
  }

  predicate Quieter(s: State, s': State) {
    s.shuttingDown ==> s'.shuttingDown && s'.launched == s.launched && s'.wg <= s.wg && s'.running <= s.running
  }

  lemma StepIsQuieter(opts: Options, s: State, e: Event)
    requires Enabled(s, e)
    ensures Quieter(s, Next(opts, s, e))
  {
  }

  /** Once shutdown is flagged nothing is launched and the wait group never rises. */
  lemma {:induction false} NoLaunchAfterFlag(opts: Options, s: State, run: seq<Event>)
    requires Valid(opts, s, run) && s.shuttingDown
    ensures var s' := After(opts, s, run);
            s'.shuttingDown && s'.launched == s.launched && s'.wg <= s.wg && s'.running <= s.running
    decreases |run|
  {
    if run != [] {
      StepIsQuieter(opts, s, run[0]);
      NoLaunchAfterFlag(opts, Next(opts, s, run[0]), run[1..]);
    }
  }

  /**
   Shutdown returns when the flag is up and the wait group is down: then nothing runs, and
   nothing ever will, whoever registers or starts informers afterwards.
   */
  lemma NothingRunsAfterShutdown(opts: Options, before: seq<Event>, later: seq<Event>)
    requires Valid(opts, EMPTY, before)
    requires After(opts, EMPTY, before).shuttingDown && After(opts, EMPTY, before).wg == 0
    requires Valid(opts, After(opts, EMPTY, before), later)
    ensures After(opts, EMPTY, before).running == multiset{}
    ensures After(opts, After(opts, EMPTY, before), later).running == multiset{}
  {
    FactoryIsSound(opts, before);
    NoLaunchAfterFlag(opts, After(opts, EMPTY, before), later);
  }

  // ----- The factory -----

  /** What happens while a caller waits: events of the factory, caches that have synced, the end of the context. */
  datatype Tick = Tick(events: seq<Event>, synced: set<Type>, cancel: bool)

  datatype SyncResult = SyncResult(synced: map<Type, bool>, err: bool)

  ghost predicate SomeFalse(m: map<Type, bool>) { exists t :: t in m && !m[t] }

  /** What had synced before the call is reported, and what is reported has synced. */
  predicate Reports(m: map<Type, bool>, before: set<Type>, now: set<Type>) {
    forall t | t in m :: (t in before ==> m[t]) && (m[t] ==> t in now)
  }

  lemma EmptyResult(before: set<Type>, now: set<Type>)
    ensures !SomeFalse(map[]) && Reports(map[], before, now)
  {
  }

  lemma OneMoreResult(m: map<Type, bool>, t: Type, b: bool, before: set<Type>, was: set<Type>, now: set<Type>)
    requires t !in m && Reports(m, before, was) && was <= now && before <= was && (b <==> t in now)
    ensures SomeFalse(m[t := b]) <==> SomeFalse(m) || !b
    ensures Reports(m[t := b], before, now)
  {
    var m' := m[t := b];
    assert m'[t] == b;
    assert forall u | u in m :: u in m' && m'[u] == m[u];
    if SomeFalse(m') {
      var u :| u in m' && !m'[u];
      assert u == t || (u in m && !m[u]);
    }
  }

  /** The types the map says are started. */
  function Marked(m: map<Type, bool>): set<Type> { set t | t in m && m[t] }

  lemma MarkedMore(m: map<Type, bool>, t: Type)
    ensures Marked(m[t := true]) == Marked(m) + {t}
  {
  }

  class SharedInformerFactory {
    const opts: Options
    var informers: map<Type, Informer>
    var startedInformers: map<Type, bool>
    var wg: nat
    var shuttingDown: bool
    var running: multiset<Type>
    var synced: set<Type>
    var cancelled: bool
    var script: seq<Tick>
    ghost var built: multiset<Type>
    ghost var launched: multiset<Type>
    ghost var exits: nat

    constructor (opts: Options, script: seq<Tick>)
      ensures Valid() && Now() == EMPTY && this.opts == opts
    {
      this.opts, this.script := opts, script;
      informers, startedInformers, wg, shuttingDown := map[], map[], 0, false;
      running, synced, cancelled := multiset{}, {}, false;
      built, launched, exits := multiset{}, multiset{}, 0;
    }

    function Started(): set<Type>
      reads `startedInformers
    {
      Marked(startedInformers)
    }

    ghost function Now(): State
      reads this
    {
      State(informers, Started(), wg, shuttingDown, running, built, launched, exits)
    }

    ghost predicate Valid()
      reads this
    {
      Sound(opts, Now())
    }

    /** NewInformerFunc is called, and the transform set, only for a type seen for the first time. */
    method InformerFor(t: Type) returns (informer: Informer)
      requires Valid()
      modifies `informers, `built
      ensures Valid() && Now() == Next(opts, old(Now()), Register(t))
      ensures t in informers && informer == informers[t] && Optioned(opts, t, informer)
      ensures informers == if t in old(informers) then old(informers) else old(informers)[t := informer]
    {
      SoundStep(opts, Now(), Register(t));
      if t in informers {
        return informers[t];
      }
      var resyncPeriod := opts.defaultResync;
      if t in opts.customResync {
        resyncPeriod := opts.customResync[t];
      }
      informer := Informer(|informers|, t, resyncPeriod, None);
      if opts.transform != None {
        informer := informer.(transform := opts.transform);
      }
      informers := informers[t := informer];
      built := built + multiset{t};
    }

    /** wg.Go and the mark in startedInformers. */
    method Go(t: Type)
      requires !(t in startedInformers && startedInformers[t])
      modifies `startedInformers, `wg, `running, `launched
      ensures Now() == LaunchAll(old(Now()), {t})
    {
      wg, running, launched := wg + 1, running + multiset{t}, launched + multiset{t};
      startedInformers := startedInformers[t := true];
      MarkedMore(old(startedInformers), t);
      hide Marked;
      LaunchOne(old(Now()), t);
      hide LaunchAll;
    }

    /** The loop over the registered informers, in whatever order the map yields them. */
    method LaunchIdle()
      modifies `startedInformers, `wg, `running, `launched
      ensures Now() == LaunchAll(old(Now()), informers.Keys - old(Started()))
    {
      hide LaunchAll;
      ghost var before := Now();
      ghost var idle: set<Type> := {};
      var rest := informers.Keys;
      LaunchFacts(before, {});
      while rest != {}
        invariant rest <= informers.Keys && idle == informers.Keys - rest - before.started
        invariant Now() == LaunchAll(before, idle)
        decreases rest
      {
        var t :| t in rest;
        LaunchFacts(before, idle);
        if !(t in startedInformers && startedInformers[t]) {
          assert t !in Started();
          LaunchOneMore(before, idle, t);
          Go(t);
          idle := idle + {t};
        } else {
          assert t in Started();
        }
        rest := rest - {t};
      }
      assert idle == informers.Keys - old(Started());
    }

    /** Nothing after the shutdown flag; otherwise a goroutine for every informer that has none. */
    method StartWithContext()
      requires Valid()
      modifies `startedInformers, `wg, `running, `launched
      ensures Valid() && Now() == Next(opts, old(Now()), Start)
      ensures !shuttingDown ==> Started() == informers.Keys && forall t | t in informers :: launched[t] == 1
      ensures !shuttingDown ==> forall t | t in informers && t !in old(Started()) :: running[t] == 1
      ensures shuttingDown ==> Started() == old(Started()) && running == old(running) && wg == old(wg)
    {
      StartIs(opts, Now());
      hide Sound;
      if shuttingDown {
        return;
      }
      LaunchIdle();
      assert Now() == Next(opts, old(Now()), Start);
    }

    /** The locked part of Shutdown. */
    method RaiseFlag()
      requires Valid()
      modifies `shuttingDown
      ensures Valid() && Now() == Next(opts, old(Now()), Flag)
    {
      SoundStep(opts, Now(), Flag);
      hide Sound;
      shuttingDown := true;
    }

    /** RunWithContext returns in one of the goroutines. */
    method EndRun(t: Type)
      requires Valid() && t in running && wg > 0
      modifies `wg, `running, `exits
      ensures Valid() && Now() == Next(opts, old(Now()), Exit(t))
    {
      hide Sound;
      SoundStep(opts, Now(), Exit(t));
      ExitIs(opts, Now(), t);
      hide Next;
      running, wg, exits := running - multiset{t}, wg - 1, exits + 1;
      assert Started() == old(Started());
    }

    /** One locked section of another goroutine, or the end of an informer's. */
    method Perform(e: Event)
      requires Valid() && Enabled(Now(), e)
      modifies `informers, `startedInformers, `wg, `shuttingDown, `running, `built, `launched, `exits
      ensures Valid() && Now() == Next(opts, old(Now()), e)
    {
      hide Sound;
      hide Next;
      match e {
        case Register(t) =>
          var informer := InformerFor(t);
        case Start => StartWithContext();
        case Flag => RaiseFlag();
        case Exit(t) => EndRun(t);
      }
    }

    /** While a caller waits, others act, caches sync and the context may end. */
    method Interfere()
      requires Valid() && script != []
      modifies this
      ensures Valid() && |script| < |old(script)|
      ensures old(synced) <= synced && (old(cancelled) ==> cancelled)
      ensures Quieter(old(Now()), Now())
    {
      hide Next;
      hide Sound;
      var tick := script[0];
      script := script[1..];
      synced, cancelled := synced + tick.synced, cancelled || tick.cancel;
      var i := 0;
      while i < |tick.events|
        invariant Valid() && |script| < |old(script)| && old(synced) <= synced && (old(cancelled) ==> cancelled)
        invariant Quieter(old(Now()), Now())
      {
        var e := tick.events[i];
        if !e.Exit? || (e.kind in running && wg > 0) {
          StepIsQuieter(opts, Now(), e);
          Perform(e);
        }
        i := i + 1;
      }
    }

    /**
     Shutdown returns only with the wait group at zero; then no informer runs and, by
     NothingRunsAfterShutdown, none ever will.  It stays blocked when goroutines outlast the script.
     */
    method Shutdown() returns (returned: bool)
      requires Valid()
      modifies this
      ensures Valid() && shuttingDown
      ensures returned ==> wg == 0 && running == multiset{}
      ensures !returned ==> wg > 0
      ensures old(shuttingDown) ==> launched == old(launched)
    {
      RaiseFlag();
      while wg != 0 && script != []
        invariant Valid() && shuttingDown && (old(shuttingDown) ==> launched == old(launched))
        decreases |script|
      {
        Interfere();
      }
      returned := wg == 0;
    }

    /** The locked copy of the started informers. */
    method StartedSnapshot() returns (informersCopy: map<Type, Informer>)
      requires Valid()
      ensures informersCopy.Keys == Started()
      ensures forall t | t in informersCopy :: t in informers && informersCopy[t] == informers[t]
    {
      informersCopy := map[];
      var rest := informers.Keys;
      while rest != {}
        invariant rest <= informers.Keys
        invariant informersCopy.Keys == Started() - rest
        invariant forall t | t in informersCopy :: t in informers && informersCopy[t] == informers[t]
        decreases rest
      {
        var t :| t in rest;
        if t in startedInformers && startedInformers[t] {
          informersCopy := informersCopy[t := informers[t]];
        }
        rest := rest - {t};
      }
    }

    /**
     cache.WaitFor: until everything waited for has synced or the context is done; the script
     ends with the context.
     */
    method WaitFor(types: set<Type>)
      requires Valid()
      modifies this
      ensures Valid() && old(synced) <= synced
      ensures types <= synced || cancelled
    {
      hide Sound;
      hide Quieter;
      while !(types <= synced) && !cancelled
        invariant Valid() && old(synced) <= synced
        decreases |script|, !cancelled
      {
        if script == [] {
          cancelled := true;
        } else {
          Interfere();
        }
      }
    }

    /** The loop over the snapshot; others go on between two calls of HasSynced. */
    method CheckSynced(types: set<Type>) returns (result: map<Type, bool>, failed: bool)
      requires Valid() && (types <= synced || cancelled)
      modifies this
      ensures Valid() && result.Keys == types && Reports(result, old(synced), synced)
      ensures failed <==> SomeFalse(result)
      ensures failed ==> cancelled
    {
      hide Sound;
      hide SomeFalse;
      hide Reports;
      result, failed := map[], false;
      EmptyResult(synced, synced);
      var rest := types;
      while rest != {}
        invariant Valid() && old(synced) <= synced && (types <= synced || cancelled)
        invariant rest <= types && result.Keys == types - rest && Reports(result, old(synced), synced)
        invariant failed <==> SomeFalse(result)
        invariant failed ==> cancelled
        decreases rest
      {
        ghost var was := synced;
        if script != [] {
          Interfere();
        }
        var t :| t in rest;
        var hasSynced := t in synced;
        if !hasSynced {
          failed := true;
        }
        OneMoreResult(result, t, hasSynced, old(synced), was, synced);
        result := result[t := hasSynced];
        rest := rest - {t};
      }
    }

    /**
     The result covers exactly the types started when the lock was held, whatever is
     registered or started afterwards.  It carries an error if and only if some entry is
     false, and then the context was done.
     */
    method WaitForCacheSyncWithContext() returns (res: SyncResult)
      requires Valid()
      modifies this
      ensures Valid()
      ensures res.synced.Keys == old(Started())
      ensures res.err <==> SomeFalse(res.synced)
      ensures res.err ==> cancelled
      ensures Reports(res.synced, old(synced), synced)
    {
      hide Sound;
      var informersCopy := StartedSnapshot();
      WaitFor(informersCopy.Keys);
      var result, failed := CheckSynced(informersCopy.Keys);
      res := SyncResult(result, false);
      if failed {
        res := res.(err := cancelled);
      }
    }
  }
}
