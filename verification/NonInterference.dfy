/**
 Injectors do not interfere: what a run does to one injector's objects, caches and syncs is
 what the run with everything else cut out does to them.
 */
module NonInterference {
  import opened Basics
  import opened Cluster
  import opened Reconciler
  import opened Safety

  // ----- Status names -----

  /** The only names a status may carry: none yet, or the injector's own handler. */
  predicate NameOk(n: string, name: string) { name == "" || name == HandlerName(n) }

  predicate VersionOk(k: Key, v: Version) {
    k.kind.Injector? && v.obj.Some? && v.obj.value.InjectorObj? ==> NameOk(k.name, v.obj.value.status.deploymentName)
  }

  predicate RegisterOk(k: Key, r: Register) {
    forall i | 0 <= i < |r.hist| :: VersionOk(k, r.hist[i])
  }

  predicate LocalOk(t: SyncState) {
    && NameOk(t.name, t.status.deploymentName)
    && NameOk(t.name, t.deploymentName)
    && (t.pc.GetDeployment? ==> t.status.deploymentName != "")
    && (Stage(t.pc) >= 4 ==> t.deploymentName == HandlerName(t.name))
  }

  predicate NamesOk(w: World) {
    && (forall k | k in w.regs :: RegisterOk(k, w.regs[k]))
    && (forall id | id in w.syncs :: LocalOk(w.syncs[id]))
  }

  /** Other parties write no foreign name into a status. */
  predicate Respects(a: Action) {
    a.Outside? ==> VersionOk(a.key, Version(a.obj, Outsider))
  }

  lemma LookupNeedsName(cfg: Config, t: SyncState, r: Register, c: Choice)
    requires !Writes(t.pc) && !t.pc.Done? && !t.pc.Start?
    ensures Read(cfg, t, r, c).pc.GetDeployment? ==> t.status.deploymentName != ""
  {
  }

  lemma LocalOkStart(cfg: Config, t: SyncState, r: Register, c: Choice)
    requires t.pc.Start? && LocalOk(t) && RegisterOk(InjectorKey(t.name), r)
    ensures LocalOk(Read(cfg, t, r, c))
  {
    assert VersionOk(InjectorKey(t.name), r.hist[r.pos]);
    assert Read(cfg, t, r, c).deploymentName == t.deploymentName;
  }

  lemma LocalOkRead(cfg: Config, t: SyncState, r: Register, c: Choice)
    requires LocalOk(t) && RegisterOk(Target(cfg, t), r)
    requires !Writes(t.pc) && !t.pc.Done?
    ensures LocalOk(Read(cfg, t, r, c))
  {
    if t.pc.Start? {
      LocalOkStart(cfg, t, r, c);
    } else {
      ReadFrame(cfg, t, r, c);
      LookupNeedsName(cfg, t, r, c);
    }
  }

  lemma LocalOkWritten(cfg: Config, t: SyncState, reply: Reply, c: Choice)
    requires LocalOk(t) && Writes(t.pc)
    ensures LocalOk(Written(cfg, t, reply, c))
  {
    WriteFrame(cfg, t, reply, c);
  }

  lemma StepKeepsNames(cfg: Config, id: nat, t: SyncState, r: Register, c: Choice)
    requires LocalOk(t) && RegisterOk(Target(cfg, t), r)
    ensures var (r', t') := Step(cfg, id, t, r, c); LocalOk(t') && RegisterOk(Target(cfg, t), r')
  {
    var (r', t') := Step(cfg, id, t, r, c);
    StepStores(cfg, id, t, r, c);
    if r' != r {
      forall i | 0 <= i < |r'.hist| ensures VersionOk(Target(cfg, t), r'.hist[i]) {
        if i < |r.hist| {
          assert r'.hist[i] == r.hist[i];
        } else if t.pc.PutStatus? {
          assert Request(cfg, t, c) == Some(StatusUpdate(t));
        }
      }
    }
    if !t.pc.Done? {
      if Writes(t.pc) {
        if Request(cfg, t, c).Some? {
          LocalOkWritten(cfg, t, Call(t, r, Request(cfg, t, c).value, c.outcome, Sync(id)).1, c);
        }
      } else {
        LocalOkRead(cfg, t, r, c);
      }
    }
  }

  lemma NamesOkStep(cfg: Config, w: World, a: Action)
    requires Enabled(w, a) && NamesOk(w) && Respects(a)
    ensures NamesOk(Do(cfg, w, a))
  {
    var w' := Do(cfg, w, a);
    match a
    case Advance(id, _, c) =>
      var t := w.syncs[id];
      StepKeepsNames(cfg, id, t, Reg(w, Target(cfg, t)), c);
    case Outside(k, o) =>
      var r, r' := Reg(w, k), Reg(w', k);
      forall i | 0 <= i < |r'.hist| ensures VersionOk(k, r'.hist[i]) {
        if i < |r.hist| {
          assert r'.hist[i] == r.hist[i] && VersionOk(k, r.hist[i]);
        }
      }
    case _ =>
  }

  /** So no sync ever puts another name into a status: "" or the handler's is an invariant of every run. */
  lemma {:induction false} StatusNamesInvariant(cfg: Config, w: World, run: seq<Action>)
    requires NamesOk(w) && Valid(cfg, w, run)
    requires forall i | 0 <= i < |run| :: Respects(run[i])
    ensures NamesOk(After(cfg, w, run))
    decreases |run|
  {
    if run != [] {
      NamesOkStep(cfg, w, run[0]);
      StatusNamesInvariant(cfg, Do(cfg, w, run[0]), run[1..]);
    }
  }

  lemma SucceedsOnHandler(w: World, id: nat)
    requires NamesOk(w) && id in w.syncs && w.syncs[id].pc == Done(Succeeded)
    ensures w.syncs[id].deploymentName == HandlerName(w.syncs[id].name)
  {
    assert LocalOk(w.syncs[id]);
  }

  /**
   A recreated injector never adopts a handler: with no foreign name in any status, while a
   Deployment made for another UID sits at the handler's name, reporting its replicas or
   not, no sync for the new UID succeeds.
   */
  lemma RecreatedNeverAdoptsHandler(cfg: Config, w: World, run: seq<Action>, n: string, id: nat)
    requires NamesOk(w) && SyncsOk(cfg, w) && Valid(cfg, w, run)
    requires forall i | 0 <= i < |run| :: Respects(run[i])
    requires id in After(cfg, w, run).syncs && After(cfg, w, run).syncs[id].name == n
    requires Live(Reg(w, HandlerKey(cfg, n))).Some?
    requires StaysForeign(run, HandlerKey(cfg, n), After(cfg, w, run).syncs[id].uid)
    requires !Observed(Reg(w, HandlerKey(cfg, n)), After(cfg, w, run).syncs[id].uid)
    ensures After(cfg, w, run).syncs[id].pc != Done(Succeeded)
  {
    StatusNamesInvariant(cfg, w, run);
    hide NamesOk;
    hide SyncsOk;
    if After(cfg, w, run).syncs[id].pc == Done(Succeeded) {
      SucceedsOnHandler(After(cfg, w, run), id);
      RecreatedNeverAdopts(cfg, w, run, n, HandlerKey(cfg, n), id);
    }
  }

  /** A sync only ever touches keys of its own injector. */
  lemma TargetBelongs(cfg: Config, t: SyncState)
    requires LocalOk(t)
    ensures Belongs(cfg, t.name, Target(cfg, t))
  {
  }

  // ----- Projection -----

  function Project(cfg: Config, w: World, n: string): World {
    World(map k | k in w.regs && Belongs(cfg, n, k) :: w.regs[k],
          map id | id in w.syncs && w.syncs[id].name == n :: w.syncs[id])
  }

  predicate Concerns(cfg: Config, n: string, a: Action) {
    match a
    case Outside(k, _) => Belongs(cfg, n, k)
    case Refresh(k, _) => Belongs(cfg, n, k)
    case Begin(_, name) => name == n
    case Advance(_, name, _) => name == n
  }

  /** The run with everything that does not concern injector n cut out. */
  function Slice(cfg: Config, n: string, run: seq<Action>): seq<Action> {
    if run == [] then []
    else (if Concerns(cfg, n, run[0]) then [run[0]] else []) + Slice(cfg, n, run[1..])
  }

  lemma ProjectRegister(cfg: Config, w: World, n: string, k: Key, r: Register)
    ensures Project(cfg, w.(regs := w.regs[k := r]), n) ==
            if Belongs(cfg, n, k) then Project(cfg, w, n).(regs := Project(cfg, w, n).regs[k := r])
            else Project(cfg, w, n)
  {
  }

  lemma ProjectSync(cfg: Config, w: World, n: string, id: nat, t: SyncState)
    requires id in w.syncs ==> w.syncs[id].name == t.name
    ensures Project(cfg, w.(syncs := w.syncs[id := t]), n) ==
            if t.name == n then Project(cfg, w, n).(syncs := Project(cfg, w, n).syncs[id := t])
            else Project(cfg, w, n)
  {
  }

  lemma ProjectReg(cfg: Config, w: World, n: string, k: Key)
    requires Belongs(cfg, n, k)
    ensures Reg(Project(cfg, w, n), k) == Reg(w, k)
  {
  }

  /** A sync step, seen from injector n: itself if it is n's, nothing otherwise. */
  lemma AdvanceProjected(cfg: Config, w: World, a: Action, n: string)
    requires Enabled(w, a) && NamesOk(w) && a.Advance?
    ensures a.name == n ==> Enabled(Project(cfg, w, n), a)
                            && Do(cfg, Project(cfg, w, n), a) == Project(cfg, Do(cfg, w, a), n)
    ensures a.name != n ==> Project(cfg, Do(cfg, w, a), n) == Project(cfg, w, n)
  {
    var t, p := w.syncs[a.id], Project(cfg, w, n);
    var k := Target(cfg, t);
    var r, r', t' := Reg(w, k), Step(cfg, a.id, t, Reg(w, k), a.choice).0, Step(cfg, a.id, t, Reg(w, k), a.choice).1;
    TargetBelongs(cfg, t);
    StepKeepsName(cfg, a.id, t, r, a.choice);
    ProjectRegister(cfg, w, n, k, r');
    ProjectSync(cfg, w.(regs := w.regs[k := r']), n, a.id, t');
    if a.name == n {
      ProjectReg(cfg, w, n, k);
      assert p.syncs[a.id] == t;
    } else if Belongs(cfg, n, k) {
      NamesDisjoint(cfg, n, t.name, k);
    }
  }

  lemma OtherProjected(cfg: Config, w: World, a: Action, n: string)
    requires Enabled(w, a) && !a.Advance?
    ensures Concerns(cfg, n, a) ==> Enabled(Project(cfg, w, n), a)
                                    && Do(cfg, Project(cfg, w, n), a) == Project(cfg, Do(cfg, w, a), n)
    ensures !Concerns(cfg, n, a) ==> Project(cfg, Do(cfg, w, a), n) == Project(cfg, w, n)
  {
    match a
    case Outside(k, o) =>
      ProjectRegister(cfg, w, n, k, Store(Reg(w, k), o, Outsider));
      if Belongs(cfg, n, k) { ProjectReg(cfg, w, n, k); }
    case Refresh(k, pos) =>
      ProjectRegister(cfg, w, n, k, Reg(w, k).(pos := pos));
      if Belongs(cfg, n, k) { ProjectReg(cfg, w, n, k); }
    case Begin(id, name) =>
      ProjectSync(cfg, w, n, id, Begun(name));
  }

  /** Non-interference, for every interleaving of any number of syncs, cache updates and outside writes. */
  lemma {:induction false} InjectorsDoNotInterfere(cfg: Config, w: World, run: seq<Action>, n: string)
    requires NamesOk(w) && Valid(cfg, w, run)
    requires forall i | 0 <= i < |run| :: Respects(run[i])
    ensures Valid(cfg, Project(cfg, w, n), Slice(cfg, n, run))
    ensures After(cfg, Project(cfg, w, n), Slice(cfg, n, run)) == Project(cfg, After(cfg, w, run), n)
    decreases |run|
  {
    if run != [] {
      var a, w', rest := run[0], Do(cfg, w, run[0]), Slice(cfg, n, run[1..]);
      NamesOkStep(cfg, w, a);
      InjectorsDoNotInterfere(cfg, w', run[1..], n);
      if a.Advance? {
        AdvanceProjected(cfg, w, a, n);
      } else {
        OtherProjected(cfg, w, a, n);
      }
      if Concerns(cfg, n, a) {
        assert Slice(cfg, n, run) == [a] + rest && ([a] + rest)[1..] == rest;
      } else {
        assert Slice(cfg, n, run) == rest;
      }
    }
  }
}
