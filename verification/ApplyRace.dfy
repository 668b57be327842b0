/**
 Issuer and Certificate are looked up and applied in two steps, without an ownership check.
 What an apply can overwrite, and that it does happen.
 */
module ApplyRace {
  import opened Basics
  import opened Cluster
  import opened Reconciler
  import opened Safety
  import opened CaBundle

  predicate UpToIssuer(pc: Pc) { pc.Start? || pc.GetIssuer? || pc.ApplyIssuer? }

  predicate UpToCertificate(pc: Pc) { UpToIssuer(pc) || pc.GetCertificate? || pc.ApplyCertificate? }

  /** A sync has stored neither object before its own apply. */
  predicate CleanHands(id: nat, t: SyncState, issuer: Register, certificate: Register) {
    && (UpToIssuer(t.pc) ==> !WroteTo(issuer, id))
    && (UpToCertificate(t.pc) ==> !WroteTo(certificate, id))
  }

  predicate Clean(cfg: Config, w: World, id: nat)
    requires id in w.syncs
  {
    var n := w.syncs[id].name;
    CleanHands(id, w.syncs[id], Reg(w, IssuerKey(cfg, n)), Reg(w, CertificateKey(cfg, n)))
  }

  predicate AllClean(cfg: Config, w: World) {
    Homes(cfg, w) && forall id | id in w.syncs :: Clean(cfg, w, id)
  }

  lemma NoWayBackRead(cfg: Config, t: SyncState, r: Register, c: Choice)
    requires !t.pc.Done? && !Writes(t.pc)
    ensures var t' := Read(cfg, t, r, c);
            (UpToIssuer(t'.pc) ==> UpToIssuer(t.pc)) && (UpToCertificate(t'.pc) ==> UpToCertificate(t.pc))
  {
  }

  lemma NoWayBackWritten(cfg: Config, t: SyncState, reply: Reply, c: Choice)
    requires Writes(t.pc)
    ensures var t' := Written(cfg, t, reply, c);
            !UpToIssuer(t'.pc) && (UpToCertificate(t'.pc) ==> t.pc.ApplyIssuer?)
  {
  }

  /** The stages are passed in order, and an apply is left behind once it has been sent. */
  lemma NoWayBack(cfg: Config, id: nat, t: SyncState, r: Register, c: Choice)
    requires !t.pc.Done?
    ensures var t' := Step(cfg, id, t, r, c).1;
            && (UpToIssuer(t'.pc) ==> UpToIssuer(t.pc) && !t.pc.ApplyIssuer?)
            && (UpToCertificate(t'.pc) ==> UpToCertificate(t.pc) && !t.pc.ApplyCertificate?)
  {
    hide Read;
    hide Written;
    if !Writes(t.pc) {
      NoWayBackRead(cfg, t, r, c);
    } else if Request(cfg, t, c).Some? {
      NoWayBackWritten(cfg, t, Call(t, r, Request(cfg, t, c).value, c.outcome, Sync(id)).1, c);
    }
  }

  lemma CleanOwnStep(cfg: Config, w: World, a: Action)
    requires Enabled(w, a) && a.Advance? && Clean(cfg, w, a.id)
    ensures a.id in Do(cfg, w, a).syncs && Clean(cfg, Do(cfg, w, a), a.id)
  {
    var t := w.syncs[a.id];
    var r := Reg(w, Target(cfg, t));
    AdvanceIs(cfg, w, a);
    StepKeepsName(cfg, a.id, t, r, a.choice);
    StepStores(cfg, a.id, t, r, a.choice);
    NoWayBack(cfg, a.id, t, r, a.choice);
  }

  lemma CleanFrame(cfg: Config, w: World, a: Action, id: nat)
    requires Enabled(w, a) && id in w.syncs && !(a.Advance? && a.id == id) && Clean(cfg, w, id)
    ensures id in Do(cfg, w, a).syncs && Clean(cfg, Do(cfg, w, a), id)
  {
    var w', t := Do(cfg, w, a), w.syncs[id];
    var ki, kc := IssuerKey(cfg, t.name), CertificateKey(cfg, t.name);
    assert w'.syncs[id] == t;
    DoStores(cfg, w, a, ki);
    DoStores(cfg, w, a, kc);
    SameFacts(Reg(w, ki), Reg(w', ki), id, "", NewIssuer("", ""));
    SameFacts(Reg(w, kc), Reg(w', kc), id, "", NewIssuer("", ""));
  }

  lemma AllCleanStep(cfg: Config, w: World, a: Action)
    requires Enabled(w, a) && AllClean(cfg, w)
    ensures AllClean(cfg, Do(cfg, w, a))
  {
    var w' := Do(cfg, w, a);
    HomesStep(cfg, w, a);
    forall id | id in w'.syncs ensures Clean(cfg, w', id) {
      if id !in w.syncs {
        NothingBy(cfg, w, id, IssuerKey(cfg, a.name));
        NothingBy(cfg, w, id, CertificateKey(cfg, a.name));
      } else if a.Advance? && a.id == id {
        CleanOwnStep(cfg, w, a);
      } else {
        CleanFrame(cfg, w, a, id);
      }
    }
  }

  lemma {:induction false} AllCleanRun(cfg: Config, w: World, run: seq<Action>)
    requires Valid(cfg, w, run) && AllClean(cfg, w)
    ensures AllClean(cfg, After(cfg, w, run))
    decreases |run|
  {
    if run != [] {
      AllCleanStep(cfg, w, run[0]);
      AllCleanRun(cfg, Do(cfg, w, run[0]), run[1..]);
    }
  }

  predicate Applies(pc: Pc) { pc.ApplyIssuer? || pc.ApplyCertificate? }

  lemma MarkedSync(cfg: Config, w: World, id: nat)
    requires SyncsOk(cfg, w) && id in w.syncs
    ensures Marked(cfg, w, w.syncs[id])
  {
    assert SyncOk(cfg, w, w.syncs[id]);
  }

  lemma CleanSync(cfg: Config, w: World, id: nat)
    requires AllClean(cfg, w) && id in w.syncs && Applies(w.syncs[id].pc)
    ensures !WroteTo(Reg(w, Target(cfg, w.syncs[id])), id)
  {
    assert Clean(cfg, w, id);
  }

  lemma InTheWay(cfg: Config, w: World, id: nat)
    requires SyncsOk(cfg, w) && AllClean(cfg, w) && id in w.syncs && Applies(w.syncs[id].pc)
    requires Live(Reg(w, Target(cfg, w.syncs[id]))).Some?
    ensures var t := w.syncs[id];
            var hist := Reg(w, Target(cfg, t)).hist;
            0 < t.mark < |hist| && hist[t.mark - 1].obj.None? && Last(hist).writer != Sync(id)
  {
    hide SyncsOk;
    hide AllClean;
    MarkedSync(cfg, w, id);
    CleanSync(cfg, w, id);
    var r := Reg(w, Target(cfg, w.syncs[id]));
    assert r.hist[|r.hist| - 1].writer != Sync(id);
  }

  /**
   In every reachable world: an apply that meets an object meets one that somebody else,
   another sync or an outsider, stored after this sync's own Get had found nothing.
   */
  lemma ApplyClobbersOnlyInterleaved(cfg: Config, w: World, run: seq<Action>, id: nat)
    requires Initial(w) && Valid(cfg, w, run)
    requires id in After(cfg, w, run).syncs && Applies(After(cfg, w, run).syncs[id].pc)
    requires Live(Reg(After(cfg, w, run), Target(cfg, After(cfg, w, run).syncs[id]))).Some?
    ensures var t := After(cfg, w, run).syncs[id];
            var hist := Reg(After(cfg, w, run), Target(cfg, t)).hist;
            0 < t.mark < |hist| && hist[t.mark - 1].obj.None? && Last(hist).writer != Sync(id)
  {
    assert AllClean(cfg, w);
    AllCleanRun(cfg, w, run);
    SyncsOkRun(cfg, w, run);
    InTheWay(cfg, After(cfg, w, run), id);
  }

  // ----- It does happen -----

  const FINE: Choice := Choice(Fine, None, "")

  /** A sync that finds no Issuer gets ready to apply one. */
  lemma ReachesApply(cfg: Config, w: World, n: string) returns (run: seq<Action>, v: World)
    requires Initial(w) && cfg.useCertManager && cfg.namespace != ""
    requires Cached(Reg(w, InjectorKey(n))).Some? && Cached(Reg(w, InjectorKey(n))).value.InjectorObj?
    requires Live(Reg(w, IssuerKey(cfg, n))).None?
    ensures Valid(cfg, w, run) && v == After(cfg, w, run)
    ensures 0 in v.syncs && v.syncs[0].name == n && v.syncs[0].pc.ApplyIssuer?
    ensures v.syncs[0].uid == Cached(Reg(w, InjectorKey(n))).value.uid
    ensures Live(Reg(v, IssuerKey(cfg, n))).None?
  {
    var step := Advance(0, n, FINE);
    v := Extended(cfg, w, [], Begin(0, n));
    run := [] + [Begin(0, n)];
    AdvanceIs(cfg, v, step);
    v := Extended(cfg, w, run, step);
    run := run + [step];
    AdvanceIs(cfg, v, step);
    v := Extended(cfg, w, run, step);
    run := run + [step];
  }

  /**
   From every initial cluster with the injector and without its Issuer there is a run, and a
   step after it, in which a sync overwrites an Issuer that somebody else has just made.
   */
  lemma ApplyOverwrites(cfg: Config, w: World, n: string) returns (run: seq<Action>, a: Action)
    requires Initial(w) && cfg.useCertManager && cfg.namespace != ""
    requires Cached(Reg(w, InjectorKey(n))).Some? && Cached(Reg(w, InjectorKey(n))).value.InjectorObj?
    requires Live(Reg(w, IssuerKey(cfg, n))).None?
    ensures Valid(cfg, w, run) && Enabled(After(cfg, w, run), a) && a.Advance?
    ensures Live(Reg(After(cfg, w, run), IssuerKey(cfg, n))) == Some(IssuerObj([]))
    ensures Live(Reg(Do(cfg, After(cfg, w, run), a), IssuerKey(cfg, n))) ==
            Some(NewIssuer(n, Cached(Reg(w, InjectorKey(n))).value.uid)) != Some(IssuerObj([]))
  {
    var made := Outside(IssuerKey(cfg, n), Some(IssuerObj([])));
    var before, v := ReachesApply(cfg, w, n);
    var v' := Extended(cfg, w, before, made);
    run, a := before + [made], Advance(0, n, FINE);
    AdvanceIs(cfg, v', a);
  }

  /** The world one action further, and the run that leads there. */
  lemma Extended(cfg: Config, w: World, run: seq<Action>, a: Action) returns (v: World)
    requires Valid(cfg, w, run) && Enabled(After(cfg, w, run), a)
    ensures Valid(cfg, w, run + [a]) && v == After(cfg, w, run + [a]) == Do(cfg, After(cfg, w, run), a)
  {
    Extend(cfg, w, run, a);
    v := Do(cfg, After(cfg, w, run), a);
  }
}
