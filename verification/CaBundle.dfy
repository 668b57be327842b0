/** Certificates in self-signed mode: a webhook trusts what its injector's Secret holds, or nothing. */
module CaBundle {
  import opened Basics
  import opened Cluster
  import opened Reconciler
  import opened Safety

  /** Every Secret version this sync stored carries its certificate. */
  predicate SecretsCarry(r: Register, id: nat, cert: string) {
    forall i | 0 <= i < |r.hist| && r.hist[i].writer == Sync(id) ::
      r.hist[i].obj.Some? && r.hist[i].obj.value.SecretObj? && r.hist[i].obj.value.tlsCrt == cert
  }

  /** Every webhook version this sync stored is exactly o. */
  predicate WebhooksAre(r: Register, id: nat, o: Obj) {
    forall i | 0 <= i < |r.hist| && r.hist[i].writer == Sync(id) :: r.hist[i].obj == Some(o)
  }

  /** serverCertificate is that of the Secret this sync stored, and nil if it stored none. */
  predicate Match(secret: Register, id: nat, cert: string) {
    SecretsCarry(secret, id, cert) && (cert != "" ==> WroteTo(secret, id))
  }

  predicate BeforeWebhook(pc: Pc) {
    pc.Start? || pc.GetIssuer? || pc.ApplyIssuer? || pc.GetCertificate? || pc.ApplyCertificate?
    || pc.GetSecret? || pc.CreateSecret?
  }

  predicate AtWebhook(pc: Pc) { pc.GetWebhook? || pc.CreateWebhook? }

  /** What a sync's certificate has to do with the two registers it may write. */
  predicate CaOk(cfg: Config, id: nat, t: SyncState, secret: Register, webhook: Register) {
    if BeforeWebhook(t.pc) then t.cert == "" && !WroteTo(secret, id) && !WroteTo(webhook, id)
    else if AtWebhook(t.pc) then Match(secret, id, t.cert) && !WroteTo(webhook, id)
    else
      && WebhooksAre(webhook, id, NewWebhook(cfg, t.name, t.uid, t.cert))
      && ((t.pc.Done? && !WroteTo(webhook, id)) || Match(secret, id, t.cert))
  }

  /** Storing a version by somebody else changes none of this. */
  lemma OthersDontMatter(r: Register, v: Version, id: nat, cert: string, o: Obj)
    requires v.writer != Sync(id)
    ensures var r' := r.(hist := r.hist + [v]);
            && (WroteTo(r', id) <==> WroteTo(r, id))
            && (SecretsCarry(r', id, cert) <==> SecretsCarry(r, id, cert))
            && (WebhooksAre(r', id, o) <==> WebhooksAre(r, id, o))
  {
    var r' := r.(hist := r.hist + [v]);
    assert forall i | 0 <= i < |r.hist| :: r'.hist[i] == r.hist[i];
  }

  lemma OwnSecret(r: Register, o: Obj, id: nat)
    requires !WroteTo(r, id) && o.SecretObj?
    ensures Match(Store(r, Some(o), Sync(id)), id, o.tlsCrt)
  {
    var r' := Store(r, Some(o), Sync(id));
    assert r'.hist[|r.hist|].writer == Sync(id);
    assert forall i | 0 <= i < |r.hist| :: r'.hist[i] == r.hist[i];
  }

  lemma OwnWebhook(r: Register, o: Obj, id: nat)
    requires !WroteTo(r, id)
    ensures WebhooksAre(Store(r, Some(o), Sync(id)), id, o)
  {
    var r' := Store(r, Some(o), Sync(id));
    assert forall i | 0 <= i < |r.hist| :: r'.hist[i] == r.hist[i];
  }

  /** The stages are passed in order, and reading brings no certificate. */
  lemma ReadKeepsCert(cfg: Config, t: SyncState, r: Register, c: Choice)
    requires !Writes(t.pc) && !t.pc.Done?
    ensures var t' := Read(cfg, t, r, c);
            && t'.cert == t.cert && t'.name == t.name && (!t.pc.Start? ==> t'.uid == t.uid)
            && (BeforeWebhook(t.pc) ==> BeforeWebhook(t'.pc) || AtWebhook(t'.pc) || t'.pc.Done?)
            && (AtWebhook(t.pc) ==> !BeforeWebhook(t'.pc))
            && (!BeforeWebhook(t.pc) && !AtWebhook(t.pc) ==> !BeforeWebhook(t'.pc) && !AtWebhook(t'.pc))
            && (t'.pc.Done? && !BeforeWebhook(t.pc) && !AtWebhook(t.pc) ==> !t.pc.Done?)
  {
  }

  /** A sync that has stored no webhook has stored none of another shape either. */
  lemma NoneYet(r: Register, id: nat, o: Obj)
    requires !WroteTo(r, id)
    ensures WebhooksAre(r, id, o)
  {
  }

  lemma NoSecretYet(r: Register, id: nat)
    requires !WroteTo(r, id)
    ensures Match(r, id, "")
  {
  }

  lemma CaRead(cfg: Config, id: nat, t: SyncState, r: Register, c: Choice, secret: Register, webhook: Register)
    requires !Writes(t.pc) && !t.pc.Done? && CaOk(cfg, id, t, secret, webhook)
    ensures CaOk(cfg, id, Read(cfg, t, r, c), secret, webhook)
  {
    var t' := Read(cfg, t, r, c);
    ReadKeepsCert(cfg, t, r, c);
    hide Read;
    hide WebhooksAre;
    hide Match;
    hide NewWebhook;
    if !WroteTo(webhook, id) {
      NoneYet(webhook, id, NewWebhook(cfg, t'.name, t'.uid, t'.cert));
    }
    if !WroteTo(secret, id) {
      NoSecretYet(secret, id);
    }
  }

  /** Creating the Secret stores it and takes its certificate, or stores it and fails, or does nothing and fails. */
  lemma SecretStep(cfg: Config, id: nat, t: SyncState, r: Register, c: Choice)
    requires t.pc.CreateSecret?
    ensures var (r', t') := Step(cfg, id, t, r, c);
            && t'.name == t.name && t'.uid == t.uid
            && (t'.pc.Done? || (t'.pc.GetWebhook? && r' != r))
            && (r' != r ==>
                  && c.certs.Some?
                  && r' == Store(r, Some(NewSecret(t.name, t.uid, c.certs.value.0, c.certs.value.1)), Sync(id)))
            && (t'.pc.GetWebhook? ==> c.certs.Some? && t'.cert == c.certs.value.1)
  {
  }

  lemma CaCreateSecret(cfg: Config, id: nat, t: SyncState, c: Choice, secret: Register, webhook: Register)
    requires t.pc.CreateSecret? && CaOk(cfg, id, t, secret, webhook)
    ensures var (r', t') := Step(cfg, id, t, secret, c); CaOk(cfg, id, t', r', webhook)
  {
    var (r', t') := Step(cfg, id, t, secret, c);
    SecretStep(cfg, id, t, secret, c);
    hide Step;
    hide NewWebhook;
    if c.certs.Some? {
      OwnSecret(secret, NewSecret(t.name, t.uid, c.certs.value.0, c.certs.value.1), id);
    }
    NoneYet(webhook, id, NewWebhook(cfg, t'.name, t'.uid, t'.cert));
    hide Match;
    hide WebhooksAre;
  }

  /** Creating the webhook stores it or not, and leaves the certificate alone. */
  lemma WebhookStep(cfg: Config, id: nat, t: SyncState, r: Register, c: Choice)
    requires t.pc.CreateWebhook?
    ensures var (r', t') := Step(cfg, id, t, r, c);
            && t'.name == t.name && t'.uid == t.uid && t'.cert == t.cert
            && !BeforeWebhook(t'.pc) && !AtWebhook(t'.pc)
            && (r' == r || r' == Store(r, Some(NewWebhook(cfg, t.name, t.uid, t.cert)), Sync(id)))
  {
  }

  lemma CaCreateWebhook(cfg: Config, id: nat, t: SyncState, c: Choice, secret: Register, webhook: Register)
    requires t.pc.CreateWebhook? && CaOk(cfg, id, t, secret, webhook)
    ensures var (r', t') := Step(cfg, id, t, webhook, c); CaOk(cfg, id, t', secret, r')
  {
    WebhookStep(cfg, id, t, webhook, c);
    OwnWebhook(webhook, NewWebhook(cfg, t.name, t.uid, t.cert), id);
    NoneYet(webhook, id, NewWebhook(cfg, t.name, t.uid, t.cert));
    hide Step;
    hide NewWebhook;
    hide Match;
    hide WebhooksAre;
  }

  lemma WrittenKeepsCert(cfg: Config, t: SyncState, reply: Reply, c: Choice)
    requires Writes(t.pc) && !t.pc.CreateSecret? && !t.pc.CreateWebhook?
    ensures var t' := Written(cfg, t, reply, c);
            && t'.cert == t.cert && t'.name == t.name && t'.uid == t.uid
            && (BeforeWebhook(t.pc) ==> BeforeWebhook(t'.pc) || AtWebhook(t'.pc) || t'.pc.Done?)
            && (!BeforeWebhook(t.pc) ==> !AtWebhook(t.pc) && !BeforeWebhook(t'.pc) && !AtWebhook(t'.pc))
  {
  }

  lemma CaOtherWrite(cfg: Config, id: nat, t: SyncState, reply: Reply, c: Choice, secret: Register, webhook: Register)
    requires Writes(t.pc) && !t.pc.CreateSecret? && !t.pc.CreateWebhook? && CaOk(cfg, id, t, secret, webhook)
    ensures CaOk(cfg, id, Written(cfg, t, reply, c), secret, webhook)
  {
    var t' := Written(cfg, t, reply, c);
    WrittenKeepsCert(cfg, t, reply, c);
    hide Written;
    hide WebhooksAre;
    hide Match;
    hide NewWebhook;
    if !WroteTo(webhook, id) {
      NoneYet(webhook, id, NewWebhook(cfg, t'.name, t'.uid, t'.cert));
    }
    if !WroteTo(secret, id) {
      NoSecretYet(secret, id);
    }
  }

  // ----- Over whole runs -----

  /** A Secret or webhook version stored by a sync sits under the key of that sync's injector. */
  predicate AtHome(cfg: Config, w: World, k: Key, writer: Writer) {
    writer.Sync? ==>
      && writer.id in w.syncs
      && (k.kind.Secret? ==> k == SecretKey(cfg, w.syncs[writer.id].name))
      && (k.kind.Webhook? ==> k == WebhookKey(w.syncs[writer.id].name))
  }

  predicate Homes(cfg: Config, w: World) {
    forall k, i | k in w.regs && 0 <= i < |w.regs[k].hist| :: AtHome(cfg, w, k, w.regs[k].hist[i].writer)
  }

  predicate SyncCaOk(cfg: Config, w: World, id: nat)
    requires id in w.syncs
  {
    CaOk(cfg, id, w.syncs[id], Reg(w, SecretKey(cfg, w.syncs[id].name)), Reg(w, WebhookKey(w.syncs[id].name)))
  }

  predicate CaInvariant(cfg: Config, w: World) {
    Homes(cfg, w) && forall id | id in w.syncs :: SyncCaOk(cfg, w, id)
  }

  /** Every action adds at most one version to a key, written by an outsider or by the sync that steps. */
  lemma DoStores(cfg: Config, w: World, a: Action, k: Key)
    requires Enabled(w, a)
    ensures var r, r' := Reg(w, k), Reg(Do(cfg, w, a), k);
            r'.hist == r.hist
            || (a.Outside? && a.key == k && r'.hist == r.hist + [Version(a.obj, Outsider)])
            || (a.Advance? && Target(cfg, w.syncs[a.id]) == k && |r'.hist| == |r.hist| + 1
                && r'.hist == r.hist + [Version(Live(r'), Sync(a.id))])
  {
    if a.Advance? {
      AdvanceIs(cfg, w, a);
      StepStores(cfg, a.id, w.syncs[a.id], Reg(w, Target(cfg, w.syncs[a.id])), a.choice);
    }
  }

  lemma HomesStep(cfg: Config, w: World, a: Action)
    requires Enabled(w, a) && Homes(cfg, w)
    ensures Homes(cfg, Do(cfg, w, a))
  {
    var w' := Do(cfg, w, a);
    if a.Advance? {
      AdvanceIs(cfg, w, a);
      StepKeepsName(cfg, a.id, w.syncs[a.id], Reg(w, Target(cfg, w.syncs[a.id])), a.choice);
    }
    forall k, i | k in w'.regs && 0 <= i < |w'.regs[k].hist|
      ensures AtHome(cfg, w', k, w'.regs[k].hist[i].writer)
    {
      DoStores(cfg, w, a, k);
      var r, r' := Reg(w, k), Reg(w', k);
      if i < |r.hist| {
        assert r'.hist[i] == r.hist[i];
        assert AtHome(cfg, w, k, r.hist[i].writer);
      }
    }
  }

  /** A step of another sync, or of somebody else, leaves a sync's certificate facts alone. */
  lemma CaFrame(cfg: Config, w: World, a: Action, id: nat)
    requires Enabled(w, a) && id in w.syncs && !(a.Advance? && a.id == id) && SyncCaOk(cfg, w, id)
    ensures id in Do(cfg, w, a).syncs && SyncCaOk(cfg, Do(cfg, w, a), id)
  {
    var w', t := Do(cfg, w, a), w.syncs[id];
    var ks, kw := SecretKey(cfg, t.name), WebhookKey(t.name);
    assert w'.syncs[id] == t;
    DoStores(cfg, w, a, ks);
    DoStores(cfg, w, a, kw);
    SameFacts(Reg(w, ks), Reg(w', ks), id, t.cert, NewWebhook(cfg, t.name, t.uid, t.cert));
    SameFacts(Reg(w, kw), Reg(w', kw), id, t.cert, NewWebhook(cfg, t.name, t.uid, t.cert));
  }

  lemma SameFacts(r: Register, r': Register, id: nat, cert: string, o: Obj)
    requires r'.hist == r.hist || (r'.hist == r.hist + [Last(r'.hist)] && Last(r'.hist).writer != Sync(id))
    ensures WroteTo(r', id) <==> WroteTo(r, id)
    ensures SecretsCarry(r', id, cert) <==> SecretsCarry(r, id, cert)
    ensures WebhooksAre(r', id, o) <==> WebhooksAre(r, id, o)
  {
    if r'.hist != r.hist {
      OthersDontMatter(r, Last(r'.hist), id, cert, o);
    }
  }

  /** One step of the sync, on the two registers it may write in this matter. */
  lemma CaSync(cfg: Config, id: nat, t: SyncState, r: Register, c: Choice, secret: Register, webhook: Register)
    requires !t.pc.Done? && !t.pc.CreateSecret? && !t.pc.CreateWebhook? && CaOk(cfg, id, t, secret, webhook)
    ensures CaOk(cfg, id, Step(cfg, id, t, r, c).1, secret, webhook)
  {
    StepIs(cfg, id, t, r, c);
    hide CaOk;
    hide Read;
    hide Written;
    hide Step;
    hide Call;
    if !Writes(t.pc) {
      CaRead(cfg, id, t, r, c, secret, webhook);
    } else {
      CaOtherWrite(cfg, id, t, Call(t, r, Request(cfg, t, c).value, c.outcome, Sync(id)).1, c, secret, webhook);
    }
  }

  lemma CaOwnStep(cfg: Config, w: World, a: Action)
    requires Enabled(w, a) && a.Advance? && SyncCaOk(cfg, w, a.id)
    ensures a.id in Do(cfg, w, a).syncs && SyncCaOk(cfg, Do(cfg, w, a), a.id)
  {
    var t, c := w.syncs[a.id], a.choice;
    var r, ks, kw := Reg(w, Target(cfg, t)), SecretKey(cfg, t.name), WebhookKey(t.name);
    AdvanceIs(cfg, w, a);
    StepKeepsName(cfg, a.id, t, r, c);
    StepStores(cfg, a.id, t, r, c);
    hide CaOk;
    hide Step;
    hide Do;
    if t.pc.CreateSecret? {
      CaCreateSecret(cfg, a.id, t, c, Reg(w, ks), Reg(w, kw));
    } else if t.pc.CreateWebhook? {
      CaCreateWebhook(cfg, a.id, t, c, Reg(w, ks), Reg(w, kw));
    } else {
      CaSync(cfg, a.id, t, r, c, Reg(w, ks), Reg(w, kw));
      assert Reg(Do(cfg, w, a), ks) == Reg(w, ks) && Reg(Do(cfg, w, a), kw) == Reg(w, kw);
    }
  }

  lemma NothingBy(cfg: Config, w: World, id: nat, k: Key)
    requires Homes(cfg, w) && id !in w.syncs
    ensures !WroteTo(Reg(w, k), id)
  {
    if i :| 0 <= i < |Reg(w, k).hist| && Reg(w, k).hist[i].writer == Sync(id) {
      assert k in w.regs && AtHome(cfg, w, k, w.regs[k].hist[i].writer);
    }
  }

  lemma CaStep(cfg: Config, w: World, a: Action)
    requires Enabled(w, a) && CaInvariant(cfg, w)
    ensures CaInvariant(cfg, Do(cfg, w, a))
  {
    var w' := Do(cfg, w, a);
    HomesStep(cfg, w, a);
    forall id | id in w'.syncs ensures SyncCaOk(cfg, w', id) {
      if id !in w.syncs {
        NothingBy(cfg, w, id, SecretKey(cfg, a.name));
        NothingBy(cfg, w, id, WebhookKey(a.name));
      } else if a.Advance? && a.id == id {
        CaOwnStep(cfg, w, a);
      } else {
        CaFrame(cfg, w, a, id);
      }
    }
  }

  lemma {:induction false} CaRun(cfg: Config, w: World, run: seq<Action>)
    requires Valid(cfg, w, run) && CaInvariant(cfg, w)
    ensures CaInvariant(cfg, After(cfg, w, run))
    decreases |run|
  {
    if run != [] {
      CaStep(cfg, w, run[0]);
      CaRun(cfg, Do(cfg, w, run[0]), run[1..]);
    }
  }

  /**
   In self-signed mode every webhook version a sync stored has one CA bundle throughout: the
   certificate of the Secret the same sync stored, and the empty one if it stored none
   because it found one in the lister.
   */
  lemma CaAgreement(cfg: Config, w: World, run: seq<Action>, n: string, j: nat)
    requires Initial(w) && Valid(cfg, w, run) && !cfg.useCertManager
    requires j < |Reg(After(cfg, w, run), WebhookKey(n)).hist|
    requires Reg(After(cfg, w, run), WebhookKey(n)).hist[j].writer.Sync?
    ensures var w' := After(cfg, w, run);
            var secret, v := Reg(w', SecretKey(cfg, n)), Reg(w', WebhookKey(n)).hist[j];
            var id := v.writer.id;
            && v.obj.Some? && v.obj.value.WebhookObj? && id in w'.syncs && w'.syncs[id].name == n
            && (forall h | h in v.obj.value.hooks :: h.caBundle == w'.syncs[id].cert)
            && SecretsCarry(secret, id, w'.syncs[id].cert)
            && (!WroteTo(secret, id) ==> w'.syncs[id].cert == "")
  {
    var w' := After(cfg, w, run);
    assert CaInvariant(cfg, w);
    CaRun(cfg, w, run);
    var k := WebhookKey(n);
    var id := Reg(w', k).hist[j].writer.id;
    assert AtHome(cfg, w', k, w'.regs[k].hist[j].writer);
    PrefixInjective("sidecar-injector-webhook-", n, w'.syncs[id].name);
    assert SyncCaOk(cfg, w', id) && WroteTo(Reg(w', k), id);
  }

  /** While neither has been replaced, a Secret and a webhook of one sync agree on the certificate. */
  lemma LiveCaAgreement(cfg: Config, w: World, run: seq<Action>, n: string)
    requires Initial(w) && Valid(cfg, w, run) && !cfg.useCertManager
    requires var w' := After(cfg, w, run);
             && Last(Reg(w', SecretKey(cfg, n)).hist).writer.Sync?
             && Last(Reg(w', WebhookKey(n)).hist).writer == Last(Reg(w', SecretKey(cfg, n)).hist).writer
    ensures var w' := After(cfg, w, run);
            var secret, webhook := Live(Reg(w', SecretKey(cfg, n))), Live(Reg(w', WebhookKey(n)));
            && secret.Some? && secret.value.SecretObj? && webhook.Some? && webhook.value.WebhookObj?
            && forall h | h in webhook.value.hooks :: h.caBundle == secret.value.tlsCrt
  {
    var w' := After(cfg, w, run);
    CaAgreement(cfg, w, run, n, |Reg(w', WebhookKey(n)).hist| - 1);
    var r := Reg(w', SecretKey(cfg, n));
    assert r.hist[|r.hist| - 1].writer == Last(Reg(w', WebhookKey(n)).hist).writer;
  }
}
