/** applyManifest: one YAML document after another, a Get and, when there is nothing, an Apply. */
module Manifests {
  import opened Basics
  import opened Cluster
  import opened Reconciler

  /** A document that the decoder rejects, one for which there is no resource client, or a manifest. */
  datatype Document = Undecodable | NoClient | Manifest(key: Key, obj: Obj)

  /** How the two calls for one document go. */
  datatype Calls = Calls(get: Outcome, apply: Outcome)

  type Registers = map<Key, Register>

  function At(regs: Registers, k: Key): Register { if k in regs then regs[k] else EMPTY }

  // ----- Specification -----

  /** What one document does: the new store, and whether an error is returned. */
  function ApplyDocument(regs: Registers, d: Document, calls: Calls, w: Writer): (Registers, bool) {
    if !d.Manifest? then (regs, true)
    else if calls.get != Fine then (regs, true)
    else if Live(At(regs, d.key)).Some? then (regs, false)
    else
      var (r, reply) := Apply(At(regs, d.key), d.obj, calls.apply, w);
      (if r == At(regs, d.key) then regs else regs[d.key := r], reply.CallFailed?)
  }

  function ApplyDocuments(
      regs: Registers, docs: seq<Document>, from: nat, calls: nat -> Calls, w: Writer): (Registers, bool)
    decreases |docs|
  {
    if docs == [] || docs[0].Undecodable? then (regs, false)
    else
      var (regs', err) := ApplyDocument(regs, docs[0], calls(from), w);
      if err then (regs', true) else ApplyDocuments(regs', docs[1..], from + 1, calls, w)
  }

  // ----- The method -----

  class DynamicClient {
    var regs: Registers

    constructor (regs: Registers)
      ensures this.regs == regs
    {
      this.regs := regs;
    }

    /** The loop ends with the manifest, silently at a document that does not decode, or with a call's error. */
    method ApplyManifest(manifest: seq<Document>, calls: nat -> Calls, w: Writer) returns (err: bool)
      modifies this
      ensures (regs, err) == ApplyDocuments(old(regs), manifest, 0, calls, w)
    {
      var i := 0;
      while i < |manifest|
        invariant i <= |manifest|
        invariant ApplyDocuments(old(regs), manifest, 0, calls, w) == ApplyDocuments(regs, manifest[i..], i, calls, w)
      {
        var raw := manifest[i];
        if raw.Undecodable? {
          break;
        }
        if raw.NoClient? {
          return true;
        }
        var c := calls(i);
        if c.get != Fine {
          return true;
        }
        if Live(At(regs, raw.key)).None? {
          var (r, reply) := Apply(At(regs, raw.key), raw.obj, c.apply, w);
          if r != At(regs, raw.key) {
            regs := regs[raw.key := r];
          }
          if reply.CallFailed? {
            return true;
          }
        }
        i := i + 1;
      }
      return false;
    }
  }

  // ----- Properties -----

  /** The documents the loop gets to see: those before the first that does not decode. */
  function Readable(docs: seq<Document>): seq<Document> {
    if docs == [] || docs[0].Undecodable? then [] else [docs[0]] + Readable(docs[1..])
  }

  /** The first readable document for a key. */
  function FirstFor(docs: seq<Document>, k: Key): Option<Obj> {
    if docs == [] || docs[0].Undecodable? then None
    else if docs[0].Manifest? && docs[0].key == k then Some(docs[0].obj)
    else FirstFor(docs[1..], k)
  }

  lemma DocumentEffect(regs: Registers, d: Document, calls: Calls, w: Writer, k: Key)
    ensures var (regs', err) := ApplyDocument(regs, d, calls, w);
            && (Live(At(regs, k)).Some? || !(d.Manifest? && d.key == k) ==> At(regs', k) == At(regs, k))
            && (!err && d.Manifest? && d.key == k && Live(At(regs, k)).None? ==>
                  At(regs', k) == Installed(At(regs, k), d.obj, w))
  {
  }

  /** The register after a first apply. */
  function Installed(r: Register, o: Obj, w: Writer): (r': Register)
    ensures Live(r') == Some(o) && r'.hist == r.hist + [Version(Some(o), w)] && r'.pos == r.pos
  {
    Store(r, Some(o), w)
  }

  /**
   A run without error leaves every existing object alone and gives every absent one
   exactly one new version: the first readable document that describes it.
   */
  lemma {:induction false} CompletedRun(
      regs: Registers, docs: seq<Document>, from: nat, calls: nat -> Calls, w: Writer, k: Key)
    requires !ApplyDocuments(regs, docs, from, calls, w).1
    ensures At(ApplyDocuments(regs, docs, from, calls, w).0, k) ==
            if Live(At(regs, k)).Some? || FirstFor(docs, k).None? then At(regs, k)
            else Installed(At(regs, k), FirstFor(docs, k).value, w)
    decreases |docs|
  {
    if docs != [] && !docs[0].Undecodable? {
      var (regs', err) := ApplyDocument(regs, docs[0], calls(from), w);
      DocumentEffect(regs, docs[0], calls(from), w, k);
      CompletedRun(regs', docs[1..], from + 1, calls, w, k);
    }
  }

  predicate AllPresent(regs: Registers, docs: seq<Document>) {
    forall i | 0 <= i < |Readable(docs)| && Readable(docs)[i].Manifest? :: Live(At(regs, Readable(docs)[i].key)).Some?
  }

  /** When all described objects exist nothing is written, whatever the calls do. */
  lemma {:induction false} PresentUntouched(
      regs: Registers, docs: seq<Document>, from: nat, calls: nat -> Calls, w: Writer)
    requires AllPresent(regs, docs)
    ensures ApplyDocuments(regs, docs, from, calls, w).0 == regs
    decreases |docs|
  {
    if docs != [] && !docs[0].Undecodable? {
      assert Readable(docs)[0] == docs[0];
      assert forall i | 0 <= i < |Readable(docs[1..])| :: Readable(docs)[i + 1] == Readable(docs[1..])[i];
      PresentUntouched(regs, docs[1..], from + 1, calls, w);
    }
  }

  lemma {:induction false} ReadableHasFirst(docs: seq<Document>, i: nat)
    requires i < |Readable(docs)| && Readable(docs)[i].Manifest?
    ensures FirstFor(docs, Readable(docs)[i].key).Some?
  {
    if i > 0 {
      ReadableHasFirst(docs[1..], i - 1);
    }
  }

  /** Repeating a completed run writes nothing. */
  lemma RerunWritesNothing(
      regs: Registers, docs: seq<Document>, from: nat, calls: nat -> Calls, again: nat -> Calls, w: Writer, w': Writer)
    requires !ApplyDocuments(regs, docs, from, calls, w).1
    ensures var regs' := ApplyDocuments(regs, docs, from, calls, w).0;
            ApplyDocuments(regs', docs, from, again, w').0 == regs'
  {
    var regs' := ApplyDocuments(regs, docs, from, calls, w).0;
    forall i | 0 <= i < |Readable(docs)| && Readable(docs)[i].Manifest?
      ensures Live(At(regs', Readable(docs)[i].key)).Some?
    {
      ReadableHasFirst(docs, i);
      CompletedRun(regs, docs, from, calls, w, Readable(docs)[i].key);
    }
    PresentUntouched(regs', docs, from, again, w');
  }

  /** There is no client for it, or its Get fails, or its Apply where there is nothing yet. */
  predicate Fails(regs: Registers, d: Document, calls: Calls) {
    || d.NoClient?
    || (d.Manifest? && (calls.get != Fine || (Live(At(regs, d.key)).None? && calls.apply != Fine)))
  }

  lemma DocumentFails(regs: Registers, d: Document, calls: Calls, w: Writer)
    requires !d.Undecodable?
    ensures ApplyDocument(regs, d, calls, w).1 <==> Fails(regs, d, calls)
  {
  }

  /**
   An error comes from one document: those before it are done without error, and those
   after it do not matter.
   */
  lemma {:induction false} StopsAtFirstError(
      regs: Registers, docs: seq<Document>, from: nat, calls: nat -> Calls, w: Writer)
    returns (i: nat)
    requires ApplyDocuments(regs, docs, from, calls, w).1
    ensures i < |docs| && !ApplyDocuments(regs, docs[..i], from, calls, w).1
    ensures ApplyDocuments(regs, docs, from, calls, w) == ApplyDocuments(regs, docs[..i + 1], from, calls, w)
    ensures i < |Readable(docs)| && Fails(ApplyDocuments(regs, docs[..i], from, calls, w).0, docs[i], calls(from + i))
    decreases |docs|
  {
    var (regs', err) := ApplyDocument(regs, docs[0], calls(from), w);
    DocumentFails(regs, docs[0], calls(from), w);
    hide Fails;
    hide ApplyDocument;
    hide Apply;
    hide Live;
    hide At;
    if err {
      i := 0;
    } else {
      var j := StopsAtFirstError(regs', docs[1..], from + 1, calls, w);
      i := j + 1;
      assert docs[..i][1..] == docs[1..][..j] && docs[..i + 1][1..] == docs[1..][..j + 1];
    }
  }

  /** And whenever the loop gets to a document that fails, it returns the error. */
  lemma {:induction false} FailureIsReturned(
      regs: Registers, docs: seq<Document>, from: nat, calls: nat -> Calls, w: Writer, i: nat)
    requires i < |Readable(docs)| && i < |docs|
    requires Fails(ApplyDocuments(regs, docs[..i], from, calls, w).0, docs[i], calls(from + i))
    ensures ApplyDocuments(regs, docs, from, calls, w).1
    decreases |docs|
  {
    var (regs', err) := ApplyDocument(regs, docs[0], calls(from), w);
    DocumentFails(regs, docs[0], calls(from), w);
    if i > 0 && !err {
      assert docs[..i][1..] == docs[1..][..i - 1];
      FailureIsReturned(regs', docs[1..], from + 1, calls, w, i - 1);
    }
  }

  /** Whatever follows a document that does not decode is dropped, and no error says so. */
  lemma {:induction false} UndecodableEndsQuietly(
      regs: Registers, docs: seq<Document>, rest: seq<Document>, from: nat, calls: nat -> Calls, w: Writer)
    ensures ApplyDocuments(regs, docs + [Undecodable] + rest, from, calls, w) ==
            ApplyDocuments(regs, docs, from, calls, w)
    decreases |docs|
  {
    var all := docs + [Undecodable] + rest;
    if docs == [] {
      assert all[0] == Undecodable;
    } else if !docs[0].Undecodable? {
      assert all[1..] == docs[1..] + [Undecodable] + rest;
      var (regs', err) := ApplyDocument(regs, docs[0], calls(from), w);
      UndecodableEndsQuietly(regs', docs[1..], rest, from + 1, calls, w);
    }
  }

  // ----- In the reconciler -----

  function ManifestOf(cfg: Config, t: SyncState): Obj {
    if t.pc.GetIssuer? then NewIssuer(t.name, t.uid) else NewCertificate(cfg, t.name, t.uid)
  }

  /** The steps for an Issuer, and those for a Certificate, are this procedure on its one document. */
  lemma ManifestIsOneDocument(cfg: Config, id: nat, t: SyncState, r: Register, c: Choice, c': Choice)
    requires t.pc.GetIssuer? || t.pc.GetCertificate?
    ensures var k, calls := Target(cfg, t), _ => Calls(c.outcome, c'.outcome);
            var (regs', err) := ApplyDocuments(map[k := r], [Manifest(k, ManifestOf(cfg, t))], 0, calls, Sync(id));
            var (r1, t1) := Step(cfg, id, t, r, c);
            var (r2, t2) := if Writes(t1.pc) then Step(cfg, id, t1, r1, c') else (r1, t1);
            && At(regs', k) == r2
            && t2.pc == if err then Done(Failed) else if t.pc.GetIssuer? then GetCertificate else GetWebhook
  {
    var k, calls := Target(cfg, t), _ => Calls(c.outcome, c'.outcome);
    var d := Manifest(k, ManifestOf(cfg, t));
    assert [d][1..] == [];
    var (regs', err) := ApplyDocument(map[k := r], d, calls(0), Sync(id));
    assert !err ==> ApplyDocuments(regs', [], 1, calls, Sync(id)) == (regs', false);
  }
}
