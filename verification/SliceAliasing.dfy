/**
 The mount appends of both loops without any assumption on the backing arrays: what
 happens when containers share one, and exactly when every container still gets its mount.
 */
module SliceAliasing {
  import opened Basics
  import opened Pods
  import opened PodHeap

  /** Appending to b overwrites an element of a longer slice on the same array. */
  method SharedArrayLosesMount(a: Slice<Mount>, b: Slice<Mount>, m: Mount, spare: nat) returns (r: Slice<Mount>)
    requires a.Valid() && b.Valid() && a.arr == b.arr && b.len < a.len
    modifies b.arr
    ensures r.Valid() && r.arr == a.arr && r.Elems() == old(b.Elems()) + [m]
    ensures a.Elems() == old(a.Elems())[b.len := m]
  {
    r := Append(b, m, spare);
  }

  predicate InPlace(s: Slice<Mount>) { s.len < s.arr.Length }

  ghost predicate AllValid(slices: seq<Slice<Mount>>) {
    forall i | 0 <= i < |slices| :: slices[i].Valid()
  }

  ghost function Arrays(slices: seq<Slice<Mount>>): set<array<Mount>> {
    set s | s in slices :: s.arr
  }

  /** One of the first n appends goes to place p of this array. */
  ghost predicate Hits(slices: seq<Slice<Mount>>, n: nat, arr: array<Mount>, p: nat)
    requires n <= |slices|
  {
    exists k | 0 <= k < n :: slices[k].arr == arr && slices[k].len == p && InPlace(slices[k])
  }

  lemma HitsNext(slices: seq<Slice<Mount>>, n: nat, arr: array<Mount>, p: nat)
    requires n < |slices|
    ensures Hits(slices, n + 1, arr, p) <==>
            Hits(slices, n, arr, p) || (slices[n].arr == arr && slices[n].len == p && InPlace(slices[n]))
  {
  }

  /** The whole backing arrays as they are now, one copy per slice. */
  ghost function Snapshot(slices: seq<Slice<Mount>>): (r: seq<seq<Mount>>)
    reads Arrays(slices)
    ensures |r| == |slices| && forall i | 0 <= i < |slices| :: r[i] == slices[i].arr[..]
  {
    if slices == [] then []
    else
      var init := slices[..|slices| - 1];
      assert forall s | s in init :: s in slices;
      Snapshot(init) + [Last(slices).arr[..]]
  }

  ghost predicate Fits(slices: seq<Slice<Mount>>, was: seq<seq<Mount>>) {
    |was| == |slices| && forall i | 0 <= i < |slices| :: |was[i]| == slices[i].arr.Length
  }

  /** The array of slice j after the first n appends. */
  ghost predicate Written(slices: seq<Slice<Mount>>, n: nat, m: Mount, was: seq<seq<Mount>>, j: nat)
    requires n <= |slices| && j < |slices| && Fits(slices, was)
    reads slices[j].arr
  {
    forall p | 0 <= p < slices[j].arr.Length ::
      slices[j].arr[p] == if Hits(slices, n, slices[j].arr, p) then m else was[j][p]
  }

  ghost predicate AllWritten(slices: seq<Slice<Mount>>, n: nat, m: Mount, was: seq<seq<Mount>>)
    requires n <= |slices| && Fits(slices, was)
    reads Arrays(slices)
  {
    forall j | 0 <= j < |slices| :: Written(slices, n, m, was, j)
  }

  /** The elements of slice i as the first n appends leave them, and the new one. */
  ghost predicate Shows(slices: seq<Slice<Mount>>, n: nat, i: nat, m: Mount, was: seq<seq<Mount>>, elems: seq<Mount>)
    requires n <= |slices| && i < |slices| && slices[i].Valid() && Fits(slices, was)
  {
    && |elems| == slices[i].len + 1 && elems[slices[i].len] == m
    && forall p | 0 <= p < slices[i].len ::
         elems[p] == if Hits(slices, n, slices[i].arr, p) then m else was[i][p]
  }

  /**
   The result of append i, any time later: a view of the shared array when there was room,
   otherwise a new array with what the first i appends had made of the old.
   */
  ghost predicate Appended(slices: seq<Slice<Mount>>, i: nat, m: Mount, was: seq<seq<Mount>>, out: Slice<Mount>)
    requires i < |slices| && slices[i].Valid() && Fits(slices, was)
    reads out.arr
  {
    && out.Valid() && out.len == slices[i].len + 1
    && if InPlace(slices[i]) then out.arr == slices[i].arr else Shows(slices, i, i, m, was, out.Elems())
  }

  /** Append i, with the first i done. */
  method AppendNext(slices: seq<Slice<Mount>>, i: nat, m: Mount, spare: nat, ghost was: seq<seq<Mount>>)
    returns (out: Slice<Mount>)
    requires AllValid(slices) && i < |slices| && Fits(slices, was) && AllWritten(slices, i, m, was)
    modifies slices[i].arr
    ensures Appended(slices, i, m, was, out) && (!InPlace(slices[i]) ==> fresh(out.arr))
    ensures AllWritten(slices, i + 1, m, was)
  {
    assert Written(slices, i, m, was, i);
    out := Append(slices[i], m, spare);
    var n := i + 1;
    forall j | 0 <= j < |slices| ensures Written(slices, n, m, was, j) {
      forall p | 0 <= p < slices[j].arr.Length
        ensures slices[j].arr[p] == if Hits(slices, n, slices[j].arr, p) then m else was[j][p]
      {
        HitsNext(slices, i, slices[j].arr, p);
        assert old(Written(slices, i, m, was, j));
        if slices[j].arr == slices[i].arr {
          assert slices[i].arr[..][p] == slices[j].arr[p];
        }
      }
    }
  }

  /** How many of the appends can be seen in the result of append i: all, or those before it moved away. */
  function Reach(slices: seq<Slice<Mount>>, i: nat): (n: nat)
    requires i < |slices|
    ensures n <= |slices|
  {
    if InPlace(slices[i]) then |slices| else i
  }

  /**
   What the owner of slice i can check beforehand: where a shorter slice on its array is
   appended to, earlier or while slice i still lives there, m is what it holds already.
   */
  ghost predicate Unharmed(slices: seq<Slice<Mount>>, i: nat, m: Mount, was: seq<seq<Mount>>)
    requires i < |slices| && AllValid(slices) && Fits(slices, was)
  {
    forall j | 0 <= j < |slices| && slices[j].arr == slices[i].arr && slices[j].len < slices[i].len
               && (j < i || InPlace(slices[i])) ::
      was[i][slices[j].len] == m
  }

  /** A slice keeps its elements under the appends it can see exactly when it is unharmed. */
  lemma KeptIffUnharmed(slices: seq<Slice<Mount>>, i: nat, m: Mount, was: seq<seq<Mount>>, elems: seq<Mount>)
    requires i < |slices| && AllValid(slices) && Fits(slices, was)
    requires Shows(slices, Reach(slices, i), i, m, was, elems)
    ensures elems == was[i][..slices[i].len] + [m] <==> Unharmed(slices, i, m, was)
  {
    var wanted, n := was[i][..slices[i].len] + [m], Reach(slices, i);
    if Unharmed(slices, i, m, was) {
      forall p | 0 <= p < |elems| ensures elems[p] == wanted[p] {
      }
    }
    if elems == wanted {
      forall j | 0 <= j < |slices| && slices[j].arr == slices[i].arr && slices[j].len < slices[i].len
                 && (j < i || InPlace(slices[i]))
        ensures was[i][slices[j].len] == m
      {
        assert Hits(slices, n, slices[i].arr, slices[j].len);
        assert elems[slices[j].len] == wanted[slices[j].len];
      }
    }
  }

  lemma AllShown(slices: seq<Slice<Mount>>, m: Mount, was: seq<seq<Mount>>, i: nat, out: Slice<Mount>)
    requires i < |slices| && AllValid(slices) && Fits(slices, was)
    requires AllWritten(slices, |slices|, m, was) && Appended(slices, i, m, was, out)
    ensures Shows(slices, Reach(slices, i), i, m, was, out.Elems())
  {
    if InPlace(slices[i]) {
      assert Written(slices, |slices|, m, was, i);
      assert Hits(slices, |slices|, slices[i].arr, slices[i].len);
    }
  }

  /**
   The appends of the two loops, container after container, on slices that may share arrays
   in any way: container i ends up with its old mounts and the new one if and only if it is
   unharmed.
   */
  method AppendToAll(slices: seq<Slice<Mount>>, m: Mount, spare: nat) returns (outs: seq<Slice<Mount>>)
    requires AllValid(slices)
    modifies Arrays(slices)
    ensures |outs| == |slices| && AllValid(outs)
    ensures forall i | 0 <= i < |slices| ::
              outs[i].Elems() == old(slices[i].Elems()) + [m] <==> Unharmed(slices, i, m, old(Snapshot(slices)))
  {
    ghost var was := Snapshot(slices);
    outs := AppendEach(slices, m, spare, was);
    forall i | 0 <= i < |slices|
      ensures outs[i].Valid()
      ensures outs[i].Elems() == old(slices[i].Elems()) + [m] <==> Unharmed(slices, i, m, was)
    {
      assert Appended(slices, i, m, was, outs[i]);
      AllShown(slices, m, was, i, outs[i]);
      KeptIffUnharmed(slices, i, m, was, outs[i].Elems());
      assert old(slices[i].Elems()) == was[i][..slices[i].len];
    }
  }

  method AppendEach(slices: seq<Slice<Mount>>, m: Mount, spare: nat, ghost was: seq<seq<Mount>>)
    returns (outs: seq<Slice<Mount>>)
    requires AllValid(slices) && was == Snapshot(slices)
    modifies Arrays(slices)
    ensures |outs| == |slices| && AllWritten(slices, |slices|, m, was)
    ensures forall i | 0 <= i < |slices| :: Appended(slices, i, m, was, outs[i])
  {
    outs := [];
    NothingWritten(slices, m, was);
    hide AllWritten;
    for i := 0 to |slices|
      invariant |outs| == i && AllWritten(slices, i, m, was)
      invariant forall j | 0 <= j < i :: Appended(slices, j, m, was, outs[j])
      invariant forall j | 0 <= j < i :: InPlace(slices[j]) || fresh(outs[j].arr)
    {
      assert slices[i] in slices;
      var out := AppendNext(slices, i, m, spare, was);
      outs := outs + [out];
    }
  }

  lemma NothingWritten(slices: seq<Slice<Mount>>, m: Mount, was: seq<seq<Mount>>)
    requires was == Snapshot(slices)
    ensures Fits(slices, was) && AllWritten(slices, 0, m, was)
  {
  }

  /** Slices that cannot see each other's appends are unharmed, and so are slices of one length on one array. */
  lemma SeparateIsUnharmed(slices: seq<Slice<Mount>>, i: nat, m: Mount, was: seq<seq<Mount>>)
    requires i < |slices| && AllValid(slices) && Fits(slices, was)
    requires forall j | 0 <= j < |slices| && j != i :: NoAlias(slices[j], slices[i]) || slices[j].len == slices[i].len
    ensures Unharmed(slices, i, m, was)
  {
  }
}
