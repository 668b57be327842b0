/**
 The mutator on memory: Go slices as a backing array with a length, append writing in
 place while there is capacity, and the two loops of validate.go over them.
 */
module PodHeap {
  import opened Pods

  /** A slice that starts at the front of its backing array; the array length is the capacity. */
  datatype Slice<T> = Slice(arr: array<T>, len: nat) {
    ghost predicate Valid() { len <= arr.Length }

    ghost function Elems(): seq<T>
      requires Valid()
      reads arr
    {
      arr[..len]
    }
  }

  /** A container as stored in pod.Spec.Containers: plain fields, and a slice header for the mounts. */
  datatype Cell = Cell(fields: Container, mounts: Slice<Mount>)

  ghost predicate CellShows(cell: Cell, ctr: Container)
    reads cell.mounts.arr
  {
    cell.mounts.Valid() && cell.fields.(mounts := cell.mounts.Elems()) == ctr
  }

  /** Appending to one cannot be seen through the other. */
  ghost predicate NoAlias(a: Slice<Mount>, b: Slice<Mount>) {
    a.arr != b.arr || (a.len == a.arr.Length && b.len == b.arr.Length)
  }

  ghost predicate Separate(cells: seq<Cell>) {
    forall i, j | 0 <= i < j < |cells| :: NoAlias(cells[i].mounts, cells[j].mounts)
  }

  ghost function MountArrays(cells: seq<Cell>): set<array<Mount>> {
    set c | c in cells :: c.mounts.arr
  }

  ghost predicate CellsShow(cells: seq<Cell>, cs: seq<Container>)
    reads MountArrays(cells)
  {
    |cells| == |cs| && forall i | 0 <= i < |cells| :: CellShows(cells[i], cs[i])
  }

  /** Go's append, with `spare` the extra capacity the runtime picks on growth. */
  method Append<T>(s: Slice<T>, x: T, spare: nat) returns (r: Slice<T>)
    requires s.Valid()
    modifies s.arr
    ensures r.Valid() && r.Elems() == old(s.Elems()) + [x]
    ensures s.len < s.arr.Length ==> r.arr == s.arr && s.arr[..] == old(s.arr[..])[s.len := x]
    ensures s.len == s.arr.Length ==> fresh(r.arr) && unchanged(s.arr)
  {
    if s.len < s.arr.Length {
      s.arr[s.len] := x;
      return Slice(s.arr, s.len + 1);
    }
    var grown := new T[s.len + 1 + spare](i reads s.arr => if 0 <= i < s.arr.Length then s.arr[i] else x);
    r := Slice(grown, s.len + 1);
  }

  /** Mid-loop: what has been given its mount, what has not, and the sidecar share no spare capacity. */
  ghost predicate Apart(done: seq<Cell>, todo: seq<Cell>, sidecar: Cell) {
    && AllDifferent(done)
    && Separate(todo)
    && MountArrays(done) !! MountArrays(todo)
    && sidecar.mounts.arr !in MountArrays(done) + MountArrays(todo)
  }

  lemma ArraysSnoc(cells: seq<Cell>, c: Cell)
    ensures MountArrays(cells + [c]) == MountArrays(cells) + {c.mounts.arr}
  {
    assert forall d :: d in cells + [c] <==> d in cells || d == c;
  }

  lemma ArraysCons(c: Cell, cells: seq<Cell>)
    ensures MountArrays([c] + cells) == {c.mounts.arr} + MountArrays(cells)
  {
    assert forall d :: d in [c] + cells <==> d == c || d in cells;
  }

  lemma SeparateCons(c: Cell, cells: seq<Cell>)
    requires Separate([c] + cells)
    ensures Separate(cells)
    ensures c.mounts.len < c.mounts.arr.Length ==> c.mounts.arr !in MountArrays(cells)
  {
    var all := [c] + cells;
    forall i, j | 0 <= i < j < |cells| ensures NoAlias(cells[i].mounts, cells[j].mounts) {
      assert NoAlias(all[i + 1].mounts, all[j + 1].mounts);
    }
    forall i | 0 <= i < |cells| ensures NoAlias(c.mounts, cells[i].mounts) {
      assert NoAlias(all[0].mounts, all[i + 1].mounts);
    }
  }

  /** A list whose arrays are all different stays so when a cell with a new array is added. */
  ghost predicate AllDifferent(cells: seq<Cell>) {
    forall i, j | 0 <= i < j < |cells| :: cells[i].mounts.arr != cells[j].mounts.arr
  }

  lemma DifferentSnoc(cells: seq<Cell>, c: Cell)
    requires AllDifferent(cells) && c.mounts.arr !in MountArrays(cells)
    ensures AllDifferent(cells + [c])
  {
    assert forall i | 0 <= i < |cells| :: cells[i] in cells;
  }

  lemma ApartStep(done: seq<Cell>, cell: Cell, todo: seq<Cell>, out: Cell, sidecar: Cell)
    requires Apart(done, [cell] + todo, sidecar)
    requires if out.mounts.arr == cell.mounts.arr then cell.mounts.len < cell.mounts.arr.Length
             else out.mounts.arr !in MountArrays(done) + MountArrays(todo) + {sidecar.mounts.arr}
    ensures Apart(done + [out], todo, sidecar)
    ensures cell.mounts.arr !in MountArrays(done) + {sidecar.mounts.arr}
    ensures cell.mounts.len < cell.mounts.arr.Length ==> cell.mounts.arr !in MountArrays(todo)
  {
    ArraysCons(cell, todo);
    SeparateCons(cell, todo);
    ArraysSnoc(done, out);
    assert cell.mounts.arr !in MountArrays(done);
    DifferentSnoc(done, out);
  }

  /** Loop state after i containers: they show their new mount, the others show their old value. */
  ghost predicate Midway(done: seq<Cell>, todo: seq<Cell>, i: nat, m: Mount, sidecar: Cell,
                         cs: seq<Container>, last: Container)
    reads MountArrays(done), MountArrays(todo), sidecar.mounts.arr
  {
    && i <= |cs|
    && Apart(done, todo, sidecar)
    && CellsShow(done, AllWithMount(cs[..i], m))
    && CellsShow(todo, cs[i..])
    && CellShows(sidecar, last)
  }

  /** `container.VolumeMounts = append(container.VolumeMounts, volumeMount)`. */
  method MountOne(cell: Cell, m: Mount, spare: nat, ghost done: seq<Cell>, ghost todo: seq<Cell>, ghost i: nat,
                  ghost sidecar: Cell, ghost cs: seq<Container>, ghost last: Container)
    returns (out: Cell)
    requires i < |cs| && Midway(done, [cell] + todo, i, m, sidecar, cs, last)
    modifies cell.mounts.arr
    ensures out.mounts.arr == cell.mounts.arr || fresh(out.mounts.arr)
    ensures Midway(done + [out], todo, i + 1, m, sidecar, cs, last)
  {
    ghost var arrays := MountArrays(done) + MountArrays(todo) + {sidecar.mounts.arr};
    assert forall a | a in arrays :: allocated(a);
    ShowSplit([cell] + todo, cs[i..]);
    var mounts := Append(cell.mounts, m, spare);
    out := cell.(mounts := mounts);
    ApartStep(done, cell, todo, out, sidecar);
    assert CellShows(out, WithMount(cs[i], m));
    ShowSnoc(done, AllWithMount(cs[..i], m), out, WithMount(cs[i], m));
    AllWithMountSnoc(cs, i, m);
    assert cs[i..][1..] == cs[i + 1..];
    assert ([cell] + todo)[1..] == todo;
  }

  lemma AllWithMountSnoc(cs: seq<Container>, i: nat, m: Mount)
    requires i < |cs|
    ensures AllWithMount(cs[..i + 1], m) == AllWithMount(cs[..i], m) + [WithMount(cs[i], m)]
  {
    assert cs[..i + 1][..i] == cs[..i];
  }

  lemma ShowSnoc(cells: seq<Cell>, cs: seq<Container>, cell: Cell, ctr: Container)
    requires CellsShow(cells, cs) && CellShows(cell, ctr)
    ensures CellsShow(cells + [cell], cs + [ctr])
  {
  }

  lemma ShowSplit(cells: seq<Cell>, cs: seq<Container>)
    requires CellsShow(cells, cs) && |cells| > 0
    ensures CellShows(cells[0], cs[0]) && CellsShow(cells[1..], cs[1..])
  {
  }

  lemma MidwayStart(cells: seq<Cell>, m: Mount, sidecar: Cell, cs: seq<Container>, last: Container)
    requires Separate(cells) && CellsShow(cells, cs)
    requires CellShows(sidecar, last) && sidecar.mounts.arr !in MountArrays(cells)
    ensures Midway([], cells[0..], 0, m, sidecar, cs, last) && |cells| == |cs|
  {
    assert cells[0..] == cells && cs[0..] == cs;
  }

  lemma MidwayEnd(done: seq<Cell>, todo: seq<Cell>, m: Mount, sidecar: Cell, cs: seq<Container>, last: Container)
    requires Midway(done, todo, |cs|, m, sidecar, cs, last) && todo == []
    ensures Separate(done + [sidecar]) && CellsShow(done + [sidecar], AllWithMount(cs, m) + [last])
  {
    assert cs[..|cs|] == cs;
    ShowSnoc(done, AllWithMount(cs, m), sidecar, last);
    DifferentSnoc(done, sidecar);
  }

  /** `append(containers, sidecar)`. */
  method AppendSidecar(cells: Slice<Cell>, m: Mount, sidecar: Cell, spare: nat,
                       ghost cs: seq<Container>, ghost last: Container)
    returns (r: Slice<Cell>)
    requires cells.Valid() && Midway(cells.Elems(), [], |cs|, m, sidecar, cs, last)
    modifies cells.arr
    ensures r.arr == cells.arr || fresh(r.arr)
    ensures r.Valid() && Separate(r.Elems()) && CellsShow(r.Elems(), AllWithMount(cs, m) + [last])
  {
    MidwayEnd(cells.Elems(), [], m, sidecar, cs, last);
    r := Append(cells, sidecar, spare);
  }

  /** One round of the rebuilding loop. */
  method CopyOne(out: Slice<Cell>, cell: Cell, m: Mount, spare: nat, ghost todo: seq<Cell>, ghost i: nat,
                 ghost sidecar: Cell, ghost cs: seq<Container>, ghost last: Container)
    returns (r: Slice<Cell>)
    requires out.Valid() && i < |cs| && Midway(out.Elems(), [cell] + todo, i, m, sidecar, cs, last)
    modifies out.arr, cell.mounts.arr
    ensures r.Valid() && r.len == out.len + 1 && (r.arr == out.arr || fresh(r.arr))
    ensures Midway(r.Elems(), todo, i + 1, m, sidecar, cs, last)
  {
    ghost var done := out.Elems();
    var container := MountOne(cell, m, spare, done, todo, i, sidecar, cs, last);
    r := Append(out, container, spare);
    assert r.Elems() == done + [container];
  }

  /** fluentd: every container is copied with one more mount into a new slice, then the sidecar. */
  method MountAllRebuilding(cells: Slice<Cell>, m: Mount, sidecar: Cell, spare: nat,
                            ghost cs: seq<Container>, ghost last: Container)
    returns (r: Slice<Cell>)
    requires cells.Valid() && Separate(cells.Elems()) && CellsShow(cells.Elems(), cs)
    requires CellShows(sidecar, last) && sidecar.mounts.arr !in MountArrays(cells.Elems())
    modifies MountArrays(cells.Elems())
    ensures fresh(r.arr) && cells.arr[..] == old(cells.arr[..])
    ensures r.Valid() && Separate(r.Elems()) && CellsShow(r.Elems(), AllWithMount(cs, m) + [last])
  {
    hide Midway;
    hide CellsShow;
    hide AllWithMount;
    ghost var was := cells.Elems();
    var none := new Cell[spare](_ => sidecar);
    r := Slice(none, 0);
    MidwayStart(was, m, sidecar, cs, last);
    assert r.Elems() == [];
    for i := 0 to cells.len
      invariant cells.arr[..] == old(cells.arr[..])
      invariant r.Valid() && fresh(r.arr)
      invariant Midway(r.Elems(), was[i..], i, m, sidecar, cs, last)
    {
      assert was[i..] == [was[i]] + was[i + 1..];
      assert was[i] in was;
      r := CopyOne(r, cells.arr[i], m, spare, was[i + 1..], i, sidecar, cs, last);
    }
    assert was[cells.len..] == [];
    r := AppendSidecar(r, m, sidecar, spare, cs, last);
  }

  /** fluent-bit: the mount slice of every container is replaced in place, then the sidecar appended. */
  method MountAllInPlace(cells: Slice<Cell>, m: Mount, sidecar: Cell, spare: nat,
                         ghost cs: seq<Container>, ghost last: Container)
    returns (r: Slice<Cell>)
    requires cells.Valid() && Separate(cells.Elems()) && CellsShow(cells.Elems(), cs)
    requires CellShows(sidecar, last) && sidecar.mounts.arr !in MountArrays(cells.Elems())
    modifies cells.arr, MountArrays(cells.Elems())
    ensures r.arr == cells.arr || fresh(r.arr)
    ensures r.Valid() && Separate(r.Elems()) && CellsShow(r.Elems(), AllWithMount(cs, m) + [last])
  {
    hide Midway;
    hide CellsShow;
    hide AllWithMount;
    ghost var was := cells.Elems();
    MidwayStart(was, m, sidecar, cs, last);
    assert cells.arr[..0] == [] && cells.arr[0..cells.len] == was[0..];
    for i := 0 to cells.len
      invariant cells.arr[i..cells.len] == was[i..]
      invariant Midway(cells.arr[..i], was[i..], i, m, sidecar, cs, last)
    {
      assert cells.arr[i] == cells.arr[i..cells.len][0] == was[i];
      assert was[i..] == [was[i]] + was[i + 1..];
      assert was[i] in was;
      assert cells.arr[i + 1..cells.len] == cells.arr[i..cells.len][1..] == was[i + 1..];
      UpdateOne(cells, i, m, spare, was[i + 1..], sidecar, cs, last);
    }
    assert was[cells.len..] == [] && cells.arr[..cells.len] == cells.Elems();
    r := AppendSidecar(cells, m, sidecar, spare, cs, last);
  }

  /** One round of the in-place loop. */
  method UpdateOne(cells: Slice<Cell>, i: nat, m: Mount, spare: nat, ghost todo: seq<Cell>,
                   ghost sidecar: Cell, ghost cs: seq<Container>, ghost last: Container)
    requires cells.Valid() && i < |cs| && i < cells.len
    requires Midway(cells.arr[..i], [cells.arr[i]] + todo, i, m, sidecar, cs, last)
    modifies cells.arr, cells.arr[i].mounts.arr
    ensures cells.arr[i + 1..cells.len] == old(cells.arr[i + 1..cells.len])
    ensures Midway(cells.arr[..i + 1], todo, i + 1, m, sidecar, cs, last)
  {
    ghost var done := cells.arr[..i];
    var container := MountOne(cells.arr[i], m, spare, done, todo, i, sidecar, cs, last);
    cells.arr[i] := container;
    assert cells.arr[..i + 1] == done + [container];
  }
}
