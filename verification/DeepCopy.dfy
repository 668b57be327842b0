/**
 The generated deep copies, on the heap, and the status update that relies on them: what
 the lister handed out is never written.
 */
module DeepCopy {
  import opened Basics
  import opened Settings
  import opened Cluster

  /** What a reference, a map or a slice header of the program leads to. */
  class Ref<T> {
    var value: T

    constructor (value: T)
      ensures this.value == value
    {
      this.value := value;
    }
  }

  function ValueOf<T>(r: Ref?<T>): Option<T>
    reads r
  {
    if r == null then None else Some(r.value)
  }

  function Home<T>(r: Ref?<T>): set<object> { if r == null then {} else {r} }

  /** `*out = new(T); **out = **in` for a non-nil pointer, nil otherwise. */
  method CopyRef<T>(r: Ref?<T>) returns (c: Ref?<T>)
    ensures ValueOf(c) == ValueOf(r) && fresh(Home(c)) && (c != null ==> fresh(c))
  {
    c := null;
    if r != null {
      c := new Ref(r.value);
    }
  }

  /** All there is to see of an injector; absent is not the same as empty. */
  datatype View = View(
    name: string, uid: string, labels: Option<map<string, string>>, owners: Option<seq<OwnerRef>>,
    collector: string, fluentD: Option<FluentDSpec>, fluentBit: Option<FluentBitSpec>, status: Status)

  class SidecarInjector {
    var name: string
    var uid: string
    var labels: Ref?<map<string, string>>
    var owners: Ref?<seq<OwnerRef>>
    var collector: string
    var fluentD: Ref?<FluentDSpec>
    var fluentBit: Ref?<FluentBitSpec>
    var status: Status

    /** new(SidecarInjector): the zero value. */
    constructor Zero()
      ensures Contents() == View("", "", None, None, "", None, None, Status("", 0, false))
      ensures Shared() == {}
    {
      name, uid, labels, owners, collector := "", "", null, null, "";
      fluentD, fluentBit, status := null, null, Status("", 0, false);
    }

    function Contents(): View
      reads this, labels, owners, fluentD, fluentBit
    {
      View(name, uid, ValueOf(labels), ValueOf(owners), collector, ValueOf(fluentD), ValueOf(fluentBit), status)
    }

    /** The memory the object only points to. */
    function Shared(): set<object>
      reads this
    {
      Home(labels) + Home(owners) + Home(fluentD) + Home(fluentBit)
    }

    /** ObjectMeta.DeepCopyInto. */
    method MetaDeepCopyInto(out: SidecarInjector)
      requires out != this
      modifies out`name, out`uid, out`labels, out`owners
      ensures out.name == name && out.uid == uid
      ensures ValueOf(out.labels) == ValueOf(labels) && fresh(Home(out.labels))
      ensures ValueOf(out.owners) == ValueOf(owners) && fresh(Home(out.owners))
      ensures (out.labels != null ==> fresh(out.labels)) && (out.owners != null ==> fresh(out.owners))
    {
      out.name, out.uid := name, uid;
      out.labels := CopyRef(labels);
      out.owners := CopyRef(owners);
    }

    /** SidecarInjectorSpec.DeepCopyInto. */
    method SpecDeepCopyInto(out: SidecarInjector)
      requires out != this
      modifies out`collector, out`fluentD, out`fluentBit
      ensures out.collector == collector
      ensures ValueOf(out.fluentD) == ValueOf(fluentD) && fresh(Home(out.fluentD))
      ensures ValueOf(out.fluentBit) == ValueOf(fluentBit) && fresh(Home(out.fluentBit))
      ensures (out.fluentD != null ==> fresh(out.fluentD)) && (out.fluentBit != null ==> fresh(out.fluentBit))
    {
      out.collector, out.fluentD, out.fluentBit := collector, fluentD, fluentBit;
      if fluentD != null {
        out.fluentD := new Ref(fluentD.value);
      }
      if fluentBit != null {
        out.fluentBit := new Ref(fluentBit.value);
      }
    }

    /** SidecarInjector.DeepCopyInto. */
    method DeepCopyInto(out: SidecarInjector)
      requires out != this
      modifies out
      ensures out.Contents() == old(Contents()) && Contents() == old(Contents())
      ensures fresh(out.Shared())
      ensures (out.fluentD != null ==> fresh(out.fluentD)) && (out.fluentBit != null ==> fresh(out.fluentBit))
    {
      out.name, out.uid, out.collector, out.status := name, uid, collector, status;
      out.labels, out.owners, out.fluentD, out.fluentBit := labels, owners, fluentD, fluentBit;
      MetaDeepCopyInto(out);
      SpecDeepCopyInto(out);
      out.status := status;
    }

    method DeepCopy() returns (out: SidecarInjector)
      ensures fresh(out) && fresh(out.Shared())
      ensures out.Contents() == Contents()
    {
      out := new SidecarInjector.Zero();
      DeepCopyInto(out);
    }
  }

  /** DeepCopy as callers use it: a nil receiver gives nil. */
  method DeepCopyOf(original: SidecarInjector?) returns (out: SidecarInjector?)
    ensures out == null <==> original == null
    ensures original != null ==> fresh(out) && fresh(out.Shared()) && out.Contents() == original.Contents()
  {
    out := null;
    if original != null {
      out := original.DeepCopy();
    }
  }

  /** A list whose items lie one after another in memory of their own. */
  class SidecarInjectorList {
    var resourceVersion: string
    var items: array?<SidecarInjector?>

    constructor Zero()
      ensures resourceVersion == "" && items == null
    {
      resourceVersion, items := "", null;
    }

    predicate Valid()
      reads this, items
    {
      items != null ==> forall i | 0 <= i < items.Length :: items[i] != null
    }

    /** SidecarInjectorList.DeepCopyInto: a nil slice stays nil, an empty one stays empty. */
    method DeepCopyInto(out: SidecarInjectorList)
      requires out != this && Valid()
      modifies out
      ensures out.Valid() && out.resourceVersion == resourceVersion
      ensures items == old(items) && (out.items == null <==> items == null)
      ensures items != null ==>
                && fresh(out.items) && out.items.Length == items.Length
                && forall i | 0 <= i < items.Length ::
                     && fresh(out.items[i]) && fresh(out.items[i].Shared())
                     && out.items[i].Contents() == items[i].Contents()
      ensures items != null ==> forall i, j | 0 <= i < j < items.Length ::
                out.items[i] != out.items[j] && out.items[i].Shared() !! out.items[j].Shared()
    {
      out.resourceVersion, out.items := resourceVersion, items;
      if items != null {
        var copies := CopyItems(items);
        out.items := copies;
      }
    }
  }

  /** The loop over Items. */
  method CopyItems(items: array<SidecarInjector?>) returns (copies: array<SidecarInjector?>)
    requires forall i | 0 <= i < items.Length :: items[i] != null
    ensures fresh(copies) && copies.Length == items.Length
    ensures forall i | 0 <= i < items.Length ::
              && copies[i] != null && fresh(copies[i]) && fresh(copies[i].Shared())
              && copies[i].Contents() == items[i].Contents()
    ensures forall i, j | 0 <= i < j < items.Length ::
              copies[i] != copies[j] && copies[i].Shared() !! copies[j].Shared()
  {
    hide SidecarInjector.Contents;
    hide SidecarInjector.Shared;
    copies := new SidecarInjector?[items.Length];
    ghost var seen: set<object> := {};
    var i := 0;
    while i < items.Length
      invariant 0 <= i <= items.Length && fresh(copies)
      invariant forall j | 0 <= j < i ::
          && copies[j] != null && fresh(copies[j]) && fresh(copies[j].Shared())
          && copies[j].Contents() == items[j].Contents()
      invariant forall j | 0 <= j < i :: copies[j] in seen && copies[j].Shared() <= seen
      invariant forall j, k | 0 <= j < k < i :: copies[j] != copies[k] && copies[j].Shared() !! copies[k].Shared()
      modifies copies
    {
      var item := items[i].DeepCopy();
      assert item !in seen && item.Shared() !! seen;
      copies[i] := item;
      seen := seen + {item} + item.Shared();
      i := i + 1;
    }
  }

  /**
   updateSidecarInjectorStatus up to the API call: the object sent differs from the
   lister's only in the status, shares no memory with it, and the lister's is as before.
   */
  method StatusUpdate(cached: SidecarInjector, deploymentName: string, podCount: int, ports: nat, clusterIP: string)
    returns (sent: SidecarInjector)
    ensures fresh(sent) && fresh(sent.Shared())
    ensures sent.Contents() ==
            cached.Contents().(status := Status(deploymentName, podCount, ports > 0 && clusterIP != ""))
    ensures cached.Contents() == old(cached.Contents())
  {
    var serviceReady := false;
    if ports > 0 && clusterIP != "" {
      serviceReady := true;
    }
    sent := cached.DeepCopy();
    sent.status := sent.status.(deploymentName := deploymentName);
    sent.status := sent.status.(podCount := podCount);
    sent.status := sent.status.(serviceReady := serviceReady);
  }
}
