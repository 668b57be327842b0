/** Informer events: which of them put which key into the work queue. */
module Events {
  import opened Basics
  import opened Cluster
  import opened Keys
  import opened WorkQueue

  /** What an informer knows of an object. */
  datatype Meta = Meta(kind: Kind, namespace: string, name: string, resourceVersion: string, owners: seq<OwnerRef>)

  /** The argument of a handler: an object, the tombstone of one whose deletion was missed, or neither. */
  datatype Thing = Object(meta: Meta) | Tombstone(inner: Option<Meta>) | Foreign

  datatype Event = Added(obj: Thing) | Updated(before: Meta, after: Meta) | Deleted(obj: Thing)

  /** Handlers are registered for injectors, Deployments and Secrets only. */
  datatype Source = Injectors | Deployments | Secrets | Others

  function Recovered(obj: Thing): Option<Meta> {
    match obj
    case Object(m) => Some(m)
    case Tombstone(inner) => inner
    case Foreign => None
  }

  class Handlers {
    /** The names the injector lister knows. */
    var lister: set<string>
    var queue: Queue

    constructor (lister: set<string>, queue: Queue)
      ensures this.lister == lister && this.queue == queue
    {
      this.lister, this.queue := lister, queue;
    }

    method EnqueueSidecarInjector(namespace: string, name: string)
      modifies `queue
      ensures queue == Do(old(queue), Request(Text(MetaNamespaceKey(namespace, name))))
    {
      queue := Do(queue, Request(Text(MetaNamespaceKey(namespace, name))));
    }

    /** metav1.GetControllerOf, a loop over the owner references. */
    static method GetControllerOf(owners: seq<OwnerRef>) returns (ref: Option<OwnerRef>)
      ensures ref == ControllerOf(owners)
    {
      var i := 0;
      while i < |owners|
        invariant 0 <= i <= |owners|
        invariant ControllerOf(owners) == ControllerOf(owners[i..])
      {
        if owners[i].controller {
          return Some(owners[i]);
        }
        i := i + 1;
      }
      return None;
    }

    method HandleObject(obj: Thing)
      modifies `queue
      ensures queue == match Wanted(lister, Recovered(obj))
              case Some(key) => Do(old(queue), Request(Text(key)))
              case None => old(queue)
    {
      var child := Recovered(obj);
      if child.None? {
        return;
      }
      var ownerRef := GetControllerOf(child.value.owners);
      if ownerRef.Some? {
        if ownerRef.value.kind != "SidecarInjector" {
          return;
        }
        if ownerRef.value.name !in lister {
          return;
        }
        EnqueueSidecarInjector("", ownerRef.value.name);
      }
    }

    /** The handlers of NewController. */
    method OnEvent(source: Source, e: Event)
      modifies `queue
      ensures queue == match Answer(lister, source, e)
              case Some(key) => Do(old(queue), Request(Text(key)))
              case None => old(queue)
    {
      if source.Injectors? {
        match e {
          case Added(Object(m)) => EnqueueSidecarInjector(m.namespace, m.name);
          case Updated(_, m) => EnqueueSidecarInjector(m.namespace, m.name);
          case _ =>
        }
      } else if source.Deployments? || source.Secrets? {
        match e {
          case Added(obj) => HandleObject(obj);
          case Updated(o, n) =>
            if n.resourceVersion == o.resourceVersion {
              return;
            }
            HandleObject(Object(n));
          case Deleted(obj) => HandleObject(obj);
        }
      }
    }
  }

  /** The key a child object asks for: its controller's, by kind and name. */
  function Wanted(lister: set<string>, child: Option<Meta>): Option<string> {
    if child.None? then None
    else match ControllerOf(child.value.owners)
      case None => None
      case Some(ref) =>
        if ref.kind == "SidecarInjector" && ref.name in lister then Some(MetaNamespaceKey("", ref.name)) else None
  }

  function Answer(lister: set<string>, source: Source, e: Event): Option<string> {
    match source
    case Injectors =>
      (match e
       case Added(Object(m)) => Some(MetaNamespaceKey(m.namespace, m.name))
       case Updated(_, m) => Some(MetaNamespaceKey(m.namespace, m.name))
       case _ => None)
    case Others => None
    case _ =>
      match e
      case Added(obj) => Wanted(lister, Recovered(obj))
      case Updated(o, n) => if n.resourceVersion == o.resourceVersion then None else Wanted(lister, Some(n))
      case Deleted(obj) => Wanted(lister, Recovered(obj))
  }

  // ----- What the events are for -----

  /** n controls the object: its reference is the first that claims to. */
  predicate Controls(n: string, m: Meta) {
    exists i | 0 <= i < |m.owners| ::
      && m.owners[i].controller && m.owners[i].kind == "SidecarInjector" && m.owners[i].name == n
      && forall j | 0 <= j < i :: !m.owners[j].controller
  }

  /** The object an event is about; none for an update that changed nothing. */
  function Subject(e: Event): Option<Meta> {
    match e
    case Added(obj) => Recovered(obj)
    case Deleted(obj) => Recovered(obj)
    case Updated(o, n) => if o.resourceVersion == n.resourceVersion then None else Some(n)
  }

  /**
   A Deployment or Secret event, a tombstone included, enqueues exactly the key of the
   injector in the lister that controls the object; nothing else enqueues anything, and an
   update between equal versions never does.
   */
  lemma EventsExact(lister: set<string>, source: Source, e: Event, n: string)
    requires source.Deployments? || source.Secrets?
    ensures Answer(lister, source, e) == Some(n) <==>
            n in lister && Subject(e).Some? && Controls(n, Subject(e).value)
  {
    if Subject(e).Some? {
      var m := Subject(e).value;
      if ControllerOf(m.owners).Some? {
        var i := FirstIsController(m.owners);
      }
      if Controls(n, m) {
        var i :| 0 <= i < |m.owners|
          && m.owners[i].controller && m.owners[i].kind == "SidecarInjector" && m.owners[i].name == n
          && forall j | 0 <= j < i :: !m.owners[j].controller;
        ControllerIsFirst(m.owners, i);
      }
    }
  }

  /**
   An injector's own event requests its key exactly when it is added or updated, resyncs
   included; its deletion requests nothing, and neither does any other kind of object.
   */
  lemma InjectorEventsExact(lister: set<string>, e: Event, key: string)
    ensures Answer(lister, Injectors, e) == Some(key) <==>
            && Shown(e).Some?
            && var m := Shown(e).value; key == if m.namespace == "" then m.name else m.namespace + "/" + m.name
    ensures Answer(lister, Others, e) == None
  {
  }

  /** The object that an addition or an update shows, if it is one. */
  function Shown(e: Event): Option<Meta> {
    if e.Added? && e.obj.Object? then Some(e.obj.meta) else if e.Updated? then Some(e.after) else None
  }

  /** The UID of the reference does not matter: an injector made anew is told about its predecessor's children. */
  lemma UidIgnored(lister: set<string>, source: Source, m: Meta, n: string, uid: string)
    requires (source.Deployments? || source.Secrets?) && n in lister
    requires m.owners == OwnedBy(n, uid)
    ensures Answer(lister, source, Deleted(Tombstone(Some(m)))) == Some(n)
    ensures Answer(lister, source, Updated(m, m)) == None
  {
    assert Controls(n, m) by {
      assert m.owners[0].controller;
    }
    EventsExact(lister, source, Deleted(Tombstone(Some(m))), n);
  }

  /** From the event to a worker: the key is taken later or still on its way, and it leads back to the injector. */
  lemma EventReachesWorker(lister: set<string>, source: Source, e: Event, n: string, q: Queue, run: seq<Action>)
    requires Answer(lister, source, e) == Some(n)
    requires Sound(q) && !q.down && Open(run) && '/' !in n
    requires Valid(Do(q, Request(Text(n))), run)
    ensures SplitMetaNamespaceKey(n) == Some(("", n))
    ensures var q' := After(Do(q, Request(Text(n))), run);
            Text(n) in q'.dirty || Text(n) in q'.waiting || Count(q'.log, Text(n)).got > Count(q.log, Text(n)).got
  {
    KeyRoundTrip("", n);
    var q1 := Do(q, Request(Text(n)));
    SoundStep(q, Request(Text(n)));
    CountStep(q.log, Requested(Text(n)), Text(n));
    NoLostEvent(q1, run, Text(n));
  }
}
