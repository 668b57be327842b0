/** injectFluentD and injectFluentBit as they run: on a pod object, step by step (validate.go). */
module Mutator {
  import opened Basics
  import opened Settings
  import opened Pods
  import opened PodHeap
  import Decimal

  /** `*corev1.Pod`: the mutator reads its annotations and replaces its two slices. */
  class PodObject {
    const annotations: Annotations
    const rest: string
    var volumes: Slice<Volume>
    var containers: Slice<Cell>

    ghost predicate Shows(p: Pod)
      reads this, volumes.arr, containers.arr
      reads if containers.Valid() then MountArrays(containers.Elems()) else {}
    {
      && p.annotations == annotations && p.rest == rest
      && volumes.Valid() && volumes.Elems() == p.volumes
      && containers.Valid() && Separate(containers.Elems()) && CellsShow(containers.Elems(), p.containers)
    }

    ghost function Memory(): set<object>
      reads this, containers.arr
    {
      {this, volumes.arr, containers.arr} +
      (if containers.Valid() then MountArrays(containers.Elems()) else {})
    }

    constructor (annotations: Annotations, rest: string, volumes: Slice<Volume>, containers: Slice<Cell>)
      ensures this.annotations == annotations && this.rest == rest
      ensures this.volumes == volumes && this.containers == containers
    {
      this.annotations, this.rest := annotations, rest;
      this.volumes, this.containers := volumes, containers;
    }
  }

  /** The sidecar's env list after k appends. */
  function EnvSoFar(c: Collector, env: seq<EnvVar>, ann: Annotations, k: nat): seq<EnvVar> {
    if k == 0 then []
    else
      var r := SidecarRow(c, env, ann, k - 1);
      EnvSoFar(c, env, ann, k - 1) + (if r.emitted then [r.v] else [])
  }

  lemma {:induction false} EnvSoFarIsCompact(c: Collector, env: seq<EnvVar>, ann: Annotations, k: nat)
    requires k <= RowCount(c)
    ensures EnvSoFar(c, env, ann, k) == Compact(SidecarRows(c, env, ann)[..k])
  {
    var rows := SidecarRows(c, env, ann);
    if k > 0 {
      EnvSoFarIsCompact(c, env, ann, k - 1);
      CompactTake(rows, k - 1);
    }
  }

  method FluentDTimeouts(env: seq<EnvVar>, ann: Annotations) returns (out: seq<EnvVar>)
    ensures out == EnvSoFar(FluentD, env, ann, 3)
  {
    var sendTimeout := Override(ann, ANNOTATION_PREFIX + "send-timeout", "60s");
    out := [EnvVar("SEND_TIMEOUT", Literal(sendTimeout))];
    assert out == EnvSoFar(FluentD, env, ann, 1);
    var recoverWait := Override(ann, ANNOTATION_PREFIX + "recover-wait", "10s");
    out := out + [EnvVar("RECOVER_WAIT", Literal(recoverWait))];
    assert out == EnvSoFar(FluentD, env, ann, 2);
    var hardTimeout := Override(ann, ANNOTATION_PREFIX + "hard-timeout", "120s");
    out := out + [EnvVar("HARD_TIMEOUT", Literal(hardTimeout))];
  }

  method FluentDTarget(env: seq<EnvVar>, ann: Annotations) returns (r: Result<seq<EnvVar>, InjectError>)
    ensures r == if Effective(env, ann, FluentD, AggregatorHost) == "" then Err(HostRequired)
                 else if Effective(env, ann, FluentD, ApplicationLogDir) == "" then Err(LogDirRequired)
                 else Ok(EnvSoFar(FluentD, env, ann, 8))
  {
    var out := FluentDTimeouts(env, ann);
    var host := Effective(env, ann, FluentD, AggregatorHost);
    if host == "" { return Err(HostRequired); }
    out := out + [EnvVar("AGGREGATOR_HOST", Literal(host))];
    assert out == EnvSoFar(FluentD, env, ann, 4);
    var port := Effective(env, ann, FluentD, AggregatorPort);
    if port != "" { out := out + [EnvVar("AGGREGATOR_PORT", Literal(port))]; }
    assert out == EnvSoFar(FluentD, env, ann, 5);
    var logFormat := Effective(env, ann, FluentD, LogFormat);
    if logFormat != "" { out := out + [EnvVar("LOG_FORMAT", Literal(logFormat))]; }
    assert out == EnvSoFar(FluentD, env, ann, 6);
    var customEnv := Effective(env, ann, FluentD, CustomEnv);
    if customEnv != "" { out := out + [EnvVar("CUSTOM_ENV", Literal(customEnv))]; }
    assert out == EnvSoFar(FluentD, env, ann, 7);
    var dir := Effective(env, ann, FluentD, ApplicationLogDir);
    if dir == "" { return Err(LogDirRequired); }
    out := out + [EnvVar("APPLICATION_LOG_DIR", Literal(dir))];
    return Ok(out);
  }

  method FluentDParsing(sofar: seq<EnvVar>, env: seq<EnvVar>, ann: Annotations) returns (out: seq<EnvVar>)
    requires sofar == EnvSoFar(FluentD, env, ann, 8)
    ensures out == Compact(SidecarRows(FluentD, env, ann))
  {
    out := sofar;
    var tagPrefix := Effective(env, ann, FluentD, TagPrefix);
    if tagPrefix != "" { out := out + [EnvVar("TAG_PREFIX", Literal(tagPrefix))]; }
    assert out == EnvSoFar(FluentD, env, ann, 9);
    var timeKey := Effective(env, ann, FluentD, TimeKey);
    if timeKey != "" { out := out + [EnvVar("TIME_KEY", Literal(timeKey))]; }
    assert out == EnvSoFar(FluentD, env, ann, 10);
    out := FluentDRest(out, env, ann);
  }

  method FluentDRest(sofar: seq<EnvVar>, env: seq<EnvVar>, ann: Annotations) returns (out: seq<EnvVar>)
    requires sofar == EnvSoFar(FluentD, env, ann, 10)
    ensures out == Compact(SidecarRows(FluentD, env, ann))
  {
    out := AppendDownward(sofar, FluentD, env, ann, 10);
    var timeFormat := Effective(env, ann, FluentD, TimeFormat);
    if timeFormat != "" { out := out + [EnvVar("TIME_FORMAT", Literal(timeFormat))]; }
    assert out == EnvSoFar(FluentD, env, ann, 20);
    EnvSoFarIsCompact(FluentD, env, ann, 20);
    assert SidecarRows(FluentD, env, ann)[..20] == SidecarRows(FluentD, env, ann);
  }

  /** The nine downward-API variables, appended in one go. */
  method AppendDownward(sofar: seq<EnvVar>, c: Collector, env: seq<EnvVar>, ann: Annotations, at: nat)
    returns (out: seq<EnvVar>)
    requires sofar == EnvSoFar(c, env, ann, at) && at == if c.FluentD? then 10 else 7
    ensures out == EnvSoFar(c, env, ann, at + 9)
  {
    out := sofar +
      [EnvVar("NODE_NAME", FieldRef("spec.nodeName")),
       EnvVar("POD_NAME", FieldRef("metadata.name")),
       EnvVar("POD_NAMESPACE", FieldRef("metadata.namespace")),
       EnvVar("POD_IP", FieldRef("status.podIP")),
       EnvVar("POD_SERVICE_ACCOUNT", FieldRef("spec.serviceAccountName")),
       EnvVar("CPU_REQUEST", ResourceFieldRef(CONTAINER_NAME, "requests.cpu")),
       EnvVar("CPU_LIMIT", ResourceFieldRef(CONTAINER_NAME, "limits.cpu")),
       EnvVar("MEM_REQUEST", ResourceFieldRef(CONTAINER_NAME, "requests.memory")),
       EnvVar("MEM_LIMIT", ResourceFieldRef(CONTAINER_NAME, "limits.memory"))];
    DownwardSoFar(c, env, ann, at, 9);
    assert out == sofar + seq(9, i requires 0 <= i => Downward(i));
  }

  lemma DownwardRow(c: Collector, env: seq<EnvVar>, ann: Annotations, at: nat, i: nat)
    requires i < 9 && at == if c.FluentD? then 10 else 7
    ensures SidecarRow(c, env, ann, at + i) == Row(Downward(i), true)
  {
  }

  lemma {:induction false} DownwardSoFar(c: Collector, env: seq<EnvVar>, ann: Annotations, at: nat, n: nat)
    requires n <= 9 && at == if c.FluentD? then 10 else 7
    ensures EnvSoFar(c, env, ann, at + n) == EnvSoFar(c, env, ann, at) + seq(n, i requires 0 <= i => Downward(i))
  {
    hide SidecarRow;
    hide Downward;
    if n > 0 {
      DownwardSoFar(c, env, ann, at, n - 1);
      DownwardRow(c, env, ann, at, n - 1);
    }
  }

  method FluentBitTarget(env: seq<EnvVar>, ann: Annotations) returns (r: Result<seq<EnvVar>, InjectError>)
    ensures r == if Effective(env, ann, FluentBit, AggregatorHost) == "" then Err(HostRequired)
                 else if Effective(env, ann, FluentBit, ApplicationLogDir) == "" then Err(LogDirRequired)
                 else Ok(EnvSoFar(FluentBit, env, ann, 6))
  {
    var refreshInterval := Override(ann, ANNOTATION_PREFIX + "refresh-interval", "60");
    var out := [EnvVar("REFRESH_INTERVAL", Literal(refreshInterval))];
    assert out == EnvSoFar(FluentBit, env, ann, 1);
    var rotateWait := Override(ann, ANNOTATION_PREFIX + "rotate-wait", "5");
    out := out + [EnvVar("ROTATE_WAIT", Literal(rotateWait))];
    assert out == EnvSoFar(FluentBit, env, ann, 2);
    var host := Effective(env, ann, FluentBit, AggregatorHost);
    if host == "" { return Err(HostRequired); }
    out := out + [EnvVar("AGGREGATOR_HOST", Literal(host))];
    assert out == EnvSoFar(FluentBit, env, ann, 3);
    var port := Effective(env, ann, FluentBit, AggregatorPort);
    if port != "" { out := out + [EnvVar("AGGREGATOR_PORT", Literal(port))]; }
    assert out == EnvSoFar(FluentBit, env, ann, 4);
    var customEnv := Effective(env, ann, FluentBit, CustomEnv);
    if customEnv != "" { out := out + [EnvVar("CUSTOM_ENV", Literal(customEnv))]; }
    assert out == EnvSoFar(FluentBit, env, ann, 5);
    var dir := Effective(env, ann, FluentBit, ApplicationLogDir);
    if dir == "" { return Err(LogDirRequired); }
    out := out + [EnvVar("APPLICATION_LOG_DIR", Literal(dir))];
    return Ok(out);
  }

  method FluentBitParsing(sofar: seq<EnvVar>, env: seq<EnvVar>, ann: Annotations) returns (out: seq<EnvVar>)
    requires sofar == EnvSoFar(FluentBit, env, ann, 6)
    ensures out == Compact(SidecarRows(FluentBit, env, ann))
  {
    out := sofar;
    var tagPrefix := Effective(env, ann, FluentBit, TagPrefix);
    if tagPrefix != "" { out := out + [EnvVar("TAG_PREFIX", Literal(tagPrefix))]; }
    assert out == EnvSoFar(FluentBit, env, ann, 7);
    out := AppendDownward(out, FluentBit, env, ann, 7);
    EnvSoFarIsCompact(FluentBit, env, ann, 16);
    assert SidecarRows(FluentBit, env, ann)[..16] == SidecarRows(FluentBit, env, ann);
  }

  /** The search for the config volume, which stops at the first hit. */
  method FindVolume(volumes: Slice<Volume>, value: string) returns (found: bool)
    requires volumes.Valid()
    ensures found <==> HasVolume(volumes.Elems(), value)
  {
    for i := 0 to volumes.len
      invariant forall j | 0 <= j < i :: volumes.arr[j].name != value
    {
      if volumes.arr[i].name == value {
        assert volumes.Elems()[i].name == value;
        return true;
      }
    }
    return false;
  }

  /** The sidecar's own mounts; None when the config volume does not exist. */
  method SidecarVolumeMounts(c: Collector, dir: string, ann: Annotations, volumes: Slice<Volume>, spare: nat)
    returns (r: Option<Slice<Mount>>)
    requires volumes.Valid()
    ensures r.None? <==> CONFIG_VOLUME in ann && !HasVolume(volumes.Elems(), ann[CONFIG_VOLUME])
    ensures r.Some? ==> fresh(r.value.arr) && r.value.Valid() && r.value.Elems() == SidecarMounts(c, dir, ann)
  {
    var arr := new Mount[1](_ => LogMount(dir));
    var mounts := Slice(arr, 1);
    assert mounts.Elems() == [LogMount(dir)];
    if CONFIG_VOLUME in ann {
      var found := FindVolume(volumes, ann[CONFIG_VOLUME]);
      if !found { return None; }
      mounts := Append(mounts, Mount(ann[CONFIG_VOLUME], false, ConfigPath(c)), spare);
    }
    return Some(mounts);
  }

  /** Fields of the sidecar that do not depend on the pod's volumes. */
  function SidecarFields(c: Collector, env: seq<EnvVar>, ann: Annotations, vars: seq<EnvVar>): Container {
    Container(CONTAINER_NAME, Effective(env, ann, c, DockerImage), vars,
              if EXPOSE_PORT in ann then [Decimal.ExposedPort(ann[EXPOSE_PORT])] else [],
              SidecarResources(c, ann), [], "")
  }

  /** Everything up to the container loop: the checks in their order, and the sidecar. */
  method BuildSidecar(
      c: Collector, env: seq<EnvVar>, ann: Annotations, volumes: Slice<Volume>, spare: nat, ghost p: Pod)
    returns (r: Result<Cell, InjectError>)
    requires ann == p.annotations
    requires volumes.Valid() && volumes.Elems() == p.volumes + [LogVolume]
    ensures Refusal(c, env, p) == if r.Err? then Some(r.error) else None
    ensures r.Ok? ==> fresh(r.value.mounts.arr) && CellShows(r.value, Sidecar(c, env, ann))
  {
    var target;
    if c.FluentD? {
      target := FluentDTarget(env, ann);
    } else {
      target := FluentBitTarget(env, ann);
    }
    if target.Err? { return Err(target.error); }
    var dir := Effective(env, ann, c, ApplicationLogDir);
    var mounts := SidecarVolumeMounts(c, dir, ann, volumes, spare);
    if mounts.None? { return Err(ConfigVolumeMissing); }
    var vars;
    if c.FluentD? {
      vars := FluentDParsing(target.value, env, ann);
    } else {
      vars := FluentBitParsing(target.value, env, ann);
    }
    return Ok(Cell(SidecarFields(c, env, ann, vars), mounts.value));
  }

  /** The log volume is appended first, so it is there even when a later check refuses the pod. */
  method Prepare(c: Collector, pod: PodObject, env: seq<EnvVar>, spare: nat, ghost p: Pod)
    returns (r: Result<Cell, InjectError>)
    requires pod.Shows(p)
    modifies pod`volumes, pod.volumes.arr
    ensures pod.Shows(p.(volumes := p.volumes + [LogVolume]))
    ensures Refusal(c, env, p) == if r.Err? then Some(r.error) else None
    ensures r.Ok? ==> fresh(r.value.mounts.arr) && CellShows(r.value, Sidecar(c, env, p.annotations))
  {
    AppendLogVolume(pod, spare, p);
    r := BuildSidecar(c, env, pod.annotations, pod.volumes, spare, p);
  }

  /** `pod.Spec.Containers = containers`. */
  method SetContainers(pod: PodObject, containers: Slice<Cell>, ghost volumes: seq<Volume>, ghost cs: seq<Container>)
    requires pod.volumes.Valid() && pod.volumes.Elems() == volumes
    requires containers.Valid() && Separate(containers.Elems()) && CellsShow(containers.Elems(), cs)
    modifies pod`containers
    ensures pod.Shows(Pod(pod.annotations, volumes, cs, pod.rest))
  {
    pod.containers := containers;
  }

  method InjectFluentD(pod: PodObject, env: seq<EnvVar>, spare: nat, ghost p: Pod) returns (e: Option<InjectError>)
    requires pod.Shows(p)
    modifies pod.Memory()
    ensures match Inject(FluentD, env, p)
            case Ok(q) => e.None? && pod.Shows(q)
            case Err(err) => e == Some(err) && pod.Shows(p.(volumes := p.volumes + [LogVolume]))
  {
    hide Sidecar;
    hide Refusal;
    hide Effective;
    var built := Prepare(FluentD, pod, env, spare, p);
    if built.Err? { return Some(built.error); }
    var dir := Effective(env, pod.annotations, FluentD, ApplicationLogDir);
    var containers := MountAllRebuilding(pod.containers, LogMount(dir), built.value, spare,
                     p.containers, Sidecar(FluentD, env, p.annotations));
    SetContainers(pod, containers, p.volumes + [LogVolume],
                  AllWithMount(p.containers, LogMount(dir)) + [Sidecar(FluentD, env, p.annotations)]);
    return None;
  }

  method InjectFluentBit(pod: PodObject, env: seq<EnvVar>, spare: nat, ghost p: Pod) returns (e: Option<InjectError>)
    requires pod.Shows(p)
    modifies pod.Memory()
    ensures match Inject(FluentBit, env, p)
            case Ok(q) => e.None? && pod.Shows(q)
            case Err(err) => e == Some(err) && pod.Shows(p.(volumes := p.volumes + [LogVolume]))
  {
    hide Sidecar;
    hide Refusal;
    hide Effective;
    var built := Prepare(FluentBit, pod, env, spare, p);
    if built.Err? { return Some(built.error); }
    var dir := Effective(env, pod.annotations, FluentBit, ApplicationLogDir);
    var containers := MountAllInPlace(pod.containers, LogMount(dir), built.value, spare,
                     p.containers, Sidecar(FluentBit, env, p.annotations));
    SetContainers(pod, containers, p.volumes + [LogVolume],
                  AllWithMount(p.containers, LogMount(dir)) + [Sidecar(FluentBit, env, p.annotations)]);
    return None;
  }

  method AppendLogVolume(pod: PodObject, spare: nat, ghost p: Pod)
    requires pod.Shows(p)
    modifies pod`volumes, pod.volumes.arr
    ensures pod.volumes.arr == old(pod.volumes.arr) || fresh(pod.volumes.arr)
    ensures pod.Shows(p.(volumes := p.volumes + [LogVolume]))
  {
    pod.volumes := Append(pod.volumes, LogVolume, spare);
  }

  method DecodeContainer(ctr: Container) returns (cell: Cell)
    ensures fresh(cell.mounts.arr) && CellShows(cell, ctr)
  {
    var ms := ctr.mounts;
    var arr := new Mount[|ms|](k requires 0 <= k < |ms| => ms[k]);
    cell := Cell(ctr, Slice(arr, |ms|));
    assert cell.mounts.Elems() == ms;
  }

  /** One container more. */
  method DecodeNext(cells: seq<Cell>, p: Pod, i: nat) returns (more: seq<Cell>)
    requires i < |p.containers| && |cells| == i && AllDifferent(cells) && CellsShow(cells, p.containers[..i])
    ensures |more| == i + 1 && AllDifferent(more) && CellsShow(more, p.containers[..i + 1])
    ensures fresh(MountArrays(more) - MountArrays(cells))
  {
    var cell := DecodeContainer(p.containers[i]);
    hide CellShows;
    DifferentSnoc(cells, cell);
    ShowSnoc(cells, p.containers[..i], cell, p.containers[i]);
    ArraysSnoc(cells, cell);
    assert p.containers[..i + 1] == p.containers[..i] + [p.containers[i]];
    more := cells + [cell];
  }

  method DecodeContainers(p: Pod) returns (cells: seq<Cell>)
    ensures fresh(MountArrays(cells)) && AllDifferent(cells) && CellsShow(cells, p.containers)
  {
    cells := [];
    for i := 0 to |p.containers|
      invariant |cells| == i && fresh(MountArrays(cells)) && AllDifferent(cells)
      invariant CellsShow(cells, p.containers[..i])
    {
      cells := DecodeNext(cells, p, i);
    }
    assert p.containers[..|cells|] == p.containers;
  }

  /** json.Unmarshal: every slice gets a backing array of its own. */
  method Decode(p: Pod) returns (pod: PodObject)
    ensures fresh(pod) && fresh(pod.Memory()) && pod.Shows(p)
  {
    var volumes := new Volume[|p.volumes|](i requires 0 <= i < |p.volumes| => p.volumes[i]);
    var cells := DecodeContainers(p);
    hide CellsShow;
    var containers := new Cell[|cells|](i requires 0 <= i < |cells| => cells[i]);
    assert volumes[..] == p.volumes && containers[..] == cells;
    pod := new PodObject(p.annotations, p.rest, Slice(volumes, |p.volumes|), Slice(containers, |cells|));
    assert pod.containers.Elems() == cells;
  }
}
