/** Pods as values, and what one injection makes of them (validate.go). */
module Pods {
  import opened Basics
  import opened Settings
  import Decimal

  datatype Mount = Mount(name: string, readOnly: bool, mountPath: string)

  datatype VolumeSource = EmptyDir | OtherSource(text: string)

  datatype Volume = Volume(name: string, source: VolumeSource)

  /** A quantity written by NewQuantity, or one that only carries an annotation in its Format field. */
  datatype Quantity = Amount(milli: int) | FormatOnly(text: string)

  datatype Resources = Resources(requests: map<string, Quantity>, limits: map<string, Quantity>)

  /** `rest` stands for every container field the mutator does not read or write. */
  datatype Container = Container(
    name: string, image: string, env: seq<EnvVar>, ports: seq<Int32>, resources: Resources,
    mounts: seq<Mount>, rest: string)

  datatype Pod = Pod(annotations: Annotations, volumes: seq<Volume>, containers: seq<Container>, rest: string)

  datatype InjectError = HostRequired | LogDirRequired | ConfigVolumeMissing

  const CONTAINER_NAME := "fluentd-sidecar"
  const VOLUME_NAME := "fluentd-sidecar-injector-logs"
  const CONFIG_VOLUME := ANNOTATION_PREFIX + "config-volume"
  const EXPOSE_PORT := ANNOTATION_PREFIX + "expose-port"

  const LogVolume := Volume(VOLUME_NAME, EmptyDir)

  function LogMount(dir: string): Mount { Mount(VOLUME_NAME, false, dir) }

  function ConfigPath(c: Collector): string {
    match c case FluentD => "/fluentd/etc" case FluentBit => "/fluent-bit/etc"
  }

  predicate HasVolume(volumes: seq<Volume>, name: string) {
    exists i | 0 <= i < |volumes| :: volumes[i].name == name
  }

  lemma HasVolumeAppended(volumes: seq<Volume>, name: string)
    ensures HasVolume(volumes + [LogVolume], name) <==> HasVolume(volumes, name) || name == VOLUME_NAME
  {
    var out := volumes + [LogVolume];
    assert out[|volumes|].name == VOLUME_NAME;
    if i :| 0 <= i < |volumes| && volumes[i].name == name {
      assert out[i].name == name;
    }
  }

  /** The four resource annotations, honoured for fluentd only. */
  function SidecarResources(c: Collector, ann: Annotations): Resources {
    var requests := map["memory" := Amount(200 * 1024 * 1024 * 1000), "cpu" := Amount(100)];
    var limits := map["memory" := Amount(1000 * 1024 * 1024 * 1000)];
    if c.FluentBit? then Resources(requests, limits)
    else
      var r1 := SetFormat(requests, "memory", ann, "memory-request");
      var l1 := SetFormat(limits, "memory", ann, "memory-limit");
      Resources(SetFormat(r1, "cpu", ann, "cpu-request"), SetFormat(l1, "cpu", ann, "cpu-limit"))
  }

  function SetFormat(m: map<string, Quantity>, key: string, ann: Annotations, name: string): map<string, Quantity> {
    if ANNOTATION_PREFIX + name in ann then m[key := FormatOnly(ann[ANNOTATION_PREFIX + name])] else m
  }

  function Downward(i: nat): EnvVar {
    match i
    case 0 => EnvVar("NODE_NAME", FieldRef("spec.nodeName"))
    case 1 => EnvVar("POD_NAME", FieldRef("metadata.name"))
    case 2 => EnvVar("POD_NAMESPACE", FieldRef("metadata.namespace"))
    case 3 => EnvVar("POD_IP", FieldRef("status.podIP"))
    case 4 => EnvVar("POD_SERVICE_ACCOUNT", FieldRef("spec.serviceAccountName"))
    case 5 => EnvVar("CPU_REQUEST", ResourceFieldRef(CONTAINER_NAME, "requests.cpu"))
    case 6 => EnvVar("CPU_LIMIT", ResourceFieldRef(CONTAINER_NAME, "limits.cpu"))
    case 7 => EnvVar("MEM_REQUEST", ResourceFieldRef(CONTAINER_NAME, "requests.memory"))
    case _ => EnvVar("MEM_LIMIT", ResourceFieldRef(CONTAINER_NAME, "limits.memory"))
  }

  function Knob(ann: Annotations, name: string, default: string): string {
    Override(ann, ANNOTATION_PREFIX + name, default)
  }

  /** The i-th variable of the fluentd sidecar, in the order the mutator appends them. */
  function FluentDRow(env: seq<EnvVar>, ann: Annotations, i: nat): Row {
    match i
    case 0 => Always("SEND_TIMEOUT", Knob(ann, "send-timeout", "60s"))
    case 1 => Always("RECOVER_WAIT", Knob(ann, "recover-wait", "10s"))
    case 2 => Always("HARD_TIMEOUT", Knob(ann, "hard-timeout", "120s"))
    case 3 => Always("AGGREGATOR_HOST", Effective(env, ann, FluentD, AggregatorHost))
    case 4 => NonEmpty("AGGREGATOR_PORT", Effective(env, ann, FluentD, AggregatorPort))
    case 5 => NonEmpty("LOG_FORMAT", Effective(env, ann, FluentD, LogFormat))
    case 6 => NonEmpty("CUSTOM_ENV", Effective(env, ann, FluentD, CustomEnv))
    case 7 => Always("APPLICATION_LOG_DIR", Effective(env, ann, FluentD, ApplicationLogDir))
    case 8 => NonEmpty("TAG_PREFIX", Effective(env, ann, FluentD, TagPrefix))
    case 9 => NonEmpty("TIME_KEY", Effective(env, ann, FluentD, TimeKey))
    case 19 => NonEmpty("TIME_FORMAT", Effective(env, ann, FluentD, TimeFormat))
    case _ => Row(Downward(if i < 10 then 0 else i - 10), true)
  }

  /** The i-th variable of the fluent-bit sidecar. */
  function FluentBitRow(env: seq<EnvVar>, ann: Annotations, i: nat): Row {
    match i
    case 0 => Always("REFRESH_INTERVAL", Knob(ann, "refresh-interval", "60"))
    case 1 => Always("ROTATE_WAIT", Knob(ann, "rotate-wait", "5"))
    case 2 => Always("AGGREGATOR_HOST", Effective(env, ann, FluentBit, AggregatorHost))
    case 3 => NonEmpty("AGGREGATOR_PORT", Effective(env, ann, FluentBit, AggregatorPort))
    case 4 => NonEmpty("CUSTOM_ENV", Effective(env, ann, FluentBit, CustomEnv))
    case 5 => Always("APPLICATION_LOG_DIR", Effective(env, ann, FluentBit, ApplicationLogDir))
    case 6 => NonEmpty("TAG_PREFIX", Effective(env, ann, FluentBit, TagPrefix))
    case _ => Row(Downward(if i < 7 then 0 else i - 7), true)
  }

  function RowCount(c: Collector): nat { if c.FluentD? then 20 else 16 }

  function SidecarRow(c: Collector, env: seq<EnvVar>, ann: Annotations, i: nat): Row {
    if c.FluentD? then FluentDRow(env, ann, i) else FluentBitRow(env, ann, i)
  }

  function SidecarRows(c: Collector, env: seq<EnvVar>, ann: Annotations): seq<Row> {
    seq(RowCount(c), i requires 0 <= i => SidecarRow(c, env, ann, i))
  }

  function SidecarMounts(c: Collector, dir: string, ann: Annotations): seq<Mount> {
    [LogMount(dir)] + if CONFIG_VOLUME in ann then [Mount(ann[CONFIG_VOLUME], false, ConfigPath(c))] else []
  }

  function Sidecar(c: Collector, env: seq<EnvVar>, ann: Annotations): Container {
    Container(
      CONTAINER_NAME, Effective(env, ann, c, DockerImage), Compact(SidecarRows(c, env, ann)),
      if EXPOSE_PORT in ann then [Decimal.ExposedPort(ann[EXPOSE_PORT])] else [],
      SidecarResources(c, ann), SidecarMounts(c, Effective(env, ann, c, ApplicationLogDir), ann), "")
  }

  /** The checks of the mutator, in its order. */
  function Refusal(c: Collector, env: seq<EnvVar>, pod: Pod): Option<InjectError> {
    if Effective(env, pod.annotations, c, AggregatorHost) == "" then Some(HostRequired)
    else if Effective(env, pod.annotations, c, ApplicationLogDir) == "" then Some(LogDirRequired)
    else if CONFIG_VOLUME in pod.annotations && !HasVolume(pod.volumes + [LogVolume], pod.annotations[CONFIG_VOLUME])
    then Some(ConfigVolumeMissing)
    else None
  }

  function WithMount(ctr: Container, m: Mount): Container { ctr.(mounts := ctr.mounts + [m]) }

  function AllWithMount(cs: seq<Container>, m: Mount): (r: seq<Container>)
    ensures |r| == |cs|
    ensures forall i | 0 <= i < |cs| :: r[i] == WithMount(cs[i], m)
  {
    if cs == [] then [] else AllWithMount(cs[..|cs| - 1], m) + [WithMount(Last(cs), m)]
  }

  /** The pod after a successful injection. */
  function Injected(c: Collector, env: seq<EnvVar>, pod: Pod): Pod {
    var dir := Effective(env, pod.annotations, c, ApplicationLogDir);
    pod.(volumes := pod.volumes + [LogVolume],
         containers := AllWithMount(pod.containers, LogMount(dir)) + [Sidecar(c, env, pod.annotations)])
  }

  function Inject(c: Collector, env: seq<EnvVar>, pod: Pod): Result<Pod, InjectError> {
    match Refusal(c, env, pod)
    case Some(e) => Err(e)
    case None => Ok(Injected(c, env, pod))
  }

  // ----- What the sidecar sees -----

  function SidecarSetting(sidecar: Container, s: Setting): string {
    if s.DockerImage? then sidecar.image
    else if Lookup(sidecar.env, Tag(s)).Some? then Text(Lookup(sidecar.env, Tag(s)).value) else ""
  }

  const FLUENTD_NAMES: seq<string> :=
    ["SEND_TIMEOUT", "RECOVER_WAIT", "HARD_TIMEOUT", "AGGREGATOR_HOST", "AGGREGATOR_PORT", "LOG_FORMAT",
     "CUSTOM_ENV", "APPLICATION_LOG_DIR", "TAG_PREFIX", "TIME_KEY", "NODE_NAME", "POD_NAME", "POD_NAMESPACE",
     "POD_IP", "POD_SERVICE_ACCOUNT", "CPU_REQUEST", "CPU_LIMIT", "MEM_REQUEST", "MEM_LIMIT", "TIME_FORMAT"]

  const FLUENTBIT_NAMES: seq<string> :=
    ["REFRESH_INTERVAL", "ROTATE_WAIT", "AGGREGATOR_HOST", "AGGREGATOR_PORT", "CUSTOM_ENV", "APPLICATION_LOG_DIR",
     "TAG_PREFIX", "NODE_NAME", "POD_NAME", "POD_NAMESPACE", "POD_IP", "POD_SERVICE_ACCOUNT", "CPU_REQUEST",
     "CPU_LIMIT", "MEM_REQUEST", "MEM_LIMIT"]

  predicate Distinct(names: seq<string>) {
    forall i, j | 0 <= i < j < |names| :: names[i] != names[j]
  }

  /** Enough of a name to tell the sidecar's variables apart: its length and two letters. */
  function Shape(name: string): (nat, char, char)
    requires |name| >= 4
  {
    (|name|, name[0], name[|name| - 4])
  }

  lemma FluentDShapes(i: nat, j: nat)
    requires i < j < 20
    ensures Shape(FLUENTD_NAMES[i]) != Shape(FLUENTD_NAMES[j])
  {
  }

  lemma FluentDNamesDistinct()
    ensures Distinct(FLUENTD_NAMES)
  {
    forall i, j | 0 <= i < j < |FLUENTD_NAMES| ensures FLUENTD_NAMES[i] != FLUENTD_NAMES[j] {
      FluentDShapes(i, j);
    }
  }

  lemma FluentBitNamesDistinct()
    ensures Distinct(FLUENTBIT_NAMES)
  {
  }

  lemma FluentDRowName(env: seq<EnvVar>, ann: Annotations, i: nat)
    requires i < 20
    ensures FluentDRow(env, ann, i).v.name == FLUENTD_NAMES[i]
  {
  }

  lemma FluentBitRowName(env: seq<EnvVar>, ann: Annotations, i: nat)
    requires i < 16
    ensures FluentBitRow(env, ann, i).v.name == FLUENTBIT_NAMES[i]
  {
  }

  lemma SidecarRowsDistinct(c: Collector, env: seq<EnvVar>, ann: Annotations)
    ensures DistinctRows(SidecarRows(c, env, ann))
  {
    FluentDNamesDistinct();
    FluentBitNamesDistinct();
    var rows := SidecarRows(c, env, ann);
    forall i, j | 0 <= i < j < |rows| ensures rows[i].v.name != rows[j].v.name {
      if c.FluentD? {
        FluentDRowName(env, ann, i);
        FluentDRowName(env, ann, j);
      } else {
        FluentBitRowName(env, ann, i);
        FluentBitRowName(env, ann, j);
      }
    }
  }

  /** The sidecar never gets two variables of one name. */
  lemma SidecarEnvDistinct(c: Collector, env: seq<EnvVar>, ann: Annotations)
    ensures DistinctNames(Sidecar(c, env, ann).env)
  {
    SidecarRowsDistinct(c, env, ann);
    CompactDistinct(SidecarRows(c, env, ann));
  }

  function SidecarIndex(c: Collector, s: Setting): nat {
    match s
    case AggregatorHost => if c.FluentD? then 3 else 2
    case AggregatorPort => if c.FluentD? then 4 else 3
    case LogFormat => 5
    case CustomEnv => if c.FluentD? then 6 else 4
    case ApplicationLogDir => if c.FluentD? then 7 else 5
    case TagPrefix => if c.FluentD? then 8 else 6
    case TimeKey => 9
    case _ => 19
  }

  lemma SettingRow(c: Collector, env: seq<EnvVar>, ann: Annotations, s: Setting)
    requires Supports(c, s) && !s.DockerImage?
    ensures SidecarIndex(c, s) < RowCount(c)
    ensures var r := SidecarRow(c, env, ann, SidecarIndex(c, s));
            r.v == EnvVar(Tag(s), Literal(Effective(env, ann, c, s))) && (r.emitted || Effective(env, ann, c, s) == "")
  {
  }

  /** What the sidecar sees of a setting is what the mutator worked with. */
  lemma SidecarSees(c: Collector, env: seq<EnvVar>, ann: Annotations, s: Setting)
    requires Supports(c, s)
    ensures SidecarSetting(Sidecar(c, env, ann), s) == Effective(env, ann, c, s)
  {
    if !s.DockerImage? {
      SettingRow(c, env, ann, s);
      SidecarRowsDistinct(c, env, ann);
      hide Effective;
      hide SidecarRow;
      hide SidecarResources;
      hide SidecarMounts;
      hide Compact;
      CompactLookup(SidecarRows(c, env, ann), SidecarIndex(c, s));
    }
  }

  /** For every CR and every annotation map the sidecar sees the documented value of every setting. */
  lemma SidecarFaithful(spec: Spec, pod: Pod, c: Collector, s: Setting)
    requires Supports(c, s)
    requires Inject(c, DeploymentEnv(spec), pod).Ok?
    ensures SidecarSetting(Last(Inject(c, DeploymentEnv(spec), pod).value.containers), s) ==
            Expected(spec, pod.annotations, c, s)
  {
    SettingsFaithful(spec, pod.annotations, c, s);
    SidecarSees(c, DeploymentEnv(spec), pod.annotations, s);
    hide Effective;
    hide Expected;
    hide Sidecar;
    hide SidecarSetting;
    hide Refusal;
  }
}
