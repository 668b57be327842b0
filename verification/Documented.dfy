/**
 The documentation's view of the webhook: annotations, variables, custom resource fields and
 defaults under their own names, and what an injection makes of them.  Nothing here speaks of
 settings, rows or tags, so each statement says outright what ends up in the Deployment or
 in the sidecar.
 */
module Documented {
  import opened Basics
  import Decimal
  import opened Settings
  import opened Pods

  const PREFIX := "fluentd-sidecar-injector.h3poteto.dev/"

  predicate Unset(env: seq<EnvVar>, variable: string) { forall v | v in env :: v.name != variable }

  /** The list has the variable, with this value; an empty value means that it does not have it. */
  predicate Has(env: seq<EnvVar>, variable: string, value: string) {
    if value == "" then Unset(env, variable) else EnvVar(variable, Literal(value)) in env
  }

  /** The value is the annotation's if there is one, even an empty one, else the field's, else the default. */
  predicate Chosen(ann: Annotations, annotation: string, field: string, default: string, value: string) {
    && (annotation in ann ==> value == ann[annotation])
    && (annotation !in ann && field != "" ==> value == field)
    && (annotation !in ann && field == "" ==> value == default)
  }

  /** The variable is there with the value so chosen, or not there if that is empty. */
  predicate Says(
      env: seq<EnvVar>, variable: string, ann: Annotations, annotation: string, field: string, default: string)
  {
    && (annotation in ann ==> Has(env, variable, ann[annotation]))
    && (annotation !in ann && field != "" ==> Has(env, variable, field))
    && (annotation !in ann && field == "" ==> Has(env, variable, default))
  }

  /** Likewise for a variable that no field sets; it is there even when it is empty. */
  predicate Tunes(env: seq<EnvVar>, variable: string, ann: Annotations, annotation: string, default: string) {
    EnvVar(variable, Literal(if annotation in ann then ann[annotation] else default)) in env
  }

  /** The list has the variable, with the numeral that reads back as the port; 0 means that it does not have it. */
  predicate HasPort(env: seq<EnvVar>, variable: string, port: Int32) {
    if port == 0 then Unset(env, variable)
    else exists v | v in env ::
           && v.name == variable && v.source.Literal?
           && Decimal.Atoi(v.source.value) == port && v.source.value == Decimal.Print(port)
  }

  /** The port variable: the annotation's text if there is one, else the field's numeral, else 24224. */
  predicate SaysPort(env: seq<EnvVar>, variable: string, ann: Annotations, annotation: string, port: Int32) {
    && (annotation in ann ==> Has(env, variable, ann[annotation]))
    && (annotation !in ann && port != 0 ==> HasPort(env, variable, port))
    && (annotation !in ann && port == 0 ==> Has(env, variable, "24224"))
  }

  // ----- Compacted lists -----

  /** With distinct names, a row's variable is in the list if it was emitted, and otherwise none of its name is. */
  lemma {:induction false} CompactHolds(rows: seq<Row>, i: nat)
    requires DistinctRows(rows) && i < |rows|
    ensures rows[i].emitted ==> rows[i].v in Compact(rows)
    ensures !rows[i].emitted ==> forall v | v in Compact(rows) :: v.name != rows[i].v.name
  {
    var init := rows[..|rows| - 1];
    if i < |init| {
      CompactHolds(init, i);
    } else {
      forall v | v in Compact(init) ensures v.name != rows[i].v.name {
        CompactMembers(init, v);
      }
    }
  }

  /** The variables come in the order of the rows. */
  lemma {:induction false} CompactOrdered(rows: seq<Row>, i: nat, j: nat) returns (a: nat, b: nat)
    requires i < j < |Compact(rows)|
    ensures a < b < |rows| && Compact(rows)[i] == rows[a].v && Compact(rows)[j] == rows[b].v
  {
    var init := rows[..|rows| - 1];
    if j < |Compact(init)| {
      a, b := CompactOrdered(init, i, j);
    } else {
      CompactMembers(init, Compact(init)[i]);
      a :| 0 <= a < |init| && init[a].emitted && init[a].v == Compact(init)[i];
      b := |rows| - 1;
    }
  }

  /** Names from this list only, each at most once, in the list's order. */
  predicate InOrder(env: seq<EnvVar>, names: seq<string>) {
    && (forall v | v in env :: v.name in names)
    && forall i, j | 0 <= i < j < |env| ::
         exists a, b :: 0 <= a < b < |names| && names[a] == env[i].name && names[b] == env[j].name
  }

  lemma CompactInOrder(rows: seq<Row>, names: seq<string>)
    requires |names| == |rows| && forall k | 0 <= k < |rows| :: rows[k].v.name == names[k]
    ensures InOrder(Compact(rows), names)
  {
    var env := Compact(rows);
    forall v | v in env ensures v.name in names {
      CompactMembers(rows, v);
    }
    forall i, j | 0 <= i < j < |env|
      ensures exists a, b :: 0 <= a < b < |names| && names[a] == env[i].name && names[b] == env[j].name
    {
      var a, b := CompactOrdered(rows, i, j);
      assert names[a] == env[i].name && names[b] == env[j].name;
    }
  }

  // ----- The environment of the webhook Deployment -----

  lemma PortHeld(env: seq<EnvVar>, variable: string, port: Int32)
    requires Has(env, variable, PortText(port))
    ensures HasPort(env, variable, port)
  {
    PrintNonEmpty(port);
    Decimal.AtoiOfPrint(port);
    if port != 0 {
      var v := EnvVar(variable, Literal(PortText(port)));
      assert v in env && v.source.value == Decimal.Print(port);
    }
  }

  lemma RowHolds(spec: Spec, k: nat)
    requires k < ROWS
    ensures Has(DeploymentEnv(spec), NAMES[k], SpecField(spec, CollectorAt(k), SettingAt(k)))
  {
    var rows := Rows(spec, ROWS);
    RowsDistinct(spec);
    assert rows[k + 1] == RowOf(spec, k);
    CompactHolds(rows, k + 1);
  }

  /** The variables written for a fluentd section; for a missing one, none. */
  predicate WritesFluentD(env: seq<EnvVar>, section: Option<FluentDSpec>) {
    var d := if section.Some? then section.value else FluentDSpec("", "", 0, "", "", "", "", "");
    && Has(env, "FLUENTD_DOCKER_IMAGE", d.dockerImage)
    && Has(env, "FLUENTD_AGGREGATOR_HOST", d.aggregatorHost)
    && HasPort(env, "FLUENTD_AGGREGATOR_PORT", d.aggregatorPort)
    && Has(env, "FLUENTD_APPLICATION_LOG_DIR", d.applicationLogDir)
    && Has(env, "FLUENTD_TAG_PREFIX", d.tagPrefix)
    && Has(env, "FLUENTD_TIME_KEY", d.timeKey)
    && Has(env, "FLUENTD_TIME_FORMAT", d.timeFormat)
    && Has(env, "FLUENTD_CUSTOM_ENV", d.customEnv)
  }

  predicate WritesFluentBit(env: seq<EnvVar>, section: Option<FluentBitSpec>) {
    var b := if section.Some? then section.value else FluentBitSpec("", "", 0, "", "", "");
    && Has(env, "FLUENTBIT_DOCKER_IMAGE", b.dockerImage)
    && Has(env, "FLUENTBIT_AGGREGATOR_HOST", b.aggregatorHost)
    && HasPort(env, "FLUENTBIT_AGGREGATOR_PORT", b.aggregatorPort)
    && Has(env, "FLUENTBIT_APPLICATION_LOG_DIR", b.applicationLogDir)
    && Has(env, "FLUENTBIT_TAG_PREFIX", b.tagPrefix)
    && Has(env, "FLUENTBIT_CUSTOM_ENV", b.customEnv)
  }

  const DEPLOYMENT_VARIABLES: seq<string> :=
    ["COLLECTOR",
     "FLUENTD_DOCKER_IMAGE", "FLUENTD_AGGREGATOR_HOST", "FLUENTD_AGGREGATOR_PORT", "FLUENTD_APPLICATION_LOG_DIR",
     "FLUENTD_TAG_PREFIX", "FLUENTD_TIME_KEY", "FLUENTD_TIME_FORMAT", "FLUENTD_CUSTOM_ENV",
     "FLUENTBIT_DOCKER_IMAGE", "FLUENTBIT_AGGREGATOR_HOST", "FLUENTBIT_AGGREGATOR_PORT",
     "FLUENTBIT_APPLICATION_LOG_DIR", "FLUENTBIT_TAG_PREFIX", "FLUENTBIT_CUSTOM_ENV"]

  /** What the env list of the webhook container says of the custom resource. */
  predicate WritesSpec(env: seq<EnvVar>, spec: Spec) {
    && EnvVar("COLLECTOR", Literal(spec.collector)) in env
    && WritesFluentD(env, spec.fluentD) && WritesFluentBit(env, spec.fluentBit)
    && InOrder(env, DEPLOYMENT_VARIABLES) && DistinctNames(env)
  }

  lemma FluentDWritten(spec: Spec)
    ensures WritesFluentD(DeploymentEnv(spec), spec.fluentD)
  {
    hide Has;
    hide HasPort;
    hide DeploymentEnv;
    RowHolds(spec, 0);
    RowHolds(spec, 1);
    RowHolds(spec, 2);
    RowHolds(spec, 3);
    RowHolds(spec, 4);
    RowHolds(spec, 5);
    RowHolds(spec, 6);
    RowHolds(spec, 7);
    var port := if spec.fluentD.Some? then spec.fluentD.value.aggregatorPort else 0;
    PortHeld(DeploymentEnv(spec), "FLUENTD_AGGREGATOR_PORT", port);
  }

  lemma FluentBitWritten(spec: Spec)
    ensures WritesFluentBit(DeploymentEnv(spec), spec.fluentBit)
  {
    hide Has;
    hide HasPort;
    hide DeploymentEnv;
    RowHolds(spec, 8);
    RowHolds(spec, 9);
    RowHolds(spec, 10);
    RowHolds(spec, 11);
    RowHolds(spec, 12);
    RowHolds(spec, 13);
    var port := if spec.fluentBit.Some? then spec.fluentBit.value.aggregatorPort else 0;
    PortHeld(DeploymentEnv(spec), "FLUENTBIT_AGGREGATOR_PORT", port);
  }

  lemma RowNames(spec: Spec, k: nat)
    requires k <= ROWS
    ensures Rows(spec, ROWS)[k].v.name == DEPLOYMENT_VARIABLES[k]
  {
  }

  /**
   The Deployment's environment, field by field of the custom resource: COLLECTOR always, a
   variable for every field that is set, a port as its numeral, and nothing else.
   */
  lemma DeploymentEnvSays(spec: Spec)
    ensures WritesSpec(DeploymentEnv(spec), spec)
  {
    hide Has;
    hide RowOf;
    var rows := Rows(spec, ROWS);
    RowsDistinct(spec);
    CompactHolds(rows, 0);
    FluentDWritten(spec);
    FluentBitWritten(spec);
    forall k: nat | k < |rows| ensures rows[k].v.name == DEPLOYMENT_VARIABLES[k] {
      RowNames(spec, k);
    }
    CompactInOrder(rows, DEPLOYMENT_VARIABLES);
    DeploymentEnvDistinct(spec);
  }

  // ----- The sidecar -----

  /** The variables every sidecar gets from the downward API. */
  predicate TellsOfPod(env: seq<EnvVar>) {
    && EnvVar("NODE_NAME", FieldRef("spec.nodeName")) in env
    && EnvVar("POD_NAME", FieldRef("metadata.name")) in env
    && EnvVar("POD_NAMESPACE", FieldRef("metadata.namespace")) in env
    && EnvVar("POD_IP", FieldRef("status.podIP")) in env
    && EnvVar("POD_SERVICE_ACCOUNT", FieldRef("spec.serviceAccountName")) in env
    && EnvVar("CPU_REQUEST", ResourceFieldRef("fluentd-sidecar", "requests.cpu")) in env
    && EnvVar("CPU_LIMIT", ResourceFieldRef("fluentd-sidecar", "limits.cpu")) in env
    && EnvVar("MEM_REQUEST", ResourceFieldRef("fluentd-sidecar", "requests.memory")) in env
    && EnvVar("MEM_LIMIT", ResourceFieldRef("fluentd-sidecar", "limits.memory")) in env
  }

  /** What both collectors take from the custom resource: where the logs come from and where they go. */
  predicate Routed(env: seq<EnvVar>, ann: Annotations, host: string, port: Int32, dir: string) {
    && Says(env, "AGGREGATOR_HOST", ann, PREFIX + "aggregator-host", host, "")
    && SaysPort(env, "AGGREGATOR_PORT", ann, PREFIX + "aggregator-port", port)
    && Says(env, "APPLICATION_LOG_DIR", ann, PREFIX + "application-log-dir", dir, "")
  }

  predicate Tagged(env: seq<EnvVar>, ann: Annotations, tagPrefix: string, customEnv: string) {
    && Says(env, "TAG_PREFIX", ann, PREFIX + "tag-prefix", tagPrefix, "app")
    && Says(env, "CUSTOM_ENV", ann, PREFIX + "custom-env", customEnv, "")
  }

  predicate Parsed(env: seq<EnvVar>, ann: Annotations, timeKey: string, timeFormat: string) {
    && Says(env, "TIME_KEY", ann, PREFIX + "time-key", timeKey, "time")
    && Says(env, "TIME_FORMAT", ann, PREFIX + "time-format", timeFormat, "%Y-%m-%dT%H:%M:%S%z")
    && Says(env, "LOG_FORMAT", ann, PREFIX + "log-format", "", "json")
  }

  predicate FluentDConfigured(sidecar: Container, section: Option<FluentDSpec>, ann: Annotations) {
    var d := if section.Some? then section.value else FluentDSpec("", "", 0, "", "", "", "", "");
    && Chosen(ann, PREFIX + "docker-image", d.dockerImage, "ghcr.io/h3poteto/fluentd-forward:latest", sidecar.image)
    && Routed(sidecar.env, ann, d.aggregatorHost, d.aggregatorPort, d.applicationLogDir)
    && Tagged(sidecar.env, ann, d.tagPrefix, d.customEnv)
    && Parsed(sidecar.env, ann, d.timeKey, d.timeFormat)
  }

  predicate FluentBitConfigured(sidecar: Container, section: Option<FluentBitSpec>, ann: Annotations) {
    var b := if section.Some? then section.value else FluentBitSpec("", "", 0, "", "", "");
    && Chosen(ann, PREFIX + "docker-image", b.dockerImage, "ghcr.io/h3poteto/fluentbit-forward:latest", sidecar.image)
    && Routed(sidecar.env, ann, b.aggregatorHost, b.aggregatorPort, b.applicationLogDir)
    && Tagged(sidecar.env, ann, b.tagPrefix, b.customEnv)
  }

  predicate FluentDTuned(env: seq<EnvVar>, ann: Annotations) {
    && Tunes(env, "SEND_TIMEOUT", ann, PREFIX + "send-timeout", "60s")
    && Tunes(env, "RECOVER_WAIT", ann, PREFIX + "recover-wait", "10s")
    && Tunes(env, "HARD_TIMEOUT", ann, PREFIX + "hard-timeout", "120s")
  }

  predicate FluentBitTuned(env: seq<EnvVar>, ann: Annotations) {
    && Tunes(env, "REFRESH_INTERVAL", ann, PREFIX + "refresh-interval", "60")
    && Tunes(env, "ROTATE_WAIT", ann, PREFIX + "rotate-wait", "5")
  }

  /** Everything the sidecar's image and variables say, and in which order. */
  predicate Configured(c: Collector, sidecar: Container, spec: Spec, ann: Annotations) {
    && (if c.FluentD? then FluentDConfigured(sidecar, spec.fluentD, ann) && FluentDTuned(sidecar.env, ann)
        else FluentBitConfigured(sidecar, spec.fluentBit, ann) && FluentBitTuned(sidecar.env, ann))
    && TellsOfPod(sidecar.env)
    && InOrder(sidecar.env, if c.FluentD? then FLUENTD_NAMES else FLUENTBIT_NAMES) && DistinctNames(sidecar.env)
  }

  lemma SidecarRowHolds(c: Collector, env: seq<EnvVar>, ann: Annotations, i: nat)
    requires i < RowCount(c)
    ensures var r := SidecarRow(c, env, ann, i);
            && (r.emitted ==> r.v in Sidecar(c, env, ann).env)
            && (!r.emitted ==> forall v | v in Sidecar(c, env, ann).env :: v.name != r.v.name)
  {
    SidecarRowsDistinct(c, env, ann);
    CompactHolds(SidecarRows(c, env, ann), i);
  }

  /** A setting's variable is left out exactly when it would be empty; host and log dir never are. */
  lemma RowIsOptional(c: Collector, env: seq<EnvVar>, ann: Annotations, s: Setting)
    requires Supports(c, s) && !s.DockerImage?
    requires s.AggregatorHost? || s.ApplicationLogDir? ==> Effective(env, ann, c, s) != ""
    ensures SidecarIndex(c, s) < RowCount(c)
    ensures var r := SidecarRow(c, env, ann, SidecarIndex(c, s));
            && r.v == EnvVar(Tag(s), Literal(Effective(env, ann, c, s)))
            && (r.emitted <==> Effective(env, ann, c, s) != "")
  {
    SettingRow(c, env, ann, s);
  }

  lemma SettingHeld(c: Collector, spec: Spec, pod: Pod, s: Setting)
    requires Supports(c, s) && !s.DockerImage? && Refusal(c, DeploymentEnv(spec), pod).None?
    ensures Has(Sidecar(c, DeploymentEnv(spec), pod.annotations).env, Tag(s), Expected(spec, pod.annotations, c, s))
  {
    var env, ann := DeploymentEnv(spec), pod.annotations;
    SettingsFaithful(spec, ann, c, s);
    RowIsOptional(c, env, ann, s);
    SidecarRowHolds(c, env, ann, SidecarIndex(c, s));
  }

  lemma PortSaid(c: Collector, spec: Spec, pod: Pod, port: Int32)
    requires Refusal(c, DeploymentEnv(spec), pod).None? && SpecField(spec, c, AggregatorPort) == PortText(port)
    ensures SaysPort(Sidecar(c, DeploymentEnv(spec), pod.annotations).env, "AGGREGATOR_PORT", pod.annotations,
                     PREFIX + "aggregator-port", port)
  {
    SettingHeld(c, spec, pod, AggregatorPort);
    var env := Sidecar(c, DeploymentEnv(spec), pod.annotations).env;
    PrintNonEmpty(port);
    if PREFIX + "aggregator-port" !in pod.annotations && port != 0 {
      PortHeld(env, "AGGREGATOR_PORT", port);
    }
  }

  lemma SettingSaid(c: Collector, spec: Spec, pod: Pod, s: Setting)
    requires Supports(c, s) && !s.DockerImage? && Refusal(c, DeploymentEnv(spec), pod).None?
    ensures Says(Sidecar(c, DeploymentEnv(spec), pod.annotations).env, Tag(s), pod.annotations,
                 AnnotationName(s), SpecField(spec, c, s), Default(c, s))
  {
    SettingHeld(c, spec, pod, s);
    hide Has;
    hide AnnotationName;
    hide SpecField;
    hide Default;
    hide Tag;
    hide Sidecar;
    hide Refusal;
  }

  /** Variable, annotation, field and default of a setting by their own names. */
  predicate Named(
      c: Collector, spec: Spec, s: Setting, variable: string, annotation: string, field: string, default: string)
  {
    Tag(s) == variable && AnnotationName(s) == annotation && SpecField(spec, c, s) == field && Default(c, s) == default
  }

  lemma SaidByName(
      c: Collector, spec: Spec, pod: Pod, s: Setting,
      variable: string, annotation: string, field: string, default: string)
    requires Supports(c, s) && !s.DockerImage? && Refusal(c, DeploymentEnv(spec), pod).None?
    requires Named(c, spec, s, variable, annotation, field, default)
    ensures Says(Sidecar(c, DeploymentEnv(spec), pod.annotations).env, variable, pod.annotations,
                 annotation, field, default)
  {
    SettingSaid(c, spec, pod, s);
  }

  lemma IsRouted(c: Collector, spec: Spec, pod: Pod, host: string, port: Int32, dir: string)
    requires Refusal(c, DeploymentEnv(spec), pod).None?
    requires SpecField(spec, c, AggregatorHost) == host && SpecField(spec, c, ApplicationLogDir) == dir
    requires SpecField(spec, c, AggregatorPort) == PortText(port)
    ensures Routed(Sidecar(c, DeploymentEnv(spec), pod.annotations).env, pod.annotations, host, port, dir)
  {
    hide Says;
    hide Refusal;
    hide Sidecar;
    PortSaid(c, spec, pod, port);
    hide SaysPort;
    SaidByName(c, spec, pod, AggregatorHost, "AGGREGATOR_HOST", PREFIX + "aggregator-host", host, "");
    SaidByName(c, spec, pod, ApplicationLogDir, "APPLICATION_LOG_DIR", PREFIX + "application-log-dir", dir, "");
  }

  lemma IsTagged(c: Collector, spec: Spec, pod: Pod, tagPrefix: string, customEnv: string)
    requires Refusal(c, DeploymentEnv(spec), pod).None?
    requires SpecField(spec, c, TagPrefix) == tagPrefix && SpecField(spec, c, CustomEnv) == customEnv
    ensures Tagged(Sidecar(c, DeploymentEnv(spec), pod.annotations).env, pod.annotations, tagPrefix, customEnv)
  {
    hide Says;
    hide Refusal;
    hide Sidecar;
    SaidByName(c, spec, pod, TagPrefix, "TAG_PREFIX", PREFIX + "tag-prefix", tagPrefix, "app");
    SaidByName(c, spec, pod, CustomEnv, "CUSTOM_ENV", PREFIX + "custom-env", customEnv, "");
  }

  lemma IsParsed(spec: Spec, pod: Pod, timeKey: string, timeFormat: string)
    requires Refusal(FluentD, DeploymentEnv(spec), pod).None?
    requires SpecField(spec, FluentD, TimeKey) == timeKey && SpecField(spec, FluentD, TimeFormat) == timeFormat
    ensures Parsed(Sidecar(FluentD, DeploymentEnv(spec), pod.annotations).env, pod.annotations, timeKey, timeFormat)
  {
    hide Says;
    hide Refusal;
    hide Sidecar;
    SaidByName(FluentD, spec, pod, TimeKey, "TIME_KEY", PREFIX + "time-key", timeKey, "time");
    SaidByName(FluentD, spec, pod, TimeFormat, "TIME_FORMAT", PREFIX + "time-format", timeFormat,
               "%Y-%m-%dT%H:%M:%S%z");
    SaidByName(FluentD, spec, pod, LogFormat, "LOG_FORMAT", PREFIX + "log-format", "", "json");
  }

  lemma ImageChosen(c: Collector, spec: Spec, ann: Annotations, image: string, default: string)
    requires SpecField(spec, c, DockerImage) == image && Default(c, DockerImage) == default
    ensures Chosen(ann, PREFIX + "docker-image", image, default, Sidecar(c, DeploymentEnv(spec), ann).image)
  {
    SettingsFaithful(spec, ann, c, DockerImage);
  }

  lemma FluentDIsConfigured(spec: Spec, pod: Pod)
    requires Refusal(FluentD, DeploymentEnv(spec), pod).None?
    ensures FluentDConfigured(Sidecar(FluentD, DeploymentEnv(spec), pod.annotations), spec.fluentD, pod.annotations)
  {
    hide Routed;
    hide Tagged;
    hide Parsed;
    hide Chosen;
    hide Refusal;
    hide Sidecar;
    var d := if spec.fluentD.Some? then spec.fluentD.value else FluentDSpec("", "", 0, "", "", "", "", "");
    ImageChosen(FluentD, spec, pod.annotations, d.dockerImage, "ghcr.io/h3poteto/fluentd-forward:latest");
    IsRouted(FluentD, spec, pod, d.aggregatorHost, d.aggregatorPort, d.applicationLogDir);
    IsTagged(FluentD, spec, pod, d.tagPrefix, d.customEnv);
    IsParsed(spec, pod, d.timeKey, d.timeFormat);
  }

  lemma FluentBitIsConfigured(spec: Spec, pod: Pod)
    requires Refusal(FluentBit, DeploymentEnv(spec), pod).None?
    ensures FluentBitConfigured(
              Sidecar(FluentBit, DeploymentEnv(spec), pod.annotations), spec.fluentBit, pod.annotations)
  {
    hide Routed;
    hide Tagged;
    hide Chosen;
    hide Refusal;
    hide Sidecar;
    var b := if spec.fluentBit.Some? then spec.fluentBit.value else FluentBitSpec("", "", 0, "", "", "");
    ImageChosen(FluentBit, spec, pod.annotations, b.dockerImage, "ghcr.io/h3poteto/fluentbit-forward:latest");
    IsRouted(FluentBit, spec, pod, b.aggregatorHost, b.aggregatorPort, b.applicationLogDir);
    IsTagged(FluentBit, spec, pod, b.tagPrefix, b.customEnv);
  }

  lemma FluentDIsTuned(env: seq<EnvVar>, ann: Annotations)
    ensures FluentDTuned(Sidecar(FluentD, env, ann).env, ann)
  {
    SidecarRowHolds(FluentD, env, ann, 0);
    SidecarRowHolds(FluentD, env, ann, 1);
    SidecarRowHolds(FluentD, env, ann, 2);
    hide Sidecar;
  }

  lemma FluentBitIsTuned(env: seq<EnvVar>, ann: Annotations)
    ensures FluentBitTuned(Sidecar(FluentBit, env, ann).env, ann)
  {
    SidecarRowHolds(FluentBit, env, ann, 0);
    SidecarRowHolds(FluentBit, env, ann, 1);
    hide Sidecar;
  }

  lemma DownwardRow(c: Collector, env: seq<EnvVar>, ann: Annotations, i: nat)
    requires i < 9
    ensures SidecarRow(c, env, ann, i + if c.FluentD? then 10 else 7) == Row(Downward(i), true)
  {
    hide Downward;
    hide Effective;
  }

  lemma DownwardHeld(c: Collector, env: seq<EnvVar>, ann: Annotations, i: nat)
    requires i < 9
    ensures Downward(i) in Sidecar(c, env, ann).env
  {
    DownwardRow(c, env, ann, i);
    SidecarRowHolds(c, env, ann, i + if c.FluentD? then 10 else 7);
    hide Sidecar;
    hide SidecarRow;
    hide Downward;
  }

  lemma PodIsTold(c: Collector, env: seq<EnvVar>, ann: Annotations)
    ensures TellsOfPod(Sidecar(c, env, ann).env)
  {
    hide Sidecar;
    DownwardHeld(c, env, ann, 0);
    DownwardHeld(c, env, ann, 1);
    DownwardHeld(c, env, ann, 2);
    DownwardHeld(c, env, ann, 3);
    DownwardHeld(c, env, ann, 4);
    DownwardHeld(c, env, ann, 5);
    DownwardHeld(c, env, ann, 6);
    DownwardHeld(c, env, ann, 7);
    DownwardHeld(c, env, ann, 8);
  }

  lemma SidecarInOrder(c: Collector, env: seq<EnvVar>, ann: Annotations)
    ensures InOrder(Sidecar(c, env, ann).env, if c.FluentD? then FLUENTD_NAMES else FLUENTBIT_NAMES)
  {
    var rows, names := SidecarRows(c, env, ann), if c.FluentD? then FLUENTD_NAMES else FLUENTBIT_NAMES;
    forall k: nat | k < |rows| ensures rows[k].v.name == names[k] {
      if c.FluentD? {
        FluentDRowName(env, ann, k);
      } else {
        FluentBitRowName(env, ann, k);
      }
    }
    CompactInOrder(rows, names);
  }

  /**
   From the custom resource into the sidecar, for every spec and every annotation map:
   image and variables by annotation, field and default; what only annotations tune; the
   facts about the pod; and no other variable, each at most once, in this order.
   */
  lemma SidecarIsConfigured(c: Collector, spec: Spec, pod: Pod)
    requires Inject(c, DeploymentEnv(spec), pod).Ok?
    ensures Configured(c, Last(Inject(c, DeploymentEnv(spec), pod).value.containers), spec, pod.annotations)
  {
    hide TellsOfPod;
    hide FluentDConfigured;
    hide FluentBitConfigured;
    hide FluentDTuned;
    hide FluentBitTuned;
    hide InOrder;
    hide DistinctNames;
    hide Sidecar;
    hide Refusal;
    var env, ann := DeploymentEnv(spec), pod.annotations;
    hide DeploymentEnv;
    PodIsTold(c, env, ann);
    SidecarInOrder(c, env, ann);
    SidecarEnvDistinct(c, env, ann);
    if c.FluentD? {
      FluentDIsConfigured(spec, pod);
      FluentDIsTuned(env, ann);
    } else {
      FluentBitIsConfigured(spec, pod);
      FluentBitIsTuned(env, ann);
    }
  }

  // ----- The reader, in any environment -----

  lemma {:induction false} LookupHeld(env: seq<EnvVar>, v: EnvVar)
    requires DistinctNames(env) && v in env
    ensures Lookup(env, v.name) == Some(v.source)
  {
    if env[0] != v {
      assert v in env[1..];
      assert forall i | 0 <= i < |env[1..]| :: env[1..][i] == env[i + 1];
      LookupHeld(env[1..], v);
    }
  }

  lemma {:induction false} LookupMissing(env: seq<EnvVar>, name: string)
    requires forall v | v in env :: v.name != name
    ensures Lookup(env, name) == None
  {
    if env != [] {
      LookupMissing(env[1..], name);
    }
  }

  /**
   Whoever wrote the webhook's environment: the annotation comes first, then the variable with
   the collector's prefix, then the one without, which serves both collectors, then the default.
   */
  lemma ReaderPrecedence(env: seq<EnvVar>, ann: Annotations, c: Collector, s: Setting, value: string)
    requires DistinctNames(env)
    ensures var prefixed := (if c.FluentD? then "FLUENTD" else "FLUENTBIT") + "_" + Tag(s);
            var seen := Effective(env, ann, c, s);
            && (AnnotationName(s) in ann ==> seen == ann[AnnotationName(s)])
            && (AnnotationName(s) !in ann ==>
                  && (EnvVar(prefixed, Literal(value)) in env ==> seen == value)
                  && (Unset(env, prefixed) && EnvVar(Tag(s), Literal(value)) in env ==> seen == value)
                  && (Unset(env, prefixed) && Unset(env, Tag(s)) ==> seen == Default(c, s)))
  {
    var prefixed := Prefix(c) + "_" + Tag(s);
    hide Tag;
    hide AnnotationName;
    hide Default;
    if EnvVar(prefixed, Literal(value)) in env {
      LookupHeld(env, EnvVar(prefixed, Literal(value)));
    }
    if EnvVar(Tag(s), Literal(value)) in env {
      LookupHeld(env, EnvVar(Tag(s), Literal(value)));
    }
    if Unset(env, prefixed) {
      LookupMissing(env, prefixed);
    }
    if Unset(env, Tag(s)) {
      LookupMissing(env, Tag(s));
    }
  }
}
