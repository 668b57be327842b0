/**
 What an injection does to a pod, in the pod's own fields: when it is refused and why, what
 happens to volumes and containers, and what the sidecar is apart from its variables.
 */
module InjectedPods {
  import opened Basics
  import Decimal
  import opened Settings
  import opened Pods
  import opened Documented

  // ----- What is asked for -----

  /** aggregatorHost and applicationLogDir of the collector's section of the custom resource. */
  function HostField(spec: Spec, c: Collector): string {
    match c
    case FluentD => if spec.fluentD.Some? then spec.fluentD.value.aggregatorHost else ""
    case FluentBit => if spec.fluentBit.Some? then spec.fluentBit.value.aggregatorHost else ""
  }

  function DirField(spec: Spec, c: Collector): string {
    match c
    case FluentD => if spec.fluentD.Some? then spec.fluentD.value.applicationLogDir else ""
    case FluentBit => if spec.fluentBit.Some? then spec.fluentBit.value.applicationLogDir else ""
  }

  /** Neither annotation nor field gives a value; an empty annotation hides the field. */
  predicate Blank(ann: Annotations, annotation: string, field: string) {
    if annotation in ann then ann[annotation] == "" else field == ""
  }

  predicate NoHost(spec: Spec, c: Collector, ann: Annotations) {
    Blank(ann, PREFIX + "aggregator-host", HostField(spec, c))
  }

  predicate NoDir(spec: Spec, c: Collector, ann: Annotations) {
    Blank(ann, PREFIX + "application-log-dir", DirField(spec, c))
  }

  /** A config volume is asked for that the pod does not have; the log volume it will have. */
  predicate NoConfigVolume(p: Pod) {
    && PREFIX + "config-volume" in p.annotations
    && p.annotations[PREFIX + "config-volume"] != "fluentd-sidecar-injector-logs"
    && forall i | 0 <= i < |p.volumes| :: p.volumes[i].name != p.annotations[PREFIX + "config-volume"]
  }

  /** The collector asked for, by annotation or in the custom resource. */
  function NamedCollector(spec: Spec, ann: Annotations): string {
    if PREFIX + "collector" in ann then ann[PREFIX + "collector"] else spec.collector
  }

  /** fluentd under its name or no name at all, fluent-bit under its name, and nothing else. */
  lemma CollectorByName(spec: Spec, ann: Annotations)
    ensures var env, name := DeploymentEnv(spec), NamedCollector(spec, ann);
            && CollectorName(env, ann) == name
            && (EffectiveCollector(env, ann) == Some(FluentD) <==> name == "fluentd" || name == "")
            && (EffectiveCollector(env, ann) == Some(FluentBit) <==> name == "fluent-bit")
  {
    RowsDistinct(spec);
    CompactLookup(Rows(spec, ROWS), 0);
  }

  lemma HostIsBlank(spec: Spec, c: Collector, ann: Annotations)
    ensures Effective(DeploymentEnv(spec), ann, c, AggregatorHost) == "" <==> NoHost(spec, c, ann)
  {
    SettingsFaithful(spec, ann, c, AggregatorHost);
  }

  lemma DirIsBlank(spec: Spec, c: Collector, ann: Annotations)
    ensures Effective(DeploymentEnv(spec), ann, c, ApplicationLogDir) == "" <==> NoDir(spec, c, ann)
  {
    SettingsFaithful(spec, ann, c, ApplicationLogDir);
  }

  lemma VolumeIsMissing(p: Pod)
    ensures NoConfigVolume(p) <==>
            CONFIG_VOLUME in p.annotations && !HasVolume(p.volumes + [LogVolume], p.annotations[CONFIG_VOLUME])
  {
    if CONFIG_VOLUME in p.annotations {
      HasVolumeAppended(p.volumes, p.annotations[CONFIG_VOLUME]);
    }
  }

  /** The one reason for a refusal: no host, else no log dir, else no config volume; otherwise the pod is injected. */
  lemma InjectionRefused(c: Collector, spec: Spec, p: Pod)
    ensures var r := Inject(c, DeploymentEnv(spec), p);
            && (r == Err(HostRequired) <==> NoHost(spec, c, p.annotations))
            && (r == Err(LogDirRequired) <==> !NoHost(spec, c, p.annotations) && NoDir(spec, c, p.annotations))
            && (r == Err(ConfigVolumeMissing) <==>
                  !NoHost(spec, c, p.annotations) && !NoDir(spec, c, p.annotations) && NoConfigVolume(p))
            && (r.Ok? <==>
                  !NoHost(spec, c, p.annotations) && !NoDir(spec, c, p.annotations) && !NoConfigVolume(p))
  {
    HostIsBlank(spec, c, p.annotations);
    DirIsBlank(spec, c, p.annotations);
    VolumeIsMissing(p);
    hide NoHost;
    hide NoDir;
    hide NoConfigVolume;
    hide Effective;
    hide DeploymentEnv;
    hide HasVolume;
    hide Injected;
  }

  // ----- What the pod becomes -----

  /** The log directory as the sidecar is told. */
  predicate LogDirIs(c: Collector, spec: Spec, ann: Annotations, dir: string) {
    dir != "" && Chosen(ann, PREFIX + "application-log-dir", DirField(spec, c), "", dir)
  }

  /** One volume more, the log volume in every container, one container more; nothing else changes. */
  predicate IsInjected(p: Pod, q: Pod, dir: string) {
    && q.annotations == p.annotations && q.rest == p.rest
    && q.volumes == p.volumes + [Volume("fluentd-sidecar-injector-logs", EmptyDir)]
    && |q.containers| == |p.containers| + 1
    && forall i | 0 <= i < |p.containers| ::
         q.containers[i] ==
         p.containers[i].(mounts := p.containers[i].mounts + [Mount("fluentd-sidecar-injector-logs", false, dir)])
  }

  lemma SidecarIsLast(c: Collector, env: seq<EnvVar>, p: Pod)
    requires Inject(c, env, p).Ok?
    ensures Last(Inject(c, env, p).value.containers) == Sidecar(c, env, p.annotations)
  {
    hide Sidecar;
    hide Effective;
    hide Refusal;
  }

  lemma InjectionAddsToThePod(c: Collector, spec: Spec, p: Pod) returns (dir: string)
    requires Inject(c, DeploymentEnv(spec), p).Ok?
    ensures LogDirIs(c, spec, p.annotations, dir) && IsInjected(p, Inject(c, DeploymentEnv(spec), p).value, dir)
  {
    dir := Effective(DeploymentEnv(spec), p.annotations, c, ApplicationLogDir);
    hide Sidecar;
    hide LogDirIs;
    hide Effective;
    hide DeploymentEnv;
    LogDirIsSaid(c, spec, p);
  }

  /** The sidecar mounts the log volume at the log directory, and a config volume where its collector reads it. */
  predicate Mounted(c: Collector, sidecar: Container, ann: Annotations, dir: string) {
    var logs := Mount("fluentd-sidecar-injector-logs", false, dir);
    if PREFIX + "config-volume" in ann then
      var path := if c.FluentD? then "/fluentd/etc" else "/fluent-bit/etc";
      sidecar.mounts == [logs, Mount(ann[PREFIX + "config-volume"], false, path)]
    else sidecar.mounts == [logs]
  }

  /** A port is exposed only by annotation: its number, or 0 when it is none. */
  predicate Exposed(sidecar: Container, ann: Annotations) {
    if PREFIX + "expose-port" in ann then
      var text := ann[PREFIX + "expose-port"];
      && |sidecar.ports| == 1
      && (forall n: Int32 | text == Decimal.Print(n) :: sidecar.ports[0] == n)
      && (!Decimal.Numeral(text) ==> sidecar.ports[0] == 0)
    else sidecar.ports == []
  }

  /** The annotation's text where the collector honours it, otherwise the amount, in thousandths. */
  predicate Amounts(m: map<string, Quantity>, key: string, honoured: bool, ann: Annotations, name: string, milli: int) {
    key in m && m[key] == if honoured && name in ann then FormatOnly(ann[name]) else Amount(milli)
  }

  /** 200Mi and 100m requested, 1000Mi at most; annotations change that for fluentd alone. */
  predicate Resourced(c: Collector, r: Resources, ann: Annotations) {
    && r.requests.Keys == {"memory", "cpu"}
    && Amounts(r.requests, "memory", c.FluentD?, ann, PREFIX + "memory-request", 209_715_200_000)
    && Amounts(r.requests, "cpu", c.FluentD?, ann, PREFIX + "cpu-request", 100)
    && Amounts(r.limits, "memory", c.FluentD?, ann, PREFIX + "memory-limit", 1_048_576_000_000)
    && (if c.FluentD? && PREFIX + "cpu-limit" in ann
        then r.limits.Keys == {"memory", "cpu"} && r.limits["cpu"] == FormatOnly(ann[PREFIX + "cpu-limit"])
        else r.limits.Keys == {"memory"})
  }

  lemma PortIsExposed(c: Collector, env: seq<EnvVar>, ann: Annotations)
    ensures Exposed(Sidecar(c, env, ann), ann)
  {
    hide SidecarRows;
    hide SidecarMounts;
    hide SidecarResources;
    if EXPOSE_PORT in ann {
      Decimal.ExposedPortOfText(ann[EXPOSE_PORT]);
      forall n: Int32 | ann[EXPOSE_PORT] == Decimal.Print(n) ensures Decimal.ExposedPort(ann[EXPOSE_PORT]) == n {
        Decimal.ExposedPortOfPrint(n);
      }
    }
  }

  lemma ResourcesAre(c: Collector, ann: Annotations)
    ensures Resourced(c, SidecarResources(c, ann), ann)
  {
  }

  lemma SidecarMountsAre(c: Collector, env: seq<EnvVar>, ann: Annotations)
    ensures Mounted(c, Sidecar(c, env, ann), ann, Effective(env, ann, c, ApplicationLogDir))
  {
    hide SidecarRows;
    hide SidecarResources;
    hide Effective;
  }

  lemma LogDirIsSaid(c: Collector, spec: Spec, p: Pod)
    requires Inject(c, DeploymentEnv(spec), p).Ok?
    ensures LogDirIs(c, spec, p.annotations, Effective(DeploymentEnv(spec), p.annotations, c, ApplicationLogDir))
  {
    SettingsFaithful(spec, p.annotations, c, ApplicationLogDir);
    hide Effective;
    hide DeploymentEnv;
    hide Injected;
  }

  /** The container that is added, apart from its image and its variables. */
  lemma SidecarIsMounted(c: Collector, spec: Spec, p: Pod) returns (dir: string)
    requires Inject(c, DeploymentEnv(spec), p).Ok?
    ensures LogDirIs(c, spec, p.annotations, dir)
    ensures var sidecar := Last(Inject(c, DeploymentEnv(spec), p).value.containers);
            && sidecar.name == "fluentd-sidecar" && sidecar.rest == ""
            && Mounted(c, sidecar, p.annotations, dir) && Exposed(sidecar, p.annotations)
            && Resourced(c, sidecar.resources, p.annotations)
  {
    dir := Effective(DeploymentEnv(spec), p.annotations, c, ApplicationLogDir);
    hide LogDirIs;
    hide Mounted;
    hide Resourced;
    hide Exposed;
    hide SidecarResources;
    hide Effective;
    hide DeploymentEnv;
    hide Inject;
    LogDirIsSaid(c, spec, p);
    SidecarIsLast(c, DeploymentEnv(spec), p);
    SidecarMountsAre(c, DeploymentEnv(spec), p.annotations);
    PortIsExposed(c, DeploymentEnv(spec), p.annotations);
    ResourcesAre(c, p.annotations);
  }
}
