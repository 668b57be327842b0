/** Laws of injection: when it keeps a pod well-formed, and what repeated injection adds up to. */
module PodLaws {
  import opened Basics
  import opened Settings
  import opened Pods

  predicate UniqueVolumes(p: Pod) {
    forall i, j | 0 <= i < j < |p.volumes| :: p.volumes[i].name != p.volumes[j].name
  }

  predicate UniqueContainers(cs: seq<Container>) {
    forall i, j | 0 <= i < j < |cs| :: cs[i].name != cs[j].name
  }

  predicate Declared(ms: seq<Mount>, volumes: seq<Volume>) {
    forall k | 0 <= k < |ms| :: HasVolume(volumes, ms[k].name)
  }

  predicate DistinctPaths(ms: seq<Mount>) {
    forall i, j | 0 <= i < j < |ms| :: ms[i].mountPath != ms[j].mountPath
  }

  predicate MountsOk(ctr: Container, volumes: seq<Volume>) {
    Declared(ctr.mounts, volumes) && DistinctPaths(ctr.mounts)
  }

  /** What the API server asks of volumes, container names and mounts. */
  predicate WellFormed(p: Pod) {
    && UniqueVolumes(p)
    && UniqueContainers(p.containers)
    && forall i | 0 <= i < |p.containers| :: MountsOk(p.containers[i], p.volumes)
  }

  predicate Mounts(ctr: Container, path: string) {
    exists k | 0 <= k < |ctr.mounts| :: ctr.mounts[k].mountPath == path
  }

  /** Both injected names are new, the log dir is free everywhere, and it is not the config path. */
  predicate Fresh(c: Collector, dir: string, p: Pod) {
    && !HasVolume(p.volumes, VOLUME_NAME)
    && (forall i | 0 <= i < |p.containers| :: p.containers[i].name != CONTAINER_NAME)
    && (forall i | 0 <= i < |p.containers| :: !Mounts(p.containers[i], dir))
    && (CONFIG_VOLUME in p.annotations ==> dir != ConfigPath(c))
  }

  lemma WithMountOk(ctr: Container, volumes: seq<Volume>, dir: string)
    requires MountsOk(ctr, volumes)
    ensures MountsOk(WithMount(ctr, LogMount(dir)), volumes + [LogVolume]) <==> !Mounts(ctr, dir)
  {
    var out := WithMount(ctr, LogMount(dir)).mounts;
    forall k | 0 <= k < |out| ensures HasVolume(volumes + [LogVolume], out[k].name) {
      HasVolumeAppended(volumes, out[k].name);
      if k < |ctr.mounts| {
        assert HasVolume(volumes, ctr.mounts[k].name);
      }
    }
    if k :| 0 <= k < |ctr.mounts| && ctr.mounts[k].mountPath == dir {
      assert out[k].mountPath == out[|ctr.mounts|].mountPath;
    }
  }

  lemma SidecarOk(c: Collector, env: seq<EnvVar>, p: Pod)
    requires Refusal(c, env, p).None?
    ensures MountsOk(Sidecar(c, env, p.annotations), p.volumes + [LogVolume]) <==>
            (CONFIG_VOLUME in p.annotations ==>
               Effective(env, p.annotations, c, ApplicationLogDir) != ConfigPath(c))
  {
    hide Effective;
    hide SidecarRows;
    hide SidecarResources;
    var ms := Sidecar(c, env, p.annotations).mounts;
    HasVolumeAppended(p.volumes, VOLUME_NAME);
    assert Declared(ms, p.volumes + [LogVolume]);
    if CONFIG_VOLUME in p.annotations {
      assert DistinctPaths(ms) <==> ms[0].mountPath != ms[1].mountPath;
    }
  }

  /** A successful injection keeps a well-formed pod well-formed exactly when its names and path are fresh. */
  lemma WellFormedIffFresh(c: Collector, env: seq<EnvVar>, p: Pod)
    requires WellFormed(p) && Refusal(c, env, p).None?
    ensures WellFormed(Injected(c, env, p)) <==> Fresh(c, Effective(env, p.annotations, c, ApplicationLogDir), p)
  {
    var dir := Effective(env, p.annotations, c, ApplicationLogDir);
    var q, n := Injected(c, env, p), |p.containers|;
    VolumesIff(p, q);
    NamesIff(p, q);
    SidecarOk(c, env, p);
    forall i | 0 <= i < n ensures MountsOk(q.containers[i], q.volumes) <==> !Mounts(p.containers[i], dir) {
      WithMountOk(p.containers[i], p.volumes, dir);
    }
    assert q.containers[n] == Sidecar(c, env, p.annotations);
    assert (forall i | 0 <= i < n + 1 :: MountsOk(q.containers[i], q.volumes)) <==>
           (forall i | 0 <= i < n :: MountsOk(q.containers[i], q.volumes)) && MountsOk(q.containers[n], q.volumes);
  }

  lemma VolumesIff(p: Pod, q: Pod)
    requires UniqueVolumes(p) && q.volumes == p.volumes + [LogVolume]
    ensures UniqueVolumes(q) <==> !HasVolume(p.volumes, VOLUME_NAME)
  {
    assert q.volumes[|p.volumes|].name == VOLUME_NAME;
    if i :| 0 <= i < |p.volumes| && p.volumes[i].name == VOLUME_NAME {
      assert q.volumes[i].name == q.volumes[|p.volumes|].name;
    }
  }

  lemma NamesIff(p: Pod, q: Pod)
    requires UniqueContainers(p.containers) && |q.containers| == |p.containers| + 1
    requires forall i | 0 <= i < |p.containers| :: q.containers[i].name == p.containers[i].name
    requires q.containers[|p.containers|].name == CONTAINER_NAME
    ensures UniqueContainers(q.containers) <==>
            forall i | 0 <= i < |p.containers| :: p.containers[i].name != CONTAINER_NAME
  {
    if i :| 0 <= i < |p.containers| && p.containers[i].name == CONTAINER_NAME {
      assert q.containers[i].name == q.containers[|p.containers|].name;
    }
  }

  // ----- Chained injection: one mutation per configured webhook -----

  function InjectTimes(c: Collector, env: seq<EnvVar>, p: Pod, k: nat): Result<Pod, InjectError> {
    if k == 0 then Ok(p)
    else match InjectTimes(c, env, p, k - 1)
      case Err(e) => Err(e)
      case Ok(q) => Inject(c, env, q)
  }

  function Repeat<T>(x: T, k: nat): (r: seq<T>)
    ensures |r| == k
  {
    seq(k, _ => x)
  }

  function WithMounts(ctr: Container, m: Mount, k: nat): Container {
    ctr.(mounts := ctr.mounts + Repeat(m, k))
  }

  /** The closed form: k log volumes, k mounts per original container, and the j-th sidecar mounted k - j times more. */
  function Chained(c: Collector, env: seq<EnvVar>, p: Pod, k: nat): Pod {
    var m := LogMount(Effective(env, p.annotations, c, ApplicationLogDir));
    p.(volumes := p.volumes + Repeat(LogVolume, k),
       containers := ChainedContainers(p.containers, Sidecar(c, env, p.annotations), m, k))
  }

  function ChainedContainers(cs: seq<Container>, sidecar: Container, m: Mount, k: nat): (r: seq<Container>)
    ensures |r| == |cs| + k
    ensures forall i | 0 <= i < |cs| :: r[i] == WithMounts(cs[i], m, k)
    ensures forall i | |cs| <= i < |cs| + k :: r[i] == WithMounts(sidecar, m, k - 1 - (i - |cs|))
  {
    seq(|cs|, i requires 0 <= i < |cs| => WithMounts(cs[i], m, k))
    + seq(k, j requires 0 <= j < k => WithMounts(sidecar, m, k - 1 - j))
  }

  lemma RepeatSnoc<T>(x: T, k: nat)
    ensures Repeat(x, k) + [x] == Repeat(x, k + 1)
  {
  }

  lemma WithMountsSnoc(ctr: Container, m: Mount, k: nat)
    ensures WithMount(WithMounts(ctr, m, k), m) == WithMounts(ctr, m, k + 1)
  {
    RepeatSnoc(m, k);
    assert ctr.mounts + Repeat(m, k) + [m] == ctr.mounts + (Repeat(m, k) + [m]);
  }

  /** Once an injection is accepted, every later one on the same pod is. */
  lemma ChainedAccepted(c: Collector, env: seq<EnvVar>, p: Pod, k: nat)
    requires Refusal(c, env, p).None?
    ensures Refusal(c, env, Chained(c, env, p, k)).None?
  {
    if CONFIG_VOLUME in p.annotations {
      var name := p.annotations[CONFIG_VOLUME];
      var q := Chained(c, env, p, k);
      HasVolumeAppended(p.volumes, name);
      HasVolumeAppended(q.volumes, name);
      if i :| 0 <= i < |p.volumes| && p.volumes[i].name == name {
        assert q.volumes[i].name == name;
      }
    }
  }

  lemma ContainersStep(cs: seq<Container>, sidecar: Container, m: Mount, k: nat)
    ensures AllWithMount(ChainedContainers(cs, sidecar, m, k), m) + [sidecar] ==
            ChainedContainers(cs, sidecar, m, k + 1)
  {
    var q, r, n := ChainedContainers(cs, sidecar, m, k), ChainedContainers(cs, sidecar, m, k + 1), |cs|;
    forall i | 0 <= i < n + k ensures AllWithMount(q, m)[i] == r[i] {
      if i < n {
        WithMountsSnoc(cs[i], m, k);
      } else {
        WithMountsSnoc(sidecar, m, k - 1 - (i - n));
      }
    }
    assert sidecar.mounts + Repeat(m, 0) == sidecar.mounts;
  }

  lemma ChainedStep(c: Collector, env: seq<EnvVar>, p: Pod, k: nat)
    ensures Injected(c, env, Chained(c, env, p, k)) == Chained(c, env, p, k + 1)
  {
    RepeatSnoc(LogVolume, k);
    assert p.volumes + Repeat(LogVolume, k) + [LogVolume] == p.volumes + (Repeat(LogVolume, k) + [LogVolume]);
    ContainersStep(p.containers, Sidecar(c, env, p.annotations),
                   LogMount(Effective(env, p.annotations, c, ApplicationLogDir)), k);
  }

  lemma ChainedNever(c: Collector, env: seq<EnvVar>, p: Pod)
    ensures Chained(c, env, p, 0) == p
  {
    var q, m := Chained(c, env, p, 0), LogMount(Effective(env, p.annotations, c, ApplicationLogDir));
    hide Sidecar;
    hide Effective;
    forall i | 0 <= i < |p.containers| ensures q.containers[i] == p.containers[i] {
      assert p.containers[i].mounts + Repeat(m, 0) == p.containers[i].mounts;
    }
    assert q.containers == p.containers && q.volumes == p.volumes;
  }

  /** If the first mutation succeeds then so do all k, and they add up to the closed form. */
  lemma {:induction false} ChainedInjection(c: Collector, env: seq<EnvVar>, p: Pod, k: nat)
    requires Inject(c, env, p).Ok?
    ensures InjectTimes(c, env, p, k) == Ok(Chained(c, env, p, k))
  {
    hide Chained;
    hide Injected;
    hide Refusal;
    if k == 0 {
      ChainedNever(c, env, p);
    } else {
      ChainedInjection(c, env, p, k - 1);
      ChainedAccepted(c, env, p, k - 1);
      ChainedStep(c, env, p, k - 1);
    }
  }

  /** The counts of the chained pod. */
  lemma ChainedCounts(c: Collector, env: seq<EnvVar>, p: Pod, k: nat)
    requires Inject(c, env, p).Ok?
    ensures InjectTimes(c, env, p, k).Ok?
    ensures var q, n := InjectTimes(c, env, p, k).value, |p.containers|;
            && |q.volumes| == |p.volumes| + k
            && |q.containers| == n + k
            && (forall i | 0 <= i < n :: |q.containers[i].mounts| == |p.containers[i].mounts| + k)
            && (forall i | n <= i < n + k :: |q.containers[i].mounts| ==
                  1 + (if CONFIG_VOLUME in p.annotations then 1 else 0) + (k - 1 - (i - n)))
  {
    ChainedInjection(c, env, p, k);
    var dir := Effective(env, p.annotations, c, ApplicationLogDir);
    assert |Sidecar(c, env, p.annotations).mounts| == |SidecarMounts(c, dir, p.annotations)|;
  }

  /** So the mutator is not idempotent: a second webhook always breaks well-formedness. */
  lemma SecondInjectionNeverWellFormed(c: Collector, env: seq<EnvVar>, p: Pod, k: nat)
    requires Inject(c, env, p).Ok? && k >= 2
    ensures InjectTimes(c, env, p, k).Ok? && !WellFormed(InjectTimes(c, env, p, k).value)
  {
    ChainedInjection(c, env, p, k);
    var q := Chained(c, env, p, k);
    assert q.volumes[|p.volumes|].name == q.volumes[|p.volumes| + 1].name;
  }
}
