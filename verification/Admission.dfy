/** The admission decision: Validate, its responses, and when a patch is returned (validate.go). */
module Admission {
  import opened Basics
  import opened Settings
  import opened Pods
  import opened PodHeap
  import opened Mutator
  import opened Documented
  import opened InjectedPods

  /** `pod` is None when the raw bytes do not unmarshal into a pod. */
  datatype Request = Request(
    typeKind: string, apiVersion: string, uid: string, kind: string, operation: string, pod: Option<Pod>)

  /** The JSON patch is kept abstract: it leads from one pod to the other. */
  datatype Patch = Patch(from: Pod, to: Pod)

  datatype Response = Response(
    typeKind: string, apiVersion: string, uid: string, allowed: bool,
    patch: Option<Patch>, patchType: Option<string>, warnings: seq<string>)

  datatype Mutation = Skipped | Mutated | Refused(message: string)

  const PATCH_ERROR := "Failed to create patch"
  const DECODE_ERROR := "object is not a pod"

  function IsCreate(operation: string): bool { operation == "CREATE" }

  function ErrorText(e: InjectError): string {
    match e
    case HostRequired => "aggregator host is required"
    case LogDirRequired => "application log dir is required"
    case ConfigVolumeMissing => "config volume does not exist"
  }

  function UnknownCollector(name: string): string {
    "collector must be fluentd or fluent-bit, " + name + " is not matched"
  }

  predicate Enabled(p: Pod) {
    ANNOTATION_PREFIX + "injection" in p.annotations && p.annotations[ANNOTATION_PREFIX + "injection"] == "enabled"
  }

  method ReviewResponse(req: Request, allowed: bool, warnings: seq<string>) returns (r: Response)
    ensures r == Response(req.typeKind, req.apiVersion, req.uid, allowed, None, None, warnings)
  {
    r := Response(req.typeKind, req.apiVersion, req.uid, allowed, None, None, warnings);
  }

  /** None stands for a failing marshaller or patch library. */
  method MutatedReviewResponse(req: Request, raw: Pod, mutated: Pod, patchable: bool) returns (r: Option<Response>)
    ensures r == if patchable
                 then Some(Response(req.typeKind, req.apiVersion, req.uid, true,
                                    Some(Patch(raw, mutated)), Some("JSONPatch"), []))
                 else None
  {
    if !patchable { return None; }
    r := Some(Response(req.typeKind, req.apiVersion, req.uid, true,
                       Some(Patch(raw, mutated)), Some("JSONPatch"), []));
  }

  /** sidecarInjectMutator, as a function of the decoded pod. */
  function Outcome(env: seq<EnvVar>, p: Pod): Result<Option<Pod>, string> {
    if !Enabled(p) then Ok(None)
    else match EffectiveCollector(env, p.annotations)
      case None => Err(UnknownCollector(CollectorName(env, p.annotations)))
      case Some(c) =>
        match Inject(c, env, p)
        case Ok(q) => Ok(Some(q))
        case Err(e) => Err(ErrorText(e))
  }

  method SidecarInjectMutator(pod: PodObject, env: seq<EnvVar>, spare: nat, ghost p: Pod) returns (r: Mutation)
    requires pod.Shows(p)
    modifies pod.Memory()
    ensures match Outcome(env, p)
            case Err(text) => r == Refused(text)
            case Ok(None) => r == Skipped && pod.Shows(p)
            case Ok(Some(q)) => r == Mutated && pod.Shows(q)
  {
    var injection := Override(pod.annotations, ANNOTATION_PREFIX + "injection", "");
    if injection != "enabled" { return Skipped; }
    var collector := CollectorName(env, pod.annotations);
    var e;
    if collector == "fluentd" || collector == "" {
      e := InjectFluentD(pod, env, spare, p);
    } else if collector == "fluent-bit" {
      e := InjectFluentBit(pod, env, spare, p);
    } else {
      return Refused(UnknownCollector(collector));
    }
    if e.Some? { return Refused(ErrorText(e.value)); }
    return Mutated;
  }

  /** json.Marshal of the pod object. */
  method Encode(pod: PodObject, ghost p: Pod) returns (q: Pod)
    requires pod.Shows(p)
    ensures q == p
  {
    var cs: seq<Container> := [];
    for i := 0 to pod.containers.len
      invariant cs == p.containers[..i]
    {
      var cell := pod.containers.arr[i];
      assert cell == pod.containers.Elems()[i] && CellShows(cell, p.containers[i]);
      cs := cs + [cell.fields.(mounts := cell.mounts.arr[..cell.mounts.len])];
    }
    q := Pod(pod.annotations, pod.volumes.arr[..pod.volumes.len], cs, pod.rest);
  }

  method Validate(req: Request, env: seq<EnvVar>, patchable: bool, spare: nat) returns (r: Response)
    ensures r == Review(req, env, patchable)
  {
    if req.kind != "Pod" {
      r := ReviewResponse(req, false, [req.kind + " is not supported"]);
      return;
    }
    if !IsCreate(req.operation) {
      r := ReviewResponse(req, true, []);
      return;
    }
    if req.pod.None? {
      r := ReviewResponse(req, false, [DECODE_ERROR]);
      return;
    }
    ghost var p := req.pod.value;
    var pod := Decode(req.pod.value);
    var result := SidecarInjectMutator(pod, env, spare, p);
    match result {
      case Refused(text) =>
        r := ReviewResponse(req, false, [text]);
      case Skipped =>
        r := ReviewResponse(req, true, ["Object is not mutated"]);
      case Mutated =>
        var mutated := Encode(pod, Outcome(env, p).value.value);
        var response := MutatedReviewResponse(req, req.pod.value, mutated, patchable);
        if response.None? {
          r := ReviewResponse(req, false, [PATCH_ERROR]);
        } else {
          r := response.value;
        }
    }
  }

  function Plain(req: Request, allowed: bool, warnings: seq<string>): Response {
    Response(req.typeKind, req.apiVersion, req.uid, allowed, None, None, warnings)
  }

  function Review(req: Request, env: seq<EnvVar>, patchable: bool): Response {
    if req.kind != "Pod" then Plain(req, false, [req.kind + " is not supported"])
    else if !IsCreate(req.operation) then Plain(req, true, [])
    else if req.pod.None? then Plain(req, false, [DECODE_ERROR])
    else match Outcome(env, req.pod.value)
      case Err(text) => Plain(req, false, [text])
      case Ok(None) => Plain(req, true, ["Object is not mutated"])
      case Ok(Some(q)) =>
        if patchable then Response(req.typeKind, req.apiVersion, req.uid, true,
                                   Some(Patch(req.pod.value, q)), Some("JSONPatch"), [])
        else Plain(req, false, [PATCH_ERROR])
  }

  // ----- The decision, by the documented names -----

  predicate AsksForInjection(p: Pod) {
    PREFIX + "injection" in p.annotations && p.annotations[PREFIX + "injection"] == "enabled"
  }

  predicate PodCreation(req: Request) { req.kind == "Pod" && req.operation == "CREATE" }

  /** The collector c is the one asked for. */
  predicate Names(spec: Spec, ann: Annotations, c: Collector) {
    match c
    case FluentD => NamedCollector(spec, ann) == "fluentd" || NamedCollector(spec, ann) == ""
    case FluentBit => NamedCollector(spec, ann) == "fluent-bit"
  }

  /** What the collector needs is there. */
  predicate Complete(spec: Spec, p: Pod, c: Collector) {
    !NoHost(spec, c, p.annotations) && !NoDir(spec, c, p.annotations) && !NoConfigVolume(p)
  }

  /** Injectable as the documentation puts it: from the custom resource and the annotations alone. */
  predicate Injectable(spec: Spec, p: Pod) {
    && AsksForInjection(p)
    && ((Names(spec, p.annotations, FluentD) && Complete(spec, p, FluentD))
        || (Names(spec, p.annotations, FluentBit) && Complete(spec, p, FluentBit)))
  }

  /** An answer without a patch. */
  predicate Answers(r: Response, allowed: bool, warnings: seq<string>) {
    r.allowed == allowed && r.warnings == warnings && r.patch.None? && r.patchType.None?
  }

  /** What is no pod is turned away, what is no creation let through, what is no readable pod turned away. */
  lemma DecisionWithoutPod(req: Request, env: seq<EnvVar>, patchable: bool)
    ensures var r := Review(req, env, patchable);
            && (req.kind != "Pod" ==> Answers(r, false, [req.kind + " is not supported"]))
            && (req.kind == "Pod" && req.operation != "CREATE" ==> Answers(r, true, []))
            && (PodCreation(req) && req.pod.None? ==> !r.allowed && r.patch.None? && r.patchType.None?)
  {
  }

  /** A pod that does not ask for injection is let through; one that asks for an unknown collector is turned away. */
  lemma DecisionWithoutCollector(req: Request, spec: Spec, patchable: bool)
    requires PodCreation(req) && req.pod.Some?
    ensures var r, p := Review(req, DeploymentEnv(spec), patchable), req.pod.value;
            var name := NamedCollector(spec, p.annotations);
            && (!AsksForInjection(p) ==> Answers(r, true, ["Object is not mutated"]))
            && (AsksForInjection(p)
                && !Names(spec, p.annotations, FluentD) && !Names(spec, p.annotations, FluentBit) ==>
                  Answers(r, false, ["collector must be fluentd or fluent-bit, " + name + " is not matched"]))
  {
    CollectorByName(spec, req.pod.value.annotations);
    hide Inject;
    hide DeploymentEnv;
    hide NamedCollector;
    hide EffectiveCollector;
    hide CollectorName;
  }

  /** A pod that asks for injection is injected, or turned away with the first reason that applies. */
  lemma DecisionOnPod(req: Request, spec: Spec, c: Collector)
    requires PodCreation(req) && req.pod.Some? && AsksForInjection(req.pod.value)
    requires Names(spec, req.pod.value.annotations, c)
    ensures var r, p, ann := Review(req, DeploymentEnv(spec), true), req.pod.value, req.pod.value.annotations;
            && (NoHost(spec, c, ann) ==> Answers(r, false, ["aggregator host is required"]))
            && (!NoHost(spec, c, ann) && NoDir(spec, c, ann) ==>
                  Answers(r, false, ["application log dir is required"]))
            && (!NoHost(spec, c, ann) && !NoDir(spec, c, ann) && NoConfigVolume(p) ==>
                  Answers(r, false, ["config volume does not exist"]))
            && (Complete(spec, p, c) ==>
                  && r.allowed && r.warnings == [] && r.patchType == Some("JSONPatch")
                  && Inject(c, DeploymentEnv(spec), p).Ok?
                  && r.patch == Some(Patch(p, Inject(c, DeploymentEnv(spec), p).value)))
  {
    CollectorByName(spec, req.pod.value.annotations);
    InjectionRefused(c, spec, req.pod.value);
    hide Inject;
    hide DeploymentEnv;
    hide NamedCollector;
    hide EffectiveCollector;
    hide CollectorName;
    hide NoHost;
    hide NoDir;
    hide NoConfigVolume;
  }

  /** When no patch can be made the pod is turned away, where otherwise it would have been injected. */
  lemma Unpatchable(req: Request, env: seq<EnvVar>)
    ensures var r, r' := Review(req, env, false), Review(req, env, true);
            && r.patch.None? && r.patchType.None?
            && (if r'.patch.Some? then !r.allowed else r == r')
  {
  }

  /**
   A patch comes back if and only if the request is an injectable pod creation, and it
   yields exactly the injected pod.
   */
  lemma PatchIffInjectable(req: Request, spec: Spec)
    ensures var r := Review(req, DeploymentEnv(spec), true);
            && (r.patch.Some? <==> PodCreation(req) && req.pod.Some? && Injectable(spec, req.pod.value))
            && (forall c | c in {FluentD, FluentBit} && r.patch.Some? && Names(spec, req.pod.value.annotations, c) ::
                  && r.allowed && r.patchType == Some("JSONPatch") && r.warnings == []
                  && Inject(c, DeploymentEnv(spec), req.pod.value) == Ok(r.patch.value.to)
                  && r.patch.value.from == req.pod.value)
  {
    hide Review;
    hide Inject;
    hide NoHost;
    hide NoDir;
    hide NoConfigVolume;
    hide DeploymentEnv;
    DecisionWithoutPod(req, DeploymentEnv(spec), true);
    if PodCreation(req) && req.pod.Some? {
      DecisionWithoutCollector(req, spec, true);
      forall c | AsksForInjection(req.pod.value) && Names(spec, req.pod.value.annotations, c)
        ensures Review(req, DeploymentEnv(spec), true).patch.Some? <==> Complete(spec, req.pod.value, c)
        ensures Complete(spec, req.pod.value, c) ==>
                  var r := Review(req, DeploymentEnv(spec), true);
                  && r.allowed && r.patchType == Some("JSONPatch") && r.warnings == []
                  && Inject(c, DeploymentEnv(spec), req.pod.value) == Ok(r.patch.value.to)
                  && r.patch.value.from == req.pod.value
      {
        DecisionOnPod(req, spec, c);
      }
    }
  }

  /** A pod creation is turned away exactly when it asked for injection and cannot have it. */
  lemma DeniedIffEnabledButNotInjectable(req: Request, spec: Spec)
    requires PodCreation(req) && req.pod.Some?
    ensures !Review(req, DeploymentEnv(spec), true).allowed <==>
            AsksForInjection(req.pod.value) && !Injectable(spec, req.pod.value)
  {
    hide Review;
    hide NoHost;
    hide NoDir;
    hide NoConfigVolume;
    hide DeploymentEnv;
    DecisionWithoutCollector(req, spec, true);
    forall c | AsksForInjection(req.pod.value) && Names(spec, req.pod.value.annotations, c)
      ensures Review(req, DeploymentEnv(spec), true).allowed <==> Complete(spec, req.pod.value, c)
    {
      DecisionOnPod(req, spec, c);
    }
  }

  /** Every response answers its request: same UID, same type and version, and a patch type exactly with a patch. */
  lemma ResponseEchoes(req: Request, env: seq<EnvVar>, patchable: bool)
    ensures var r := Review(req, env, patchable);
            && r.uid == req.uid && r.apiVersion == req.apiVersion && r.typeKind == req.typeKind
            && (r.patch.Some? <==> r.patchType.Some?)
            && (r.patch.Some? ==> r.allowed)
  {
  }

  /** All the mutator's refusals look at: the annotations, and whether a config volume that is asked for exists. */
  predicate LookAlike(p: Pod, p': Pod) {
    && p.annotations == p'.annotations
    && (CONFIG_VOLUME in p.annotations && p.annotations[CONFIG_VOLUME] != VOLUME_NAME ==>
          (HasVolume(p.volumes, p.annotations[CONFIG_VOLUME]) <==> HasVolume(p'.volumes, p.annotations[CONFIG_VOLUME])))
  }

  /**
   Without a patch nothing of the pod travels back: the response is the one that any pod
   with the same annotations and the same answer about the config volume would get,
   whatever volumes and containers it has.  So what was appended to the pod before a
   refusal is in no response.
   */
  lemma NothingTravelsBack(req: Request, p: Pod, p': Pod, env: seq<EnvVar>, patchable: bool)
    requires LookAlike(p, p')
    requires Review(req.(pod := Some(p)), env, patchable).patch.None?
    ensures Review(req.(pod := Some(p')), env, patchable) == Review(req.(pod := Some(p)), env, patchable)
  {
    hide EffectiveCollector;
    hide CollectorName;
    hide Injected;
    hide Refusal;
    if EffectiveCollector(env, p.annotations).Some? {
      RefusedAlike(p, p', env, EffectiveCollector(env, p.annotations).value);
    }
  }

  lemma RefusedAlike(p: Pod, p': Pod, env: seq<EnvVar>, c: Collector)
    requires LookAlike(p, p')
    ensures Refusal(c, env, p') == Refusal(c, env, p)
  {
    hide Effective;
    if CONFIG_VOLUME in p.annotations {
      HasVolumeAppended(p.volumes, p.annotations[CONFIG_VOLUME]);
      HasVolumeAppended(p'.volumes, p.annotations[CONFIG_VOLUME]);
    }
  }

  /** In particular the pod as a refused injection leaves it, log volume and all, would be answered the same way. */
  lemma PartialAppendInvisible(req: Request, p: Pod, env: seq<EnvVar>, patchable: bool)
    requires Review(req.(pod := Some(p)), env, patchable).patch.None?
    ensures Review(req.(pod := Some(p.(volumes := p.volumes + [LogVolume]))), env, patchable) ==
            Review(req.(pod := Some(p)), env, patchable)
  {
    if CONFIG_VOLUME in p.annotations {
      HasVolumeAppended(p.volumes, p.annotations[CONFIG_VOLUME]);
    }
    NothingTravelsBack(req, p, p.(volumes := p.volumes + [LogVolume]), env, patchable);
  }

  // ----- ToJSON -----

  datatype Wire = V1beta1(body: Response) | V1(body: Response)

  function ToJSON(r: Response): Option<Wire> {
    var body := r.(typeKind := "AdmissionReview");
    if r.apiVersion == "admission.k8s.io/v1beta1" then Some(V1beta1(body))
    else if r.apiVersion == "admission.k8s.io/v1" then Some(V1(body))
    else None
  }

  /** A review can be sent exactly in the two supported versions, whole, and under the version it came in. */
  lemma ReviewIsSendable(req: Request, env: seq<EnvVar>, patchable: bool)
    ensures var r, w := Review(req, env, patchable), ToJSON(Review(req, env, patchable));
            && (w.Some? <==> req.apiVersion in {"admission.k8s.io/v1beta1", "admission.k8s.io/v1"})
            && (w.Some? ==>
                  && (w.value.V1? <==> req.apiVersion == "admission.k8s.io/v1")
                  && w.value.body.typeKind == "AdmissionReview" && w.value.body.apiVersion == req.apiVersion
                  && w.value.body.uid == req.uid && w.value.body.allowed == r.allowed
                  && w.value.body.patch == r.patch && w.value.body.patchType == r.patchType
                  && w.value.body.warnings == r.warnings)
  {
    ResponseEchoes(req, env, patchable);
    hide Review;
  }
}
