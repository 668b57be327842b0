/**
 The path a setting takes: custom resource -> env list of the webhook Deployment
 (generator.go) -> envconfig reader (validate.go).  Setting, Collector and Expected
 are the reference view; the rows and the reader are the two ends of the real path.
 */
module Settings {
  import opened Basics
  import Decimal

  datatype Collector = FluentD | FluentBit

  datatype Setting =
    | DockerImage | AggregatorHost | AggregatorPort | ApplicationLogDir | TagPrefix | CustomEnv
    | TimeKey | TimeFormat | LogFormat

  datatype FluentDSpec = FluentDSpec(
    dockerImage: string, aggregatorHost: string, aggregatorPort: Int32, applicationLogDir: string,
    tagPrefix: string, timeKey: string, timeFormat: string, customEnv: string)

  datatype FluentBitSpec = FluentBitSpec(
    dockerImage: string, aggregatorHost: string, aggregatorPort: Int32, applicationLogDir: string,
    tagPrefix: string, customEnv: string)

  datatype Spec = Spec(collector: string, fluentD: Option<FluentDSpec>, fluentBit: Option<FluentBitSpec>)

  datatype EnvSource =
    | Literal(value: string)
    | FieldRef(path: string)
    | ResourceFieldRef(container: string, resource: string)

  datatype EnvVar = EnvVar(name: string, source: EnvSource)

  /** One conditional append: the variable is added to the list exactly when `emitted`. */
  datatype Row = Row(v: EnvVar, emitted: bool)

  function Always(name: string, value: string): Row { Row(EnvVar(name, Literal(value)), true) }

  function NonEmpty(name: string, value: string): Row { Row(EnvVar(name, Literal(value)), value != "") }

  function Compact(rows: seq<Row>): seq<EnvVar> {
    if rows == [] then []
    else Compact(rows[..|rows| - 1]) + (if Last(rows).emitted then [Last(rows).v] else [])
  }

  function Lookup(env: seq<EnvVar>, name: string): Option<EnvSource> {
    if env == [] then None
    else if env[0].name == name then Some(env[0].source)
    else Lookup(env[1..], name)
  }

  predicate DistinctNames(env: seq<EnvVar>) {
    forall i, j | 0 <= i < j < |env| :: env[i].name != env[j].name
  }

  predicate DistinctRows(rows: seq<Row>) {
    forall i, j | 0 <= i < j < |rows| :: rows[i].v.name != rows[j].v.name
  }

  lemma CompactSnoc(rows: seq<Row>, r: Row)
    ensures Compact(rows + [r]) == Compact(rows) + (if r.emitted then [r.v] else [])
  {
    assert (rows + [r])[..|rows|] == rows;
  }

  lemma CompactTake(rows: seq<Row>, k: nat)
    requires k < |rows|
    ensures Compact(rows[..k + 1]) == Compact(rows[..k]) + (if rows[k].emitted then [rows[k].v] else [])
  {
    assert rows[..k + 1] == rows[..k] + [rows[k]];
    CompactSnoc(rows[..k], rows[k]);
  }

  lemma {:induction false} LookupAppend(env: seq<EnvVar>, v: EnvVar, name: string)
    ensures Lookup(env + [v], name) ==
            if Lookup(env, name).Some? then Lookup(env, name)
            else if v.name == name then Some(v.source) else None
  {
    if env == [] {
      assert env + [v] == [v];
    } else {
      assert (env + [v])[1..] == env[1..] + [v];
      LookupAppend(env[1..], v, name);
    }
  }

  /** Every variable of the compacted list comes from an emitted row of that name. */
  lemma {:induction false} CompactMembers(rows: seq<Row>, v: EnvVar)
    requires v in Compact(rows)
    ensures exists i | 0 <= i < |rows| :: rows[i].emitted && rows[i].v == v
  {
    var init := rows[..|rows| - 1];
    if v in Compact(init) {
      CompactMembers(init, v);
      var i :| 0 <= i < |init| && init[i].emitted && init[i].v == v;
      assert rows[i].v == v;
    } else {
      assert Last(rows).emitted && rows[|rows| - 1].v == v;
    }
  }

  lemma {:induction false} CompactDistinct(rows: seq<Row>)
    requires DistinctRows(rows)
    ensures DistinctNames(Compact(rows))
  {
    if rows != [] {
      var init := rows[..|rows| - 1];
      CompactDistinct(init);
      forall k | 0 <= k < |Compact(init)|
        ensures Compact(init)[k].name != Last(rows).v.name
      {
        CompactMembers(init, Compact(init)[k]);
      }
    }
  }

  /** A name that no row carries is not found. */
  lemma {:induction false} CompactMissing(rows: seq<Row>, name: string)
    requires forall i | 0 <= i < |rows| :: rows[i].v.name != name
    ensures Lookup(Compact(rows), name) == None
  {
    if rows != [] {
      var init := rows[..|rows| - 1];
      CompactMissing(init, name);
      LookupAppend(Compact(init), Last(rows).v, name);
      assert !Last(rows).emitted ==> Compact(rows) == Compact(init);
    }
  }

  /** With distinct names, a row is found under its name exactly when it was emitted. */
  lemma {:induction false} CompactLookup(rows: seq<Row>, i: nat)
    requires DistinctRows(rows) && i < |rows|
    ensures Lookup(Compact(rows), rows[i].v.name) == if rows[i].emitted then Some(rows[i].v.source) else None
  {
    var init, name := rows[..|rows| - 1], rows[i].v.name;
    if i < |init| {
      CompactLookup(init, i);
    } else {
      CompactMissing(init, name);
    }
    LookupAppend(Compact(init), Last(rows).v, name);
    assert !Last(rows).emitted ==> Compact(rows) == Compact(init);
  }

  // ----- Writing side: newDeployment -----

  function PortText(port: Int32): string {
    if port == 0 then "" else Decimal.Print(port)
  }

  /** The CR field of a setting, "" when absent, empty or zero. */
  function SpecField(spec: Spec, c: Collector, s: Setting): string {
    match c
    case FluentD =>
      if spec.fluentD.None? then "" else
      var d := spec.fluentD.value;
      (match s
       case DockerImage => d.dockerImage
       case AggregatorHost => d.aggregatorHost
       case AggregatorPort => PortText(d.aggregatorPort)
       case ApplicationLogDir => d.applicationLogDir
       case TagPrefix => d.tagPrefix
       case CustomEnv => d.customEnv
       case TimeKey => d.timeKey
       case TimeFormat => d.timeFormat
       case LogFormat => "")
    case FluentBit =>
      if spec.fluentBit.None? then "" else
      var b := spec.fluentBit.value;
      (match s
       case DockerImage => b.dockerImage
       case AggregatorHost => b.aggregatorHost
       case AggregatorPort => PortText(b.aggregatorPort)
       case ApplicationLogDir => b.applicationLogDir
       case TagPrefix => b.tagPrefix
       case CustomEnv => b.customEnv
       case _ => "")
  }

  /** The conditional variables newDeployment writes, in its order. */
  const NAMES: seq<string> :=
    ["FLUENTD_DOCKER_IMAGE", "FLUENTD_AGGREGATOR_HOST",
     "FLUENTD_AGGREGATOR_PORT", "FLUENTD_APPLICATION_LOG_DIR",
     "FLUENTD_TAG_PREFIX", "FLUENTD_TIME_KEY",
     "FLUENTD_TIME_FORMAT", "FLUENTD_CUSTOM_ENV",
     "FLUENTBIT_DOCKER_IMAGE", "FLUENTBIT_AGGREGATOR_HOST",
     "FLUENTBIT_AGGREGATOR_PORT", "FLUENTBIT_APPLICATION_LOG_DIR",
     "FLUENTBIT_TAG_PREFIX", "FLUENTBIT_CUSTOM_ENV"]

  const ROWS := 14

  function CollectorAt(k: nat): Collector { if k < 8 then FluentD else FluentBit }

  function SettingAt(k: nat): Setting {
    match if k < 8 then k else if k < 13 then k - 8 else 7
    case 0 => DockerImage
    case 1 => AggregatorHost
    case 2 => AggregatorPort
    case 3 => ApplicationLogDir
    case 4 => TagPrefix
    case 5 => TimeKey
    case 6 => TimeFormat
    case _ => CustomEnv
  }

  /** The k-th conditional append: variable NAMES[k] carries one CR field. */
  function RowOf(spec: Spec, k: nat): Row
    requires k < ROWS
  {
    NonEmpty(NAMES[k], SpecField(spec, CollectorAt(k), SettingAt(k)))
  }

  /** COLLECTOR, then the first k rows of the table. */
  function Rows(spec: Spec, k: nat): seq<Row>
    requires k <= ROWS
  {
    [Always("COLLECTOR", spec.collector)] + seq(k, i requires 0 <= i < k => RowOf(spec, i))
  }

  function DeploymentEnv(spec: Spec): seq<EnvVar> { Compact(Rows(spec, ROWS)) }

  /** The same list, as it looks after k conditional appends. */
  function EnvUpTo(spec: Spec, k: nat): seq<EnvVar>
    requires k <= ROWS
  {
    if k == 0 then [EnvVar("COLLECTOR", Literal(spec.collector))]
    else
      var r := RowOf(spec, k - 1);
      EnvUpTo(spec, k - 1) + (if r.emitted then [r.v] else [])
  }

  lemma {:induction false} EnvIsCompact(spec: Spec, k: nat)
    requires k <= ROWS
    ensures EnvUpTo(spec, k) == Compact(Rows(spec, ROWS)[..k + 1])
  {
    var rows := Rows(spec, ROWS);
    CompactTake(rows, k);
    if k == 0 {
      assert rows[0] == Always("COLLECTOR", spec.collector) && rows[..0] == [];
    } else {
      EnvIsCompact(spec, k - 1);
      assert rows[k] == RowOf(spec, k - 1);
    }
  }

  lemma {:induction false} Skip(spec: Spec, from: nat, to: nat)
    requires from <= to <= ROWS
    requires forall k | from <= k < to :: !RowOf(spec, k).emitted
    ensures EnvUpTo(spec, to) == EnvUpTo(spec, from)
  {
    if from < to {
      Skip(spec, from, to - 1);
    }
  }

  method AppendFluentD(env: seq<EnvVar>, ghost spec: Spec, d: FluentDSpec) returns (out: seq<EnvVar>)
    requires spec.fluentD == Some(d) && env == EnvUpTo(spec, 0)
    ensures out == EnvUpTo(spec, 8)
  {
    out := AppendFluentDImage(env, spec, d);
    out := AppendFluentDTarget(out, spec, d);
    out := AppendFluentDParsing(out, spec, d);
  }

  method AppendFluentDImage(env: seq<EnvVar>, ghost spec: Spec, d: FluentDSpec) returns (out: seq<EnvVar>)
    requires spec.fluentD == Some(d) && env == EnvUpTo(spec, 0)
    ensures out == EnvUpTo(spec, 2)
  {
    out := env;
    if d.dockerImage != "" { out := out + [EnvVar("FLUENTD_DOCKER_IMAGE", Literal(d.dockerImage))]; }
    assert out == EnvUpTo(spec, 1);
    if d.aggregatorHost != "" { out := out + [EnvVar("FLUENTD_AGGREGATOR_HOST", Literal(d.aggregatorHost))]; }
    assert out == EnvUpTo(spec, 2);
  }

  method AppendFluentDTarget(env: seq<EnvVar>, ghost spec: Spec, d: FluentDSpec) returns (out: seq<EnvVar>)
    requires spec.fluentD == Some(d) && env == EnvUpTo(spec, 2)
    ensures out == EnvUpTo(spec, 4)
  {
    out := env;
    PrintNonEmpty(d.aggregatorPort);
    if d.aggregatorPort != 0 {
      out := out + [EnvVar("FLUENTD_AGGREGATOR_PORT", Literal(Decimal.Print(d.aggregatorPort)))];
    }
    assert out == EnvUpTo(spec, 3);
    if d.applicationLogDir != "" { out := out + [EnvVar("FLUENTD_APPLICATION_LOG_DIR", Literal(d.applicationLogDir))]; }
    assert out == EnvUpTo(spec, 4);
  }

  method AppendFluentDParsing(env: seq<EnvVar>, ghost spec: Spec, d: FluentDSpec) returns (out: seq<EnvVar>)
    requires spec.fluentD == Some(d) && env == EnvUpTo(spec, 4)
    ensures out == EnvUpTo(spec, 8)
  {
    out := env;
    if d.tagPrefix != "" { out := out + [EnvVar("FLUENTD_TAG_PREFIX", Literal(d.tagPrefix))]; }
    assert out == EnvUpTo(spec, 5);
    if d.timeKey != "" { out := out + [EnvVar("FLUENTD_TIME_KEY", Literal(d.timeKey))]; }
    assert out == EnvUpTo(spec, 6);
    if d.timeFormat != "" { out := out + [EnvVar("FLUENTD_TIME_FORMAT", Literal(d.timeFormat))]; }
    assert out == EnvUpTo(spec, 7);
    if d.customEnv != "" { out := out + [EnvVar("FLUENTD_CUSTOM_ENV", Literal(d.customEnv))]; }
    assert out == EnvUpTo(spec, 8);
  }

  method AppendFluentBit(env: seq<EnvVar>, ghost spec: Spec, b: FluentBitSpec) returns (out: seq<EnvVar>)
    requires spec.fluentBit == Some(b) && env == EnvUpTo(spec, 8)
    ensures out == EnvUpTo(spec, 14)
  {
    out := AppendFluentBitTarget(env, spec, b);
    out := AppendFluentBitParsing(out, spec, b);
  }

  method AppendFluentBitTarget(env: seq<EnvVar>, ghost spec: Spec, b: FluentBitSpec) returns (out: seq<EnvVar>)
    requires spec.fluentBit == Some(b) && env == EnvUpTo(spec, 8)
    ensures out == EnvUpTo(spec, 11)
  {
    out := env;
    if b.dockerImage != "" { out := out + [EnvVar("FLUENTBIT_DOCKER_IMAGE", Literal(b.dockerImage))]; }
    assert out == EnvUpTo(spec, 9);
    if b.aggregatorHost != "" { out := out + [EnvVar("FLUENTBIT_AGGREGATOR_HOST", Literal(b.aggregatorHost))]; }
    assert out == EnvUpTo(spec, 10);
    PrintNonEmpty(b.aggregatorPort);
    if b.aggregatorPort != 0 {
      out := out + [EnvVar("FLUENTBIT_AGGREGATOR_PORT", Literal(Decimal.Print(b.aggregatorPort)))];
    }
    assert out == EnvUpTo(spec, 11);
  }

  method AppendFluentBitParsing(env: seq<EnvVar>, ghost spec: Spec, b: FluentBitSpec) returns (out: seq<EnvVar>)
    requires spec.fluentBit == Some(b) && env == EnvUpTo(spec, 11)
    ensures out == EnvUpTo(spec, 14)
  {
    out := env;
    if b.applicationLogDir != "" {
      out := out + [EnvVar("FLUENTBIT_APPLICATION_LOG_DIR", Literal(b.applicationLogDir))];
    }
    assert out == EnvUpTo(spec, 12);
    if b.tagPrefix != "" { out := out + [EnvVar("FLUENTBIT_TAG_PREFIX", Literal(b.tagPrefix))]; }
    assert out == EnvUpTo(spec, 13);
    if b.customEnv != "" { out := out + [EnvVar("FLUENTBIT_CUSTOM_ENV", Literal(b.customEnv))]; }
    assert out == EnvUpTo(spec, 14);
  }

  /** The env list of the webhook container, grown by conditional appends. */
  method BuildDeploymentEnv(spec: Spec) returns (env: seq<EnvVar>)
    ensures env == DeploymentEnv(spec)
  {
    EnvIsCompact(spec, ROWS);
    assert Rows(spec, ROWS)[..ROWS + 1] == Rows(spec, ROWS);
    env := [EnvVar("COLLECTOR", Literal(spec.collector))];
    if spec.fluentD.Some? {
      env := AppendFluentD(env, spec, spec.fluentD.value);
    } else {
      Skip(spec, 0, 8);
    }
    if spec.fluentBit.Some? {
      env := AppendFluentBit(env, spec, spec.fluentBit.value);
    } else {
      Skip(spec, 8, 14);
    }
  }

  lemma PrintNonEmpty(port: Int32)
    ensures Decimal.Print(port) != ""
  {
    var n: int := port;
    Decimal.DigitsRoundTrip(if n < 0 then -n else n);
  }

  // ----- Reading side: envconfig.Process -----

  function Prefix(c: Collector): string {
    match c case FluentD => "FLUENTD" case FluentBit => "FLUENTBIT"
  }

  function Tag(s: Setting): string {
    match s
    case DockerImage => "DOCKER_IMAGE"
    case AggregatorHost => "AGGREGATOR_HOST"
    case AggregatorPort => "AGGREGATOR_PORT"
    case ApplicationLogDir => "APPLICATION_LOG_DIR"
    case TagPrefix => "TAG_PREFIX"
    case CustomEnv => "CUSTOM_ENV"
    case TimeKey => "TIME_KEY"
    case TimeFormat => "TIME_FORMAT"
    case LogFormat => "LOG_FORMAT"
  }

  /** The `default:` tags of FluentDEnv and FluentBitEnv; no default reads as "". */
  function Default(c: Collector, s: Setting): string {
    match s
    case DockerImage =>
      if c.FluentD? then "ghcr.io/h3poteto/fluentd-forward:latest" else "ghcr.io/h3poteto/fluentbit-forward:latest"
    case AggregatorPort => "24224"
    case TagPrefix => "app"
    case TimeKey => "time"
    case TimeFormat => "%Y-%m-%dT%H:%M:%S%z"
    case LogFormat => "json"
    case _ => ""
  }

  /** The fields FluentDEnv and FluentBitEnv declare. */
  predicate Supports(c: Collector, s: Setting) {
    c.FluentD? || !(s.TimeKey? || s.TimeFormat? || s.LogFormat?)
  }

  function Text(v: EnvSource): string {
    match v case Literal(value) => value case _ => ""
  }

  /** envconfig's rule for one string field: prefixed key, else bare key, else the default. */
  function EnvConfig(env: seq<EnvVar>, key: string, bare: string, default: string): string {
    if Lookup(env, key).Some? then Text(Lookup(env, key).value)
    else if Lookup(env, bare).Some? then Text(Lookup(env, bare).value)
    else default
  }

  function Loaded(env: seq<EnvVar>, c: Collector, s: Setting): string {
    EnvConfig(env, Prefix(c) + "_" + Tag(s), Tag(s), Default(c, s))
  }

  function LoadedCollector(env: seq<EnvVar>): string {
    EnvConfig(env, "COLLECTOR", "COLLECTOR", "fluentd")
  }

  type Annotations = map<string, string>

  const ANNOTATION_PREFIX := "fluentd-sidecar-injector.h3poteto.dev/"

  function AnnotationName(s: Setting): string {
    ANNOTATION_PREFIX + match s
      case DockerImage => "docker-image"
      case AggregatorHost => "aggregator-host"
      case AggregatorPort => "aggregator-port"
      case ApplicationLogDir => "application-log-dir"
      case TagPrefix => "tag-prefix"
      case CustomEnv => "custom-env"
      case TimeKey => "time-key"
      case TimeFormat => "time-format"
      case LogFormat => "log-format"
  }

  /** `if value, ok := pod.Annotations[...]; ok { x = value }`. */
  function Override(ann: Annotations, name: string, otherwise: string): string {
    if name in ann then ann[name] else otherwise
  }

  /** What the mutator works with: the container environment, overridden by annotations. */
  function Effective(env: seq<EnvVar>, ann: Annotations, c: Collector, s: Setting): string {
    Override(ann, AnnotationName(s), Loaded(env, c, s))
  }

  /** The name the collector switch looks at. */
  function CollectorName(env: seq<EnvVar>, ann: Annotations): string {
    Override(ann, ANNOTATION_PREFIX + "collector", LoadedCollector(env))
  }

  /** The collector switch; None is the "is not matched" error. */
  function EffectiveCollector(env: seq<EnvVar>, ann: Annotations): Option<Collector> {
    var name := CollectorName(env, ann);
    if name == "fluentd" || name == "" then Some(FluentD)
    else if name == "fluent-bit" then Some(FluentBit)
    else None
  }

  // ----- Reference: what the documentation promises a setting to be -----

  /** Annotation if present (even empty), else the CR field if set, else the default. */
  function Expected(spec: Spec, ann: Annotations, c: Collector, s: Setting): string {
    if AnnotationName(s) in ann then ann[AnnotationName(s)]
    else if SpecField(spec, c, s) != "" then SpecField(spec, c, s)
    else Default(c, s)
  }

  function ExpectedCollector(spec: Spec, ann: Annotations): Option<Collector> {
    var name := Override(ann, ANNOTATION_PREFIX + "collector", spec.collector);
    if name in {"", "fluentd"} then Some(FluentD) else if name == "fluent-bit" then Some(FluentBit) else None
  }

  // ----- The two ends agree -----

  lemma NamesDistinct()
    ensures forall i, j | 0 <= i < j < ROWS :: NAMES[i] != NAMES[j]
    ensures forall i | 0 <= i < ROWS :: NAMES[i] != "COLLECTOR"
  {
  }

  lemma RowsDistinct(spec: Spec)
    ensures DistinctRows(Rows(spec, ROWS))
  {
    NamesDistinct();
  }

  /** No variable name is emitted twice. */
  lemma DeploymentEnvDistinct(spec: Spec)
    ensures DistinctNames(DeploymentEnv(spec))
  {
    RowsDistinct(spec);
    CompactDistinct(Rows(spec, ROWS));
  }

  /** Position of a setting's variable in the table. */
  function TableIndex(c: Collector, s: Setting): nat {
    match s
    case DockerImage => if c.FluentD? then 0 else 8
    case AggregatorHost => if c.FluentD? then 1 else 9
    case AggregatorPort => if c.FluentD? then 2 else 10
    case ApplicationLogDir => if c.FluentD? then 3 else 11
    case TagPrefix => if c.FluentD? then 4 else 12
    case TimeKey => 5
    case TimeFormat => 6
    case CustomEnv => if c.FluentD? then 7 else 13
    case LogFormat => 14
  }

  lemma FluentDTargetNames()
    ensures "FLUENTD" + "_" + "DOCKER_IMAGE" == "FLUENTD_DOCKER_IMAGE"
    ensures "FLUENTD" + "_" + "AGGREGATOR_HOST" == "FLUENTD_AGGREGATOR_HOST"
    ensures "FLUENTD" + "_" + "AGGREGATOR_PORT" == "FLUENTD_AGGREGATOR_PORT"
    ensures "FLUENTD" + "_" + "APPLICATION_LOG_DIR" == "FLUENTD_APPLICATION_LOG_DIR"
  {
  }

  lemma FluentDParsingNames()
    ensures "FLUENTD" + "_" + "TAG_PREFIX" == "FLUENTD_TAG_PREFIX"
    ensures "FLUENTD" + "_" + "TIME_KEY" == "FLUENTD_TIME_KEY"
    ensures "FLUENTD" + "_" + "TIME_FORMAT" == "FLUENTD_TIME_FORMAT"
    ensures "FLUENTD" + "_" + "CUSTOM_ENV" == "FLUENTD_CUSTOM_ENV"
  {
  }

  lemma FluentBitTargetNames()
    ensures "FLUENTBIT" + "_" + "DOCKER_IMAGE" == "FLUENTBIT_DOCKER_IMAGE"
    ensures "FLUENTBIT" + "_" + "AGGREGATOR_HOST" == "FLUENTBIT_AGGREGATOR_HOST"
    ensures "FLUENTBIT" + "_" + "AGGREGATOR_PORT" == "FLUENTBIT_AGGREGATOR_PORT"
  {
  }

  lemma FluentBitParsingNames()
    ensures "FLUENTBIT" + "_" + "APPLICATION_LOG_DIR" == "FLUENTBIT_APPLICATION_LOG_DIR"
    ensures "FLUENTBIT" + "_" + "TAG_PREFIX" == "FLUENTBIT_TAG_PREFIX"
    ensures "FLUENTBIT" + "_" + "CUSTOM_ENV" == "FLUENTBIT_CUSTOM_ENV"
  {
  }

  /** The name the reader builds from prefix and tag is the literal name the writer used. */
  lemma WriterOf(c: Collector, s: Setting)
    requires Supports(c, s) && !s.LogFormat?
    ensures var k := TableIndex(c, s);
            k < ROWS && NAMES[k] == Prefix(c) + "_" + Tag(s) && CollectorAt(k) == c && SettingAt(k) == s
  {
    if c.FluentD? {
      FluentDWriterOf(s);
    } else {
      FluentBitWriterOf(s);
    }
  }

  lemma FluentDWriterOf(s: Setting)
    requires !s.LogFormat?
    ensures var k := TableIndex(FluentD, s);
            k < ROWS && NAMES[k] == "FLUENTD" + "_" + Tag(s) && CollectorAt(k) == FluentD && SettingAt(k) == s
  {
    FluentDTargetNames();
    FluentDParsingNames();
    match s
    case DockerImage =>
    case AggregatorHost =>
    case AggregatorPort =>
    case ApplicationLogDir =>
    case TagPrefix =>
    case TimeKey =>
    case TimeFormat =>
    case CustomEnv =>
  }

  lemma FluentBitWriterOf(s: Setting)
    requires Supports(FluentBit, s)
    ensures var k := TableIndex(FluentBit, s);
            k < ROWS && NAMES[k] == "FLUENTBIT" + "_" + Tag(s) && CollectorAt(k) == FluentBit && SettingAt(k) == s
  {
    FluentBitTargetNames();
    FluentBitParsingNames();
    match s
    case DockerImage =>
    case AggregatorHost =>
    case AggregatorPort =>
    case ApplicationLogDir =>
    case TagPrefix =>
    case CustomEnv =>
  }

  /** Nothing is written under the bare tags, nor under FLUENTD_LOG_FORMAT. */
  lemma Unwritten(s: Setting)
    ensures forall k | 0 <= k < ROWS :: NAMES[k] != Tag(s) && NAMES[k] != "FLUENTD_LOG_FORMAT"
    ensures Tag(s) != "COLLECTOR"
  {
  }

  /** The prefixed key the reader asks for carries exactly the CR field. */
  lemma PrefixedLookup(spec: Spec, c: Collector, s: Setting)
    requires Supports(c, s)
    ensures Lookup(DeploymentEnv(spec), Prefix(c) + "_" + Tag(s)) ==
            if SpecField(spec, c, s) != "" then Some(Literal(SpecField(spec, c, s))) else None
  {
    var rows, key := Rows(spec, ROWS), Prefix(c) + "_" + Tag(s);
    RowsDistinct(spec);
    if s.LogFormat? {
      Unwritten(s);
      assert key == "FLUENTD_LOG_FORMAT";
      CompactMissing(rows, key);
    } else {
      var k := TableIndex(c, s);
      WriterOf(c, s);
      assert rows[k + 1] == RowOf(spec, k);
      CompactLookup(rows, k + 1);
    }
  }

  /** The unprefixed fallback of envconfig never fires on the environment the controller sets. */
  lemma BareLookup(spec: Spec, s: Setting)
    ensures Lookup(DeploymentEnv(spec), Tag(s)) == None
  {
    RowsDistinct(spec);
    Unwritten(s);
    CompactMissing(Rows(spec, ROWS), Tag(s));
  }

  /** End to end: the mutator works with exactly the documented value of every setting. */
  lemma SettingsFaithful(spec: Spec, ann: Annotations, c: Collector, s: Setting)
    requires Supports(c, s)
    ensures Effective(DeploymentEnv(spec), ann, c, s) == Expected(spec, ann, c, s)
  {
    PrefixedLookup(spec, c, s);
    BareLookup(spec, s);
  }

  lemma CollectorFaithful(spec: Spec, ann: Annotations)
    ensures EffectiveCollector(DeploymentEnv(spec), ann) == ExpectedCollector(spec, ann)
  {
    RowsDistinct(spec);
    CompactLookup(Rows(spec, ROWS), 0);
  }
}
