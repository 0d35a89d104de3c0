/** The data of the operator: findings, reports, policies and pipeline sources. Strings that the
    code only compares with constants (levels, severities, action kinds, annotation keys) are
    datatypes with a catch-all constructor. Times and durations are nanoseconds. */
module Model {
  import opened Wrappers

  const SECOND := 1_000_000_000

  datatype Level = Compliant | Warning | NonCompliant | Critical

  /** ComplianceStateToFloat, and the levels table of triggerMatches. */
  function Rank(l: Level): nat {
    match l
    case Compliant => 0
    case Warning => 1
    case NonCompliant => 2
    case Critical => 3
  }

  /** The level in lower case, as labelWorkloads writes it. */
  function LowerName(l: Level): string {
    match l
    case Compliant => "compliant"
    case Warning => "warning"
    case NonCompliant => "noncompliant"
    case Critical => "critical"
  }

  datatype Severity = CriticalSeverity | High | Medium | Low | Info | Unknown(name: string)

  datatype Finding = Finding(rule: string, severity: Severity, file: string, line: int, message: string, remediation: string)

  datatype Summary = Summary(critical: int, high: int, medium: int, low: int, info: int, total: int)

  const NO_FINDINGS := Summary(0, 0, 0, 0, 0, 0)

  datatype WorkloadRef = WorkloadRef(kind: string, name: string, ns: string)

  const DEPLOYMENT := "Deployment"
  const STATEFUL_SET := "StatefulSet"

  predicate Supported(ref: WorkloadRef) {
    ref.kind == DEPLOYMENT || ref.kind == STATEFUL_SET
  }

  /** `state` is None while the stored complianceState is the empty string. */
  datatype Status = Status(state: Option<Level>, lastEvaluated: int, repository: string, branch: string,
                           summary: Summary, workloads: seq<WorkloadRef>, findings: seq<Finding>)

  /** What a Create leaves behind, since it drops the status. */
  const PRISTINE := Status(None, 0, "", "", NO_FINDINGS, [], [])

  datatype LabelKey = SourceKind | SourceName | OtherLabel(name: string)

  /** Reading an absent label of a Go map gives the empty string. */
  function LabelOf(labels: map<LabelKey, string>, k: LabelKey): string {
    if k in labels then labels[k] else ""
  }

  datatype AnnotationKey = ComplianceState | FindingSummary | FirstDetected | OtherAnnotation(name: string)

  /** An annotation value; a text that parses as RFC 3339 is represented by the instant it denotes. */
  datatype Text = Raw(s: string) | Instant(ns: int)

  function FloorToSecond(t: int): int {
    t / SECOND * SECOND
  }

  /** time.Format(RFC3339): the fraction of the second is lost. */
  function FormatTime(t: int): Text {
    Instant(FloorToSecond(t))
  }

  function ParseTime(x: Text): Option<int> {
    match x
    case Raw(_) => None
    case Instant(ns) => Some(ns)
  }

  lemma FormatLosesLessThanASecond(t: int)
    ensures ParseTime(FormatTime(t)) == Some(FloorToSecond(t))
    ensures FloorToSecond(t) <= t < FloorToSecond(t) + 1_000_000_000 && FloorToSecond(t) % 1_000_000_000 == 0
    ensures SECOND == 1_000_000_000 && forall s :: ParseTime(Raw(s)) == None
  {}

  datatype Key = Key(ns: string, name: string)

  /** A PipelineSecurityReport with its resource version. */
  datatype Report = Report(key: Key, rv: nat, labels: map<LabelKey, string>,
                           annotations: map<AnnotationKey, Text>, status: Status)

  /** The first-detected annotation; Go reads an absent one as the empty string. */
  function StampOf(annotations: map<AnnotationKey, Text>): Option<Text> {
    if FirstDetected in annotations && annotations[FirstDetected] != Raw("") then Some(annotations[FirstDetected]) else None
  }

  /** A report counts as unstamped exactly when the annotation is missing or empty. */
  lemma UnstampedExactly(annotations: map<AnnotationKey, Text>)
    ensures StampOf(annotations) == None <==> FirstDetected !in annotations || annotations[FirstDetected] == Raw("")
    ensures StampOf(annotations).Some? ==> FirstDetected in annotations && StampOf(annotations).value == annotations[FirstDetected]
  {}

  datatype PipelineSource = PipelineSource(
    name: string, repository: string, branch: string, paths: seq<string>, platform: string,
    labels: map<string, string>, namespace: string, sourceName: string, sourceKind: string,
    owner: string, repo: string, targetNamespace: string)

  const APPLICATION := "Application"
  const KUSTOMIZATION := "Kustomization"
  const GIT_REPOSITORY := "GitRepository"

  datatype ActionKind = Annotate | Alert | SuspendSync | LabelWorkloads | OtherAction(name: string)

  /** gracePeriod: empty, rejected by time.ParseDuration, or a duration (of either sign). */
  datatype Grace = NoGrace | Malformed | Period(ns: int)

  datatype AlertTarget = AlertTarget(kind: string, channel: string, url: string)

  /** `trigger` is None when the text names no level. */
  datatype Action = Action(kind: ActionKind, trigger: Option<Level>, grace: Grace, alertTarget: Option<AlertTarget>)

  datatype Selector = Selector(cicdKinds: seq<string>, matchLabels: map<LabelKey, string>)

  datatype Thresholds = Thresholds(maxCritical: int, maxHigh: int, requirePinnedActions: bool)

  datatype PolicySpec = PolicySpec(selector: Selector, thresholds: Thresholds, interval: int, enforcement: seq<Action>)

  /** A PipelineSecurityPolicy; `evaluated` is the report count of its status message, once Active. */
  datatype Policy = Policy(rv: nat, spec: PolicySpec, evaluated: Option<nat>)
}
