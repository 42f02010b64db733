/** The records the operator passes around: scaling items, cluster objects and their keys. */
module Items {

  datatype Option<+T> = None | Some(value: T)

  function Min(a: int, b: int): int { if a < b then a else b }
  function Max(a: int, b: int): int { if a < b then b else a }

  /** The value of n as an int32: wrapped around at 2^31. */
  function Int32(n: int): int {
    (n + 0x8000_0000) % 0x1_0000_0000 - 0x8000_0000
  }

  /** Namespace and name: what every deny-list operation compares. */
  datatype Key = Key(ns: string, name: string)

  datatype Kind = Deployment | DeploymentConfig | RedisCluster | Unknown

  /** Reason of the latest condition on the cluster object. */
  datatype Condition = ProgressDeadlineExceeded | OtherReason(reason: string)

  /** Failure messages; their wording is not modelled. */
  datatype Message = NoMessage | DeadlineMessage | TimeoutMessage | OptedOutMessage | ScaleFailedMessage
                   | StateUndefined(state: string) | ClassUndefined(scalingClass: string)

  /** A scaling state; the lower number ranks higher. NO_STATE is the zero value the code tests for. */
  datatype State = State(name: string, priority: int)
  const NO_STATE := State("", 0)

  datatype ScalingInfo = ScalingInfo(
    ns: string,
    name: string,
    annotations: map<string, string>,
    labels: map<string, string>,
    kind: Kind,
    isBeingScaled: bool,
    failure: bool,
    failureMessage: Message,
    spec: int,
    ready: int,
    desired: int,
    state: string,
    classState: State,
    scalingClass: string,
    limits: map<string, int>,
    condition: Condition)

  function KeyOf(item: ScalingInfo): Key {
    Key(item.ns, item.name)
  }

  /** Keys a Kubernetes object can have: the lookup of the deny list treats the others as missing. */
  predicate Named(k: Key) {
    k.ns != "" && k.name != ""
  }

  const BLANK := ScalingInfo("", "", map[], map[], Unknown, false, false, NoMessage, 0, 0, 0, "", NO_STATE, "",
                             map[], OtherReason(""))
  const ZERO_KEY := Key("", "")

  /** What the operator reads of a Deployment, DeploymentConfig or RedisCluster. */
  datatype Obj = Obj(
    kind: Kind,
    annotations: map<string, string>,
    labels: map<string, string>,
    spec: int,
    ready: int,
    limits: map<string, int>,
    condition: Condition)

  /** The Convert functions: a fresh item, target still undetermined. A RedisCluster never reports a failure. */
  function Convert(k: Key, o: Obj): ScalingInfo {
    var failed := o.condition.ProgressDeadlineExceeded? && !o.kind.RedisCluster?;
    ScalingInfo(k.ns, k.name, o.annotations, o.labels, o.kind, false, failed,
                if failed then DeadlineMessage else NoMessage, o.spec, o.ready, -1, "", NO_STATE, "",
                o.limits, o.condition)
  }

  /** strconv.ParseBool accepting the text as true. */
  predicate ParsesTrue(text: string) {
    text in ["1", "t", "T", "TRUE", "true", "True"]
  }

  predicate OptedIn(labels: map<string, string>) {
    "scaler/opt-in" in labels && ParsesTrue(labels["scaler/opt-in"])
  }

  predicate AllowsAutoscaling(annotations: map<string, string>) {
    "scaler/allow-autoscaling" in annotations && annotations["scaler/allow-autoscaling"] == "true"
  }

  /** Redis clusters are always scaled rapidly, everything else only on its annotation. */
  predicate RapidScaling(item: ScalingInfo) {
    item.kind.RedisCluster? ||
    ("scaler/rapid-scaling" in item.annotations && ParsesTrue(item.annotations["scaler/rapid-scaling"]))
  }
}
