// The Browser and Pod objects as the API server stores them.
module Kube {
  import opened Values

  // Milliseconds.
  type Time = int

  const FINALIZER := "browserpod.selenosis.io/finalizer"
  const MAX_RETRIES := 5
  const MEDIUM_RETRY: nat := 10_000
  const PERIODIC_RECONCILE: nat := 30_000
  const QUICK_CHECK: nat := 3_000
  const POD_DELETION_TIMEOUT: nat := 300_000
  const POD_CREATION_TIMEOUT: nat := 300_000

  const BROWSER_CONTAINER := "browser"
  const SIDECAR_CONTAINER := "seleniferous"
  const OPTIONS_ANNOTATION := "selenosis.io/options"
  const BROWSER_LABEL := "selenosis.io/browser"
  const NAME_LABEL := "selenosis.io/browser.name"
  const VERSION_LABEL := "selenosis.io/browser.version"

  const NO_PHASE := ""
  const PENDING := "Pending"
  const FAILED := "Failed"

  datatype Running = Running(startedAt: Option<Time>)

  datatype Waiting = Waiting(reason: string, message: string)

  // `rest` stands for the signal and the container id.
  datatype Terminated = Terminated(
    exitCode: int, reason: string, message: string,
    startedAt: Option<Time>, finishedAt: Option<Time>, rest: Opaque)

  datatype ContainerState = ContainerState(
    running: Option<Running>, waiting: Option<Waiting>, terminated: Option<Terminated>)

  // One entry of a pod's status; `ports` stays empty there and is filled in the
  // copy kept in the Browser's status.
  datatype ContainerStatus = ContainerStatus(
    name: string, state: ContainerState, image: string, restartCount: int, ports: seq<ContainerPort>)

  datatype PodStatus = PodStatus(
    phase: string, reason: string, message: string, podIP: string,
    startTime: Option<Time>, containers: seq<ContainerStatus>)

  // `grace` is the grace period the API server applies to a plain delete of this
  // pod, and `held` says that the pod carries finalizers of its own.
  datatype Pod = Pod(
    name: string, namespace: string, owner: string,
    labels: map<string, string>, annotations: map<string, string>, spec: PodSpec,
    creation: Option<Time>, deletion: Option<Time>, grace: nat, held: bool,
    status: PodStatus)

  datatype BrowserStatus = BrowserStatus(
    podIP: string, phase: string, message: string, reason: string,
    startTime: Option<Time>, containers: seq<ContainerStatus>)

  // A nil map of labels or annotations reads like an empty one.
  datatype Browser = Browser(
    uid: string, name: string, namespace: string,
    finalizers: seq<string>, deletion: Option<Time>,
    labels: map<string, string>, annotations: map<string, string>,
    browserName: string, browserVersion: string,
    status: BrowserStatus)

  datatype ApiError = NotFound | Conflict | AlreadyExists | OtherError

  datatype Reply<+T> = Ok(value: T) | Err(error: ApiError)

  // What a reconcile asks of the work queue.
  datatype Requeue = Done | After(delay: nat)

  predicate HasFinalizer(b: Browser) {
    FINALIZER in b.finalizers
  }

  // controllerutil.RemoveFinalizer drops every occurrence.
  function Without(s: seq<string>, x: string): (r: seq<string>)
    ensures x !in r
    ensures x !in s ==> r == s
    ensures forall y :: y != x ==> (y in r <==> y in s)
  {
    if s == [] then []
    else if s[0] == x then Without(s[1..], x)
    else [s[0]] + Without(s[1..], x)
  }

  function LabelOf(labels: map<string, string>, key: string): string {
    if key in labels then labels[key] else ""
  }
}
