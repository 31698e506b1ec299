/** Immutable snapshots of the cluster resources an OpenShift machine reads, the
    machine's identity, and the failures its operations raise.

    A Java reference that the source tests against null, compares with `equals`, or
    renders by string concatenation is an `Option` here; `None` is the null. */
module Resources {
  import opened Wrappers

  /** The identity a machine handle is built from; it never changes. */
  datatype Handle = Handle(projectName: string, podName: string, containerName: string)

  /** A port a container declares; both the number and the name may be unset. */
  datatype ContainerPort = ContainerPort(containerPort: Option<int>, name: Option<string>)

  datatype Container = Container(name: string, ports: seq<ContainerPort>)

  /** A pod as fetched: its labels (absent when the pod has none), the phase reported in
      its status, and the containers of its spec in declaration order. */
  datatype Pod = Pod(labels: Option<map<string, string>>, phase: Option<string>, containers: seq<Container>)

  /** A service target port is given either as a number or as a port name. */
  datatype IntOrString = IntVal(number: int) | StrVal(text: string)

  datatype ServicePort = ServicePort(targetPort: IntOrString)

  /** A service as listed: its name, its label selector (absent when the spec has none)
      and its ports in declaration order. */
  datatype Service = Service(name: string, selector: Option<map<string, string>>, ports: seq<ServicePort>)

  /** A route as listed: the name of the service it forwards to, its host, and the
      annotations of its metadata (absent when it has none). */
  datatype Route = Route(targetName: string, host: Option<string>, annotations: Option<map<string, string>>)

  datatype ServerStatus = Running | Stopped | Unknown

  /** A discovered server: where it is reachable and in what state. */
  datatype Server = Server(url: string, status: ServerStatus)

  /** The failures the machine's operations raise. */
  datatype Error =
    | PodNotFound(podName: string)          // the pod to wait for does not exist
    | ContainerNotInPod                     // the pod spec lacks the machine's container
    | NullValue(what: string)               // the source dereferences a null reference
    | WatchInterrupted                      // the pod watch closed before the pod ran
    | StartTimedOut(machineName: string)    // the wait for the pod reached its bound
    | StartInterrupted(machineName: string) // the waiting thread was interrupted
    | EncodingFailed(message: string)       // a command token could not be encoded
    | ClientFailure(message: string)        // the client failed to talk to the cluster
    | ExecInterrupted(message: string)      // the thread waiting for a command was interrupted
  {
    /** The message the raised exception carries; a null dereference carries none. */
    function Message(): Option<string> {
      match this
      case PodNotFound(pod) => Some("Can't find created pod " + pod)
      case ContainerNotInPod => Some("Corresponding pod for OpenShift machine doesn't exist.")
      case NullValue(_) => None
      case WatchInterrupted => Some("Machine watching is interrupted")
      case StartTimedOut(machine) => Some("Starting of machine " + machine + " reached timeout")
      case StartInterrupted(machine) => Some("Starting of machine " + machine + " was interrupted")
      case EncodingFailed(message) => Some(message)
      case ClientFailure(message) => Some(message)
      case ExecInterrupted(message) => Some(message)
    }
  }

  /** Java string concatenation renders a null reference as the text "null". */
  function Render(s: Option<string>): string {
    match s
    case None => "null"
    case Some(text) => text
  }

  /** The machine's name: pod name and container name joined by a slash. */
  function GetName(h: Handle): string {
    h.podName + "/" + h.containerName
  }

  /** The position of the first slash in `s`, if any. */
  function SlashIndex(s: string): (r: Option<nat>)
    ensures r.None? <==> '/' !in s
    ensures r.Some? ==> r.value < |s| && s[r.value] == '/' && '/' !in s[..r.value]
  {
    if s == [] then None
    else if s[0] == '/' then Some(0)
    else match SlashIndex(s[1..])
      case None => None
      case Some(i) => Some(i + 1)
  }

  /** Reads a machine name back into its pod and container parts, splitting at the first slash. */
  function SplitName(name: string): Option<(string, string)> {
    match SlashIndex(name)
    case None => None
    case Some(i) => Some((name[..i], name[i + 1..]))
  }

  /** Pod names never contain a slash, so a machine name determines its pod and container. */
  lemma NameDeterminesPodAndContainer(h: Handle)
    requires '/' !in h.podName
    ensures SplitName(GetName(h)) == Some((h.podName, h.containerName))
  {
    var name := GetName(h);
    var k := |h.podName|;
    assert name[k] == '/';
    assert name[..k] == h.podName;
    assert name[k + 1..] == h.containerName;
  }
}
