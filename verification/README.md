# OpenShift machine: endpoint discovery and readiness

A Dafny model of the core of `OpenShiftMachine`, the handle Eclipse Che keeps for one
container of a pod running in an OpenShift project. The handle is identified by its
project, pod name and container name (`Resources.Handle`). The model covers:

- **Exposure** (`exposure.dfy`): the two `isExposedByService` rules. A service's label
  selector must pick the pod, and one of its target ports, given as a number or as a name,
  must name a port the container declares.
- **Discovery** (`discovery.dfy`): `getMatchedServices` and `getServers`. The services that
  expose the machine are kept in listing order. The routes to them that carry a server-name
  annotation are folded into a map from server name to server, and the last writer wins.
- **Readiness** (`readiness.dfy`): `waitRunning`. There is an initial look at the pod.
  After it, the watch signals race against the bounded wait. This is modelled as a
  single-assignment cell folded over a finite sequence of signals.
- **Command** (`command.dfy`): `encode` and `exec`. Tokens go through an uninterpreted
  per-token encoder. The exec outcome is an abstract value.
- **Resources** (`resources.dfy`): the snapshot datatypes, the failures, and `getName`.

The cluster is not modelled as a live system. The pod, the service list and the route
list are snapshot values passed in by the caller. The watch and the wait are a sequence of
signals. These Java references may be null and are modelled as `Option`: the pod, its
labels and its phase; a declared port's number and name; a service's selector; a route's
host and annotations; and each annotation value. The source dereferences three of them
without a null check: a missing pod in `getMatchedServices`, a missing selector tested
against a labelled pod, and missing annotations on a route to a matched service. For those
three, the model returns `Error.NullValue` and says which value was null. Every other
reference is assumed never null (see "## Left out").

Three behaviours of the code worth noting:

- In `getServers`, a missing pod is a null dereference (NullPointerException). It is not a
  resource-not-found error.
- An absent protocol or path annotation is rendered as the text `null` in the URL, because
  Java string concatenation renders null that way. It is not rendered as an empty string.
- A pod without labels is picked by no service at all. This includes a service whose
  selector is empty.

## Model

| member | source | states |
|---|---|---|
| Resources.NameDeterminesPodAndContainer | infrastructures/openshift/src/main/java/org/eclipse/che/workspace/infrastructure/openshift/OpenShiftMachine.java:78-80 | The machine name is the pod name, a slash, then the container name. When the pod name has no slash, splitting the name at its first slash gives back the pod and the container. |
| Exposure.SelectsPod | infrastructures/openshift/src/main/java/org/eclipse/che/workspace/infrastructure/openshift/OpenShiftMachine.java:242-254 | Fails exactly when the pod has labels and the service has no selector. Otherwise it is true exactly when the pod has labels and the selector's items are a subset of the label items. A pod without labels is never picked; a labelled pod is picked by an empty selector. |
| Exposure.ResolvesAny | infrastructures/openshift/src/main/java/org/eclipse/che/workspace/infrastructure/openshift/OpenShiftMachine.java:259-270 | True exactly when some declared port resolves the target port. A number must equal the declared port number, and a name must equal the declared port name. |
| Exposure.AnyTargetResolves | infrastructures/openshift/src/main/java/org/eclipse/che/workspace/infrastructure/openshift/OpenShiftMachine.java:257-273 | True exactly when some pair of a service port and a declared port resolves. |
| Exposure.TargetsContainer | infrastructures/openshift/src/main/java/org/eclipse/che/workspace/infrastructure/openshift/OpenShiftMachine.java:256-274 | A service targets the container exactly when one of its target ports resolves against one of the container's ports. A service without ports, or a container without ports, never matches. |
| Discovery.FindContainer | infrastructures/openshift/src/main/java/org/eclipse/che/workspace/infrastructure/openshift/OpenShiftMachine.java:222-228 | Absent exactly when no container of the pod has the name. When found, it is one of the pod's containers and carries the name. |
| Discovery.KeepExposing | infrastructures/openshift/src/main/java/org/eclipse/che/workspace/infrastructure/openshift/OpenShiftMachine.java:230-238 | Fails exactly when the pod has labels and some listed service has no selector. Otherwise it keeps exactly the services that pick the pod and target the container: each such service with its listed multiplicity, none of the others, in listing order. |
| Discovery.MatchedServices | infrastructures/openshift/src/main/java/org/eclipse/che/workspace/infrastructure/openshift/OpenShiftMachine.java:220-240 | A pod spec without the machine's container gives ContainerNotInPod, not an empty list. Otherwise the result is exactly the exposing services, in listing order. |
| Discovery.CollectSpec | infrastructures/openshift/src/main/java/org/eclipse/che/workspace/infrastructure/openshift/OpenShiftMachine.java:100-113 | The route loop fails exactly when a route to a matched service has no annotations. Otherwise a name is in the result exactly when it was already there or some route to a matched service publishes it. Each published name holds the server of the last route that publishes it. Names no route publishes keep their earlier value. |
| Discovery.Servers | infrastructures/openshift/src/main/java/org/eclipse/che/workspace/infrastructure/openshift/OpenShiftMachine.java:87-116 | A missing pod is a null dereference, and a failure of the matched-service step propagates. Otherwise the result is the route loop's outcome over the names of the matched services, starting from an empty map. The loop fails with the route-annotations null dereference exactly when a route to a matched service has no annotations. |
| Discovery.NothingPublishedIsEmpty | infrastructures/openshift/src/main/java/org/eclipse/che/workspace/infrastructure/openshift/OpenShiftMachine.java:100-114 | When no route publishes a server and no route to a matched service lacks annotations, the servers are an empty map, not an error. This covers routes to matched services without a server-name annotation. |
| Discovery.WebExample | infrastructures/openshift/src/main/java/org/eclipse/che/workspace/infrastructure/openshift/OpenShiftMachine.java:87-116 | A pod labelled app=web with container port 8080 named "http", and two services: only the one selecting app=web on port 8080 matches. Of its two routes, only the one naming server "web" publishes, at "http://web.example.com/" and running. |
| Readiness.ResolvedIsFinal | infrastructures/openshift/src/main/java/org/eclipse/che/workspace/infrastructure/openshift/OpenShiftMachine.java:178-189 | Once the outcome is set, no later event, close, timeout or interruption changes it. |
| Readiness.FirstResolvingDecides | infrastructures/openshift/src/main/java/org/eclipse/che/workspace/infrastructure/openshift/OpenShiftMachine.java:172-205 | Once watching, the first resolving signal decides the outcome. A Running event gives success, a close gives "Machine watching is interrupted", the bound gives a timeout and an interruption gives an interrupted error. With no resolving signal, the cell stays open. |
| Readiness.FirstResolutionWins | infrastructures/openshift/src/main/java/org/eclipse/che/workspace/infrastructure/openshift/OpenShiftMachine.java:178-189 | When a prefix of the signals has resolved the wait, appending any further signals leaves the outcome unchanged. |
| Readiness.WaitRunning | infrastructures/openshift/src/main/java/org/eclipse/che/workspace/infrastructure/openshift/OpenShiftMachine.java:149-206 | A missing pod gives "Can't find created pod" and opens no watch. A pod already Running succeeds without opening a watch. Otherwise a watch is opened and the first resolving signal decides; when the signals run out, the result is the timeout error. The watch is closed exactly when it was opened and the wait succeeded. |
| Readiness.WatchSucceedsIffRunningFirst | infrastructures/openshift/src/main/java/org/eclipse/che/workspace/infrastructure/openshift/OpenShiftMachine.java:172-197 | Once watching, the wait succeeds exactly when the first resolving signal is a pod event whose phase is Running. Earlier events with other phases do not matter. |
| Command.Encode | infrastructures/openshift/src/main/java/org/eclipse/che/workspace/infrastructure/openshift/OpenShiftMachine.java:208-218 | Succeeds exactly when every token encodes. The result has the input's length, and element i is the encoding of token i. Otherwise the error carries the message of the first token that fails to encode. |
| Command.Exec | infrastructures/openshift/src/main/java/org/eclipse/che/workspace/infrastructure/openshift/OpenShiftMachine.java:127-147 | An encoding failure fails with that token's message. Otherwise a client failure and an interrupted wait fail with their messages. A failed channel, a closed channel and an elapsed bound all succeed and send the encoded command. |

## Left out

- Client construction, connections and their release (`OpenShiftClientFactory`, try-with-resources). These are I/O; the pod, services and routes are input values instead.
- Real timing. The `timeoutMin` argument of `waitRunning` and the five-minute bound of `exec` appear only as abstract "bound elapsed" signals.
- The exec channel itself and the `ExecWatchdog` latch. These are concurrency. `exec` is reduced to one `Command.ExecRun` value saying how the channel and the wait ended.
- When an interrupted wait is reported as an error (`Readiness.CallerInterrupted`, `Command.WaitInterrupted`), the source also sets the thread's interrupt flag again with `Thread.currentThread().interrupt()` (lines 141 and 203). The model has no threads, so it leaves this out.
- The internals of `URLEncoder`. Form encoding in UTF-8 is a library call, so the per-token encoder is a parameter.
- Logging (`LOG.info`), and `getProperties`, which always returns an empty map.
- Closing the watch can itself fail. That failure is not modelled. The watch is closed only on the success path, and whether the close happens is modelled (`WaitReport.watchClosed`).
- References the model assumes are never null. In the source each of these would be a NullPointerException:
  - pod metadata (line 243), pod spec (line 222) and pod status (line 163), including the status of a pod delivered by the watch (line 176);
  - a service's spec (lines 244 and 257), its port list (line 257) and each port's target port (line 258);
  - a target port that holds neither a number nor a name (line 267);
  - a container's port list (lines 260 and 266);
  - a route's spec and its `to` reference (line 102), and its metadata (line 103);
  - a matched service's metadata (line 92);
  - the value of a selector entry (line 249);
  - the command array and each of its tokens (lines 209 and 212).

  The model's types always carry these values. A container's name is a plain string too, but that is not a narrowing. Line 225 compares it with `containerName.equals(...)`, so a null name would simply fail the comparison, as any non-matching name does.
- The annotation key strings are defined in `Constants.java`, which is not part of this model. The model uses the names server-name, server-path and server-protocol.
- Discovery.FindContainer: the source uses `findAny`, which promises only some container of that name. The model takes the first, and its contract promises no more than `findAny` does.
