/** The two rules by which a service exposes a machine: its selector picks the
    machine's pod by labels, and one of its target ports names a port the
    machine's container declares. */
module Exposure {
  import opened Wrappers
  import opened Resources

  /** Whether the service's selector picks the pod. A pod without labels is picked by
      no service, not even one with an empty selector; otherwise every selector entry
      must be a label of the pod with an equal value. A labelled pod tested against a
      service without a selector makes the source dereference null. */
  function SelectsPod(service: Service, pod: Pod): (r: Result<bool, Error>)
    ensures r.Failure? <==> pod.labels.Some? && service.selector.None?
    ensures r == Success(true) <==>
              && pod.labels.Some?
              && service.selector.Some?
              && service.selector.value.Items <= pod.labels.value.Items
  {
    match pod.labels
    case None => Success(false)
    case Some(labels) =>
      match service.selector
      case None => Failure(NullValue("service selector"))
      case Some(selector) =>
        ItemsInclusion(selector, labels);
        Success(forall key | key in selector :: key in labels && labels[key] == selector[key])
  }

  /** Entry-wise agreement of two maps is inclusion of their item sets. */
  lemma ItemsInclusion(small: map<string, string>, large: map<string, string>)
    ensures (forall key | key in small :: key in large && large[key] == small[key])
            <==> small.Items <= large.Items
  {
    if small.Items <= large.Items {
      forall key | key in small
        ensures key in large && large[key] == small[key]
      {
        assert (key, small[key]) in small.Items;
        assert (key, small[key]) in large.Items;
      }
    }
  }

  /** Whether the target port names the declared port: a number must equal the declared
      port number, a name the declared port name; an unset declaration matches nothing. */
  predicate Resolves(target: IntOrString, port: ContainerPort) {
    match target
    case IntVal(number) => port.containerPort == Some(number)
    case StrVal(text) => port.name == Some(text)
  }

  /** Whether some declared port resolves the target port. */
  function ResolvesAny(target: IntOrString, ports: seq<ContainerPort>): (r: bool)
    ensures r <==> exists j :: 0 <= j < |ports| && Resolves(target, ports[j])
  {
    if ports == [] then false
    else Resolves(target, ports[0]) || ResolvesAny(target, ports[1..])
  }

  /** Whether some service port resolves against some declared port, scanning the
      service ports in order. */
  function AnyTargetResolves(targets: seq<ServicePort>, ports: seq<ContainerPort>): (r: bool)
    ensures r <==> exists i, j :: 0 <= i < |targets| && 0 <= j < |ports| && Resolves(targets[i].targetPort, ports[j])
  {
    if targets == [] then false
    else if ResolvesAny(targets[0].targetPort, ports) then true
    else
      var rest := AnyTargetResolves(targets[1..], ports);
      assert forall i, j :: 1 <= i < |targets| && 0 <= j < |ports| ==>
        Resolves(targets[i].targetPort, ports[j]) == Resolves(targets[1..][i - 1].targetPort, ports[j]);
      rest
  }

  /** Whether the service targets a port of the container. A service without ports, or a
      container without declared ports, is never a match. */
  function TargetsContainer(service: Service, container: Container): (r: bool)
    ensures r <==> exists i, j :: 0 <= i < |service.ports| && 0 <= j < |container.ports|
                                  && Resolves(service.ports[i].targetPort, container.ports[j])
    ensures service.ports == [] || container.ports == [] ==> !r
  {
    AnyTargetResolves(service.ports, container.ports)
  }

  /** Both rules: the service picks the pod and targets the container. */
  predicate Exposes(service: Service, pod: Pod, container: Container) {
    SelectsPod(service, pod) == Success(true) && TargetsContainer(service, container)
  }
}
