/** Server discovery: which services expose the machine, and which of their routes
    publish a named server. */
module Discovery {
  import opened Wrappers
  import opened Seqs
  import opened Resources
  import opened Exposure

  /** The route annotations that publish a server. */
  const ServerNameAnnotation := "server-name"
  const ServerPathAnnotation := "server-path"
  const ServerProtocolAnnotation := "server-protocol"

  /** A container of the given name among the pod's containers (the first one). */
  function FindContainer(containers: seq<Container>, name: string): (r: Option<Container>)
    ensures r.None? <==> forall i :: 0 <= i < |containers| ==> containers[i].name != name
    ensures r.Some? ==> r.value in containers && r.value.name == name
  {
    if containers == [] then None
    else if containers[0].name == name then Some(containers[0])
    else FindContainer(containers[1..], name)
  }

  /** The services, in listing order, that pick the pod and target the container. The
      label rule is tested first, so a service without a selector fails the whole
      listing when the pod is labelled. */
  function KeepExposing(services: seq<Service>, pod: Pod, container: Container): (r: Result<seq<Service>, Error>)
    ensures r.Failure? <==> pod.labels.Some? && exists i :: 0 <= i < |services| && services[i].selector.None?
    ensures r.Failure? ==> r.error == NullValue("service selector")
    ensures r.Success? ==> forall s :: s in r.value <==> s in services && Exposes(s, pod, container)
    ensures r.Success? ==> forall s :: multiset(r.value)[s] == if Exposes(s, pod, container) then multiset(services)[s] else 0
    ensures r.Success? ==> IsSubsequence(r.value, services)
  {
    if services == [] then Success([])
    else
      var service := services[0];
      assert services == [service] + services[1..];
      match SelectsPod(service, pod)
      case Failure(e) => Failure(e)
      case Success(selected) =>
        match KeepExposing(services[1..], pod, container)
        case Failure(e) => Failure(e)
        case Success(rest) =>
          if selected && TargetsContainer(service, container) then Success([service] + rest)
          else Success(rest)
  }

  /** The services that expose the machine's container of the pod, in listing order.
      A pod spec without that container is an internal inconsistency, not an empty answer. */
  function MatchedServices(pod: Pod, containerName: string, services: seq<Service>): (r: Result<seq<Service>, Error>)
    ensures FindContainer(pod.containers, containerName).None? ==> r == Failure(ContainerNotInPod)
    ensures r.Failure? <==>
              || FindContainer(pod.containers, containerName).None?
              || (pod.labels.Some? && exists i :: 0 <= i < |services| && services[i].selector.None?)
    ensures r.Success? ==>
              && FindContainer(pod.containers, containerName).Some?
              && (forall s :: s in r.value <==>
                    s in services && Exposes(s, pod, FindContainer(pod.containers, containerName).value))
              && IsSubsequence(r.value, services)
    ensures r.Success? ==>
              && FindContainer(pod.containers, containerName).Some?
              && forall s :: multiset(r.value)[s] ==
                   if Exposes(s, pod, FindContainer(pod.containers, containerName).value)
                   then multiset(services)[s] else 0
  {
    match FindContainer(pod.containers, containerName)
    case None => Failure(ContainerNotInPod)
    case Some(container) => KeepExposing(services, pod, container)
  }

  /** The annotation value for `key`, null when absent. */
  function Annotation(annotations: map<string, string>, key: string): Option<string> {
    if key in annotations then Some(annotations[key]) else None
  }

  /** A route to a matched service whose metadata has no annotations: the source
      dereferences null on it. */
  predicate Unannotated(route: Route, matched: set<string>) {
    route.targetName in matched && route.annotations.None?
  }

  /** A route publishes a server when it forwards to a matched service and names a server. */
  predicate Publishes(route: Route, matched: set<string>) {
    && route.targetName in matched
    && route.annotations.Some?
    && ServerNameAnnotation in route.annotations.value
  }

  /** The name of the server a route publishes. */
  function PublishedName(route: Route): string
    requires route.annotations.Some? && ServerNameAnnotation in route.annotations.value
  {
    route.annotations.value[ServerNameAnnotation]
  }

  /** The server a route publishes: reachable at protocol, "://", host and path, each
      rendered as Java concatenation renders it, and running. */
  function PublishedServer(route: Route): Server
    requires route.annotations.Some?
  {
    var annotations := route.annotations.value;
    Server(Render(Annotation(annotations, ServerProtocolAnnotation)) + "://" + Render(route.host)
             + Render(Annotation(annotations, ServerPathAnnotation)),
           Running)
  }

  /** Route `i` publishes a server, and no later route publishes one of the same name. */
  predicate LastPublisher(routes: seq<Route>, matched: set<string>, i: int)
    requires 0 <= i < |routes|
  {
    && Publishes(routes[i], matched)
    && forall j :: i < j < |routes| && Publishes(routes[j], matched) ==>
         PublishedName(routes[j]) != PublishedName(routes[i])
  }

  /** No route publishes a server named `name`. */
  predicate Unpublished(routes: seq<Route>, matched: set<string>, name: string) {
    forall i :: 0 <= i < |routes| && Publishes(routes[i], matched) ==> PublishedName(routes[i]) != name
  }

  /** The loop over the routes: each publishing route puts its server into the map
      under its name, replacing what an earlier route put there. */
  function Collect(routes: seq<Route>, matched: set<string>, servers: map<string, Server>): Result<map<string, Server>, Error>
  {
    if routes == [] then Success(servers)
    else
      var route := routes[0];
      if route.targetName !in matched then Collect(routes[1..], matched, servers)
      else match route.annotations
        case None => Failure(NullValue("route annotations"))
        case Some(annotations) =>
          if ServerNameAnnotation in annotations
          then Collect(routes[1..], matched, servers[annotations[ServerNameAnnotation] := PublishedServer(route)])
          else Collect(routes[1..], matched, servers)
  }

  /** What the route loop yields, described without the loop. */
  ghost predicate CollectedFrom(routes: seq<Route>, matched: set<string>, start: map<string, Server>, servers: map<string, Server>) {
    && (forall name :: name in servers <==>
          name in start || exists i :: 0 <= i < |routes| && Publishes(routes[i], matched) && PublishedName(routes[i]) == name)
    && (forall i :: 0 <= i < |routes| && LastPublisher(routes, matched, i) ==>
          PublishedName(routes[i]) in servers && servers[PublishedName(routes[i])] == PublishedServer(routes[i]))
    && (forall name :: name in start && Unpublished(routes, matched, name) ==>
          name in servers && servers[name] == start[name])
  }

  /** The route loop fails exactly on a matched route without annotations; otherwise every
      published name ends up in the map holding the server of its last publisher, and
      nothing else changes. */
  lemma {:induction false} CollectSpec(routes: seq<Route>, matched: set<string>, start: map<string, Server>)
    ensures Collect(routes, matched, start).Failure? <==>
              exists i :: 0 <= i < |routes| && Unannotated(routes[i], matched)
    ensures Collect(routes, matched, start).Failure? ==>
              Collect(routes, matched, start).error == NullValue("route annotations")
    ensures Collect(routes, matched, start).Success? ==>
              CollectedFrom(routes, matched, start, Collect(routes, matched, start).value)
    decreases |routes|
  {
    if routes != [] {
      var route, rest := routes[0], routes[1..];
      assert forall i :: 1 <= i < |routes| ==> routes[i] == rest[i - 1];
      var next := start;
      if route.targetName in matched && route.annotations.Some? && ServerNameAnnotation in route.annotations.value {
        next := start[PublishedName(route) := PublishedServer(route)];
      }
      CollectSpec(rest, matched, next);
      assert Collect(routes, matched, start) == if Unannotated(route, matched) then Failure(NullValue("route annotations"))
                                                else Collect(rest, matched, next);
      var r := Collect(routes, matched, start);
      if r.Success? {
        var servers := r.value;
        assert CollectedFrom(rest, matched, next, servers);
        forall name
          ensures name in servers <==>
            name in start || exists i :: 0 <= i < |routes| && Publishes(routes[i], matched) && PublishedName(routes[i]) == name
        {
          if exists i :: 0 <= i < |rest| && Publishes(rest[i], matched) && PublishedName(rest[i]) == name {
            var i :| 0 <= i < |rest| && Publishes(rest[i], matched) && PublishedName(rest[i]) == name;
            assert routes[i + 1] == rest[i];
          }
        }
        forall i | 0 <= i < |routes| && LastPublisher(routes, matched, i)
          ensures PublishedName(routes[i]) in servers && servers[PublishedName(routes[i])] == PublishedServer(routes[i])
        {
          if i == 0 {
            assert Unpublished(rest, matched, PublishedName(route)) by {
              forall j | 0 <= j < |rest| && Publishes(rest[j], matched)
                ensures PublishedName(rest[j]) != PublishedName(route)
              {
                assert routes[j + 1] == rest[j];
              }
            }
          } else {
            assert LastPublisher(rest, matched, i - 1);
          }
        }
        forall name | name in start && Unpublished(routes, matched, name)
          ensures name in servers && servers[name] == start[name]
        {
          assert Unpublished(rest, matched, name) by {
            forall j | 0 <= j < |rest| && Publishes(rest[j], matched)
              ensures PublishedName(rest[j]) != name
            {
              assert routes[j + 1] == rest[j];
            }
          }
        }
      }
    }
  }

  /** The names of the matched services. */
  function Names(services: seq<Service>): set<string> {
    set s | s in services :: s.name
  }

  /** The servers of the machine, keyed by server name: a failure when the pod is gone,
      when the pod lacks the machine's container, when a service lacks a selector for a
      labelled pod, or when a route to a matched service lacks annotations; otherwise
      exactly the names the routes to matched services publish, each holding the server
      of the last route that publishes it. Nothing qualifying means an empty map. */
  function Servers(h: Handle, pod: Option<Pod>, services: seq<Service>, routes: seq<Route>): (r: Result<map<string, Server>, Error>)
    ensures pod.None? ==> r == Failure(NullValue("pod"))
    ensures pod.Some? && MatchedServices(pod.value, h.containerName, services).Failure? ==>
              r == Failure(MatchedServices(pod.value, h.containerName, services).error)
    ensures pod.Some? && MatchedServices(pod.value, h.containerName, services).Success? ==>
              var matched := Names(MatchedServices(pod.value, h.containerName, services).value);
              && (r.Failure? <==> exists i :: 0 <= i < |routes| && Unannotated(routes[i], matched))
              && (r.Failure? ==> r.error == NullValue("route annotations"))
              && (r.Success? ==> CollectedFrom(routes, matched, map[], r.value))
  {
    match pod
    case None => Failure(NullValue("pod"))
    case Some(p) =>
      match MatchedServices(p, h.containerName, services)
      case Failure(e) => Failure(e)
      case Success(exposing) =>
        var matched := Names(exposing);
        CollectSpec(routes, matched, map[]);
        Collect(routes, matched, map[])
  }

  /** When no route publishes a server and none lacks annotations, the servers are an
      empty map, not an error. */
  lemma NothingPublishedIsEmpty(h: Handle, pod: Pod, services: seq<Service>, routes: seq<Route>)
    requires MatchedServices(pod, h.containerName, services).Success?
    requires forall i :: 0 <= i < |routes| ==>
               && !Publishes(routes[i], Names(MatchedServices(pod, h.containerName, services).value))
               && !Unannotated(routes[i], Names(MatchedServices(pod, h.containerName, services).value))
    ensures Servers(h, Some(pod), services, routes) == Success(map[])
  {
  }

  /** A pod labelled app=web whose container "web" declares port 8080 named "http"; a
      service selecting app=web on target port 8080 and one selecting app=other: only the
      first exposes the machine. */
  lemma WebExampleMatched(web: Container, pod: Pod, s1: Service, s2: Service)
    requires web == Container("web", [ContainerPort(Some(8080), Some("http"))])
    requires pod == Pod(Some(map["app" := "web"]), Some("Running"), [web])
    requires s1 == Service("s1", Some(map["app" := "web"]), [ServicePort(IntVal(8080))])
    requires s2 == Service("s2", Some(map["app" := "other"]), [ServicePort(IntVal(8080))])
    ensures MatchedServices(pod, "web", [s1, s2]) == Success([s1])
  {
    assert FindContainer([web], "web") == Some(web);
    assert SelectsPod(s1, pod) == Success(true);
    assert "app" in s2.selector.value && s2.selector.value["app"] != pod.labels.value["app"];
    assert SelectsPod(s2, pod) == Success(false);
    assert Resolves(IntVal(8080), web.ports[0]);
    assert TargetsContainer(s1, web);
    assert KeepExposing([s2], pod, web) == Success([]);
    assert [s1, s2][1..] == [s2];
    assert [s1] + [] == [s1];
  }

  /** Two routes to a matched service, one naming server "web" with protocol "http" and
      path "/", one naming none: only "web" is published. */
  lemma WebExampleRoutes(r1: Route, r2: Route)
    requires r1 == Route("s1", Some("web.example.com"),
                         Some(map[ServerNameAnnotation := "web", ServerProtocolAnnotation := "http",
                                  ServerPathAnnotation := "/"]))
    requires r2 == Route("s1", Some("web.example.com"), Some(map[]))
    ensures Collect([r1, r2], {"s1"}, map[]) == Success(map["web" := Server("http://web.example.com/", Running)])
  {
    var annotations := r1.annotations.value;
    assert Annotation(annotations, ServerProtocolAnnotation) == Some("http");
    assert Annotation(annotations, ServerPathAnnotation) == Some("/");
    assert "http" + "://" + "web.example.com" + "/" == "http://web.example.com/";
    assert PublishedServer(r1) == Server("http://web.example.com/", Running);
    assert Collect([r1, r2], {"s1"}, map[]) == Collect([r2], {"s1"}, map["web" := PublishedServer(r1)]);
    var servers := map["web" := Server("http://web.example.com/", Running)];
    assert Collect([r2], {"s1"}, servers) == Success(servers);
    assert [r1, r2][1..] == [r2];
  }

  /** The two together: discovery finds exactly the server "web". */
  lemma WebExample(web: Container, pod: Pod, s1: Service, s2: Service, r1: Route, r2: Route)
    requires web == Container("web", [ContainerPort(Some(8080), Some("http"))])
    requires pod == Pod(Some(map["app" := "web"]), Some("Running"), [web])
    requires s1 == Service("s1", Some(map["app" := "web"]), [ServicePort(IntVal(8080))])
    requires s2 == Service("s2", Some(map["app" := "other"]), [ServicePort(IntVal(8080))])
    requires r1 == Route("s1", Some("web.example.com"),
                         Some(map[ServerNameAnnotation := "web", ServerProtocolAnnotation := "http",
                                  ServerPathAnnotation := "/"]))
    requires r2 == Route("s1", Some("web.example.com"), Some(map[]))
    ensures Servers(Handle("project", "pod", "web"), Some(pod), [s1, s2], [r1, r2])
              == Success(map["web" := Server("http://web.example.com/", Running)])
  {
    WebExampleMatched(web, pod, s1, s2);
    WebExampleRoutes(r1, r2);
    assert Names([s1]) == {"s1"};
  }
}
