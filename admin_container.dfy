/**
 * The administrator's `containers` REST handler: listing every running
 * container and stopping one of them.
 *
 * The container manager and the reverse proxy are reached only through
 * parameters: `findContainer` answers the lookup by URL identifier, and the
 * two flags say whether unregistering from the proxy and stopping the
 * container raise. Each call, and each logged exception, is returned as a
 * `Call`, in the order it happens.
 */
module AdminContainer {
  import opened Wrappers
  import opened Docker

  /** The container resource as the administrator sees it; every field is output only. */
  datatype ContainerResource = ContainerResource(
    identifier: string,
    dockerId: string,
    name: string,
    imageName: string,
    imageId: string,
    mappingId: string,
    user: string,
    realm: string)

  datatype ApiError = NotFound

  /** The step whose failure was logged. */
  datatype Step = ProxyUnregister | StopAndRemove

  datatype Call =
    | FindContainer(urlId: string)
    | Unregister(urlpath: string)
    | StopAndRemoveContainer(dockerId: string)
    | LogException(step: Step, identifier: string)

  /** The resource for a container: identified by its URL identifier and filled from its attributes. */
  function ResourceOf(c: Container): (r: ContainerResource)
    ensures r.identifier == c.urlId && r.dockerId == c.dockerId && r.mappingId == c.mappingId
  {
    ContainerResource(c.urlId, c.dockerId, c.name, c.imageName, c.imageId, c.mappingId, c.user, c.realm)
  }

  /**
   * Stops the container with URL identifier `identifier`: not found when the
   * manager has no such container, and then nothing else is called; otherwise
   * the proxy route is removed and then the container is stopped and removed,
   * each failure only logged, so that the request succeeds.
   */
  method Delete(identifier: string, findContainer: string -> Option<Container>,
                unregisterFails: bool, stopFails: bool)
    returns (outcome: Outcome<ApiError>, calls: seq<Call>)
    ensures |calls| > 0 && calls[0] == FindContainer(identifier)
    ensures findContainer(identifier).None? <==> outcome == Fail(NotFound)
    ensures findContainer(identifier).None? ==> calls == [FindContainer(identifier)]
    ensures findContainer(identifier).Some? ==>
      var c := findContainer(identifier).value;
      && outcome == Pass
      && calls == [FindContainer(identifier), Unregister(c.urlpath)] +
                  (if unregisterFails then [LogException(ProxyUnregister, identifier)] else []) +
                  [StopAndRemoveContainer(c.dockerId)] +
                  (if stopFails then [LogException(StopAndRemove, identifier)] else [])
  {
    calls := [FindContainer(identifier)];
    var found := findContainer(identifier);
    if found.None? {
      return Fail(NotFound), calls;
    }
    var container := found.value;

    calls := calls + [Unregister(container.urlpath)];
    if unregisterFails {
      calls := calls + [LogException(ProxyUnregister, identifier)];
    }

    calls := calls + [StopAndRemoveContainer(container.dockerId)];
    if stopFails {
      calls := calls + [LogException(StopAndRemove, identifier)];
    }
    outcome := Pass;
  }

  /** `items`: one resource per running container, in the order the manager lists them. */
  method Items(containers: seq<Container>) returns (items: seq<ContainerResource>)
    ensures |items| == |containers|
    ensures forall i :: 0 <= i < |items| ==> items[i] == ResourceOf(containers[i])
    ensures forall i :: 0 <= i < |items| ==> items[i].identifier == containers[i].urlId
  {
    items := [];
    for i := 0 to |containers|
      invariant |items| == i
      invariant forall k :: 0 <= k < i ==> items[k] == ResourceOf(containers[k])
    {
      var item := ResourceOf(containers[i]);
      items := items + [item];
    }
  }
}
