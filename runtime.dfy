/** The docker module runtime: each lifecycle and registry operation checks
    its arguments and, when they pass, issues one request to the engine. The
    engine is modelled by the log of requests it has been sent, and by the
    reply it gives, which is an input. */
module Runtime {
  import opened Types
  import opened Validation
  import opened Models
  import opened Env
  import opened Network
  import opened Credentials
  import opened Listing

  /** Seconds the engine waits after a stop or restart before killing. */
  const WaitBeforeKillSeconds: int := 10

  /** The only module type this runtime accepts. */
  const DockerModuleType := "docker"

  /** A request to the engine's API. Parameters the runtime always passes
      empty (image-create's source, repository, tag, message and platform;
      container-start's detach keys) are not represented. */
  datatype Request =
    | ImageCreate(fromImage: string, registryAuth: RegistryAuthHeader)
    | ImageDelete(name: string, force: bool, noPrune: bool)
    | ContainerCreate(body: CreateOptions, name: string)
    | ContainerStart(id: string)
    | ContainerStop(id: string, t: int)
    | ContainerRestart(id: string, t: int)
    | ContainerDelete(id: string, v: bool, force: bool, link: bool)
    | ContainerList(all: bool, limit: int, size: bool, filters: map<string, seq<string>>)

  /** The engine endpoint: its scheme, its path and the whole URL text. */
  datatype Url = Url(scheme: string, path: string, full: string)

  /** The API base path: the socket path for a "unix" URL, the whole URL for
      any other scheme. */
  function GetBasePath(url: Url): (basePath: string)
    ensures url.scheme == "unix" ==> basePath == url.path
    ensures url.scheme != "unix" ==> basePath == url.full
  {
    if url.scheme == "unix" then url.path else url.full
  }

  /** pull: the image-create request for name, carrying the serialized
      credentials; a blank name is an ArgumentEmpty error and no request. */
  function PullRequest(name: string, registryAuth: RegistryAuthHeader): (r: Result<Request>)
    ensures r.Err? <==> IsBlank(name)
    ensures r.Err? ==> r.error.ArgumentEmpty?
    ensures r.Ok? ==> r.value.ImageCreate? && r.value.fromImage == name && r.value.registryAuth == registryAuth
  {
    match EnsureNotEmpty("name", name)
    case Err(e) => Err(e)
    case Ok(n) => Ok(ImageCreate(n, registryAuth))
  }

  /** The registry's remove: deletes the image without forcing and without
      keeping untagged parents; a blank name is an error and no request. */
  function RemoveImageRequest(name: string): (r: Result<Request>)
    ensures r.Err? <==> IsBlank(name)
    ensures r.Err? ==> r.error.ArgumentEmpty?
    ensures r.Ok? ==> r.value.ImageDelete? && r.value.name == name
    ensures r.Ok? ==> !r.value.force && !r.value.noPrune
  {
    match EnsureNotEmpty("name", name)
    case Err(e) => Err(e)
    case Ok(n) => Ok(ImageDelete(n, false, false))
  }

  /** start: the container-start request for id. */
  function StartRequest(id: string): (r: Result<Request>)
    ensures r.Err? <==> IsBlank(id)
    ensures r.Err? ==> r.error.ArgumentEmpty?
    ensures r.Ok? ==> r.value.ContainerStart? && r.value.id == id
  {
    match EnsureNotEmpty("id", id)
    case Err(e) => Err(e)
    case Ok(i) => Ok(ContainerStart(i))
  }

  /** stop: the container-stop request for id, with the 10-second grace
      period. */
  function StopRequest(id: string): (r: Result<Request>)
    ensures r.Err? <==> IsBlank(id)
    ensures r.Err? ==> r.error.ArgumentEmpty?
    ensures r.Ok? ==> r.value.ContainerStop? && r.value.id == id && r.value.t == 10
  {
    match EnsureNotEmpty("id", id)
    case Err(e) => Err(e)
    case Ok(i) => Ok(ContainerStop(i, WaitBeforeKillSeconds))
  }

  /** restart: the container-restart request for id, with the 10-second
      grace period. */
  function RestartRequest(id: string): (r: Result<Request>)
    ensures r.Err? <==> IsBlank(id)
    ensures r.Err? ==> r.error.ArgumentEmpty?
    ensures r.Ok? ==> r.value.ContainerRestart? && r.value.id == id && r.value.t == 10
  {
    match EnsureNotEmpty("id", id)
    case Err(e) => Err(e)
    case Ok(i) => Ok(ContainerRestart(i, WaitBeforeKillSeconds))
  }

  /** The runtime's remove: the container-delete request for id, with the
      flags v = false, force = true, link = true. */
  function RemoveRequest(id: string): (r: Result<Request>)
    ensures r.Err? <==> IsBlank(id)
    ensures r.Err? ==> r.error.ArgumentEmpty?
    ensures r.Ok? ==> r.value.ContainerDelete? && r.value.id == id
    ensures r.Ok? ==> !r.value.v && r.value.force && r.value.link
  {
    match EnsureNotEmpty("id", id)
    case Err(e) => Err(e)
    case Ok(i) => Ok(ContainerDelete(i, false, true, true))
  }

  /** list: all containers, stopped ones included, no limit, with sizes,
      filtered by the owner label alone. */
  function ListRequest(): (r: Request)
    ensures r.ContainerList? && r.all && r.limit == 0 && r.size
    ensures r.filters.Keys == {"label"} && r.filters["label"] == [OwnerLabel]
  {
    ContainerList(true, 0, true, ListFilters())
  }

  /** create: a spec of another type than "docker" is an error and no request.
      Otherwise the spec's create options are copied, given the spec's image
      and the merged environment, attached to the configured network if there
      is one, and submitted under the spec's name. */
  method CreateRequest(networkId: Option<string>, spec: ModuleSpec) returns (r: Result<Request>)
    ensures r.Err? <==> spec.moduleType != DockerModuleType
    ensures r.Err? ==> r.error == Argument(spec.moduleType)
    ensures r.Ok? ==> r.value.ContainerCreate? && r.value.name == spec.name
    ensures r.Ok? ==> r.value.body.image == Some(spec.config.image)
    ensures r.Ok? ==> r.value.body.env.Some?
                      && Renders(r.value.body.env.value, MergedEnv(spec.config.createOptions.env, spec.env))
    ensures r.Ok? ==> r.value.body.networking == AttachNetwork(spec.config.createOptions.networking, networkId)
    ensures r.Ok? ==> r.value.body.labels == spec.config.createOptions.labels
  {
    if spec.moduleType != DockerModuleType {
      return Err(Argument(spec.moduleType));
    }
    var createOptions := spec.config.createOptions;
    var mergedEnv := MergeEnv(createOptions.env, spec.env);
    createOptions := createOptions.(image := Some(spec.config.image), env := Some(mergedEnv));

    if networkId.Some? {
      var id := networkId.value;
      var networkConfig := match createOptions.networking
        case Some(config) => config
        case None => NetworkingConfig(None);
      var endpointsConfig := match networkConfig.endpoints
        case Some(endpoints) => endpoints
        case None => map[];
      if id !in endpointsConfig {
        endpointsConfig := endpointsConfig[id := DefaultEndpointSettings];
      }
      networkConfig := networkConfig.(endpoints := Some(endpointsConfig));
      createOptions := createOptions.(networking := Some(networkConfig));
    }

    r := Ok(ContainerCreate(createOptions, spec.name));
  }

  /** A blank name or id makes every checked operation fail with
      ArgumentEmpty, so none of them yields a request. */
  lemma BlankArgumentIssuesNoRequest(s: string, auth: RegistryAuthHeader)
    requires IsBlank(s)
    ensures PullRequest(s, auth).Err? && PullRequest(s, auth).error.ArgumentEmpty?
    ensures RemoveImageRequest(s).Err? && StartRequest(s).Err? && StopRequest(s).Err?
    ensures RestartRequest(s).Err? && RemoveRequest(s).Err?
  {
  }

  /** The empty string and a run of five spaces are rejected as an image
      name by pull and by the registry's remove. */
  lemma RegistryRejectsEmptyAndSpaces()
    ensures PullRequest("", Empty).Err? && PullRequest("     ", Empty).Err?
    ensures RemoveImageRequest("").Err? && RemoveImageRequest("     ").Err?
  {
    assert IsBlank("     ") by {
      forall i | 0 <= i < 5 ensures IsWhitespace("     "[i]) {
      }
    }
  }

  /** The empty string and a run of six spaces are rejected as a container
      id by start. */
  lemma StartRejectsEmptyAndSpaces()
    ensures StartRequest("").Err? && StartRequest("      ").Err?
  {
    assert IsBlank("      ") by {
      forall i | 0 <= i < 6 ensures IsWhitespace("      "[i]) {
      }
    }
  }

  /** The engine's outcome of a request was issued or not: a request that
      failed its checks is not sent and its error is returned; one that passed
      is appended to the log and the engine's reply is returned. */
  ghost predicate Dispatched<T>(request: Result<Request>, reply: Result<T>, res: Result<T>,
                                before: seq<Request>, after: seq<Request>) {
    match request
    case Err(e) => res == Err(e) && after == before
    case Ok(req) => res == reply && after == before + [req]
  }

  /** The runtime object: the engine client (as the log of requests it has
      sent) and the optional network id new containers are attached to. */
  class DockerModuleRuntime {
    const basePath: string
    var networkId: Option<string>
    var issued: seq<Request>

    /** new: the API base path is taken from the URL; no network is set. */
    constructor (dockerUrl: Url)
      ensures basePath == GetBasePath(dockerUrl)
      ensures networkId == None && issued == []
    {
      basePath := GetBasePath(dockerUrl);
      networkId := None;
      issued := [];
    }

    /** with_network_id: sets the network later creates attach to. */
    method WithNetworkId(id: string)
      modifies this
      ensures networkId == Some(id) && issued == old(issued)
    {
      networkId := Some(id);
    }

    method Send<T>(request: Result<Request>, reply: Result<T>) returns (res: Result<T>)
      modifies this
      ensures Dispatched(request, reply, res, old(issued), issued)
      ensures networkId == old(networkId)
    {
      match request
      case Err(e) =>
        res := Err(e);
      case Ok(req) =>
        issued := issued + [req];
        res := reply;
    }

    /** pull: serializes the credentials, then checks the name. */
    method Pull(name: string, credentials: Option<DockerRegistryAuthConfig>, reply: Result<()>) returns (res: Result<()>)
      modifies this
      ensures credentials.None? ==> Dispatched(PullRequest(name, Empty), reply, res, old(issued), issued)
      ensures credentials.Some? ==>
                Dispatched(PullRequest(name, Json(AuthObject(credentials.value))), reply, res, old(issued), issued)
      ensures networkId == old(networkId)
    {
      var registryCreds := SerializeRegistryCreds(credentials);
      res := Send(PullRequest(name, registryCreds), reply);
    }

    /** The registry's remove of an image. */
    method RemoveImage(name: string, reply: Result<()>) returns (res: Result<()>)
      modifies this
      ensures Dispatched(RemoveImageRequest(name), reply, res, old(issued), issued)
      ensures networkId == old(networkId)
    {
      res := Send(RemoveImageRequest(name), reply);
    }

    method Create(spec: ModuleSpec, reply: Result<()>) returns (res: Result<()>)
      modifies this
      ensures spec.moduleType != DockerModuleType ==> res == Err(Argument(spec.moduleType)) && issued == old(issued)
      ensures spec.moduleType == DockerModuleType ==>
                res == reply && |issued| == |old(issued)| + 1 && issued[..|old(issued)|] == old(issued)
      ensures spec.moduleType == DockerModuleType ==>
                var req := issued[|old(issued)|];
                && req.ContainerCreate? && req.name == spec.name
                && req.body.image == Some(spec.config.image)
                && req.body.env.Some?
                && Renders(req.body.env.value, MergedEnv(spec.config.createOptions.env, spec.env))
                && req.body.networking == AttachNetwork(spec.config.createOptions.networking, old(networkId))
                && req.body.labels == spec.config.createOptions.labels
      ensures networkId == old(networkId)
    {
      var request := CreateRequest(networkId, spec);
      res := Send(request, reply);
    }

    method Start(id: string, reply: Result<()>) returns (res: Result<()>)
      modifies this
      ensures Dispatched(StartRequest(id), reply, res, old(issued), issued)
      ensures networkId == old(networkId)
    {
      res := Send(StartRequest(id), reply);
    }

    method Stop(id: string, reply: Result<()>) returns (res: Result<()>)
      modifies this
      ensures Dispatched(StopRequest(id), reply, res, old(issued), issued)
      ensures networkId == old(networkId)
    {
      res := Send(StopRequest(id), reply);
    }

    method Restart(id: string, reply: Result<()>) returns (res: Result<()>)
      modifies this
      ensures Dispatched(RestartRequest(id), reply, res, old(issued), issued)
      ensures networkId == old(networkId)
    {
      res := Send(RestartRequest(id), reply);
    }

    /** The runtime's remove of a container. */
    method Remove(id: string, reply: Result<()>) returns (res: Result<()>)
      modifies this
      ensures Dispatched(RemoveRequest(id), reply, res, old(issued), issued)
      ensures networkId == old(networkId)
    {
      res := Send(RemoveRequest(id), reply);
    }

    /** list: sends the listing request; the engine's reply is the list of
      container records, which becomes the descriptors of the records both
      constructors accept. An engine error is returned unchanged. */
    method List(reply: Result<seq<ContainerSummary>>, mkConfig: ConfigBuilder, mkModule: ModuleBuilder)
      returns (res: Result<seq<DockerModule>>)
      requires reply.Ok? ==> AllReady(reply.value, mkConfig)
      modifies this
      ensures issued == old(issued) + [ListRequest()]
      ensures reply.Err? ==> res == Err(reply.error)
      ensures reply.Ok? ==> res == Ok(Descriptors(reply.value, mkConfig, mkModule))
      ensures networkId == old(networkId)
    {
      issued := issued + [ListRequest()];
      match reply
      case Err(e) =>
        res := Err(e);
      case Ok(containers) =>
        res := Ok(Descriptors(containers, mkConfig, mkModule));
    }
  }
}
