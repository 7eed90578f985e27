/** The engine's records that the runtime reads and writes: the
    container-create body, its networking part, a module's configuration and
    specification, and the summary the engine lists for each container. Only
    the fields the runtime touches are represented. */
module Models {
  import opened Types

  /** Settings of one network endpoint. The runtime never reads them and only
      ever inserts the default value, whose every setting is absent; one
      optional setting stands for them all. */
  datatype EndpointSettings = EndpointSettings(settings: Option<map<string, string>>)

  const DefaultEndpointSettings := EndpointSettings(None)

  /** The networking part of a create body: endpoint settings by network id. */
  datatype NetworkingConfig = NetworkingConfig(endpoints: Option<map<string, EndpointSettings>>)

  /** A container-create body (the engine-specific create options). */
  datatype CreateOptions = CreateOptions(
    image: Option<string>,
    env: Option<seq<string>>,
    labels: Option<map<string, string>>,
    networking: Option<NetworkingConfig>)

  const EmptyCreateOptions := CreateOptions(None, None, None, None)

  /** A docker module's configuration: an image reference and create options. */
  datatype DockerConfig = DockerConfig(image: string, createOptions: CreateOptions)

  /** What the orchestrator asks to run: a name, a module type, a configuration
      and the declared environment. */
  datatype ModuleSpec = ModuleSpec(
    name: string,
    moduleType: string,
    config: DockerConfig,
    env: map<string, string>)

  /** One record of the engine's container listing. Names are reported with a
      leading "/" separator. */
  datatype ContainerSummary = ContainerSummary(
    image: string,
    names: seq<string>,
    labels: map<string, string>)

  /** A module descriptor built from a listed container. */
  datatype DockerModule = DockerModule(name: string, config: DockerConfig)
}
