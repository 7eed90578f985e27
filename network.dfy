/** Attaching a created container to the runtime's configured network: the
    network id is added to the create body's endpoint settings unless an entry
    for it is already there. */
module Network {
  import opened Types
  import opened Models

  /** The endpoint settings of a networking config, empty when the config or
      its endpoint map is absent. */
  function Endpoints(nc: Option<NetworkingConfig>): map<string, EndpointSettings> {
    match nc
    case None => map[]
    case Some(config) =>
      match config.endpoints
      case None => map[]
      case Some(endpoints) => endpoints
  }

  /** The networking config after attaching networkId: with no id configured
      the config is untouched; otherwise the result holds an endpoint map that
      keeps every existing entry and adds the id, with default settings, only
      when it is absent. */
  function AttachNetwork(nc: Option<NetworkingConfig>, networkId: Option<string>): (r: Option<NetworkingConfig>)
    ensures networkId.None? ==> r == nc
    ensures networkId.Some? ==> r.Some? && r.value.endpoints.Some?
    ensures networkId.Some? ==> Endpoints(r).Keys == Endpoints(nc).Keys + {networkId.value}
    ensures forall k :: k in Endpoints(nc) ==> k in Endpoints(r) && Endpoints(r)[k] == Endpoints(nc)[k]
    ensures networkId.Some? && networkId.value !in Endpoints(nc) ==>
              Endpoints(r)[networkId.value] == DefaultEndpointSettings
  {
    match networkId
    case None => nc
    case Some(id) =>
      var endpoints := Endpoints(nc);
      Some(NetworkingConfig(Some(if id in endpoints then endpoints else endpoints[id := DefaultEndpointSettings])))
  }

  /** Attaching the same network twice gives the same endpoint map as
      attaching it once. */
  lemma AttachNetworkIdempotent(nc: Option<NetworkingConfig>, networkId: Option<string>)
    ensures Endpoints(AttachNetwork(AttachNetwork(nc, networkId), networkId))
         == Endpoints(AttachNetwork(nc, networkId))
  {
    var once := AttachNetwork(nc, networkId);
    var twice := AttachNetwork(once, networkId);
    if networkId.Some? {
      assert Endpoints(twice).Keys == Endpoints(once).Keys;
    }
  }

  /** An existing entry for the configured network is never replaced. */
  lemma AttachNetworkKeepsExistingEntry(nc: Option<NetworkingConfig>, id: string)
    requires id in Endpoints(nc)
    ensures Endpoints(AttachNetwork(nc, Some(id))) == Endpoints(nc)
  {
    var r := AttachNetwork(nc, Some(id));
    assert Endpoints(r).Keys == Endpoints(nc).Keys;
  }
}
