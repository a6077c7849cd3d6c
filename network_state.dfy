/** The connectivity snapshot read by listeners: the stored fields and the
    views derived from them with safe calls and elvis defaults. */
module NetworkStates {
  import opened KotlinTypes

  /** Transport codes of the platform's network capabilities. */
  const TRANSPORT_CELLULAR: int := 0
  const TRANSPORT_WIFI: int := 1

  /** An opaque handle to the network in use. */
  datatype Network = Network(handle: nat)

  /** The capabilities of a network, as far as its transports go. */
  datatype NetworkCapabilities = NetworkCapabilities(transports: set<int>) {
    predicate HasTransport(transport: int) {
      transport in transports
    }
  }

  /** The link properties of a network, as far as its interface name goes;
      the name itself may be null. */
  datatype LinkProperties = LinkProperties(interfaceName: Option<string>)

  /** The stored connectivity state and its derived shortcuts. */
  datatype NetworkState = NetworkState(
    isConnected: bool,
    network: Option<Network>,
    networkCapabilities: Option<NetworkCapabilities>,
    linkProperties: Option<LinkProperties>)
  {
    /** `networkCapabilities?.hasTransport(TRANSPORT_WIFI) ?: false` */
    predicate IsWifi()
      ensures IsWifi() <==>
                networkCapabilities.Some? && TRANSPORT_WIFI in networkCapabilities.value.transports
    {
      match networkCapabilities
      case None => false
      case Some(caps) => caps.HasTransport(TRANSPORT_WIFI)
    }

    /** `networkCapabilities?.hasTransport(TRANSPORT_CELLULAR) ?: false` */
    predicate IsMobile()
      ensures IsMobile() <==>
                networkCapabilities.Some? && TRANSPORT_CELLULAR in networkCapabilities.value.transports
    {
      match networkCapabilities
      case None => false
      case Some(caps) => caps.HasTransport(TRANSPORT_CELLULAR)
    }

    /** `linkProperties?.interfaceName` */
    function InterfaceName(): (name: Option<string>)
      ensures linkProperties.None? ==> name.None?
      ensures linkProperties.Some? ==> name == linkProperties.value.interfaceName
    {
      match linkProperties
      case None => None
      case Some(lp) => lp.interfaceName
    }
  }

  /** The derived views read only the capabilities and the link properties:
      two states that agree on those agree on every view, whatever their
      connectivity flag and network. */
  lemma ViewsIgnoreConnectionAndNetwork(a: NetworkState, b: NetworkState)
    requires a.networkCapabilities == b.networkCapabilities
    requires a.linkProperties == b.linkProperties
    ensures a.IsWifi() == b.IsWifi()
    ensures a.IsMobile() == b.IsMobile()
    ensures a.InterfaceName() == b.InterfaceName()
  {
  }

  /** Without capabilities and link properties every view is false or null. */
  lemma ViewsOfEmptyState(isConnected: bool, network: Option<Network>)
    ensures !NetworkState(isConnected, network, None, None).IsWifi()
    ensures !NetworkState(isConnected, network, None, None).IsMobile()
    ensures NetworkState(isConnected, network, None, None).InterfaceName() == None
  {
  }

  /** Capabilities reporting only Wi-Fi give `isWifi` and not `isMobile`. */
  lemma WifiOnlyState(network: Option<Network>)
    ensures NetworkState(true, network, Some(NetworkCapabilities({TRANSPORT_WIFI})), None).IsWifi()
    ensures !NetworkState(true, network, Some(NetworkCapabilities({TRANSPORT_WIFI})), None).IsMobile()
  {
  }

  /** Nothing makes the two shortcuts exclusive: a network may report both
      transports, and then both views are true. */
  lemma WifiAndMobileNotExclusive()
    ensures exists s: NetworkState :: s.IsWifi() && s.IsMobile()
  {
    var s := NetworkState(true, None, Some(NetworkCapabilities({TRANSPORT_WIFI, TRANSPORT_CELLULAR})), None);
    assert s.IsWifi() && s.IsMobile();
  }
}
