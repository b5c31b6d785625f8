/** What the network monitor reports. */
module Network {

  datatype ConnectionStatus = Online | Degraded | Offline

  datatype InterfaceInfo = InterfaceInfo(name: string, isUp: bool)

  datatype NetworkStatus = NetworkStatus(
    status: ConnectionStatus,
    latencyMs: real,
    packetLossPct: real,
    dnsHealthy: bool,
    gatewayReachable: bool,
    interfaces: seq<InterfaceInfo>)
}
