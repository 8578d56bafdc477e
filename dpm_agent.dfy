/**
 * The DPM neutron agent's own logic: the start-up checks (CPC lookup,
 * interface-mapping validation), the firewall-driver check (defined by the
 * agent but never called from `main`), the port-update RPC callback, and the
 * agent manager the common agent loop drives.
 *
 * Every `sys.exit(1)` of the agent becomes a typed `AgentError`, whose exit
 * status is 1; the entry point that terminates the process is not modelled.
 */
module DpmAgent {
  import opened Wrappers

  // ---------------------------------------------------------------------------
  // Errors that terminate the agent
  // ---------------------------------------------------------------------------

  /**
   * Why a check of the agent fails; each one is logged and ends the process
   * with status 1. `main` runs only the CPC lookup, so only the first two
   * can actually stop the agent at start-up.
   */
  datatype AgentError =
    | CpcNotFound(cpcName: string)
    | CpcNotInDpmMode(cpcName: string)
    | UnsupportedFirewallDriver(firewallDriver: string)

  function ExitStatus(e: AgentError): int
  {
    1
  }

  // ---------------------------------------------------------------------------
  // CPC lookup
  // ---------------------------------------------------------------------------

  /** What the hardware management console reports about a CPC. */
  datatype Cpc = Cpc(name: string, dpmEnabled: bool)

  /**
   * `_get_cpc`: look the CPC up by name in the console's inventory and use it
   * only if it runs in DPM mode.
   */
  function GetCpc(cpcs: map<string, Cpc>, cpcName: string): (r: Result<Cpc, AgentError>)
    ensures r.Success? <==> cpcName in cpcs && cpcs[cpcName].dpmEnabled
    ensures r.Success? ==> r.value == cpcs[cpcName]
    ensures cpcName !in cpcs ==> r == Failure(CpcNotFound(cpcName))
    ensures cpcName in cpcs && !cpcs[cpcName].dpmEnabled ==> r == Failure(CpcNotInDpmMode(cpcName))
  {
    if cpcName !in cpcs then
      Failure(CpcNotFound(cpcName))
    else if cpcs[cpcName].dpmEnabled then
      Success(cpcs[cpcName])
    else
      Failure(CpcNotInDpmMode(cpcName))
  }

  // ---------------------------------------------------------------------------
  // Firewall driver
  // ---------------------------------------------------------------------------

  const NOOP_FIREWALL_DRIVER: string := "neutron.agent.firewall.NoopFirewallDriver"
  const NOOP_FIREWALL_DRIVER_ALIAS: string := "noop"
  const SUPPORTED_FIREWALL_DRIVERS: seq<string> := [NOOP_FIREWALL_DRIVER, NOOP_FIREWALL_DRIVER_ALIAS]

  /**
   * `validate_firewall_driver`: only the no-op firewall driver is supported.
   * The agent defines this check but `main` never calls it.
   */
  function ValidateFirewallDriver(firewallDriver: string): (r: Outcome<AgentError>)
    ensures r.Pass? <==> firewallDriver == NOOP_FIREWALL_DRIVER || firewallDriver == NOOP_FIREWALL_DRIVER_ALIAS
    ensures r.Fail? ==> r.error == UnsupportedFirewallDriver(firewallDriver)
  {
    if firewallDriver !in SUPPORTED_FIREWALL_DRIVERS then
      Fail(UnsupportedFirewallDriver(firewallDriver))
    else
      Pass
  }

  // ---------------------------------------------------------------------------
  // Interface mappings
  // ---------------------------------------------------------------------------

  /**
   * A port in the interface-mapping table: the text configuration parsing
   * produced, the integer the validation sweep writes, or no value at all.
   */
  datatype PortValue = Text(text: string) | Number(number: int) | NoPort

  /** Python's `not port`. */
  predicate IsFalsy(p: PortValue)
  {
    match p
    case Text(t) => t == []
    case Number(n) => n == 0
    case NoPort => true
  }

  /** Adapter id to port, for one physical network. */
  type AdapterPorts = map<string, PortValue>

  /** Physical network name to its adapter ports. */
  type InterfaceMappings = map<string, AdapterPorts>

  /** The port the validation sweep leaves in place of `p`. */
  function DefaultPort(p: PortValue): PortValue
  {
    if IsFalsy(p) then Number(0) else p
  }

  /** One network's adapter ports after the sweep. */
  function DefaultPorts(ports: AdapterPorts): AdapterPorts
  {
    map a | a in ports :: DefaultPort(ports[a])
  }

  /** The whole table after the sweep. */
  function DefaultAllPorts(mappings: InterfaceMappings): InterfaceMappings
  {
    map n | n in mappings :: DefaultPorts(mappings[n])
  }

  /**
   * The sweep only rewrites ports: it keeps every network and every adapter,
   * so each map keeps its size; a falsy port becomes the integer 0 and any
   * other port is left as it was.
   */
  lemma DefaultAllPortsSpec(mappings: InterfaceMappings)
    ensures var r := DefaultAllPorts(mappings);
      && r.Keys == mappings.Keys
      && |r| == |mappings|
      && forall n :: n in mappings ==>
           && r[n].Keys == mappings[n].Keys
           && |r[n]| == |mappings[n]|
           && forall a :: a in mappings[n] ==>
                && (IsFalsy(mappings[n][a]) ==> r[n][a] == Number(0))
                && (!IsFalsy(mappings[n][a]) ==> r[n][a] == mappings[n][a])
  {
  }

  /** A second sweep changes nothing. */
  lemma DefaultAllPortsIdempotent(mappings: InterfaceMappings)
    ensures DefaultAllPorts(DefaultAllPorts(mappings)) == DefaultAllPorts(mappings)
  {
    var r := DefaultAllPorts(mappings);
    forall n | n in r
      ensures DefaultPorts(r[n]) == r[n]
    {
      assert forall a :: a in r[n] ==> DefaultPort(r[n][a]) == r[n][a];
    }
  }

  /** The table the agent reads from its configuration and then validates in place. */
  class MappingTable {
    var entries: InterfaceMappings

    constructor (entries: InterfaceMappings)
      ensures this.entries == entries
    {
      this.entries := entries;
    }
  }

  /**
   * `validate_interface_mappings`: visit every (network, adapter) pair and
   * write the integer 0 over every port that is not set. The existence checks
   * against the CPC are not implemented by the agent, so `cpc` is not used and
   * the sweep never fails.
   */
  method ValidateInterfaceMappings(table: MappingTable, cpc: Cpc)
    modifies table
    ensures table.entries == DefaultAllPorts(old(table.entries))
  {
    ghost var original := table.entries;
    var physnets := table.entries.Keys;
    while physnets != {}
      invariant physnets <= original.Keys
      invariant table.entries.Keys == original.Keys
      invariant forall n :: n in original && n !in physnets ==> table.entries[n] == DefaultPorts(original[n])
      invariant forall n :: n in physnets ==> table.entries[n] == original[n]
      decreases physnets
    {
      var physnet :| physnet in physnets;
      var adapters := table.entries[physnet].Keys;
      while adapters != {}
        invariant adapters <= original[physnet].Keys
        invariant table.entries.Keys == original.Keys
        invariant table.entries[physnet].Keys == original[physnet].Keys
        invariant forall a :: a in original[physnet] && a !in adapters ==>
                    table.entries[physnet][a] == DefaultPort(original[physnet][a])
        invariant forall a :: a in adapters ==> table.entries[physnet][a] == original[physnet][a]
        invariant forall n :: n in original && n !in physnets ==> table.entries[n] == DefaultPorts(original[n])
        invariant forall n :: n in physnets && n != physnet ==> table.entries[n] == original[n]
        decreases adapters
      {
        var adapter :| adapter in adapters;
        if IsFalsy(table.entries[physnet][adapter]) {
          table.entries := table.entries[physnet := table.entries[physnet][adapter := Number(0)]];
        }
        adapters := adapters - {adapter};
      }
      physnets := physnets - {physnet};
    }
  }

  // ---------------------------------------------------------------------------
  // Port-update notifications
  // ---------------------------------------------------------------------------

  const MAC_ADDRESS: string := "mac_address"

  /**
   * `DPMRPCCallBack`: collects the MAC addresses of ports reported as updated,
   * for the agent loop to process on its next pass.
   */
  class DpmRpcCallback {
    var updatedDevices: set<string>

    constructor ()
      ensures updatedDevices == {}
    {
      updatedDevices := {};
    }

    /**
     * `port_update`: remember only the port's MAC address, never the rest of
     * the notification; an address already pending stays pending once.
     */
    method PortUpdate(port: map<string, string>)
      requires MAC_ADDRESS in port
      modifies this
      ensures updatedDevices == old(updatedDevices) + {port[MAC_ADDRESS]}
      // so an address that is already pending leaves the set unchanged
    {
      var mac := port[MAC_ADDRESS];
      updatedDevices := updatedDevices + {mac};
    }
  }

  // ---------------------------------------------------------------------------
  // The agent manager
  // ---------------------------------------------------------------------------

  /** Neutron's RPC topic names the manager subscribes to. */
  datatype Topic = PortTopic | SecurityGroupTopic | UpdateTopic

  const AGENT_ID_PREFIX: string := "dpm-"
  const EXTENSION_DRIVER_TYPE: string := "dpm"
  const INTERFACE_MAPPINGS_KEY: string := "interface_mappings"

  /** `DPMManager`: what the common agent loop asks of the DPM agent. */
  class DpmManager {
    var interfaceMappings: MappingTable
    var macDeviceNameMappings: map<string, string>

    /** Keeps the very table it is given (not a copy) and starts with no MAC to device names. */
    constructor (interfaceMappings: MappingTable)
      ensures this.interfaceMappings == interfaceMappings
      ensures macDeviceNameMappings == map[]
    {
      this.interfaceMappings := interfaceMappings;
      macDeviceNameMappings := map[];
    }

    /** `get_agent_configurations`: a single entry holding the table as it is now. */
    function AgentConfigurations(): (r: map<string, InterfaceMappings>)
      reads this, interfaceMappings
      ensures r.Keys == {INTERFACE_MAPPINGS_KEY}
      ensures r[INTERFACE_MAPPINGS_KEY] == interfaceMappings.entries
    {
      map[INTERFACE_MAPPINGS_KEY := interfaceMappings.entries]
    }

    /** `get_agent_id`: "dpm-" then the configured host name, which it determines. */
    function AgentId(host: string): (r: string)
      ensures |r| == |AGENT_ID_PREFIX| + |host|
      ensures r[..|AGENT_ID_PREFIX|] == AGENT_ID_PREFIX
      ensures r[|AGENT_ID_PREFIX|..] == host
    {
      AGENT_ID_PREFIX + host
    }

    /** `get_all_devices`: the console is not polled yet, so no device is known. */
    function AllDevices(): (r: set<string>)
      ensures r == {}
    {
      {}
    }

    /** `get_extension_driver_type` */
    function ExtensionDriverType(): (r: string)
      ensures r == EXTENSION_DRIVER_TYPE
    {
      EXTENSION_DRIVER_TYPE
    }

    /** `get_rpc_consumers`: port updates first, then security-group updates. */
    function RpcConsumers(): (r: seq<seq<Topic>>)
      ensures |r| == 2
      ensures r[0] == [PortTopic, UpdateTopic]
      ensures r[1] == [SecurityGroupTopic, UpdateTopic]
    {
      [[PortTopic, UpdateTopic], [SecurityGroupTopic, UpdateTopic]]
    }

    /** `plug_interface`: wiring always reports success. */
    function PlugInterface<S>(networkId: string, networkSegment: S, device: string, deviceOwner: string): (r: bool)
      ensures r
    {
      true
    }
  }

  /**
   * The start-up sequence of `main` between the console session and the agent
   * loop: find the CPC, validate the mappings in place, then build the manager
   * on that same table. An unusable CPC stops the agent before the table is
   * touched.
   */
  method StartAgent(cpcs: map<string, Cpc>, cpcName: string, mappings: MappingTable)
    returns (r: Result<DpmManager, AgentError>)
    modifies mappings
    ensures r.Success? <==> GetCpc(cpcs, cpcName).Success?
    ensures r.Failure? ==> r.error == GetCpc(cpcs, cpcName).error && mappings.entries == old(mappings.entries)
    ensures r.Success? ==> fresh(r.value) && r.value.interfaceMappings == mappings
    ensures r.Success? ==> r.value.AgentConfigurations()[INTERFACE_MAPPINGS_KEY] == DefaultAllPorts(old(mappings.entries))
  {
    var cpc := GetCpc(cpcs, cpcName);
    if cpc.Failure? {
      return Failure(cpc.error);
    }
    ValidateInterfaceMappings(mappings, cpc.value);
    var manager := new DpmManager(mappings);
    r := Success(manager);
  }
}
