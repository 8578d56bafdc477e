# networking-dpm agent core in Dafny

This project models two pieces of the networking-dpm neutron agent, which wires
OpenStack ports to the network adapters of an IBM Z CPC running in DPM
(Dynamic Partition Manager) mode.

- `AdapterMapping` (`adapter_mapping.dfy`) covers the `NETWORK:ADAPTER_ID[:PORT]`
  option type, `NetworkAdapterMappingType`. One configuration string becomes a
  `(network, adapter id, port)` triple, or it is refused with the type's
  `ValueError`. The type is a stateless callable, so it is modelled as the pure
  function `Parse`. Python's `str.split(":")` is modelled by `Split`/`Join`,
  with their round trip proved.
- `AdapterMappingCases` (`adapter_mapping_cases.dfy`) works through every
  value that the option type's unit tests use. Each case follows from the
  general lemmas.
- `DpmAgent` (`dpm_agent.dfy`) covers the agent itself:
  - the start-up check `_get_cpc`;
  - the firewall-driver check `validate_firewall_driver`, which the source
    defines but `main` never calls, so an unsupported driver does not stop
    the agent as the source stands;
  - the in-place `validate_interface_mappings` sweep, a method with nested
    loops over a `MappingTable` object;
  - the `port_update` RPC callback, a class with an `updatedDevices` set;
  - `DPMManager`, whose table is the same object that the sweep rewrites.

  Every `sys.exit(1)` becomes an `AgentError` value, and `ExitStatus` gives
  status 1 for each of them.
- `Wrappers` (`wrappers.dfy`) holds the `Result`/`Outcome` types.

The source of `NetworkAdapterMappingType` (`networking_dpm/conf/types.py`) is
not part of this model. Its behaviour is taken from the assertions of its unit
tests. Those tests pin the port rule only partly: `"0"` is accepted, an empty or
missing port becomes `"0"`, and `"2"` and `"a"` are refused. The set of port tokens
the grammar admits is therefore a parameter `ports` of `Parse`. Every property
is proved for each set that `PinnedPorts` allows: it contains `"0"`, excludes
`"2"`, and holds only decimal digit strings. So `"1"` stays unspecified.

In the agent's table a port is a `PortValue`:

- `Text`: the string that configuration parsing gave;
- `Number`: the integer `0` that the sweep writes;
- `NoPort`: Python's `None`.

`IsFalsy` is Python's `not port`.

## Model

| member | source | states |
|---|---|---|
| `AdapterMapping.Parse` | networking_dpm/tests/unit/conf/test_types.py:30-83 | every refusal is the single `ValueError` carrying the input; every accepted triple has a non-empty, separator-free network, a UUID-shaped adapter id with no upper-case letter, and a port that is `"0"` or an admitted token |
| `AdapterMapping.ParseAcceptsIff` | networking_dpm/tests/unit/conf/test_types.py:58-83 | a value made of separator-free fields is accepted if and only if it has 2 or 3 fields, a non-empty network, a UUID-shaped adapter, and an empty or admitted port when there is a third field |
| `AdapterMapping.ParseThreeFields` | networking_dpm/tests/unit/conf/test_types.py:30-50 | with a valid network and adapter, `net:adapter:port` is accepted exactly when the port is empty or admitted; the result keeps the network's case, lower-cases the adapter and turns an empty port into `"0"`; otherwise it is the `ValueError` |
| `AdapterMapping.ParseTwoFields` | networking_dpm/tests/unit/conf/test_types.py:52-56 | `net:adapter` with a valid network and adapter gives the network, the lower-cased adapter and port `"0"` |
| `AdapterMapping.OmittedPortIsZero` | networking_dpm/tests/unit/conf/test_types.py:46-56 | omitting the port, leaving it empty and writing `"0"` give the same successful result, with port `"0"` |
| `AdapterMapping.FieldCountRejected` | networking_dpm/tests/unit/conf/test_types.py:58-62 | a value with no `:` (such as the empty string or `"foobar"`) or with more than two is refused |
| `AdapterMapping.NonUuidAdapterRejected` | networking_dpm/tests/unit/conf/test_types.py:72-83 | when the second field is separator-free but not UUID-shaped, the value is refused whatever follows |
| `AdapterMapping.ParseSound` | networking_dpm/tests/unit/conf/test_types.py:30-56 | every successful parse is in normal form, and the input was `net:A`, `net:A:` or `net:A:port` for some UUID-shaped `A` that lower-cases to the result's adapter id |
| `AdapterMapping.SerializeParseRoundTrip` | networking_dpm/tests/unit/conf/test_types.py:30-34 | parsing the canonical text `net:adapter:port` of a normal-form triple gives that triple back |
| `AdapterMapping.ParseIdempotent` | networking_dpm/tests/unit/conf/test_types.py:36-44 | re-parsing the canonical text of a parse result gives the same result, so parsing is a normalisation |
| `AdapterMapping.LowerUuid` | networking_dpm/tests/unit/conf/test_types.py:36-39 | lower-casing a UUID-shaped token keeps it UUID-shaped, and doing it twice is the same as doing it once |
| `AdapterMapping.Split` | networking_dpm/tests/unit/conf/test_types.py:75-83 | `str.split(":")`: one more piece than there are separators, no piece holds a separator, and joining the pieces with `:` gives the input back |
| `AdapterMapping.SplitJoin` | networking_dpm/tests/unit/conf/test_types.py:75-83 | splitting a `:`-join of separator-free pieces gives the pieces back |
| `AdapterMappingCases.ValidMapping` | networking_dpm/tests/unit/conf/test_types.py:30-34 | `physnet:fa1f2466-12df-311a-804c-4ed2cc1d656b:0` gives exactly `("physnet", "fa1f2466-12df-311a-804c-4ed2cc1d656b", "0")` |
| `AdapterMappingCases.UpperCaseAdapterIdLowered` | networking_dpm/tests/unit/conf/test_types.py:36-39 | the upper-case adapter id comes out lower-cased |
| `AdapterMappingCases.NetworkCaseKept` | networking_dpm/tests/unit/conf/test_types.py:41-44 | the network `PHysnet` keeps its case |
| `AdapterMappingCases.EmptyPortDefaults` | networking_dpm/tests/unit/conf/test_types.py:46-50 | a trailing empty port gives port `"0"` |
| `AdapterMappingCases.MissingPortDefaults` | networking_dpm/tests/unit/conf/test_types.py:52-56 | an omitted port gives port `"0"` |
| `AdapterMappingCases.EmptyValueRejected` | networking_dpm/tests/unit/conf/test_types.py:58-59 | the empty string is refused |
| `AdapterMappingCases.NoSeparatorRejected` | networking_dpm/tests/unit/conf/test_types.py:61-62 | `foobar` is refused |
| `AdapterMappingCases.PortTwoRejected` | networking_dpm/tests/unit/conf/test_types.py:64-66 | port `2` is refused even with a valid network and adapter |
| `AdapterMappingCases.PortLetterRejected` | networking_dpm/tests/unit/conf/test_types.py:68-70 | port `a` is refused even with a valid network and adapter |
| `AdapterMappingCases.AdapterIdRejected` | networking_dpm/tests/unit/conf/test_types.py:72-73 | `physnet:foo:1` is refused |
| `AdapterMappingCases.NetworkWithSeparatorRejected` | networking_dpm/tests/unit/conf/test_types.py:76-78 | a network containing `:` is refused, with no port, an empty port or port `1` |
| `AdapterMappingCases.ExtraLeadingFieldRejected` | networking_dpm/tests/unit/conf/test_types.py:79 | an extra leading field is refused |
| `AdapterMappingCases.EmptyNetworkRejected` | networking_dpm/tests/unit/conf/test_types.py:80-81 | an empty network is refused, with one or two leading separators |
| `DpmAgent.GetCpc` | networking_dpm/ml2/dpm_neutron_agent.py:155-165 | the CPC is returned if and only if it is found and DPM-enabled; a CPC that is not found and one that is not in DPM mode give their own errors, each standing for `sys.exit(1)` |
| `DpmAgent.ValidateFirewallDriver` | networking_dpm/ml2/dpm_neutron_agent.py:141-152 | passes if and only if the driver is `neutron.agent.firewall.NoopFirewallDriver` or `noop`; otherwise it fails with an error naming the driver, standing for `sys.exit(1)`; `main` never calls it |
| `DpmAgent.DefaultAllPortsSpec` | networking_dpm/ml2/dpm_neutron_agent.py:120-126 | the sweep keeps every network and every adapter, so every map keeps its size; each falsy port becomes integer 0 and each truthy port is unchanged |
| `DpmAgent.DefaultAllPortsIdempotent` | networking_dpm/ml2/dpm_neutron_agent.py:125-126 | a second sweep leaves the table as the first one left it |
| `DpmAgent.ValidateInterfaceMappings` | networking_dpm/ml2/dpm_neutron_agent.py:120-138 | the nested loops rewrite the table in place into `DefaultAllPorts` of the old table, and never fail |
| `DpmAgent.DpmRpcCallback.PortUpdate` | networking_dpm/ml2/dpm_neutron_agent.py:53-61 | adds exactly the port's `mac_address` to `updatedDevices` and stores nothing else; an address that is already pending leaves the set unchanged |
| `DpmAgent.DpmManager.constructor` | networking_dpm/ml2/dpm_neutron_agent.py:65-67 | keeps the very table it is given and starts with an empty MAC-to-device map |
| `DpmAgent.DpmManager.AgentConfigurations` | networking_dpm/ml2/dpm_neutron_agent.py:74-75 | a map with the single key `interface_mappings`, holding the stored table as it is now |
| `DpmAgent.DpmManager.AgentId` | networking_dpm/ml2/dpm_neutron_agent.py:77-78 | `dpm-` followed by exactly the host name |
| `DpmAgent.DpmManager.AllDevices` | networking_dpm/ml2/dpm_neutron_agent.py:85-88 | the set of devices is empty |
| `DpmAgent.DpmManager.ExtensionDriverType` | networking_dpm/ml2/dpm_neutron_agent.py:90-91 | the extension driver type is `dpm` |
| `DpmAgent.DpmManager.RpcConsumers` | networking_dpm/ml2/dpm_neutron_agent.py:96-100 | exactly `[[PORT, UPDATE], [SECURITY_GROUP, UPDATE]]`, in that order |
| `DpmAgent.DpmManager.PlugInterface` | networking_dpm/ml2/dpm_neutron_agent.py:102-104 | plugging always reports success |
| `DpmAgent.StartAgent` | networking_dpm/ml2/dpm_neutron_agent.py:181-186 | the agent starts if and only if the CPC lookup succeeds; on failure the table is untouched; on success the manager shares the table and reports it swept |

## Left out

- `NetworkAdapterMappingType.__eq__` and `__repr__`: a Dafny function has no
  instance state, so two parsers over the same grammar are the same function by
  construction. The regex text behind the `repr` string is not part of this model.
- The port tokens other than `"0"`, `""`, `"2"` and `"a"`: the tests do not fix
  them. They are the parameter `ports`, limited only by `PinnedPorts`.
- `AdapterMapping.Lower` lower-cases ASCII letters only. It is applied only to
  UUID-shaped tokens, which hold no other letters.
- `main`: configuration and logging bootstrap, the console session and client,
  and the service launcher. `StartAgent` keeps only the CPC lookup, the sweep and
  the manager construction. The console's CPC inventory is a parameter: a map
  from CPC name to what the console reports.
- The `cfg.CONF` option values (`host`, `SECURITYGROUP.firewall_driver`) are
  parameters.
- The existence checks in the sweep (adapter exists, port exists, same CEC) are
  not implemented by the agent. So its `except`/`sys.exit(1)` branch cannot be
  reached, and the `cpc` argument is not used.
- `DpmAgent.DpmRpcCallback.constructor` starts with an empty `updatedDevices`.
  That set belongs to neutron's callback base class, which is not part of this
  model.
- `get_rpc_callbacks`, the RPC target version, and the security-group callback
  mixin: message-bus wiring and inherited neutron behaviour.
- The stub methods `ensure_port_admin_state`, `setup_arp_spoofing_protection`,
  `delete_arp_spoofing_protection`, `delete_unreferenced_arp_protection` and
  `get_devices_modified_timestamps`: they do nothing, or return an empty map.
- `parse_interface_mappings`: it only reads a configuration option.
- The reconciliation loop (`CommonAgentLoop`), with its polling interval,
  timeouts and concurrent notification delivery: it lives in neutron and is not
  part of this model.
- Logging, and the actual termination of the process.
- DpmAgent.DpmRpcCallback.PortUpdate: requires the notification to carry a
  `mac_address`. In the source, a notification without a `port`, or a port
  without a `mac_address`, raises `KeyError`. That case is excluded here and
  not modelled.
- `validate_firewall_driver` is modelled as `ValidateFirewallDriver`, but
  `main` never calls it. So `StartAgent` does not call it either, and an
  unsupported firewall driver does not stop the agent.

