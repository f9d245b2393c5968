# NetCfgDevice: per-device lifecycle and dispatch, in Dafny

This project models the per-device D-Bus object of the OpenVPN 3 Linux
network configuration service (`NetCfgDevice` in
`src/netcfg/netcfg-device.hpp`). Each object stands for one virtual network
device that a VPN session asked for. It may point to one `DNS::ResolverSettings`
object, and several devices may share that object, which counts how many
devices depend on it. The model covers:

- **Construction.** A device registers itself as one more dependent of its resolver.
- **Method calls.** `callback_method_call` runs on an enumerated method name
  (`NetCfg.MethodName`):
  - The four DNS methods forward to the resolver, or fail with "No resolver configured".
  - Establish applies a modified resolver.
  - Disable restores the resolver when at most one device depends on it.
  - Destroy checks owner access, releases the reference, restores the resolver
    when none is left, and removes the object.
  - The address and route methods and unknown names do nothing and succeed.
- **The dispatch chain as written.** The chain is four `if`/`else if` chains in
  a row. `NetCfg.ChainBranches` models it and proves that at most one branch
  runs for any name.
- **Properties.** `callback_get_property` is modelled as a function that reads
  the device and its resolver. `callback_set_property` is a method that stores
  `log_level` when the value is at most 6 and rejects everything else.
- **Sharing.** Many devices share one resolver: `DeviceLifecycle` follows
  interleaved constructions and Destroys.

Files:

- `wrappers.dfy`: `Option`, `Result` and `uint32`.
- `resolver.dfy` (module `DnsResolver`): the resolver's observable state
  `ResolverState`, one transition function per operation, and the class
  `ResolverSettings`. Each method of the class is specified by its transition.
- `device.dfy` (module `NetCfg`): method names, the dispatch chain, the pure
  specification `Dispatch` of one method call, and the class `NetCfgDevice`.
  `NetCfgDevice.Call` is proved equal to `Dispatch`.
- `lifecycle.dfy` (module `DeviceLifecycle`): traces of constructions and
  Destroys over one shared resolver, plus a two-device scenario run on the classes.

The resolver's internals are not in the source, so they are modelled abstractly:

- The server and search lists are ordered sets: a resolver is created from
  lists without repeats, and every operation keeps them so. Adding appends the absent
  entries, removing drops the present ones, and both set `modified`.
- `Apply` clears `modified`.
- `Restore` may fail; the model chooses the outcome nondeterministically. A
  successful Restore brings the lists back to the baseline the resolver was
  created with and clears `modified`.
- Both calls are counted.
- `DecDeviceCount` never takes the count below zero.
- `CheckOwnerAccess` is not part of this model. Its rule is assumed to be the
  predicate `NetCfg.OwnerAccess`: the caller is the owner or is on the access
  list. A new device's access list is empty and nothing here changes it, so in
  every reachable state only the owner passes.

Behaviour of `netcfg-device.hpp` worth knowing:

- Every test in the dispatch chain compares against a different name, so at
  most one branch runs (`NetCfg.ChainBranches`).
- `validate_sender` returns at once, so no sender is ever refused.
- Nothing assigns `active`, so it always reads false and Establish runs the
  same way on every call.
- The address and route methods have empty branches and change nothing.
- `mtu` cannot be written through `callback_set_property`; only `log_level` can.
- `dns_search` reads the device's own list, which is never filled, and not the
  resolver's search list.
- The constructor passes its log level to `NetCfgSignals::SetLogLevel` without
  the 0..6 check that `callback_set_property` makes.

## Model

| member | source | states |
|---|---|---|
| `DnsResolver.ResolverSettings.IncDeviceCount` | src/netcfg/netcfg-device.hpp:145-148 | adds one to the dependency count and changes nothing else |
| `DnsResolver.ResolverSettings.DecDeviceCount` | src/netcfg/netcfg-device.hpp:318-320 | takes one from the dependency count, never below zero, and changes nothing else |
| `DnsResolver.ResolverSettings.AddDNSServers` | src/netcfg/netcfg-device.hpp:228-229 | the server list gains exactly the given servers it lacked and is marked modified |
| `DnsResolver.ResolverSettings.RemoveDNSServers` | src/netcfg/netcfg-device.hpp:238-239 | the server list loses exactly the given servers and is marked modified |
| `DnsResolver.ResolverSettings.AddDNSSearch` | src/netcfg/netcfg-device.hpp:248-249 | the search list gains exactly the given domains it lacked and is marked modified |
| `DnsResolver.ResolverSettings.RemoveDNSSearch` | src/netcfg/netcfg-device.hpp:258-259 | the search list loses exactly the given domains and is marked modified |
| `DnsResolver.ResolverSettings.Apply` | src/netcfg/netcfg-device.hpp:269-272 | clears `modified` and counts one Apply; lists and count unchanged |
| `DnsResolver.ResolverSettings.Restore` | src/netcfg/netcfg-device.hpp:301-308 | counts one Restore; on success the lists are back at the baseline and `modified` is cleared; on failure nothing else changes |
| `DnsResolver.AddUnique` | src/netcfg/netcfg-device.hpp:228-229 | an entry is in the result iff it was in the list or was added; the old list is a prefix; no repeats are introduced |
| `DnsResolver.RemoveAll` | src/netcfg/netcfg-device.hpp:238-239 | an entry is in the result iff it was in the list and was not removed; no repeats are introduced |
| `DnsResolver.RemoveAfterAdd` | src/netcfg/netcfg-device.hpp:221-240 | adding servers and then removing them (or more) leaves what removal alone leaves |
| `DnsResolver.AddUniqueIdempotent` | src/netcfg/netcfg-device.hpp:228-229 | adding the same servers twice is the same as adding them once |
| `DnsResolver.RestoreIdempotent` | src/netcfg/netcfg-device.hpp:299-309 | a second successful Restore right after the first changes nothing but the call count |
| `DnsResolver.RestoreUnmodified` | src/netcfg/netcfg-device.hpp:299-309 | a Restore on a resolver that was never modified changes nothing but the call count, whatever its outcome |
| `DnsResolver.ListOpsKeepValid` | src/netcfg/netcfg-device.hpp:221-260 | every resolver operation keeps the server and search lists free of repeats |
| `NetCfg.ChainBranches` | src/netcfg/netcfg-device.hpp:188-311 | for any name at most one branch of the four if/else-if chains runs; the branch for a method runs iff the name is that method's name; some branch runs iff the name is one of the thirteen |
| `NetCfg.Lookup` | src/netcfg/netcfg-device.hpp:188-343 | the selected method carries the given name; it is `Unknown` iff no branch tests for that name |
| `NetCfg.LookupWire` | src/netcfg/netcfg-device.hpp:188-311 | looking up a method's bus name gives the method back |
| `NetCfg.DnsEffect` | src/netcfg/netcfg-device.hpp:221-260 | each DNS method changes exactly its own list (servers or search domains) in the way its name says, marks the resolver modified, and leaves the count and the Apply/Restore counters alone |
| `NetCfg.EstablishEffect` | src/netcfg/netcfg-device.hpp:266-272 | Apply runs iff the resolver reports modified; afterwards it is not modified; count, lists and Restore counter unchanged |
| `NetCfg.DisableEffect` | src/netcfg/netcfg-device.hpp:297-309 | Restore runs iff the dependency count is at most one; count and Apply counter unchanged; with more dependents nothing changes; a successful Restore brings back the baseline |
| `NetCfg.DestroyEffect` | src/netcfg/netcfg-device.hpp:318-332 | the count drops by one (not below zero); Restore runs iff the new count is zero; with dependents left the lists are untouched; a successful Restore brings back the baseline |
| `NetCfg.Dispatch` | src/netcfg/netcfg-device.hpp:172-366 | errors come before any change; access is denied iff Destroy by a caller who is neither owner nor on the ACL; a call fails iff it is a DNS method with no resolver, with "No resolver configured"; the device is removed iff Destroy is allowed; only Destroy moves the count; address, route and unknown methods (names outside the thirteen) change nothing and succeed; the lists stay free of repeats |
| `NetCfg.RestoreFailureSwallowed` | src/netcfg/netcfg-device.hpp:323-330 | whether Restore fails changes neither the reply, nor the count, nor whether the device is removed |
| `NetCfg.NetCfgDevice.constructor` | src/netcfg/netcfg-device.hpp:57-148 | a bound resolver's count rises by exactly one and nothing else of it changes; a new device has mtu 1500, is not active, is not destroyed and stores owner, type, name, resolver and log level |
| `NetCfg.NetCfgDevice.Call` | src/netcfg/netcfg-device.hpp:172-366 | reply, resolver state afterwards and removal are exactly what `Dispatch` gives for the Restore outcome that occurred; the remove callback runs once iff the device is removed; log level, mtu and active are untouched |
| `NetCfg.NetCfgDevice.GetProperty` | src/netcfg/netcfg-device.hpp:385-482 | a read fails with "Invalid property" iff the name is not one of the thirteen readable properties; `modified` is true iff a resolver is bound and modified; `dns_servers` is empty without a resolver and the resolver's list with one; the address and route lists are empty; `active` is false; `mtu` is 1500; `dns_search` is empty; `owner`, `acl` and `device_name` read the owner uid, the access list and the device name |
| `NetCfg.NetCfgDevice.SetProperty` | src/netcfg/netcfg-device.hpp:501-543 | a write succeeds iff it sets `log_level` to at most 6; then the level is stored, echoed back and read back; a larger level fails with "Invalid log level", any other property with "Invalid property", and then nothing changes |
| `DeviceLifecycle.CountTracksLive` | src/netcfg/netcfg-device.hpp:316-332 | over any legal interleaving of constructions and Destroys, the count is the outside holders plus the live devices; with no outside holder, Destroy restores exactly as often as the last live device goes; neither a construction nor a Destroy calls Apply |
| `DeviceLifecycle.DestroyAllInAnyOrder` | src/netcfg/netcfg-device.hpp:316-332 | N devices constructed on one resolver and destroyed in any order, with any Restore outcomes, return the count to its start; if nothing else held the resolver, Destroy called Restore exactly once |
| `DeviceLifecycle.EstablishFirstDevice` | src/netcfg/netcfg-device.hpp:145-272 | first half of `SharedResolverScenario`: a device created on a fresh resolver with empty lists queues one server and is established: the count is one, the server list is that server, Apply ran once, Restore never, and the resolver is no longer modified |
| `DeviceLifecycle.SharedResolverScenario` | src/netcfg/netcfg-device.hpp:221-340 | continues `EstablishFirstDevice`: a second device is created and destroyed, then the first is destroyed; no Restore has run after the second device's Destroy; at the end Apply ran once, Restore ran once, the count is zero, both devices are gone with one remove callback each, and if the last Restore succeeded the lists are back at the empty baseline and not modified |

## Left out

- The D-Bus introspection XML, `ParseIntrospectionXML` and the `PropertyCollection` bindings. The bindings' values are returned directly by `GetProperty`.
- Establish's Unix fd hand-off: the placeholder fd `-1`, the fd list, the uninitialised `GError` check and the reply with the fd list. Also the second reply that the call then sends at the end of the chain. All of this is transport and OS I/O; Establish is modelled as its resolver effect and a success reply.
- The D-Bus transport for the other calls: the connection, object path, interface name, invocation objects and the translation of exceptions into `GError`s. Only the kind of reply is kept (success, access denied with the caller's uid, or a failure message).
- `validate_sender`, which returns immediately in the source, so every sender passes. The bus-name comparison after its `return` is dead code and would need a bus lookup.
- `lookup_username`, logging through `NetCfgSignals` (a swallowed Restore failure is reported as the `restoreFailed` result of `Call` instead), and the `IdleCheck_*` timer calls.
- `RemoveObject` and `delete this` are replaced by the `destroyed` flag and a count of remove-callback runs. A destroyed device accepts no further method calls, property reads or property writes (`Call`, `GetProperty` and `SetProperty` require that it is not destroyed).
- The internals of `DNS::ResolverSettings` and its resolv.conf backend, which are not part of this model. They are abstracted as described above. Why a Restore fails is not modelled; the outcome is nondeterministic.
- How the ACL is granted or changed (`DBusCredentials`), which is not part of this model. A new device starts with an empty ACL, and the owner is the creating uid.
- The `owner` and `acl` property encodings: `GetOwner` and `GetAccessList` are not part of this model, so the reads return the uid and the uid list.
- `DnsResolver.ResolverSettings.Restore`: it fails only in the way the source catches (a `NetCfgException`, lines 305 and 327). Any other exception from Restore reaches the generic handler (lines 351-358). In Destroy that happens after `DecDeviceCount`, so the call fails while the device stays alive with its reference already released, and a retried Destroy would decrement again. The model does not capture this path.
- `DnsResolver.ResolverSettings.AddDNSServers`, `RemoveDNSServers`, `AddDNSSearch`, `RemoveDNSSearch` and `Apply` never fail in the model. The resolver backend could throw, and the call would then fail through the generic handler; that path is not modelled.
- `NetCfg.NetCfgDevice.constructor`: `NetCfgSignals::SetLogLevel` and `GetLogLevel` are not part of this model. The model treats them as a plain store and read, so a construction level above 6 is kept as given. If `SetLogLevel` enforces the range itself, such a construction would instead fail before the resolver's count is raised.
- `NetCfg.NetCfgDevice.Call`: the caller's identity is given as a uid. The source derives it from the D-Bus sender name.
