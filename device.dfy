/**
 * A NetCfgDevice: the per-device D-Bus object of the network configuration
 * service, reduced to what its method and property callbacks do to the
 * device and to the shared ResolverSettings object it points to.
 */
module NetCfg {
  import opened Wrappers
  import opened DnsResolver

  type Uid = uint32

  /** NetCfgDeviceType; UNSET keeps 0 defined without naming a real kind. */
  datatype DeviceType = Unset | Tun | Tap

  /** The methods of the device's D-Bus interface; any other name is `Unknown`. */
  datatype MethodName =
    | AddIPv4Address | RemoveIPv4Address | AddIPv6Address | RemoveIPv6Address
    | AddRoutes | RemoveRoutes
    | AddDNS | RemoveDNS | AddDNSSearch | RemoveDNSSearch
    | Establish | Disable | Destroy
    | Unknown(name: string)
  {
    predicate IsDns() {
      AddDNS? || RemoveDNS? || AddDNSSearch? || RemoveDNSSearch?
    }

    predicate IsAddressOrRoute() {
      AddIPv4Address? || RemoveIPv4Address? || AddIPv6Address? || RemoveIPv6Address? ||
      AddRoutes? || RemoveRoutes?
    }
  }

  /** The name a method has on the bus. */
  function Wire(m: MethodName): string {
    match m
    case AddIPv4Address => "AddIPv4Address"
    case RemoveIPv4Address => "RemoveIPv4Address"
    case AddIPv6Address => "AddIPv6Address"
    case RemoveIPv6Address => "RemoveIPv6Address"
    case AddRoutes => "AddRoutes"
    case RemoveRoutes => "RemoveRoutes"
    case AddDNS => "AddDNS"
    case RemoveDNS => "RemoveDNS"
    case AddDNSSearch => "AddDNSSearch"
    case RemoveDNSSearch => "RemoveDNSSearch"
    case Establish => "Establish"
    case Disable => "Disable"
    case Destroy => "Destroy"
    case Unknown(name) => name
  }

  const KnownNames: set<string> := {
    "AddIPv4Address", "RemoveIPv4Address", "AddIPv6Address", "RemoveIPv6Address",
    "AddRoutes", "RemoveRoutes", "AddDNS", "RemoveDNS", "AddDNSSearch", "RemoveDNSSearch",
    "Establish", "Disable", "Destroy"}

  /**
   * The branches of callback_method_call that run for `name`, in order.
   * The chain is four separate if/else-if chains one after the other, so
   * this concatenates what each of the four selects; since every test is
   * against a different name, at most one branch runs in all.
   */
  function ChainBranches(name: string): (r: seq<MethodName>)
    ensures |r| <= 1
    ensures forall m :: m in r <==> !m.Unknown? && Wire(m) == name
    ensures r != [] <==> name in KnownNames
  {
    (if name == "AddIPv4Address" then [AddIPv4Address]
     else if name == "RemoveIPv4Address" then [RemoveIPv4Address]
     else if name == "AddIPv6Address" then [AddIPv6Address]
     else [])
    +
    (if name == "RemoveIPv6Address" then [RemoveIPv6Address]
     else if name == "AddRoutes" then [AddRoutes]
     else if name == "RemoveRoutes" then [RemoveRoutes]
     else [])
    +
    (if name == "AddDNS" then [AddDNS]
     else if name == "RemoveDNS" then [RemoveDNS]
     else if name == "AddDNSSearch" then [AddDNSSearch]
     else [])
    +
    (if name == "RemoveDNSSearch" then [RemoveDNSSearch]
     else if name == "Establish" then [Establish]
     else if name == "Disable" then [Disable]
     else if name == "Destroy" then [Destroy]
     else [])
  }

  /** The method a bus name selects; a name no branch tests for is `Unknown`. */
  function Lookup(name: string): (m: MethodName)
    ensures Wire(m) == name
    ensures m.Unknown? <==> name !in KnownNames
  {
    var r := ChainBranches(name);
    if r == [] then Unknown(name) else r[0]
  }

  /** `Unknown` stands only for names that no branch of the chain tests for. */
  predicate WellFormed(m: MethodName) {
    m.Unknown? ==> m.name !in KnownNames
  }

  /** Looking up the bus name of a method gives the method back. */
  lemma LookupWire(m: MethodName)
    requires WellFormed(m)
    ensures Lookup(Wire(m)) == m
  {
  }

  /** The result of a method call, as the caller sees it. */
  datatype Reply =
    | Success
    | Denied(caller: Uid)        // DBusCredentialsException: the caller is not the owner or in the ACL
    | Failed(message: string)    // net.openvpn.v3.netcfg.error.generic

  /** CheckOwnerAccess: the caller created the device or is on its access list. */
  predicate OwnerAccess(caller: Uid, owner: Uid, acl: seq<Uid>) {
    caller == owner || caller in acl
  }

  function NoResolver(m: MethodName): Reply {
    Failed("Failed executing D-Bus call '" + Wire(m) + "': No resolver configured")
  }

  /** What one of the four DNS methods does to a bound resolver: exactly the matching list operation. */
  function DnsEffect(m: MethodName, st: ResolverState, args: seq<string>): (r: ResolverState)
    requires m.IsDns()
    ensures r.deviceCount == st.deviceCount && r.applyCalls == st.applyCalls && r.restoreCalls == st.restoreCalls
    ensures r.modified
    ensures m.AddDNS? || m.RemoveDNS? ==> r.search == st.search
    ensures m.AddDNSSearch? || m.RemoveDNSSearch? ==> r.servers == st.servers
    ensures m.AddDNS? ==> forall x :: x in r.servers <==> x in st.servers || x in args
    ensures m.RemoveDNS? ==> forall x :: x in r.servers <==> x in st.servers && x !in args
    ensures m.AddDNSSearch? ==> forall x :: x in r.search <==> x in st.search || x in args
    ensures m.RemoveDNSSearch? ==> forall x :: x in r.search <==> x in st.search && x !in args
    ensures st.Valid() ==> r.Valid()
  {
    match m
    case AddDNS => ServersAdded(st, args)
    case RemoveDNS => ServersRemoved(st, args)
    case AddDNSSearch => SearchAdded(st, args)
    case RemoveDNSSearch => SearchRemoved(st, args)
  }

  /** Establish applies the resolver only when it reports queued changes. */
  function EstablishEffect(st: ResolverState): (r: ResolverState)
    ensures r.applyCalls == st.applyCalls + (if st.modified then 1 else 0)
    ensures r.deviceCount == st.deviceCount && r.restoreCalls == st.restoreCalls
    ensures r.servers == st.servers && r.search == st.search
    ensures !r.modified
  {
    if st.modified then Applied(st) else st
  }

  /** Disable restores the resolver only when at most this device depends on it. */
  predicate DisableRestores(st: ResolverState) {
    st.deviceCount <= 1
  }

  function DisableEffect(st: ResolverState, restoreOk: bool): (r: ResolverState)
    ensures r.restoreCalls == st.restoreCalls + (if st.deviceCount <= 1 then 1 else 0)
    ensures r.deviceCount == st.deviceCount && r.applyCalls == st.applyCalls
    ensures st.deviceCount > 1 ==> r == st
    ensures st.deviceCount <= 1 && restoreOk ==> r.servers == st.baseServers && r.search == st.baseSearch && !r.modified
  {
    if DisableRestores(st) then Restored(st, restoreOk) else st
  }

  /** Destroy releases this device's reference and restores the resolver when none is left. */
  predicate DestroyRestores(st: ResolverState) {
    Decremented(st).deviceCount == 0
  }

  function DestroyEffect(st: ResolverState, restoreOk: bool): (r: ResolverState)
    ensures st.deviceCount > 0 ==> r.deviceCount == st.deviceCount - 1
    ensures st.deviceCount == 0 ==> r.deviceCount == 0
    ensures r.restoreCalls == st.restoreCalls + (if r.deviceCount == 0 then 1 else 0)
    ensures r.applyCalls == st.applyCalls
    ensures r.deviceCount > 0 ==> r.servers == st.servers && r.search == st.search && r.modified == st.modified
    ensures r.deviceCount == 0 && restoreOk ==> r.servers == st.baseServers && r.search == st.baseSearch && !r.modified
  {
    var d := Decremented(st);
    if DestroyRestores(st) then Restored(d, restoreOk) else d
  }

  /** Everything one method call produces: the reply, the resolver afterwards, whether the device was removed, and whether a failed Restore was logged. */
  datatype Outcome = Outcome(reply: Reply, resolver: Option<ResolverState>, removed: bool, restoreFailed: bool)

  function CountOf(rs: Option<ResolverState>): nat {
    if rs.None? then 0 else rs.value.deviceCount
  }

  /**
   * callback_method_call for method `m`, given whether the resolver's
   * Restore succeeds if it is called.
   */
  function Dispatch(m: MethodName, args: seq<string>, caller: Uid, owner: Uid, acl: seq<Uid>,
                    rs: Option<ResolverState>, restoreOk: bool): (o: Outcome)
    requires WellFormed(m)
    // errors are raised before anything changes
    ensures !o.reply.Success? ==> o.resolver == rs && !o.removed && !o.restoreFailed
    ensures o.reply.Denied? <==> m.Destroy? && !OwnerAccess(caller, owner, acl)
    ensures o.reply.Denied? ==> o.reply.caller == caller
    ensures o.reply.Failed? <==> m.IsDns() && rs.None?
    ensures o.reply.Failed? ==> o.reply == NoResolver(m)
    ensures o.removed <==> m.Destroy? && OwnerAccess(caller, owner, acl)
    ensures o.resolver.Some? <==> rs.Some?
    // only Destroy moves the dependency count
    ensures !o.removed ==> CountOf(o.resolver) == CountOf(rs)
    ensures o.removed && rs.Some? ==> o.resolver == Some(DestroyEffect(rs.value, restoreOk))
    ensures o.restoreFailed ==> !restoreOk
    ensures m.IsAddressOrRoute() || m.Unknown? ==> o == Outcome(Success, rs, false, false)
    ensures rs.Some? && rs.value.Valid() ==> o.resolver.value.Valid()
  {
    match m
    case AddDNS | RemoveDNS | AddDNSSearch | RemoveDNSSearch =>
      if rs.None? then Outcome(NoResolver(m), rs, false, false)
      else Outcome(Success, Some(DnsEffect(m, rs.value, args)), false, false)
    case Establish =>
      if rs.None? then Outcome(Success, rs, false, false)
      else Outcome(Success, Some(EstablishEffect(rs.value)), false, false)
    case Disable =>
      if rs.None? then Outcome(Success, rs, false, false)
      else Outcome(Success, Some(DisableEffect(rs.value, restoreOk)), false,
                   DisableRestores(rs.value) && !restoreOk)
    case Destroy =>
      if !OwnerAccess(caller, owner, acl) then Outcome(Denied(caller), rs, false, false)
      else if rs.None? then Outcome(Success, rs, true, false)
      else Outcome(Success, Some(DestroyEffect(rs.value, restoreOk)), true,
                   DestroyRestores(rs.value) && !restoreOk)
    case _ => Outcome(Success, rs, false, false)
  }

  /** A failing Restore is swallowed: the reply, the count and whether the device goes are the same either way. */
  lemma RestoreFailureSwallowed(m: MethodName, args: seq<string>, caller: Uid, owner: Uid, acl: seq<Uid>,
                                rs: Option<ResolverState>)
    requires WellFormed(m)
    ensures var pass := Dispatch(m, args, caller, owner, acl, rs, true);
            var fail := Dispatch(m, args, caller, owner, acl, rs, false);
            pass.reply == fail.reply && pass.removed == fail.removed &&
            CountOf(pass.resolver) == CountOf(fail.resolver)
  {
  }

  /** What a property read returns. */
  datatype PropValue =
    | UInt(u: uint32)
    | Flag(b: bool)
    | Strings(strs: seq<string>)
    | Uids(uids: seq<Uid>)
    | Text(text: string)

  /** The GIO error code a property access fails with. */
  datatype IoErrorCode = ErrFailed | ErrInvalidData

  datatype PropError = PropError(code: IoErrorCode, message: string)

  /** The confirmation callback_set_property sends back. */
  datatype PropChange = PropChange(name: string, value: uint32)

  const AddressRouteProperties: set<string> := {"ipv4_addresses", "ipv4_routes", "ipv6_addresses", "ipv6_routes"}

  const ReadableProperties: set<string> := {
    "log_level", "owner", "acl", "active", "modified",
    "ipv4_addresses", "ipv4_routes", "ipv6_addresses", "ipv6_routes", "dns_servers",
    "device_name", "dns_search", "mtu"}

  const InvalidProperty := PropError(ErrFailed, "Invalid property")

  /** The largest log level the log_level property accepts. */
  const MaxLogLevel: uint32 := 6

  class NetCfgDevice {
    const owner: Uid
    var acl: seq<Uid>
    const deviceType: DeviceType
    const deviceName: string
    const resolver: ResolverSettings?
    /** Nothing in this object assigns mtu or active after initialisation. */
    const mtu: uint32 := 1500
    const active: bool := false
    var logLevel: uint32
    /** Set once RemoveObject and `delete this` have run; the object is gone. */
    var destroyed: bool
    /** How often the remove callback the registry handed over has run. */
    var removeCallbacks: nat

    function ResolverView(): Option<ResolverState>
      reads resolver
    {
      if resolver == null then None else Some(resolver.State())
    }

    /** A device bound to a resolver registers itself as one more dependent of it. */
    constructor (creator: Uid, devType: DeviceType, devName: string, resolver: ResolverSettings?, logLevel: uint32)
      modifies resolver
      ensures owner == creator && acl == [] && deviceType == devType && deviceName == devName
      ensures this.resolver == resolver && this.logLevel == logLevel
      ensures mtu == 1500 && !active && !destroyed && removeCallbacks == 0
      ensures resolver != null ==> resolver.State() == Incremented(old(resolver.State()))
    {
      owner, acl := creator, [];
      deviceType, deviceName := devType, devName;
      this.resolver := resolver;
      this.logLevel := logLevel;
      destroyed, removeCallbacks := false, 0;
      new;
      if resolver != null {
        resolver.IncDeviceCount();
      }
    }

    /**
     * callback_method_call. `restoreFailed` reports a Restore that failed
     * and was logged instead of being passed on to the caller.
     */
    method Call(m: MethodName, args: seq<string>, caller: Uid) returns (reply: Reply, restoreFailed: bool)
      requires !destroyed && WellFormed(m)
      modifies this`destroyed, this`removeCallbacks, resolver
      ensures Outcome(reply, ResolverView(), destroyed, restoreFailed)
              == Dispatch(m, args, caller, owner, acl, old(ResolverView()), !restoreFailed)
      ensures removeCallbacks == old(removeCallbacks) + (if destroyed then 1 else 0)
    {
      reply, restoreFailed := Success, false;
      match m
      case AddDNS =>
        if resolver == null {
          reply := NoResolver(m);
        } else {
          resolver.AddDNSServers(args);
        }
      case RemoveDNS =>
        if resolver == null {
          reply := NoResolver(m);
        } else {
          resolver.RemoveDNSServers(args);
        }
      case AddDNSSearch =>
        if resolver == null {
          reply := NoResolver(m);
        } else {
          resolver.AddDNSSearch(args);
        }
      case RemoveDNSSearch =>
        if resolver == null {
          reply := NoResolver(m);
        } else {
          resolver.RemoveDNSSearch(args);
        }
      case Establish =>
        if resolver != null && resolver.modified {
          resolver.Apply();
        }
      case Disable =>
        if resolver != null && resolver.deviceCount <= 1 {
          var ok := resolver.Restore();
          restoreFailed := !ok;
        }
      case Destroy =>
        if !OwnerAccess(caller, owner, acl) {
          reply := Denied(caller);
          return;
        }
        if resolver != null {
          resolver.DecDeviceCount();
          if resolver.deviceCount == 0 {
            var ok := resolver.Restore();
            restoreFailed := !ok;
          }
        }
        destroyed := true;
        removeCallbacks := removeCallbacks + 1;
      case _ =>
    }

    /** callback_get_property, on a device that still exists. */
    function GetProperty(name: string): (r: Result<PropValue, PropError>)
      requires !destroyed
      reads this, resolver
      ensures r.Err? <==> name !in ReadableProperties
      ensures r.Err? ==> r.error == InvalidProperty
      ensures name == "log_level" ==> r == Ok(UInt(logLevel))
      ensures name == "active" ==> r == Ok(Flag(false))
      ensures name == "mtu" ==> r == Ok(UInt(1500))
      ensures name == "modified" ==> r.Ok? && r.value.Flag? && (r.value.b <==> resolver != null && resolver.modified)
      ensures name == "dns_servers" ==> r == Ok(Strings(if resolver == null then [] else resolver.servers))
      ensures name in AddressRouteProperties ==> r == Ok(Strings([]))
      ensures name == "dns_search" ==> r == Ok(Strings([]))
      ensures name == "owner" ==> r == Ok(UInt(owner))
      ensures name == "acl" ==> r == Ok(Uids(acl))
      ensures name == "device_name" ==> r == Ok(Text(deviceName))
    {
      if name == "log_level" then Ok(UInt(logLevel))
      else if name == "owner" then Ok(UInt(owner))
      else if name == "acl" then Ok(Uids(acl))
      else if name == "active" then Ok(Flag(active))
      else if name == "modified" then Ok(Flag(resolver != null && resolver.modified))
      else if name in AddressRouteProperties then Ok(Strings([]))  // the lists are never filled in
      else if name == "dns_servers" then Ok(Strings(if resolver == null then [] else resolver.servers))
      // the property bindings: the device's own dns_search list is never filled in
      else if name == "device_name" then Ok(Text(deviceName))
      else if name == "dns_search" then Ok(Strings([]))
      else if name == "mtu" then Ok(UInt(mtu))
      else Err(InvalidProperty)
    }

    /** callback_set_property, on a device that still exists: only log_level is writable, and only up to MaxLogLevel. */
    method SetProperty(name: string, value: uint32) returns (r: Result<PropChange, PropError>)
      requires !destroyed
      modifies this`logLevel
      ensures r.Ok? <==> name == "log_level" && value <= MaxLogLevel
      ensures r.Ok? ==> r.value == PropChange("log_level", value) && GetProperty("log_level") == Ok(UInt(value))
      ensures r.Err? ==> logLevel == old(logLevel)
      ensures name == "log_level" && value > MaxLogLevel ==> r == Err(PropError(ErrInvalidData, "Invalid log level"))
      ensures name != "log_level" ==> r == Err(InvalidProperty)
    {
      if name == "log_level" {
        if value > MaxLogLevel {
          return Err(PropError(ErrInvalidData, "Invalid log level"));
        }
        logLevel := value;
        return Ok(PropChange(name, value));
      }
      return Err(InvalidProperty);
    }
  }
}
