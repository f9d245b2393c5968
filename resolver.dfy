/**
 * The shared DNS::ResolverSettings object, seen from the devices that use it.
 *
 * Its backend (the code that rewrites the host's resolver configuration) is
 * not part of this model. What is modelled is the state a device can observe
 * or change: the dependency count, the `modified` flag, the server and
 * search-domain lists (ordered sets), the baseline they are restored to, and
 * how often Apply and Restore were called.
 */
module DnsResolver {

  /** No element occurs twice: the server and search lists are ordered sets. */
  predicate NoDups<T(==)>(s: seq<T>) {
    forall i, j :: 0 <= i < j < |s| ==> s[i] != s[j]
  }

  /** `s` extended by every element of `xs` that is not yet present, in order of first appearance. */
  function AddUnique<T(==,!new)>(s: seq<T>, xs: seq<T>): (r: seq<T>)
    ensures forall x :: x in r <==> x in s || x in xs
    ensures |s| <= |r| && r[..|s|] == s
    ensures NoDups(s) ==> NoDups(r)
    decreases |xs|
  {
    if xs == [] then s
    else if xs[0] in s then AddUnique(s, xs[1..])
    else
      var r := AddUnique(s + [xs[0]], xs[1..]);
      assert r[..|s|] == r[..|s| + 1][..|s|];
      r
  }

  /** `s` without the elements of `xs`. */
  function RemoveAll<T(==,!new)>(s: seq<T>, xs: seq<T>): (r: seq<T>)
    ensures forall x :: x in r <==> x in s && x !in xs
    ensures |r| <= |s|
    ensures NoDups(s) ==> NoDups(r)
  {
    if s == [] then []
    else if s[0] in xs then RemoveAll(s[1..], xs)
    else [s[0]] + RemoveAll(s[1..], xs)
  }

  lemma {:induction false} RemoveAllAppend<T(!new)>(a: seq<T>, b: seq<T>, xs: seq<T>)
    ensures RemoveAll(a + b, xs) == RemoveAll(a, xs) + RemoveAll(b, xs)
  {
    if a == [] {
      assert a + b == b;
    } else {
      assert (a + b)[1..] == a[1..] + b;
      RemoveAllAppend(a[1..], b, xs);
    }
  }

  /** Adding a list and then removing every element of a superset of it leaves what removal alone leaves. */
  lemma {:induction false} RemoveAfterAdd<T(!new)>(s: seq<T>, xs: seq<T>, ys: seq<T>)
    requires forall x :: x in xs ==> x in ys
    ensures RemoveAll(AddUnique(s, xs), ys) == RemoveAll(s, ys)
    decreases |xs|
  {
    if xs != [] {
      if xs[0] in s {
        RemoveAfterAdd(s, xs[1..], ys);
      } else {
        RemoveAfterAdd(s + [xs[0]], xs[1..], ys);
        RemoveAllAppend(s, [xs[0]], ys);
        assert RemoveAll([xs[0]], ys) == [];
      }
    }
  }

  /** Adding elements that are all present already changes nothing: AddDNSServers is idempotent. */
  lemma {:induction false} AddUniquePresent<T(!new)>(s: seq<T>, xs: seq<T>)
    requires forall x :: x in xs ==> x in s
    ensures AddUnique(s, xs) == s
    decreases |xs|
  {
    if xs != [] {
      AddUniquePresent(s, xs[1..]);
    }
  }

  lemma AddUniqueIdempotent<T(!new)>(s: seq<T>, xs: seq<T>)
    ensures AddUnique(AddUnique(s, xs), xs) == AddUnique(s, xs)
  {
    AddUniquePresent(AddUnique(s, xs), xs);
  }

  /** Everything about a ResolverSettings object that a device can see or change. */
  datatype ResolverState = ResolverState(
    deviceCount: nat,
    modified: bool,
    servers: seq<string>,
    search: seq<string>,
    baseServers: seq<string>,
    baseSearch: seq<string>,
    applyCalls: nat,
    restoreCalls: nat)
  {
    /** The lists are ordered sets. */
    predicate Valid() {
      NoDups(servers) && NoDups(search) && NoDups(baseServers) && NoDups(baseSearch)
    }
  }

  // Transitions, one per ResolverSettings operation a device calls.

  function Incremented(st: ResolverState): ResolverState {
    st.(deviceCount := st.deviceCount + 1)
  }

  /** The count never goes below zero. */
  function Decremented(st: ResolverState): ResolverState {
    st.(deviceCount := if st.deviceCount == 0 then 0 else st.deviceCount - 1)
  }

  function ServersAdded(st: ResolverState, xs: seq<string>): ResolverState {
    st.(servers := AddUnique(st.servers, xs), modified := true)
  }

  function ServersRemoved(st: ResolverState, xs: seq<string>): ResolverState {
    st.(servers := RemoveAll(st.servers, xs), modified := true)
  }

  function SearchAdded(st: ResolverState, xs: seq<string>): ResolverState {
    st.(search := AddUnique(st.search, xs), modified := true)
  }

  function SearchRemoved(st: ResolverState, xs: seq<string>): ResolverState {
    st.(search := RemoveAll(st.search, xs), modified := true)
  }

  /** Apply commits the queued lists to the host and clears `modified`. */
  function Applied(st: ResolverState): ResolverState {
    st.(modified := false, applyCalls := st.applyCalls + 1)
  }

  /** A Restore that succeeds (`ok`) brings the lists back to the baseline; one that fails changes nothing but the call count. */
  function Restored(st: ResolverState, ok: bool): ResolverState {
    if ok then
      st.(servers := st.baseServers, search := st.baseSearch, modified := false, restoreCalls := st.restoreCalls + 1)
    else
      st.(restoreCalls := st.restoreCalls + 1)
  }

  /** A second successful Restore right after one changes nothing but the call count. */
  lemma RestoreIdempotent(st: ResolverState)
    ensures Restored(Restored(st, true), true) == Restored(st, true).(restoreCalls := st.restoreCalls + 2)
  {
  }

  /** A Restore on a resolver that was never modified changes nothing but the call count, whatever its outcome. */
  lemma RestoreUnmodified(st: ResolverState, ok: bool)
    requires st.servers == st.baseServers && st.search == st.baseSearch && !st.modified
    ensures Restored(st, ok) == st.(restoreCalls := st.restoreCalls + 1)
  {
  }

  /** Every list operation keeps the lists ordered sets. */
  lemma ListOpsKeepValid(st: ResolverState, xs: seq<string>, ok: bool)
    requires st.Valid()
    ensures ServersAdded(st, xs).Valid() && ServersRemoved(st, xs).Valid()
    ensures SearchAdded(st, xs).Valid() && SearchRemoved(st, xs).Valid()
    ensures Restored(st, ok).Valid() && Applied(st).Valid()
    ensures Incremented(st).Valid() && Decremented(st).Valid()
  {
  }

  /** The shared resolver object: its fields change in place through a device's pointer to it. */
  class ResolverSettings {
    var deviceCount: nat
    var modified: bool
    var servers: seq<string>
    var search: seq<string>
    const baseServers: seq<string>
    const baseSearch: seq<string>
    var applyCalls: nat
    var restoreCalls: nat

    function State(): ResolverState
      reads this
    {
      ResolverState(deviceCount, modified, servers, search, baseServers, baseSearch, applyCalls, restoreCalls)
    }

    /** A resolver starts from the host's configuration, with no dependent devices. */
    constructor (hostServers: seq<string>, hostSearch: seq<string>)
      requires NoDups(hostServers) && NoDups(hostSearch)
      ensures State() == ResolverState(0, false, hostServers, hostSearch, hostServers, hostSearch, 0, 0)
      ensures State().Valid()
    {
      deviceCount, modified := 0, false;
      servers, search := hostServers, hostSearch;
      baseServers, baseSearch := hostServers, hostSearch;
      applyCalls, restoreCalls := 0, 0;
    }

    method IncDeviceCount()
      modifies this
      ensures State() == Incremented(old(State()))
    {
      deviceCount := deviceCount + 1;
    }

    method DecDeviceCount()
      modifies this
      ensures State() == Decremented(old(State()))
    {
      if deviceCount > 0 {
        deviceCount := deviceCount - 1;
      }
    }

    method AddDNSServers(xs: seq<string>)
      modifies this
      ensures State() == ServersAdded(old(State()), xs)
    {
      servers, modified := AddUnique(servers, xs), true;
    }

    method RemoveDNSServers(xs: seq<string>)
      modifies this
      ensures State() == ServersRemoved(old(State()), xs)
    {
      servers, modified := RemoveAll(servers, xs), true;
    }

    method AddDNSSearch(xs: seq<string>)
      modifies this
      ensures State() == SearchAdded(old(State()), xs)
    {
      search, modified := AddUnique(search, xs), true;
    }

    method RemoveDNSSearch(xs: seq<string>)
      modifies this
      ensures State() == SearchRemoved(old(State()), xs)
    {
      search, modified := RemoveAll(search, xs), true;
    }

    method Apply()
      modifies this
      ensures State() == Applied(old(State()))
    {
      modified, applyCalls := false, applyCalls + 1;
    }

    /** Restore may fail; `ok` reports which, and which the backend chose is not in this model. */
    method Restore() returns (ok: bool)
      modifies this
      ensures State() == Restored(old(State()), ok)
    {
      ok := *;
      if ok {
        servers, search, modified := baseServers, baseSearch, false;
      }
      restoreCalls := restoreCalls + 1;
    }
  }
}
