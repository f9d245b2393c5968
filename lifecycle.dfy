/**
 * Several devices sharing one resolver over their lifetimes: every
 * construction adds one dependent, every Destroy removes one, and the
 * resolver is restored by the Destroy that leaves no dependent.
 */
module DeviceLifecycle {
  import opened Wrappers
  import opened DnsResolver
  import opened NetCfg

  /** A device (by its id) is constructed on the resolver, or destroyed by its owner. */
  datatype Event = Created(id: nat) | Destroyed(id: nat, restoreOk: bool)

  /** The shared resolver and the ids of the devices that still exist. */
  datatype Fleet = Fleet(resolver: ResolverState, live: set<nat>)

  /** A device is created under a fresh id and destroyed only while it exists. */
  predicate Legal(f: Fleet, t: seq<Event>)
    decreases |t|
  {
    t == [] ||
    match t[0]
    case Created(id) => id !in f.live && Legal(Step(f, t[0]), t[1..])
    case Destroyed(id, _) => id in f.live && Legal(Step(f, t[0]), t[1..])
  }

  function Step(f: Fleet, e: Event): Fleet {
    match e
    case Created(id) => Fleet(Incremented(f.resolver), f.live + {id})
    case Destroyed(id, ok) => Fleet(DestroyEffect(f.resolver, ok), f.live - {id})
  }

  function Run(f: Fleet, t: seq<Event>): Fleet
    decreases |t|
  {
    if t == [] then f else Run(Step(f, t[0]), t[1..])
  }

  /** The number of Destroy events after which no device is left. */
  function LastOut(f: Fleet, t: seq<Event>): nat
    decreases |t|
  {
    if t == [] then 0
    else
      var g := Step(f, t[0]);
      (if t[0].Destroyed? && g.live == {} then 1 else 0) + LastOut(g, t[1..])
  }

  /**
   * Over any legal interleaving of constructions and Destroys, the count is
   * the devices held elsewhere (`base`) plus the devices alive, and when
   * nothing else holds the resolver, Destroy restores it exactly as often as
   * the last live device goes.
   */
  lemma {:induction false} CountTracksLive(f: Fleet, t: seq<Event>, base: nat)
    requires Legal(f, t)
    requires f.resolver.deviceCount == base + |f.live|
    ensures Run(f, t).resolver.deviceCount == base + |Run(f, t).live|
    ensures Run(f, t).resolver.restoreCalls == f.resolver.restoreCalls + (if base == 0 then LastOut(f, t) else 0)
    ensures Run(f, t).resolver.applyCalls == f.resolver.applyCalls
    decreases |t|
  {
    if t != [] {
      var g := Step(f, t[0]);
      match t[0] {
        case Created(id) =>
          assert |g.live| == |f.live| + 1;
        case Destroyed(id, ok) =>
          assert |g.live| == |f.live| - 1;
          assert g.live == {} <==> |g.live| == 0;
      }
      CountTracksLive(g, t[1..], base);
    }
  }

  function Creations(ids: seq<nat>): (t: seq<Event>)
    ensures |t| == |ids|
  {
    if ids == [] then [] else [Created(ids[0])] + Creations(ids[1..])
  }

  function Destructions(order: seq<nat>, oks: seq<bool>): (t: seq<Event>)
    requires |oks| == |order|
    ensures |t| == |order|
  {
    if order == [] then [] else [Destroyed(order[0], oks[0])] + Destructions(order[1..], oks[1..])
  }

  function Elems(s: seq<nat>): set<nat> {
    set x | x in s
  }

  lemma {:induction false} RunAppend(f: Fleet, a: seq<Event>, b: seq<Event>)
    ensures Run(f, a + b) == Run(Run(f, a), b)
    ensures Legal(f, a + b) <==> Legal(f, a) && Legal(Run(f, a), b)
    ensures LastOut(f, a + b) == LastOut(f, a) + LastOut(Run(f, a), b)
    decreases |a|
  {
    if a == [] {
      assert a + b == b;
    } else {
      assert (a + b)[0] == a[0];
      assert (a + b)[1..] == a[1..] + b;
      RunAppend(Step(f, a[0]), a[1..], b);
    }
  }

  lemma {:induction false} CreationPhase(f: Fleet, ids: seq<nat>)
    requires NoDups(ids)
    requires forall x :: x in ids ==> x !in f.live
    ensures Legal(f, Creations(ids))
    ensures Run(f, Creations(ids)).live == f.live + Elems(ids)
    ensures LastOut(f, Creations(ids)) == 0
    decreases |ids|
  {
    if ids != [] {
      var g := Step(f, Created(ids[0]));
      ConsNoDups(ids);
      CreationPhase(g, ids[1..]);
      assert Elems(ids) == {ids[0]} + Elems(ids[1..]);
    }
  }

  lemma {:induction false} DestructionPhase(f: Fleet, order: seq<nat>, oks: seq<bool>)
    requires |oks| == |order| && NoDups(order)
    requires f.live == Elems(order)
    ensures Legal(f, Destructions(order, oks))
    ensures Run(f, Destructions(order, oks)).live == {}
    ensures LastOut(f, Destructions(order, oks)) == (if order == [] then 0 else 1)
    decreases |order|
  {
    if order != [] {
      var g := Step(f, Destroyed(order[0], oks[0]));
      ConsNoDups(order);
      assert g.live == Elems(order[1..]) by {
        assert Elems(order) == {order[0]} + Elems(order[1..]);
      }
      assert order[0] in f.live;
      DestructionPhase(g, order[1..], oks[1..]);
      assert g.live == {} <==> order[1..] == [] by {
        if order[1..] != [] {
          assert order[1] in Elems(order[1..]);
        }
      }
    }
  }

  /**
   * N devices constructed on one resolver and then destroyed in any order
   * (`order` is any rearrangement of their ids, `oks` any Restore outcomes)
   * bring the count back to where it started; if nothing else held the
   * resolver, Destroy called Restore exactly once.
   */
  lemma DestroyAllInAnyOrder(r: ResolverState, ids: seq<nat>, order: seq<nat>, oks: seq<bool>)
    requires NoDups(ids) && ids != []
    requires multiset(order) == multiset(ids)
    requires |oks| == |order|
    ensures var t := Creations(ids) + Destructions(order, oks);
            Legal(Fleet(r, {}), t) &&
            Run(Fleet(r, {}), t).live == {} &&
            Run(Fleet(r, {}), t).resolver.deviceCount == r.deviceCount &&
            Run(Fleet(r, {}), t).resolver.restoreCalls == r.restoreCalls + (if r.deviceCount == 0 then 1 else 0) &&
            Run(Fleet(r, {}), t).resolver.applyCalls == r.applyCalls
  {
    var f := Fleet(r, {});
    var a, b := Creations(ids), Destructions(order, oks);
    CreationPhase(f, ids);
    var g := Run(f, a);
    assert g.live == Elems(ids);
    assert NoDups(order) by {
      NoDupsMultiset(ids);
      NoDupsMultiset(order);
    }
    assert Elems(order) == Elems(ids) by {
      forall x ensures x in order <==> x in ids {
        assert x in order <==> x in multiset(order);
        assert x in ids <==> x in multiset(ids);
      }
    }
    DestructionPhase(g, order, oks);
    RunAppend(f, a, b);
    CountTracksLive(f, a + b, r.deviceCount);
    assert order != [] by { assert |order| == |multiset(order)| == |multiset(ids)| == |ids|; }
  }

  /** A list has no repeats exactly when its head is not in its tail and its tail has none. */
  lemma ConsNoDups(s: seq<nat>)
    requires s != []
    ensures NoDups(s) <==> s[0] !in s[1..] && NoDups(s[1..])
  {
  }

  /** A list has no repeats exactly when no element occurs in it twice. */
  lemma {:induction false} NoDupsMultiset(s: seq<nat>)
    ensures NoDups(s) <==> forall x :: multiset(s)[x] <= 1
    decreases |s|
  {
    if s != [] {
      var h, t := s[0], s[1..];
      assert s == [h] + t;
      assert forall x :: multiset(s)[x] == (if x == h then 1 else 0) + multiset(t)[x];
      NoDupsMultiset(t);
      ConsNoDups(s);
      if forall x :: multiset(s)[x] <= 1 {
        assert multiset(t)[h] == 0;
      }
    }
  }

  /** D1 is created on a fresh resolver, queues a server and is established: Apply runs once. */
  method EstablishFirstDevice(owner: Uid, server: string) returns (r: ResolverSettings, d1: NetCfgDevice)
    ensures fresh(r) && fresh(d1)
    ensures d1.resolver == r && d1.owner == owner && d1.acl == [] && !d1.destroyed && d1.removeCallbacks == 0
    ensures r.deviceCount == 1 && r.applyCalls == 1 && r.restoreCalls == 0 && !r.modified
    ensures r.baseServers == [] && r.baseSearch == [] && r.servers == [server]
  {
    r := new ResolverSettings([], []);
    d1 := new NetCfgDevice(owner, Tun, "tun0", r, 3);
    var reply, failed := d1.Call(AddDNS, [server], owner);
    assert reply == Success && r.modified && r.servers == AddUnique([], [server]);
    assert AddUnique([], [server]) == AddUnique([server], []) == [server];
    reply, failed := d1.Call(Establish, [], owner);
  }

  /**
   * Two devices of one owner share a resolver: D1 queues a server and is
   * established (`EstablishFirstDevice`), D2 is created and destroyed, then
   * D1 is destroyed. Apply runs once, D2's Destroy leaves the resolver alone,
   * the last Destroy restores it, and both devices are gone.
   * `restoresAfterD2` is the Restore count right after D2's Destroy, and
   * `failed` tells whether the last Restore failed.
   */
  method SharedResolverScenario(owner: Uid, server: string)
    returns (r: ResolverSettings, d1: NetCfgDevice, d2: NetCfgDevice, restoresAfterD2: nat, failed: bool)
    ensures d1.destroyed && d2.destroyed
    ensures d1.removeCallbacks == 1 && d2.removeCallbacks == 1
    ensures restoresAfterD2 == 0
    ensures r.deviceCount == 0 && r.applyCalls == 1 && r.restoreCalls == 1
    ensures !failed ==> r.servers == [] && r.search == [] && !r.modified
  {
    r, d1 := EstablishFirstDevice(owner, server);
    d2 := new NetCfgDevice(owner, Tun, "tun1", r, 3);
    assert r.deviceCount == 2;
    var reply;
    reply, failed := d2.Call(Destroy, [], owner);
    assert reply == Success && r.deviceCount == 1;
    restoresAfterD2 := r.restoreCalls;
    reply, failed := d1.Call(Destroy, [], owner);
    assert reply == Success;
  }
}
