/**
 * `PortalProvider`: the registry behind `Portal` and `PortalContainer`. It
 * keeps the set of mounted container ids, the portals by id (in the
 * insertion order of a JavaScript `Map`, an overwrite keeping the entry's
 * place), and per container the subscribed callbacks (in the insertion
 * order of a JavaScript `Set`). Adding or removing a portal notifies the
 * container's subscribers with the portals that belong to that container.
 */
module Portal {
  import opened Wrappers
  import opened Sequences

  /** The identity of a subscribed callback; what it does with the list is
      not modelled, only what it is handed. */
  type Callback = nat

  /** A portal: its id, its children (an opaque node) and its container. */
  datatype PortalEntry = PortalEntry(id: string, children: nat, containerId: string)

  /** One call of a subscriber with the list of portals it was handed. */
  datatype Delivery = Delivery(callback: Callback, portals: seq<PortalEntry>)

  /** What `subscribe` returns: the closure that unsubscribes this callback
      from this container. */
  datatype Subscription = Subscription(containerId: string, callback: Callback)

  /** Map keys are unique. */
  predicate UniqueIds(ps: seq<PortalEntry>) {
    forall i, j :: 0 <= i < j < |ps| ==> ps[i].id != ps[j].id
  }

  /** `portals.get(id)`. */
  function Lookup(ps: seq<PortalEntry>, id: string): (r: Option<PortalEntry>)
    ensures r.Some? ==> r.value in ps && r.value.id == id
    ensures r.None? <==> forall p :: p in ps ==> p.id != id
  {
    if ps == [] then None
    else if ps[0].id == id then Some(ps[0])
    else Lookup(ps[1..], id)
  }

  /** `portals.set(p.id, p)`: the entry under `p.id` is replaced in place, or
      `p` is appended when the id is new. */
  function Put(ps: seq<PortalEntry>, p: PortalEntry): (r: seq<PortalEntry>)
    ensures p in r
    ensures forall q :: q in r ==> q == p || q in ps
    ensures Lookup(ps, p.id).None? ==> r == ps + [p]
    ensures Lookup(ps, p.id).Some? ==> |r| == |ps|
  {
    if ps == [] then [p]
    else if ps[0].id == p.id then [p] + ps[1..]
    else [ps[0]] + Put(ps[1..], p)
  }

  /** After storing, `p.id` yields `p` and every other id what it yielded before. */
  lemma {:induction false} PutLookup(ps: seq<PortalEntry>, p: PortalEntry, id: string)
    ensures Lookup(Put(ps, p), id) == if id == p.id then Some(p) else Lookup(ps, id)
  {
    if ps != [] && ps[0].id != p.id {
      PutLookup(ps[1..], p, id);
    }
  }

  /** `i` is the first position holding an entry under `id`. */
  predicate FirstWithId(ps: seq<PortalEntry>, id: string, i: int) {
    0 <= i < |ps| && ps[i].id == id && forall j :: 0 <= j < i ==> ps[j].id != id
  }

  /** An existing id is overwritten where it stands: the first entry under
      `p.id` becomes `p` and every other entry keeps its value and place. */
  lemma {:induction false} PutInPlace(ps: seq<PortalEntry>, p: PortalEntry)
    requires Lookup(ps, p.id).Some?
    ensures exists i :: FirstWithId(ps, p.id, i) && Put(ps, p) == ps[i := p]
  {
    if ps[0].id == p.id {
      assert FirstWithId(ps, p.id, 0);
      assert Put(ps, p) == ps[0 := p];
    } else {
      var tail := ps[1..];
      assert Lookup(tail, p.id).Some?;
      PutInPlace(tail, p);
      var i :| FirstWithId(tail, p.id, i) && Put(tail, p) == tail[i := p];
      assert Put(ps, p) == [ps[0]] + tail[i := p];
      assert [ps[0]] + tail[i := p] == ps[i + 1 := p];
      forall j | 0 <= j < i + 1 ensures ps[j].id != p.id {
        if j > 0 {
          assert ps[j] == tail[j - 1];
        }
      }
      assert FirstWithId(ps, p.id, i + 1);
    }
  }

  lemma ConsUnique(x: PortalEntry, rest: seq<PortalEntry>)
    requires UniqueIds(rest) && forall q :: q in rest ==> q.id != x.id
    ensures UniqueIds([x] + rest)
  {
    var s := [x] + rest;
    forall i, j | 0 <= i < j < |s| ensures s[i].id != s[j].id {
      if i == 0 {
        assert s[j] in rest;
      } else {
        assert s[i] == rest[i - 1] && s[j] == rest[j - 1];
      }
    }
  }

  /** Storing a portal keeps the ids unique. */
  lemma {:induction false} PutKeepsIdsUnique(ps: seq<PortalEntry>, p: PortalEntry)
    requires UniqueIds(ps)
    ensures UniqueIds(Put(ps, p))
  {
    if ps == [] {
    } else if ps[0].id == p.id {
      assert forall q :: q in ps[1..] ==> q.id != ps[0].id;
      ConsUnique(p, ps[1..]);
    } else {
      assert UniqueIds(ps[1..]);
      PutKeepsIdsUnique(ps[1..], p);
      assert forall q :: q in ps[1..] ==> q.id != ps[0].id;
      ConsUnique(ps[0], Put(ps[1..], p));
    }
  }

  /** `portals.delete(id)`: the entries under other ids stay, in order. */
  function Delete(ps: seq<PortalEntry>, id: string): (r: seq<PortalEntry>)
    ensures forall q :: q in r <==> q in ps && q.id != id
    ensures Lookup(ps, id).None? ==> r == ps
  {
    if ps == [] then []
    else if ps[0].id == id then Delete(ps[1..], id)
    else [ps[0]] + Delete(ps[1..], id)
  }

  /** After deleting, `id` yields nothing and every other id what it yielded before. */
  lemma {:induction false} DeleteLookup(ps: seq<PortalEntry>, id: string, k: string)
    ensures Lookup(Delete(ps, id), k) == if k == id then None else Lookup(ps, k)
  {
    if ps != [] {
      DeleteLookup(ps[1..], id, k);
    }
  }

  /** Deleting keeps the ids unique. */
  lemma {:induction false} DeleteKeepsIdsUnique(ps: seq<PortalEntry>, id: string)
    requires UniqueIds(ps)
    ensures UniqueIds(Delete(ps, id))
  {
    if ps != [] {
      assert UniqueIds(ps[1..]);
      DeleteKeepsIdsUnique(ps[1..], id);
      if ps[0].id != id {
        assert forall q :: q in ps[1..] ==> q.id != ps[0].id;
        ConsUnique(ps[0], Delete(ps[1..], id));
      }
    }
  }

  lemma {:induction false} DeleteAppend(a: seq<PortalEntry>, b: seq<PortalEntry>, id: string)
    ensures Delete(a + b, id) == Delete(a, id) + Delete(b, id)
  {
    if a == [] {
      assert a + b == b;
    } else {
      assert (a + b)[1..] == a[1..] + b;
      DeleteAppend(a[1..], b, id);
    }
  }

  /** Adding a portal under a fresh id and removing it again restores the
      registry's portals, order included. */
  lemma PutThenDelete(ps: seq<PortalEntry>, p: PortalEntry)
    requires Lookup(ps, p.id).None?
    ensures Delete(Put(ps, p), p.id) == ps
  {
    DeleteAppend(ps, [p], p.id);
    assert Delete([p], p.id) == [];
  }

  /** `Array.from(portals.values()).filter(p => p.containerId === c)`. */
  function InContainer(ps: seq<PortalEntry>, c: string): (r: seq<PortalEntry>)
    ensures forall q :: q in r <==> q in ps && q.containerId == c
    ensures |r| <= |ps|
  {
    if ps == [] then []
    else (if ps[0].containerId == c then [ps[0]] else []) + InContainer(ps[1..], c)
  }

  /** Filtering distributes over concatenation, so a container receives its
      portals in registry order. */
  lemma {:induction false} InContainerAppend(a: seq<PortalEntry>, b: seq<PortalEntry>, c: string)
    ensures InContainer(a + b, c) == InContainer(a, c) + InContainer(b, c)
  {
    if a == [] {
      assert a + b == b;
    } else {
      assert (a + b)[1..] == a[1..] + b;
      InContainerAppend(a[1..], b, c);
    }
  }

  /** The callbacks subscribed to `c`; a container nobody subscribed to has none. */
  function SubscribersOf(m: map<string, seq<Callback>>, c: string): seq<Callback> {
    if c in m then m[c] else []
  }

  /** Each callback, in order, handed the same list. */
  function Broadcast(callbacks: seq<Callback>, portals: seq<PortalEntry>): (r: seq<Delivery>)
    ensures |r| == |callbacks|
    ensures forall i :: 0 <= i < |r| ==> r[i].callback == callbacks[i] && r[i].portals == portals
  {
    seq(|callbacks|, i requires 0 <= i < |callbacks| => Delivery(callbacks[i], portals))
  }

  /** `subscribe`'s update of the subscriber map: `cb` joins `c`'s set (a
      set created on first use); every other container keeps its set. */
  function AddSubscriber(m: map<string, seq<Callback>>, c: string, cb: Callback): (r: map<string, seq<Callback>>)
    ensures r.Keys == m.Keys + {c}
    ensures forall x :: x in r[c] <==> x in SubscribersOf(m, c) || x == cb
    ensures forall k :: k in m && k != c ==> r[k] == m[k]
    ensures NoDuplicates(SubscribersOf(m, c)) ==> NoDuplicates(r[c])
    // a new callback goes last; a present one keeps its place
    ensures cb !in SubscribersOf(m, c) ==> r[c] == SubscribersOf(m, c) + [cb]
    ensures cb in SubscribersOf(m, c) ==> r[c] == SubscribersOf(m, c)
  {
    var current := SubscribersOf(m, c);
    m[c := if cb in current then current else current + [cb]]
  }

  /** `unsubscribe`'s update: `cb` leaves `c`'s set if `c` has one; nothing
      else changes, and an emptied set stays in the map. */
  function RemoveSubscriber(m: map<string, seq<Callback>>, c: string, cb: Callback): (r: map<string, seq<Callback>>)
    ensures r.Keys == m.Keys
    ensures c in m ==> forall x :: x in r[c] <==> x in m[c] && x != cb
    // the remaining callbacks keep their order
    ensures c in m ==> r[c] == RemoveAll(m[c], cb)
    ensures forall k :: k in m && k != c ==> r[k] == m[k]
    ensures c in m && NoDuplicates(m[c]) ==> NoDuplicates(r[c])
  {
    if c in m then m[c := RemoveAll(m[c], cb)] else m
  }

  /** The closure `subscribe` returns undoes the subscription exactly: the
      container's set is back to what it was (an empty set is left behind
      when the container had none). */
  lemma SubscribeThenUnsubscribe(m: map<string, seq<Callback>>, c: string, cb: Callback)
    requires cb !in SubscribersOf(m, c)
    ensures RemoveSubscriber(AddSubscriber(m, c, cb), c, cb) == m[c := SubscribersOf(m, c)]
    ensures c in m ==> RemoveSubscriber(AddSubscriber(m, c, cb), c, cb) == m
  {
    AppendThenRemoveAll(SubscribersOf(m, c), cb);
  }

  class PortalProvider {
    /** `containersRef`: the ids of mounted containers. */
    var containers: set<string>
    /** `portalsRef`, in insertion order. */
    var portals: seq<PortalEntry>
    /** `subscribersRef`: per container id, its callbacks in insertion order. */
    var subscribers: map<string, seq<Callback>>
    /** Every subscriber call made so far, oldest first. */
    var deliveries: seq<Delivery>

    /** The structure of the three maps: keys and set members are unique. */
    ghost predicate Valid()
      reads this
    {
      UniqueIds(portals) && forall c :: c in subscribers ==> NoDuplicates(subscribers[c])
    }

    constructor ()
      ensures Valid()
      ensures containers == {} && portals == [] && subscribers == map[] && deliveries == []
    {
      containers := {};
      portals := [];
      subscribers := map[];
      deliveries := [];
    }

    /** `notifySubscribers`: each callback of the container, in order, is
        handed the portals that belong to that container. */
    method NotifySubscribers(containerId: string)
      modifies this
      ensures containers == old(containers) && portals == old(portals) && subscribers == old(subscribers)
      ensures deliveries == old(deliveries) + Broadcast(SubscribersOf(subscribers, containerId), InContainer(portals, containerId))
    {
      var callbacks := SubscribersOf(subscribers, containerId);
      var i := 0;
      while i < |callbacks|
        invariant 0 <= i <= |callbacks|
        invariant containers == old(containers) && portals == old(portals) && subscribers == old(subscribers)
        invariant deliveries == old(deliveries) + Broadcast(callbacks[..i], InContainer(portals, containerId))
      {
        deliveries := deliveries + [Delivery(callbacks[i], InContainer(portals, containerId))];
        i := i + 1;
      }
      assert callbacks[..i] == callbacks;
    }

    /** `addContainer`: an id already mounted is an error and changes nothing. */
    method AddContainer(id: string) returns (r: Outcome<string>)
      modifies this
      ensures id in old(containers) <==> r.Fail?
      ensures r.Fail? ==> r.error == "Container with id '" + id + "' already exists." && containers == old(containers)
      ensures r.Pass? ==> containers == old(containers) + {id}
      ensures portals == old(portals) && subscribers == old(subscribers) && deliveries == old(deliveries)
    {
      if id in containers {
        r := Fail("Container with id '" + id + "' already exists.");
      } else {
        containers := containers + {id};
        r := Pass;
      }
    }

    /** `removeContainer`: unknown ids are ignored; the container's portals
        and subscribers stay registered. */
    method RemoveContainer(id: string)
      modifies this
      ensures containers == old(containers) - {id}
      ensures portals == old(portals) && subscribers == old(subscribers) && deliveries == old(deliveries)
    {
      if id !in containers {
        return;
      }
      containers := containers - {id};
    }

    /** `addPortal`: the portal's container must be mounted; the portal is
        stored under its id and the container's subscribers are notified. */
    method AddPortal(p: PortalEntry) returns (r: Outcome<string>)
      requires Valid()
      modifies this
      ensures Valid()
      ensures p.containerId in old(containers) <==> r.Pass?
      ensures r.Fail? ==> r.error == "Container with id '" + p.containerId + "' does not exist."
      ensures r.Fail? ==> portals == old(portals) && deliveries == old(deliveries)
      ensures r.Pass? ==> portals == Put(old(portals), p)
      ensures r.Pass? ==> deliveries == old(deliveries) + Broadcast(SubscribersOf(subscribers, p.containerId), InContainer(portals, p.containerId))
      ensures containers == old(containers) && subscribers == old(subscribers)
    {
      if p.containerId in containers {
        PutKeepsIdsUnique(portals, p);
        portals := Put(portals, p);
        NotifySubscribers(p.containerId);
        r := Pass;
      } else {
        r := Fail("Container with id '" + p.containerId + "' does not exist.");
      }
    }

    /** `removePortal`: only while the named container is mounted is the
        portal deleted and the container notified; otherwise a warning (whose
        text names the portal id as a container id) is all that happens. */
    method RemovePortal(id: string, containerId: string) returns (warning: Option<string>)
      requires Valid()
      modifies this
      ensures Valid()
      ensures containerId in old(containers) <==> warning.None?
      ensures warning.Some? ==> warning.value == "Attempted to remove portal with containerId '" + id + "', but it does not exist."
      ensures warning.Some? ==> portals == old(portals) && deliveries == old(deliveries)
      ensures warning.None? ==> portals == Delete(old(portals), id)
      ensures warning.None? ==> deliveries == old(deliveries) + Broadcast(SubscribersOf(subscribers, containerId), InContainer(portals, containerId))
      ensures containers == old(containers) && subscribers == old(subscribers)
    {
      if containerId in containers {
        DeleteKeepsIdsUnique(portals, id);
        portals := Delete(portals, id);
        NotifySubscribers(containerId);
        warning := None;
      } else {
        warning := Some("Attempted to remove portal with containerId '" + id + "', but it does not exist.");
      }
    }

    /** `subscribe`: `callback` joins the container's set; the returned
        handle unsubscribes it. */
    method Subscribe(containerId: string, callback: Callback) returns (handle: Subscription)
      requires Valid()
      modifies this
      ensures Valid()
      ensures subscribers == AddSubscriber(old(subscribers), containerId, callback)
      ensures handle == Subscription(containerId, callback)
      ensures containers == old(containers) && portals == old(portals) && deliveries == old(deliveries)
    {
      subscribers := AddSubscriber(subscribers, containerId, callback);
      handle := Subscription(containerId, callback);
    }

    /** `unsubscribe`, as called by the handle `subscribe` returned. */
    method Unsubscribe(handle: Subscription)
      requires Valid()
      modifies this
      ensures Valid()
      ensures subscribers == RemoveSubscriber(old(subscribers), handle.containerId, handle.callback)
      ensures containers == old(containers) && portals == old(portals) && deliveries == old(deliveries)
    {
      subscribers := RemoveSubscriber(subscribers, handle.containerId, handle.callback);
    }
  }
}
