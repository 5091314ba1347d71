/**
 The cache from network ids to device ids (udids) and the search for the network id of a udid
 (frameworks/innerkitsimpl/src/communicator/softbus_adapter_standard.cpp).

 `udidOf` is the answer of the soft bus for a network id; the list of online nodes is an argument. A
 search has two critical sections, and other calls may come between them. An answer of `[]` is the
 empty string: not found.
 */
module NodeCaches {
  import opened Types

  type NodeId = Text
  type Udid = Text
  type Cache = map<NodeId, Udid>
  type CallId = nat

  datatype DeviceChange = DEVICE_OFFLINE | DEVICE_ONLINE | OTHER_CHANGE

  ghost predicate Agree(cache: Cache, udidOf: NodeId -> Udid) {
    forall n | n in cache :: cache[n] == udidOf(n)
  }

  predicate Cached(cache: Cache, udid: Udid) {
    exists n :: n in cache && cache[n] == udid
  }

  /** An online node is inserted only if it is absent. */
  function Changed(cache: Cache, node: NodeId, change: DeviceChange, udidOf: NodeId -> Udid): Cache {
    match change
    case DEVICE_OFFLINE => cache - {node}
    case DEVICE_ONLINE => if node in cache then cache else cache[node := udidOf(node)]
    case OTHER_CHANGE => cache
  }

  /** The cache after the listed nodes have been looked at, and the last new one with this udid. */
  function Scanned(cache: Cache, nodes: seq<NodeId>, udid: Udid, udidOf: NodeId -> Udid): (Cache, Option<NodeId>) {
    if nodes == [] then (cache, None) else
    var (before, found) := Scanned(cache, nodes[..|nodes| - 1], udid, udidOf);
    var node := nodes[|nodes| - 1];
    if node in before then (before, found)
    else (before[node := udidOf(node)], if udidOf(node) == udid then Some(node) else found)
  }

  function Answer(found: Option<NodeId>): NodeId {
    if found.Some? then found.value else []
  }

  /** A listed node with this udid that the cache does not hold. */
  predicate NewMatch(cache: Cache, nodes: seq<NodeId>, udid: Udid, udidOf: NodeId -> Udid, n: NodeId) {
    n in nodes && n !in cache && udidOf(n) == udid
  }

  // ---- One scan ----

  /** Exactly the listed nodes are added, existing entries are never altered, and the cache stays true. */
  lemma {:induction false} ScanKeeps(cache: Cache, nodes: seq<NodeId>, udid: Udid, udidOf: NodeId -> Udid)
    ensures var cache' := Scanned(cache, nodes, udid, udidOf).0;
            && (forall n :: n in cache' <==> n in cache || n in nodes)
            && (forall n | n in cache' :: cache'[n] == if n in cache then cache[n] else udidOf(n))
  {
    if nodes != [] {
      ScanKeeps(cache, nodes[..|nodes| - 1], udid, udidOf);
      assert nodes == nodes[..|nodes| - 1] + [nodes[|nodes| - 1]];
    }
  }

  /** A scan finds a node if and only if the list has a new one with this udid; what it finds is one. */
  lemma {:induction false} ScanFinds(cache: Cache, nodes: seq<NodeId>, udid: Udid, udidOf: NodeId -> Udid)
    ensures var found := Scanned(cache, nodes, udid, udidOf).1;
            && (found.Some? ==> NewMatch(cache, nodes, udid, udidOf, found.value))
            && (found.Some? <==> exists n :: NewMatch(cache, nodes, udid, udidOf, n))
  {
    if nodes != [] {
      var front, last := nodes[..|nodes| - 1], nodes[|nodes| - 1];
      ScanFinds(cache, front, udid, udidOf);
      ScanKeeps(cache, front, udid, udidOf);
      assert nodes == front + [last];
      forall n | NewMatch(cache, nodes, udid, udidOf, n) ensures n == last || NewMatch(cache, front, udid, udidOf, n) {
      }
      forall n | NewMatch(cache, front, udid, udidOf, n) ensures NewMatch(cache, nodes, udid, udidOf, n) {
      }
      if last !in cache && last in front && udidOf(last) == udid {
        assert NewMatch(cache, front, udid, udidOf, last);
      }
      if last !in cache && udidOf(last) == udid {
        assert NewMatch(cache, nodes, udid, udidOf, last);
      }
    }
  }

  /** The i-th listed node is looked at for the first time, and the cache does not hold it. */
  predicate NewAt(cache: Cache, nodes: seq<NodeId>, i: nat)
    requires i < |nodes|
  {
    nodes[i] !in cache && nodes[i] !in nodes[..i]
  }

  /** Among several new nodes with the udid the last one is found. */
  lemma {:induction false} ScanFindsLast(cache: Cache, nodes: seq<NodeId>, udid: Udid, udidOf: NodeId -> Udid)
      returns (i: nat)
    requires Scanned(cache, nodes, udid, udidOf).1.Some?
    ensures i < |nodes| && NewAt(cache, nodes, i) && nodes[i] == Scanned(cache, nodes, udid, udidOf).1.value
    ensures forall j | i < j < |nodes| && NewAt(cache, nodes, j) :: udidOf(nodes[j]) != udid
  {
    var n := |nodes| - 1;
    ScanKeeps(cache, nodes[..n], udid, udidOf);
    assert nodes == nodes[..n] + [nodes[n]];
    if NewAt(cache, nodes, n) && udidOf(nodes[n]) == udid {
      i := n;
    } else {
      i := ScanFindsLast(cache, nodes[..n], udid, udidOf);
      assert forall j | 0 <= j < n :: nodes[..n][..j] == nodes[..j];
    }
  }

  class SoftBusNodes {
    const udidOf: NodeId -> Udid
    var networkId2Udid: Cache

    constructor (udidOf: NodeId -> Udid)
      ensures this.udidOf == udidOf && networkId2Udid == map[]
    {
      this.udidOf := udidOf;
      networkId2Udid := map[];
    }

    method UpdateRelationship(node: NodeId, change: DeviceChange)
      modifies this
      ensures networkId2Udid == Changed(old(networkId2Udid), node, change, udidOf)
    {
      var udid := udidOf(node);
      match change
      case DEVICE_OFFLINE => networkId2Udid := networkId2Udid - {node};
      case DEVICE_ONLINE =>
        if node !in networkId2Udid {
          networkId2Udid := networkId2Udid[node := udid];
        }
      case OTHER_CHANGE =>
    }

    /** The first critical section of `ToNodeID`. */
    method Search(udid: Udid) returns (found: Option<NodeId>)
      ensures found.Some? <==> Cached(networkId2Udid, udid)
      ensures found.Some? ==> found.value in networkId2Udid && networkId2Udid[found.value] == udid
    {
      var todo := networkId2Udid.Keys;
      while todo != {}
        invariant todo <= networkId2Udid.Keys
        invariant forall n | n in networkId2Udid && n !in todo :: networkId2Udid[n] != udid
        decreases |todo|
      {
        var n :| n in todo;
        if networkId2Udid[n] == udid {
          return Some(n);
        }
        todo := todo - {n};
      }
      return None;
    }

    /** The second critical section of `ToNodeID`. */
    method Scan(nodes: seq<NodeId>, udid: Udid) returns (networkId: NodeId)
      modifies this
      ensures networkId2Udid == Scanned(old(networkId2Udid), nodes, udid, udidOf).0
      ensures networkId == Answer(Scanned(old(networkId2Udid), nodes, udid, udidOf).1)
    {
      networkId := [];
      for i := 0 to |nodes|
        invariant networkId2Udid == Scanned(old(networkId2Udid), nodes[..i], udid, udidOf).0
        invariant networkId == Answer(Scanned(old(networkId2Udid), nodes[..i], udid, udidOf).1)
      {
        assert nodes[..i + 1][..i] == nodes[..i];
        if nodes[i] in networkId2Udid {
          continue;
        }
        var nodeUdid := udidOf(nodes[i]);
        networkId2Udid := networkId2Udid[nodes[i] := nodeUdid];
        if nodeUdid == udid {
          networkId := nodes[i];
        }
      }
      assert nodes[..|nodes|] == nodes;
    }

    /** `listed` is None when the soft bus cannot list the nodes. Here nothing comes between the two parts. */
    method ToNodeID(udid: Udid, listed: Option<seq<NodeId>>) returns (networkId: NodeId)
      modifies this
      ensures Found(old(networkId2Udid), udid, listed, udidOf, networkId2Udid, networkId)
    {
      var found := Search(udid);
      if found.Some? {
        return found.value;
      }
      networkId := [];
      if listed.Some? {
        networkId := Scan(listed.value, udid);
      }
    }
  }

  // ---- One uninterrupted search ----

  /** What `ToNodeID` may answer; among several cached nodes with this udid it may pick any. */
  predicate Found(cache: Cache, udid: Udid, listed: Option<seq<NodeId>>, udidOf: NodeId -> Udid,
                  cache': Cache, answer: NodeId)
  {
    if Cached(cache, udid) then cache' == cache && answer in cache && cache[answer] == udid
    else if listed.None? then cache' == cache && answer == []
    else
      var (scanned, found) := Scanned(cache, listed.value, udid, udidOf);
      cache' == scanned && answer == Answer(found)
  }

  lemma SearchKeepsEntries(cache: Cache, udid: Udid, listed: Option<seq<NodeId>>, udidOf: NodeId -> Udid,
                           cache': Cache, answer: NodeId)
    requires Found(cache, udid, listed, udidOf, cache', answer)
    ensures forall n | n in cache :: n in cache' && cache'[n] == cache[n]
    ensures Agree(cache, udidOf) ==> Agree(cache', udidOf)
  {
    if listed.Some? {
      ScanKeeps(cache, listed.value, udid, udidOf);
    }
  }

  /**
   An uninterrupted search answers if and only if some cached or listed node has the udid, and then
   with such a node.
   */
  lemma SearchIsComplete(cache: Cache, udid: Udid, listed: Option<seq<NodeId>>, udidOf: NodeId -> Udid,
                         cache': Cache, answer: NodeId)
    requires Agree(cache, udidOf) && Found(cache, udid, listed, udidOf, cache', answer)
    requires [] !in cache && (listed.Some? ==> [] !in listed.value)
    ensures answer != [] <==>
              Cached(cache, udid) || (listed.Some? && exists n :: n in listed.value && udidOf(n) == udid)
    ensures answer != [] ==> answer in cache' && udidOf(answer) == udid
  {
    if !Cached(cache, udid) && listed.Some? {
      ScanKeeps(cache, listed.value, udid, udidOf);
      ScanFinds(cache, listed.value, udid, udidOf);
      assert forall n | n in cache :: udidOf(n) != udid;
      forall n | n in listed.value && udidOf(n) == udid ensures NewMatch(cache, listed.value, udid, udidOf, n) {
      }
    }
  }

  /**
   Asking again gives the same answer and leaves the cache alone: a found node if the udid is cached for
   one node only, none if the same nodes are listed.
   */
  lemma AskAgain(cache: Cache, udid: Udid, listed: Option<seq<NodeId>>, udidOf: NodeId -> Udid,
                 cache': Cache, answer: NodeId, listed': Option<seq<NodeId>>, cache'': Cache, answer': NodeId)
    requires Agree(cache, udidOf) && Found(cache, udid, listed, udidOf, cache', answer)
    requires Found(cache', udid, listed', udidOf, cache'', answer')
    requires answer == [] ==> listed' == listed && [] !in cache && (listed.Some? ==> [] !in listed.value)
    requires answer != [] ==> forall m, n | m in cache' && n in cache' && cache'[m] == cache'[n] :: m == n
    ensures cache'' == cache' && answer' == answer
  {
    if !Cached(cache, udid) && listed.Some? {
      ScanKeeps(cache, listed.value, udid, udidOf);
      ScanFinds(cache, listed.value, udid, udidOf);
      if answer == [] {
        SearchIsComplete(cache, udid, listed, udidOf, cache', answer);
        ScanKeeps(cache', listed.value, udid, udidOf);
        ScanFinds(cache', listed.value, udid, udidOf);
      }
    }
    assert answer != [] ==> answer in cache' && cache'[answer] == udid;
  }

  // ---- Interleaved runs ----

  /** `searching` are the calls between their two critical sections; `answers` are the calls that returned. */
  datatype World = World(cache: Cache, searching: map<CallId, Udid>, answers: map<CallId, (Udid, NodeId)>)

  datatype Event =
    | DeviceChanged(node: NodeId, change: DeviceChange)
    | Searches(c: CallId, udid: Udid, hit: Option<NodeId>)
    | Scans(c: CallId, listed: Option<seq<NodeId>>)

  predicate Enabled(w: World, event: Event) {
    match event
    case DeviceChanged(_, _) => true
    case Searches(c, udid, hit) =>
      && c !in w.searching && c !in w.answers
      && (if hit.None? then !Cached(w.cache, udid) else hit.value in w.cache && w.cache[hit.value] == udid)
    case Scans(c, _) => c in w.searching
  }

  function Next(w: World, event: Event, udidOf: NodeId -> Udid): World {
    match event
    case DeviceChanged(node, change) => w.(cache := Changed(w.cache, node, change, udidOf))
    case Searches(c, udid, hit) =>
      if hit.Some? then w.(answers := w.answers[c := (udid, hit.value)])
      else w.(searching := w.searching[c := udid])
    case Scans(c, listed) =>
      if c !in w.searching then w else
      var udid := w.searching[c];
      var (cache', found) := if listed.None? then (w.cache, None) else Scanned(w.cache, listed.value, udid, udidOf);
      World(cache', w.searching - {c}, w.answers[c := (udid, Answer(found))])
  }

  function Run(w: World, events: seq<Event>, udidOf: NodeId -> Udid): World {
    if events == [] then w else Next(Run(w, events[..|events| - 1], udidOf), events[|events| - 1], udidOf)
  }

  ghost predicate Possible(w: World, events: seq<Event>, udidOf: NodeId -> Udid) {
    forall i | 0 <= i < |events| :: Enabled(Run(w, events[..i], udidOf), events[i])
  }

  /** The cache is true, and so is every answer but the empty one. */
  ghost predicate Inv(w: World, udidOf: NodeId -> Udid) {
    && Agree(w.cache, udidOf)
    && forall c | c in w.answers :: w.answers[c].1 != [] ==> udidOf(w.answers[c].1) == w.answers[c].0
  }

  lemma StepInv(w: World, event: Event, udidOf: NodeId -> Udid)
    requires Inv(w, udidOf) && Enabled(w, event)
    ensures Inv(Next(w, event, udidOf), udidOf)
  {
    if event.Scans? && event.listed.Some? {
      ScanKeeps(w.cache, event.listed.value, w.searching[event.c], udidOf);
      ScanFinds(w.cache, event.listed.value, w.searching[event.c], udidOf);
    }
  }

  lemma {:induction false} RunInv(w: World, events: seq<Event>, udidOf: NodeId -> Udid)
    requires Inv(w, udidOf) && Possible(w, events, udidOf)
    ensures Inv(Run(w, events, udidOf), udidOf)
  {
    if events != [] {
      var front := events[..|events| - 1];
      PossibleFront(w, events, udidOf);
      RunInv(w, front, udidOf);
      StepInv(Run(w, front, udidOf), events[|events| - 1], udidOf);
    }
  }

  /** What one event of the device listener does, and what it leaves alone. */
  lemma DeviceChangedExactly(w: World, n: NodeId, change: DeviceChange, udidOf: NodeId -> Udid, m: NodeId)
    ensures var cache := Next(w, DeviceChanged(n, change), udidOf).cache;
            && (change == DEVICE_OFFLINE ==> cache == w.cache - {n})
            && (change == DEVICE_ONLINE ==>
                && n in cache && cache[n] == (if n in w.cache then w.cache[n] else udidOf(n))
                && cache - {n} == w.cache - {n})
            && (change == OTHER_CHANGE ==> cache == w.cache)
  {
  }

  /** The history of a node: whether it has come online or been listed since it last went offline. */
  function Present(w: World, events: seq<Event>, n: NodeId, udidOf: NodeId -> Udid): bool {
    if events == [] then n in w.cache else
    var last := |events| - 1;
    var before := Present(w, events[..last], n, udidOf);
    match events[last]
    case DeviceChanged(node, change) =>
      if node != n then before else if change == DEVICE_OFFLINE then false else before || change == DEVICE_ONLINE
    case Searches(_, _, _) => before
    case Scans(_, listed) => before || (listed.Some? && n in listed.value)
  }

  /** After every run a node is cached exactly when its history says so, and under its own udid. */
  lemma {:induction false} CachedExactly(w: World, events: seq<Event>, udidOf: NodeId -> Udid, n: NodeId)
    requires Inv(w, udidOf) && Possible(w, events, udidOf)
    ensures n in Run(w, events, udidOf).cache <==> Present(w, events, n, udidOf)
    ensures n in Run(w, events, udidOf).cache ==> Run(w, events, udidOf).cache[n] == udidOf(n)
  {
    RunInv(w, events, udidOf);
    if events != [] {
      var before, event := Run(w, events[..|events| - 1], udidOf), events[|events| - 1];
      PossibleFront(w, events, udidOf);
      CachedExactly(w, events[..|events| - 1], udidOf, n);
      if event.Scans? && event.listed.Some? {
        ScanKeeps(before.cache, event.listed.value, before.searching[event.c], udidOf);
      }
    }
  }

  /** A node that has gone offline, and neither comes back nor is listed, is cached and answered no more. */
  lemma {:induction false} GoneStaysGone(w: World, events: seq<Event>, udidOf: NodeId -> Udid, n: NodeId)
    requires Possible(w, events, udidOf) && n != [] && n !in w.cache
    requires forall i | 0 <= i < |events| ::
               && events[i] != DeviceChanged(n, DEVICE_ONLINE)
               && !(events[i].Scans? && events[i].listed.Some? && n in events[i].listed.value)
    ensures n !in Run(w, events, udidOf).cache
    ensures forall c | c in Run(w, events, udidOf).answers && Run(w, events, udidOf).answers[c].1 == n ::
              c in w.answers && w.answers[c] == Run(w, events, udidOf).answers[c]
  {
    if events != [] {
      var before, event := Run(w, events[..|events| - 1], udidOf), events[|events| - 1];
      PossibleFront(w, events, udidOf);
      GoneStaysGone(w, events[..|events| - 1], udidOf, n);
      if event.Scans? && event.listed.Some? {
        ScanKeeps(before.cache, event.listed.value, before.searching[event.c], udidOf);
        ScanFinds(before.cache, event.listed.value, before.searching[event.c], udidOf);
      }
    }
  }

  /** Only the node's own going offline removes an entry; nothing changes it. */
  lemma {:induction false} EntryStays(w: World, events: seq<Event>, udidOf: NodeId -> Udid, n: NodeId)
    requires n in w.cache && DeviceChanged(n, DEVICE_OFFLINE) !in events
    ensures n in Run(w, events, udidOf).cache && Run(w, events, udidOf).cache[n] == w.cache[n]
  {
    if events != [] {
      var before, event := Run(w, events[..|events| - 1], udidOf), events[|events| - 1];
      EntryStays(w, events[..|events| - 1], udidOf, n);
      if event.Scans? && event.c in before.searching && event.listed.Some? {
        ScanKeeps(before.cache, event.listed.value, before.searching[event.c], udidOf);
      }
    }
  }

  /** A call that has missed the cache keeps looking for its udid until it scans. */
  lemma {:induction false} KeepsLooking(w: World, events: seq<Event>, udidOf: NodeId -> Udid, c: CallId, udid: Udid)
    requires Possible(w, events, udidOf) && c in w.searching && w.searching[c] == udid && c !in w.answers
    ensures var w' := Run(w, events, udidOf);
            if c in w'.answers then c !in w'.searching else c in w'.searching && w'.searching[c] == udid
  {
    if events != [] {
      var front := events[..|events| - 1];
      PossibleFront(w, events, udidOf);
      KeepsLooking(w, front, udidOf, c, udid);
    }
  }

  lemma PossibleFront(w: World, events: seq<Event>, udidOf: NodeId -> Udid)
    requires Possible(w, events, udidOf) && events != []
    ensures Possible(w, events[..|events| - 1], udidOf)
    ensures Enabled(Run(w, events[..|events| - 1], udidOf), events[|events| - 1])
  {
    var front := events[..|events| - 1];
    forall i | 0 <= i < |front| ensures Enabled(Run(w, front[..i], udidOf), front[i]) {
      assert front[..i] == events[..i];
    }
  }

  lemma MissesWhenCached(w: World, c: CallId, nodes: seq<NodeId>, udidOf: NodeId -> Udid)
    requires c in w.searching && [] !in nodes
    ensures var udid := w.searching[c];
            Next(w, Scans(c, Some(nodes)), udidOf).answers[c].1 == [] <==>
            forall n | n in nodes && udidOf(n) == udid :: n in w.cache
  {
    var udid := w.searching[c];
    ScanFinds(w.cache, nodes, udid, udidOf);
    if n :| n in nodes && udidOf(n) == udid && n !in w.cache {
      assert NewMatch(w.cache, nodes, udid, udidOf, n);
    }
  }

  /**
   With other calls between the two parts, a search comes back empty if and only if all listed nodes with
   the udid are in the cache when it scans; and every one of them came in after it had searched the cache.
   */
  lemma MissesExactlyWhenCached(w: World, c: CallId, udid: Udid, events: seq<Event>, nodes: seq<NodeId>,
                                udidOf: NodeId -> Udid)
    requires Inv(w, udidOf) && Enabled(w, Searches(c, udid, None)) && [] !in nodes
    requires Possible(Next(w, Searches(c, udid, None), udidOf), events, udidOf)
    requires c !in Run(Next(w, Searches(c, udid, None), udidOf), events, udidOf).answers
    ensures var later := Run(Next(w, Searches(c, udid, None), udidOf), events, udidOf);
            && c in later.searching
            && (Next(later, Scans(c, Some(nodes)), udidOf).answers[c] == (udid, []) <==>
                forall n | n in nodes && udidOf(n) == udid :: n in later.cache && n !in w.cache)
  {
    var searching := Next(w, Searches(c, udid, None), udidOf);
    var later := Run(searching, events, udidOf);
    KeepsLooking(searching, events, udidOf, c, udid);
    MissesWhenCached(later, c, nodes, udidOf);
    assert forall n | n in w.cache :: w.cache[n] == udidOf(n) && w.cache[n] != udid;
  }

  /** It happens: the node comes online between the two parts. */
  lemma OnlineBetweenIsMissed(n: NodeId, udidOf: NodeId -> Udid)
    requires n != []
    ensures var udid := udidOf(n);
            var events := [Searches(0, udid, None), DeviceChanged(n, DEVICE_ONLINE), Scans(0, Some([n]))];
            var start := World(map[], map[], map[]);
            && Possible(start, events, udidOf)
            && Run(start, events, udidOf).answers[0] == (udid, [])
            && Found(map[], udid, Some([n]), udidOf, map[n := udid], n)
  {
    var udid := udidOf(n);
    var events := [Searches(0, udid, None), DeviceChanged(n, DEVICE_ONLINE), Scans(0, Some([n]))];
    var start := World(map[], map[], map[]);
    var searching := start.(searching := map[0 := udid]);
    assert Run(start, events[..0], udidOf) == start;
    assert events[..1][..0] == events[..0] && Run(start, events[..1], udidOf) == searching;
    assert events[..2][..1] == events[..1] && Run(start, events[..2], udidOf) == searching.(cache := map[n := udid]);
    assert [n][..0] == [];
    assert Scanned(map[n := udid], [n], udid, udidOf) == (map[n := udid], None);
    assert events[..3] == events
        && Run(start, events, udidOf) == Next(Run(start, events[..2], udidOf), events[2], udidOf);
  }
}
