/**
 The hand-written linked list of event handlers
 (frameworks/jskitsimpl/src/adaptor/js_watcher.cpp, class `EventListener`).

 The heap list is proved to behave as an ordered set: see `Sequences` for the meaning of
 `AddFront` and `Without`.
 */
module EventListeners {
  import opened Types
  import opened Sequences

  class EventHandler {
    const callbackRef: Callback
    var next: EventHandler?

    constructor (callbackRef: Callback, next: EventHandler?)
      ensures this.callbackRef == callbackRef && this.next == next
    {
      this.callbackRef := callbackRef;
      this.next := next;
    }
  }

  class EventListener {
    var handlers: EventHandler?
    ghost var nodes: seq<EventHandler>
    ghost var contents: seq<Callback>

    ghost function Repr(): set<EventHandler>
      reads this
    {
      set n | n in nodes
    }

    /** The nodes reached from `handlers` are exactly `nodes`, without cycles, and carry `contents`. */
    ghost predicate Valid()
      reads this, Repr()
    {
      && Linked(handlers, nodes)
      && NoDup(nodes)
      && contents == CallbacksOf(nodes)
    }

    static ghost predicate Linked(first: EventHandler?, nodes: seq<EventHandler>)
      reads nodes
    {
      && first == NodeAt(nodes, 0)
      && forall i {:trigger nodes[i].next} | 0 <= i < |nodes| :: nodes[i].next == NodeAt(nodes, i + 1)
    }

    static ghost function NodeAt(nodes: seq<EventHandler>, i: nat): EventHandler? {
      if i < |nodes| then nodes[i] else null
    }

    constructor ()
      ensures Valid() && contents == [] && nodes == []
    {
      handlers := null;
      nodes, contents := [], [];
    }

    /** The last node that holds `handler` (its position is `at`), or null. */
    method Find(handler: Callback) returns (result: EventHandler?, ghost at: nat)
      requires Valid()
      ensures result == null <==> handler !in contents
      ensures result != null ==> at < |nodes| && nodes[at] == result && contents[at] == handler
      ensures result != null ==> handler !in contents[at + 1..]
    {
      result, at := null, 0;
      var i := handlers;
      ghost var k := 0;
      while i != null
        invariant k <= |nodes| && i == NodeAt(nodes, k)
        invariant result == null ==> forall j | 0 <= j < k :: contents[j] != handler
        invariant result != null ==> at < k && nodes[at] == result && contents[at] == handler
        invariant result != null ==> forall j | at < j < k :: contents[j] != handler
        decreases |nodes| - k
      {
        if i.callbackRef == handler {
          result, at := i, k;
        }
        i := i.next;
        k := k + 1;
      }
    }

    /** A new handler goes to the front; one that is already there is refused. */
    method Add(handler: Callback) returns (added: bool)
      requires Valid()
      modifies this
      ensures Valid() && fresh(Repr() - old(Repr()))
      ensures contents == AddFront(old(contents), handler)
      ensures added <==> handler !in old(contents)
    {
      var found, _ := Find(handler);
      if found != null {
        return false;
      }
      var temp := new EventHandler(handler, handlers);
      handlers := temp;
      nodes := [temp] + nodes;
      contents := [handler] + contents;
      return true;
    }

    /** Unlinks every node that holds `handler`, wherever it is, and reports whether the list is now empty. */
    method Del(handler: Callback) returns (isEmpty: bool)
      requires Valid()
      modifies this, Repr()
      ensures Valid() && Repr() <= old(Repr())
      ensures contents == Without(old(contents), handler)
      ensures isEmpty <==> contents == []
    {
      var temp: EventHandler? := null;
      var i := handlers;
      ghost var was, kept, k := nodes, [], 0;
      while i != null
        invariant nodes == was && contents == old(contents) && k <= |was| && i == NodeAt(was, k)
        invariant forall j {:trigger was[j].next} | k <= j < |was| :: was[j].next == NodeAt(was, j + 1)
        invariant kept == Survivors(was[..k], handler)
        invariant forall j {:trigger kept[j].next} | 0 <= j < |kept| - 1 :: kept[j].next == kept[j + 1]
        invariant temp == if kept == [] then null else kept[|kept| - 1]
        invariant if kept == [] then handlers == i else handlers == kept[0] && temp.next == i
        decreases |was| - k
      {
        assert Survivors(was[..k + 1], handler) == kept + if i.callbackRef == handler then [] else [i] by {
          SurvivorsStep(was, handler, k);
        }
        if i.callbackRef == handler {
          var delData := i;
          i := i.next;
          if temp == null {
            handlers := delData.next;
          } else {
            assert temp in Repr()
                && (forall j | k <= j < |was| :: was[j] != temp)
                && (forall j | 0 <= j < |kept| - 1 :: kept[j] != temp) by {
              SurvivorsStep(was, handler, k);
            }
            temp.next := delData.next;
          }
        } else {
          temp := i;
          i := i.next;
          kept := kept + [temp];
        }
        k := k + 1;
      }
      assert kept == Survivors(was, handler) by {
        assert was[..k] == was;
      }
      SurvivorsAll(was, handler);
      nodes, contents := kept, Without(contents, handler);
      isEmpty := handlers == null;
    }

    /** Frees the whole list. */
    method Clear()
      requires Valid()
      modifies this
      ensures Valid() && contents == [] && nodes == []
    {
      var i := handlers;
      while i != null
        invariant Valid() && i == handlers
        decreases |nodes|
      {
        handlers := i.next;
        nodes, contents := nodes[1..], contents[1..];
        i := handlers;
      }
    }
  }

  ghost function CallbacksOf(nodes: seq<EventHandler>): seq<Callback> {
    seq(|nodes|, i requires 0 <= i < |nodes| => nodes[i].callbackRef)
  }

  /** The nodes that `Del` leaves in the list. */
  ghost function Survivors(nodes: seq<EventHandler>, handler: Callback): seq<EventHandler> {
    if nodes == [] then [] else
    (if nodes[0].callbackRef == handler then [] else [nodes[0]]) + Survivors(nodes[1..], handler)
  }

  lemma {:induction false} SurvivorsAll(nodes: seq<EventHandler>, handler: Callback)
    requires NoDup(nodes)
    ensures var kept := Survivors(nodes, handler);
            && NoDup(kept) && (forall n | n in kept :: n in nodes)
            && CallbacksOf(kept) == Without(CallbacksOf(nodes), handler)
  {
    if nodes != [] {
      SurvivorsAll(nodes[1..], handler);
      assert nodes[0] !in nodes[1..];
      assert CallbacksOf(nodes)[1..] == CallbacksOf(nodes[1..]);
    }
  }

  lemma {:induction false} SurvivorsSnoc(nodes: seq<EventHandler>, n: EventHandler, handler: Callback)
    ensures Survivors(nodes + [n], handler) ==
            Survivors(nodes, handler) + if n.callbackRef == handler then [] else [n]
  {
    if nodes == [] {
      assert nodes + [n] == [n];
    } else {
      assert (nodes + [n])[0] == nodes[0] && (nodes + [n])[1..] == nodes[1..] + [n];
      SurvivorsSnoc(nodes[1..], n, handler);
    }
  }

  /** The survivors before position `k` are distinct, and none of them is met again. */
  lemma SurvivorsStep(nodes: seq<EventHandler>, handler: Callback, k: nat)
    requires NoDup(nodes) && k < |nodes|
    ensures var kept := Survivors(nodes[..k], handler);
            && NoDup(kept) && (forall i | 0 <= i < |kept| :: kept[i] in nodes[..k])
            && (forall j | k <= j < |nodes| :: nodes[j] !in kept)
            && Survivors(nodes[..k + 1], handler) == kept + if nodes[k].callbackRef == handler then [] else [nodes[k]]
  {
    SurvivorsAll(nodes[..k], handler);
    forall j | k <= j < |nodes| ensures nodes[j] !in Survivors(nodes[..k], handler) {
      assert nodes[j] !in nodes[..k];
    }
    assert nodes[..k + 1] == nodes[..k] + [nodes[k]];
    SurvivorsSnoc(nodes[..k], nodes[k], handler);
  }
}
