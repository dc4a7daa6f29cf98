/**
  The in-memory log: one bounded buffer per service, and `tail` across services
  (crates/vigild/src/logs/store.rs).

  The class is the program's form. The functions beside it say what the store holds after any history of pushes
  and what a tail returns from it.
  */
module LogStore {
  import opened Prelude

  datatype Entry = Entry(service: string, timestamp: int, line: string)

  type Contents = map<string, seq<Entry>>

  /** The last `n` elements, or all of them if there are fewer. */
  function Last<T>(s: seq<T>, n: nat): seq<T> {
    if |s| > n then s[|s| - n..] else s
  }

  /** How many lines a buffer really holds: one even with a capacity of 0. */
  function Kept(capacity: nat): (k: nat)
    ensures k > 0
  {
    if capacity == 0 then 1 else capacity
  }

  function Of(history: seq<Entry>, service: string): seq<Entry> {
    Filter(history, (e: Entry) => e.service == service)
  }

  predicate Asked(services: seq<string>, name: string) {
    services == [] || name in services
  }

  /** One push: the entry goes into the buffer of its service, which is made when there is none. */
  function AfterPush(store: Contents, capacity: nat, e: Entry): Contents {
    store[e.service := Last((if e.service in store then store[e.service] else []) + [e], Kept(capacity))]
  }

  function PushAll(capacity: nat, history: seq<Entry>): Contents {
    if history == [] then map[]
    else AfterPush(PushAll(capacity, history[..|history| - 1]), capacity, history[|history| - 1])
  }

  // ---------------------------------------------------------------------
  // Sorting by time
  // ---------------------------------------------------------------------

  /** Entries of equal time stay in the order they came in. */
  function InsertByTime(s: seq<Entry>, e: Entry): (r: seq<Entry>)
    ensures forall x :: x in r <==> x in s || x == e
    ensures |r| == |s| + 1
  {
    if s == [] || s[|s| - 1].timestamp <= e.timestamp then s + [e]
    else
      assert s == s[..|s| - 1] + [s[|s| - 1]];
      InsertByTime(s[..|s| - 1], e) + [s[|s| - 1]]
  }

  function SortByTime(s: seq<Entry>): (r: seq<Entry>)
    ensures forall x :: x in r <==> x in s
    ensures |r| == |s|
  {
    if s == [] then []
    else
      assert s == s[..|s| - 1] + [s[|s| - 1]];
      InsertByTime(SortByTime(s[..|s| - 1]), s[|s| - 1])
  }

  /** What the buffers hold for the services asked for, buffer by buffer. */
  function Collect(store: Contents, order: seq<string>, services: seq<string>): seq<Entry> {
    if order == [] then []
    else
      var name := order[|order| - 1];
      Collect(store, order[..|order| - 1], services)
      + if Asked(services, name) && name in store then store[name] else []
  }

  lemma CollectNothing(store: Contents, services: seq<string>)
    ensures Collect(store, [], services) == []
  {
  }

  lemma CollectOneMore(store: Contents, order: seq<string>, name: string, services: seq<string>)
    requires name in store
    ensures Collect(store, order + [name], services)
            == if Asked(services, name) then Collect(store, order, services) + store[name]
               else Collect(store, order, services)
  {
    assert (order + [name])[..|order|] == order;
  }

  /** `tail` when the map of buffers is walked in this order. */
  function TailIn(store: Contents, order: seq<string>, services: seq<string>, n: nat): seq<Entry> {
    Last(SortByTime(Collect(store, order, services)), n)
  }

  /** `order` lists every buffer once. */
  ghost predicate IsOrderOf(order: seq<string>, store: Contents) {
    Distinct(order) && forall name :: name in order <==> name in store
  }

  // ---------------------------------------------------------------------
  // The program's form
  // ---------------------------------------------------------------------

  class Buffer {
    const capacity: nat
    var entries: seq<Entry>

    ghost predicate Valid()
      reads this
    {
      |entries| <= Kept(capacity)
    }

    constructor (capacity: nat)
      ensures Valid() && this.capacity == capacity && entries == []
    {
      this.capacity, entries := capacity, [];
    }

    method Push(e: Entry)
      requires Valid()
      modifies this
      ensures Valid()
      ensures entries == Last(old(entries) + [e], if capacity == 0 then 1 else capacity)
    {
      if |entries| >= capacity {
        PopFront();
      }
      entries := entries + [e];
    }

    method PopFront()
      modifies this
      ensures entries == if old(entries) == [] then [] else old(entries)[1..]
    {
      if entries != [] {
        entries := entries[1..];
      }
    }
  }

  class Store {
    const capacity: nat
    var buffers: map<string, Buffer>
    var published: seq<Entry>
    /** Everything ever pushed. */
    ghost var history: seq<Entry>

    ghost function Repr(): set<object>
      reads this
    {
      {this} + set name | name in buffers :: buffers[name]
    }

    /** Each service has a buffer of its own. */
    ghost predicate Separate()
      reads this, Repr()
    {
      && (forall a :: a in buffers ==> buffers[a].Valid() && buffers[a].capacity == capacity)
      && forall a, b :: a in buffers && b in buffers && a != b ==> buffers[a] != buffers[b]
    }

    ghost predicate Valid()
      reads this, Repr()
    {
      Separate() && View() == PushAll(capacity, history)
    }

    ghost function View(): Contents
      reads this, Repr()
    {
      map name | name in buffers :: buffers[name].entries
    }

    constructor (capacity: nat)
      ensures Valid() && this.capacity == capacity && history == [] && published == []
    {
      this.capacity, buffers, published, history := capacity, map[], [], [];
    }

    method BufferFor(service: string) returns (b: Buffer)
      requires Separate()
      modifies this`buffers
      ensures Separate() && service in buffers && buffers[service] == b
      ensures service in old(buffers) ==> buffers == old(buffers)
      ensures service !in old(buffers) ==> fresh(b) && b.entries == [] && buffers == old(buffers)[service := b]
      ensures View() == if service in old(buffers) then old(View()) else old(View())[service := []]
    {
      if service in buffers {
        return buffers[service];
      }
      b := new Buffer(capacity);
      buffers := buffers[service := b];
    }

    method PushTo(b: Buffer, e: Entry)
      requires Separate() && e.service in buffers && buffers[e.service] == b
      modifies b
      ensures Separate() && buffers == old(buffers)
      ensures View() == old(View())[e.service := Last(old(b.entries) + [e], Kept(capacity))]
    {
      hide Last, Buffer.Valid;
      assert b.Valid();
      b.Push(e);
      assert forall a :: a in buffers && a != e.service ==> buffers[a] != b;
    }

    method Keep(e: Entry)
      requires Separate()
      modifies Repr()
      ensures Separate() && fresh(Repr() - old(Repr()))
      ensures View() == AfterPush(old(View()), capacity, e)
      ensures history == old(history) && published == old(published)
    {
      hide PushAll, Last, Kept, Separate;
      var b := BufferFor(e.service);
      PushTo(b, e);
    }

    method Push(e: Entry)
      requires Valid()
      modifies Repr()
      ensures Valid() && fresh(Repr() - old(Repr()))
      ensures history == old(history) + [e]
      ensures published == old(published) + [e]
    {
      hide AfterPush;
      Keep(e);
      published := published + [e];
      history := history + [e];
      assert history[..|history| - 1] == old(history);
    }

    /** The map of buffers is walked in some order. */
    method Tail(services: seq<string>, n: nat) returns (r: seq<Entry>)
      requires Valid()
      ensures exists order :: IsOrderOf(order, PushAll(capacity, history))
                              && r == TailIn(PushAll(capacity, history), order, services, n)
    {
      hide PushAll, Collect;
      ghost var store := View();
      ghost var order: seq<string> := [];
      var all: seq<Entry> := [];
      var left := buffers.Keys;
      CollectNothing(store, services);
      while left != {}
        invariant left <= buffers.Keys
        invariant forall name :: name in order <==> name in buffers && name !in left
        invariant Distinct(order)
        invariant all == Collect(store, order, services)
        decreases |left|
      {
        var name :| name in left;
        CollectOneMore(store, order, name, services);
        if services == [] || name in services {
          all := all + buffers[name].entries;
        }
        order := order + [name];
        left := left - {name};
      }
      all := SortByTime(all);
      r := if |all| > n then all[|all| - n..] else all;
      assert IsOrderOf(order, store) && r == TailIn(store, order, services, n);
    }
  }
}
