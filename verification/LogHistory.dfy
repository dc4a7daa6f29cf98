/** What the bounded log store answers, compared with the whole unbounded history. */
module LogHistory {
  import opened Prelude
  import opened LogStore

  /** The entries of the services asked for; to ask for none is to ask for all. */
  function Requested(history: seq<Entry>, services: seq<string>): seq<Entry> {
    if services == [] then history else Filter(history, (e: Entry) => e.service in services)
  }

  /** Entries were pushed in the order of their timestamps. */
  ghost predicate Increasing(s: seq<Entry>) {
    forall i, j :: 0 <= i < j < |s| ==> s[i].timestamp < s[j].timestamp
  }

  // ---------------------------------------------------------------------
  // Buffers hold the end of each service's history
  // ---------------------------------------------------------------------

  lemma LastOfLonger<T>(a: seq<T>, x: T, n: nat)
    requires n > 0
    ensures Last(Last(a, n) + [x], n) == Last(a + [x], n)
  {
  }

  lemma {:induction false} StoreHoldsTheEnd(capacity: nat, history: seq<Entry>)
    ensures forall name ::
              name in PushAll(capacity, history) <==> exists i :: 0 <= i < |history| && history[i].service == name
    ensures forall name :: name in PushAll(capacity, history) ==>
              PushAll(capacity, history)[name] == Last(Of(history, name), if capacity == 0 then 1 else capacity)
    decreases |history|
  {
    hide Last, Of;
    if history != [] {
      var front, e := history[..|history| - 1], history[|history| - 1];
      StoreHoldsTheEnd(capacity, front);
      assert history == front + [e];
      var store := PushAll(capacity, front);
      forall name | name in PushAll(capacity, history)
        ensures PushAll(capacity, history)[name] == Last(Of(history, name), Kept(capacity))
      {
        OfStep(front, e, name);
        if name == e.service {
          if name !in store {
            NothingOf(front, name);
          }
          LastOfLonger(Of(front, name), e, Kept(capacity));
        }
      }
      assert history[|history| - 1].service in PushAll(capacity, history);
    }
  }

  lemma OfStep(history: seq<Entry>, e: Entry, name: string)
    ensures Of(history + [e], name) == if e.service == name then Of(history, name) + [e] else Of(history, name)
  {
    FilterStep(history, e, (x: Entry) => x.service == name);
  }

  lemma {:induction false} NothingOf(history: seq<Entry>, name: string)
    requires forall i :: 0 <= i < |history| ==> history[i].service != name
    ensures Of(history, name) == [] && forall n: nat :: Last(Of(history, name), n) == []
    decreases |history|
  {
    if history != [] {
      var front, e := history[..|history| - 1], history[|history| - 1];
      assert history == front + [e];
      NothingOf(front, name);
      OfStep(front, e, name);
    }
  }

  // ---------------------------------------------------------------------
  // The entries that survive
  // ---------------------------------------------------------------------

  /** The entries with fewer than `keep` later ones of the same service, in the order of the history. */
  ghost function Survivors(history: seq<Entry>, keep: nat): seq<Entry> {
    if history == [] then []
    else (if |Of(history[1..], history[0].service)| < keep then [history[0]] else []) + Survivors(history[1..], keep)
  }

  lemma FilterFirst<T(!new)>(s: seq<T>, p: T -> bool)
    requires s != []
    ensures Filter(s, p) == (if p(s[0]) then [s[0]] else []) + Filter(s[1..], p)
  {
    assert s == [s[0]] + s[1..];
    FilterConcat([s[0]], s[1..], p);
    FilterStep([], s[0], p);
    assert [] + [s[0]] == [s[0]];
  }

  lemma {:induction false} SurvivorsOf(history: seq<Entry>, keep: nat, name: string)
    ensures Of(Survivors(history, keep), name) == Last(Of(history, name), keep)
    decreases |history|
  {
    hide Of, Last, Survivors;
    if history == [] {
      NothingOf(history, name);
      NoSurvivors(keep);
    } else {
      var rest := history[1..];
      SurvivorsOf(rest, keep, name);
      FirstSurvives(history, keep, name);
      OfFirst(history, name);
      LastOfLater(history[0], Of(rest, name), keep);
      assert [] + Of(rest, name) == Of(rest, name);
      assert [] + Of(Survivors(rest, keep), name) == Of(Survivors(rest, keep), name);
    }
  }

  lemma NoSurvivors(keep: nat)
    ensures Survivors([], keep) == []
  {
  }

  /** An earlier element changes the end of a sequence only if there is room for it. */
  lemma LastOfLater<T>(x: T, s: seq<T>, n: nat)
    ensures Last([x] + s, n) == (if |s| < n then [x] else []) + Last(s, n)
  {
  }

  lemma FirstSurvives(history: seq<Entry>, keep: nat, name: string)
    requires history != []
    ensures Of(Survivors(history, keep), name)
            == (if history[0].service == name && |Of(history[1..], name)| < keep then [history[0]] else [])
               + Of(Survivors(history[1..], keep), name)
  {
    var p := (e: Entry) => e.service == name;
    var rest := Survivors(history[1..], keep);
    FilterConcat([history[0]], rest, p);
    FilterStep([], history[0], p);
    assert [] + [history[0]] == [history[0]];
    assert [] + rest == rest;
  }

  lemma {:induction false} SurvivorsAmong(history: seq<Entry>, keep: nat)
    ensures forall e :: e in Survivors(history, keep) ==> e in history
    ensures |Survivors(history, keep)| <= |history|
    decreases |history|
  {
    if history != [] {
      SurvivorsAmong(history[1..], keep);
    }
  }

  lemma {:induction false} SurvivorsIncrease(history: seq<Entry>, keep: nat)
    requires Increasing(history)
    ensures Increasing(Survivors(history, keep))
    decreases |history|
  {
    if history != [] {
      var later := Survivors(history[1..], keep);
      SurvivorsIncrease(history[1..], keep);
      SurvivorsAmong(history[1..], keep);
      forall i | 0 <= i < |later| ensures history[0].timestamp < later[i].timestamp {
        assert later[i] in history[1..];
      }
    }
  }

  lemma {:induction false} FilterIncreases(s: seq<Entry>, p: Entry -> bool)
    requires Increasing(s)
    ensures Increasing(Filter(s, p))
    decreases |s|
  {
    if s != [] {
      var early := Filter(s[..|s| - 1], p);
      FilterIncreases(s[..|s| - 1], p);
      forall i | 0 <= i < |early| ensures early[i].timestamp < s[|s| - 1].timestamp {
        assert early[i] in s[..|s| - 1];
      }
    }
  }

  // ---------------------------------------------------------------------
  // Sorting puts the buffers back in order
  // ---------------------------------------------------------------------

  lemma {:induction false} InsertIncreases(s: seq<Entry>, e: Entry)
    requires Increasing(s) && forall x :: x in s ==> x.timestamp != e.timestamp
    ensures Increasing(InsertByTime(s, e))
    decreases |s|
  {
    if s != [] && s[|s| - 1].timestamp > e.timestamp {
      var front := s[..|s| - 1];
      InsertIncreases(front, e);
      assert forall x :: x in InsertByTime(front, e) ==> x.timestamp < s[|s| - 1].timestamp;
    }
  }

  ghost predicate DifferentTimes(s: seq<Entry>) {
    forall i, j :: 0 <= i < j < |s| ==> s[i].timestamp != s[j].timestamp
  }

  lemma {:induction false} SortIncreases(s: seq<Entry>)
    requires DifferentTimes(s)
    ensures Increasing(SortByTime(s))
    decreases |s|
  {
    if s != [] {
      SortIncreases(s[..|s| - 1]);
      InsertIncreases(SortByTime(s[..|s| - 1]), s[|s| - 1]);
    }
  }

  ghost predicate InTimeOrder(s: seq<Entry>) {
    forall i, j :: 0 <= i < j < |s| ==> s[i].timestamp <= s[j].timestamp
  }

  function AtTime(s: seq<Entry>, t: int): seq<Entry> {
    Filter(s, (e: Entry) => e.timestamp == t)
  }

  lemma AtTimeOneMore(s: seq<Entry>, e: Entry, t: int)
    ensures AtTime(s + [e], t) == if e.timestamp == t then AtTime(s, t) + [e] else AtTime(s, t)
  {
    FilterStep(s, e, (x: Entry) => x.timestamp == t);
  }

  lemma EndsLate(s: seq<Entry>, e: Entry)
    requires InTimeOrder(s) && forall x :: x in s ==> x.timestamp <= e.timestamp
    ensures InTimeOrder(s + [e])
  {
  }

  lemma {:induction false} InsertIsStable(s: seq<Entry>, e: Entry, t: int)
    requires InTimeOrder(s)
    ensures InTimeOrder(InsertByTime(s, e))
    ensures AtTime(InsertByTime(s, e), t) == AtTime(s + [e], t)
    decreases |s|
  {
    hide AtTime;
    if s == [] || s[|s| - 1].timestamp <= e.timestamp {
      EndsLate(s, e);
    } else {
      hide InTimeOrder;
      var front, last := s[..|s| - 1], s[|s| - 1];
      assert s == front + [last];
      ShorterInOrder(s);
      InsertIsStable(front, e, t);
      EndsLate(InsertByTime(front, e), last);
      AtTimeOneMore(InsertByTime(front, e), last, t);
      AtTimeOneMore(front, e, t);
      AtTimeOneMore(front, last, t);
      AtTimeOneMore(s, e, t);
    }
  }

  lemma ShorterInOrder(s: seq<Entry>)
    requires InTimeOrder(s) && s != []
    ensures InTimeOrder(s[..|s| - 1])
    ensures forall x :: x in s[..|s| - 1] ==> x.timestamp <= s[|s| - 1].timestamp
  {
  }

  /** Entries come out in the order of time, and those of one moment in the order they came in. */
  lemma {:induction false} SortIsStable(s: seq<Entry>, t: int)
    ensures InTimeOrder(SortByTime(s)) && AtTime(SortByTime(s), t) == AtTime(s, t)
    decreases |s|
  {
    hide InTimeOrder;
    if s == [] {
      NothingToSort();
    } else {
      var front, last := s[..|s| - 1], s[|s| - 1];
      assert s == front + [last];
      SortIsStable(front, t);
      InsertIsStable(SortByTime(front), last, t);
      AtTimeOneMore(SortByTime(front), last, t);
      AtTimeOneMore(front, last, t);
    }
  }

  lemma NothingToSort()
    ensures InTimeOrder([])
  {
  }

  lemma SomeEntry(s: seq<Entry>) returns (e: Entry)
    requires |s| > 0
    ensures e in s
  {
    e := s[0];
  }

  lemma LastIsLatest(s: seq<Entry>, e: Entry)
    requires Increasing(s) && e in s
    ensures e.timestamp <= s[|s| - 1].timestamp
    ensures e.timestamp == s[|s| - 1].timestamp ==> e == s[|s| - 1]
    ensures e in s[..|s| - 1] <==> e != s[|s| - 1]
  {
    assert s == s[..|s| - 1] + [s[|s| - 1]];
  }

  /** A sequence in the order of time is determined by its elements. */
  lemma {:induction false} SameEntriesSameOrder(s: seq<Entry>, t: seq<Entry>)
    requires Increasing(s) && Increasing(t) && forall e :: e in s <==> e in t
    ensures s == t
    decreases |s|
  {
    hide Increasing;
    if s == [] {
      if |t| > 0 {
        var e := SomeEntry(t);
        assert false;
      }
    } else {
      SameLast(s, t);
      ShorterIncreases(s);
      ShorterIncreases(t);
      var s', t' := s[..|s| - 1], t[..|t| - 1];
      forall e ensures e in s' <==> e in t' {
        SameBeforeLast(s, t, e);
      }
      SameEntriesSameOrder(s', t');
      assert s == s' + [s[|s| - 1]] && t == t' + [t[|t| - 1]];
    }
  }

  lemma SameLast(s: seq<Entry>, t: seq<Entry>)
    requires Increasing(s) && Increasing(t) && s != [] && forall e :: e in s <==> e in t
    ensures t != [] && s[|s| - 1] == t[|t| - 1]
  {
    hide Increasing;
    assert s[0] in t;
    var x, y := s[|s| - 1], t[|t| - 1];
    assert x in t && y in s;
    LastIsLatest(t, x);
    LastIsLatest(s, y);
  }

  lemma ShorterIncreases(s: seq<Entry>)
    requires Increasing(s) && s != []
    ensures Increasing(s[..|s| - 1])
  {
  }

  lemma SameBeforeLast(s: seq<Entry>, t: seq<Entry>, e: Entry)
    requires Increasing(s) && Increasing(t) && s != [] && t != []
    requires s[|s| - 1] == t[|t| - 1] && (e in s <==> e in t)
    ensures e in s[..|s| - 1] <==> e in t[..|t| - 1]
  {
    if e in s {
      LastIsLatest(s, e);
      LastIsLatest(t, e);
    }
  }

  /** Walking the buffers yields exactly the surviving entries of the services asked for. */
  lemma {:induction false} CollectedEntries(store: Contents, order: seq<string>, services: seq<string>, e: Entry)
    requires forall name, x :: name in store && x in store[name] ==> x.service == name
    ensures e in Collect(store, order, services)
            <==> e.service in order && Asked(services, e.service) && e.service in store && e in store[e.service]
    decreases |order|
  {
    if order != [] {
      var front := order[..|order| - 1];
      assert order == front + [order[|order| - 1]];
      CollectedEntries(store, front, services, e);
    }
  }

  lemma {:induction false} CollectedTimes(store: Contents, order: seq<string>, services: seq<string>)
    requires forall name, x :: name in store && x in store[name] ==> x.service == name
    requires forall name :: name in store ==> Increasing(store[name])
    requires forall a, b, x, y :: a in store && b in store && x in store[a] && y in store[b] && a != b ==>
               x.timestamp != y.timestamp
    requires Distinct(order)
    ensures DifferentTimes(Collect(store, order, services))
    decreases |order|
  {
    if order != [] {
      var front, name := order[..|order| - 1], order[|order| - 1];
      CollectedTimes(store, front, services);
      var early := Collect(store, front, services);
      if Asked(services, name) && name in store {
        forall x, y | x in early && y in store[name] ensures x.timestamp != y.timestamp {
          CollectedEntries(store, front, services, x);
          assert name !in front;
        }
        DifferentAcross(early, store[name]);
      }
    }
  }

  lemma DifferentAcross(a: seq<Entry>, b: seq<Entry>)
    requires DifferentTimes(a) && Increasing(b)
    requires forall x, y :: x in a && y in b ==> x.timestamp != y.timestamp
    ensures DifferentTimes(a + b)
  {
    var s := a + b;
    forall i, j | 0 <= i < j < |s| ensures s[i].timestamp != s[j].timestamp {
      if i < |a| <= j {
        assert s[i] in a && s[j] in b;
      }
    }
  }

  /** What the buffers hold after `history`, service by service. */
  lemma BufferedEntries(capacity: nat, history: seq<Entry>, name: string)
    requires Increasing(history) && name in PushAll(capacity, history)
    ensures var b := PushAll(capacity, history)[name];
            && Increasing(b)
            && forall x :: x in b <==> x.service == name && x in Survivors(history, Kept(capacity))
  {
    hide Last, Survivors, PushAll;
    StoreHoldsTheEnd(capacity, history);
    SurvivorsOf(history, Kept(capacity), name);
    SurvivorsIncrease(history, Kept(capacity));
    FilterIncreases(Survivors(history, Kept(capacity)), (e: Entry) => e.service == name);
  }

  /** In whatever order the buffers are walked, a tail is the end of the surviving entries asked for. */
  lemma TailOfSurvivors(capacity: nat, history: seq<Entry>, order: seq<string>, services: seq<string>, n: nat)
    requires Increasing(history) && IsOrderOf(order, PushAll(capacity, history))
    ensures TailIn(PushAll(capacity, history), order, services, n)
            == Last(Requested(Survivors(history, Kept(capacity)), services), n)
  {
    hide Last, Survivors, PushAll, Increasing, Collect, SortByTime, DifferentTimes;
    var store, kept := PushAll(capacity, history), Survivors(history, Kept(capacity));
    forall name | name in store
      ensures Increasing(store[name]) && forall x: Entry :: x in store[name] <==> x.service == name && x in kept
    {
      BufferedEntries(capacity, history, name);
    }
    SurvivorsIncrease(history, Kept(capacity));
    TimesDiffer(kept);
    CollectedTimes(store, order, services);
    SortIncreases(Collect(store, order, services));
    RequestedIncreases(kept, services);
    RequestedIsAsked(kept, services);
    SurvivorsAmong(history, Kept(capacity));
    StoreHoldsTheEnd(capacity, history);
    forall e ensures e in SortByTime(Collect(store, order, services)) <==> e in Requested(kept, services) {
      CollectedEntries(store, order, services, e);
      if e in kept {
        assert e in history;
      }
    }
    SameEntriesSameOrder(SortByTime(Collect(store, order, services)), Requested(kept, services));
  }

  lemma TimesDiffer(s: seq<Entry>)
    requires Increasing(s)
    ensures forall x, y :: x in s && y in s && x != y ==> x.timestamp != y.timestamp
  {
  }

  // ---------------------------------------------------------------------
  // Bounded memory against full history
  // ---------------------------------------------------------------------

  /** Filtering by service and forgetting old entries can be swapped. */
  lemma {:induction false} RequestedSurvivors(history: seq<Entry>, keep: nat, services: seq<string>)
    ensures Requested(Survivors(history, keep), services) == Survivors(Requested(history, services), keep)
    decreases |history|
  {
    hide Of, Requested, Asked;
    if history == [] {
      RequestedNothing(services);
    } else {
      var e, rest := history[0], history[1..];
      RequestedSurvivors(rest, keep, services);
      RequestedFirst(history, services);
      var later := Survivors(rest, keep);
      RequestedFirst([e] + later, services);
      assert ([e] + later)[1..] == later && [] + later == later;
      if Asked(services, e.service) {
        RequestedOf(rest, services, e.service);
        assert Requested(history, services)[1..] == Requested(rest, services);
        assert Requested(history, services)[0] == e;
      } else {
        assert Requested(history, services) == Requested(rest, services);
      }
    }
  }

  lemma RequestedIsAsked(history: seq<Entry>, services: seq<string>)
    ensures Requested(history, services) == Filter(history, (e: Entry) => Asked(services, e.service))
  {
    if services == [] {
      FilterEverything(history, (e: Entry) => Asked(services, e.service));
    } else {
      FilterAgrees(history, (e: Entry) => e.service in services, (e: Entry) => Asked(services, e.service));
    }
  }

  lemma RequestedNothing(services: seq<string>)
    ensures Requested([], services) == []
  {
  }

  lemma RequestedFirst(s: seq<Entry>, services: seq<string>)
    requires s != []
    ensures Requested(s, services)
            == (if Asked(services, s[0].service) then [s[0]] else []) + Requested(s[1..], services)
  {
    RequestedIsAsked(s, services);
    RequestedIsAsked(s[1..], services);
    FilterFirst(s, (e: Entry) => Asked(services, e.service));
  }

  lemma {:induction false} RequestedOf(history: seq<Entry>, services: seq<string>, name: string)
    requires Asked(services, name)
    ensures Of(Requested(history, services), name) == Of(history, name)
    decreases |history|
  {
    var p := (e: Entry) => Asked(services, e.service);
    if history != [] {
      var front, e := history[..|history| - 1], history[|history| - 1];
      assert history == front + [e];
      RequestedOf(front, services, name);
      FilterStep(front, e, p);
      OfStep(front, e, name);
      OfStep(Requested(front, services), e, name);
    }
  }

  /** No service has more than `keep` entries in `s`. */
  ghost predicate NoneOverflows(s: seq<Entry>, keep: nat) {
    forall name :: |Of(s, name)| <= keep
  }

  lemma OfFirst(s: seq<Entry>, name: string)
    requires s != []
    ensures Of(s, name) == (if s[0].service == name then [s[0]] else []) + Of(s[1..], name)
  {
    FilterFirst(s, (e: Entry) => e.service == name);
  }

  lemma {:induction false} AllSurviveExactly(s: seq<Entry>, keep: nat)
    ensures NoneOverflows(s, keep) <==> |Survivors(s, keep)| == |s|
    ensures NoneOverflows(s, keep) ==> Survivors(s, keep) == s
    decreases |s|
  {
    hide Of;
    SurvivorsAmong(s, keep);
    if s == [] {
      forall name ensures Of(s, name) == [] {
        NothingOf(s, name);
      }
    } else {
      var rest := s[1..];
      AllSurviveExactly(rest, keep);
      SurvivorsAmong(rest, keep);
      forall name ensures |Of(s, name)| == |Of(rest, name)| + if s[0].service == name then 1 else 0 {
        OfFirst(s, name);
      }
      assert |Of(s, s[0].service)| == |Of(rest, s[0].service)| + 1;
    }
  }

  /** The end of a history survives on its own terms. */
  lemma {:induction false} SurvivorsSplit(a: seq<Entry>, b: seq<Entry>, keep: nat) returns (x: seq<Entry>)
    ensures Survivors(a + b, keep) == x + Survivors(b, keep)
    ensures forall e :: e in x ==> e in a
    ensures a == [] ==> x == []
    decreases |a|
  {
    hide Of, Survivors;
    if a == [] {
      assert a + b == b;
      x := [];
      assert x + Survivors(b, keep) == Survivors(b, keep);
    } else {
      var y := SurvivorsSplit(a[1..], b, keep);
      assert (a + b)[1..] == a[1..] + b && (a + b)[0] == a[0];
      SurvivorsFirst(a + b, keep);
      var first := if |Of(a[1..] + b, a[0].service)| < keep then [a[0]] else [];
      x := first + y;
      assert first + (y + Survivors(b, keep)) == x + Survivors(b, keep);
      assert a == [a[0]] + a[1..];
    }
  }

  lemma SurvivorsFirst(s: seq<Entry>, keep: nat)
    requires s != []
    ensures Survivors(s, keep)
            == (if |Of(s[1..], s[0].service)| < keep then [s[0]] else []) + Survivors(s[1..], keep)
  {
  }

  lemma LastSurvivors(s: seq<Entry>, keep: nat, n: nat)
    requires Increasing(s)
    ensures Last(Survivors(s, keep), n) == Last(s, n) <==> NoneOverflows(Last(s, n), keep)
  {
    hide Survivors, NoneOverflows, Increasing;
    var b := Last(s, n);
    var a := s[..|s| - |b|];
    assert s == a + b;
    var x := SurvivorsSplit(a, b, keep);
    AllSurviveExactly(b, keep);
    SurvivorsAmong(b, keep);
    if |Survivors(b, keep)| < |b| {
      GapShows(a, b, x, Survivors(b, keep), n);
    }
  }

  /** If fewer than all of the last `n` survive, an older entry or nothing stands in for the missing. */
  lemma GapShows(a: seq<Entry>, b: seq<Entry>, x: seq<Entry>, kept: seq<Entry>, n: nat)
    requires Increasing(a + b) && |kept| < |b| && (forall e :: e in x ==> e in a)
    requires |b| <= n && (a == [] ==> x == []) && (a != [] ==> |b| == n)
    ensures Last(x + kept, n) != b
  {
    if |x| + |kept| >= n {
      var e := x[|x| - (n - |kept|)];
      assert Last(x + kept, n)[0] == e;
      assert e in a;
      EarlierIsEarlier(a, b, e);
    }
  }

  lemma EarlierIsEarlier(a: seq<Entry>, b: seq<Entry>, e: Entry)
    requires Increasing(a + b) && e in a && b != []
    ensures e != b[0]
  {
    assert (a + b)[|a|] == b[0];
    var i :| 0 <= i < |a| && a[i] == e;
    assert (a + b)[i] == e;
  }

  /**
    A tail shows the last `n` entries of the whole history exactly if no service has more entries among them than
    its buffer holds.
    */
  lemma TailIsExact(capacity: nat, history: seq<Entry>, order: seq<string>, services: seq<string>, n: nat)
    requires Increasing(history) && IsOrderOf(order, PushAll(capacity, history))
    ensures TailIn(PushAll(capacity, history), order, services, n) == Last(Requested(history, services), n)
            <==> NoneOverflows(Last(Requested(history, services), n), if capacity == 0 then 1 else capacity)
  {
    hide Last, Survivors, TailIn, Requested, NoneOverflows, PushAll;
    TailOfSurvivors(capacity, history, order, services, n);
    RequestedSurvivors(history, Kept(capacity), services);
    RequestedIncreases(history, services);
    LastSurvivors(Requested(history, services), Kept(capacity), n);
  }

  lemma RequestedIncreases(history: seq<Entry>, services: seq<string>)
    requires Increasing(history)
    ensures Increasing(Requested(history, services))
  {
    RequestedIsAsked(history, services);
    FilterIncreases(history, (e: Entry) => Asked(services, e.service));
  }

  /** So it does for every `n` up to the capacity of one buffer. */
  lemma TailWithinCapacity(capacity: nat, history: seq<Entry>, order: seq<string>, services: seq<string>, n: nat)
    requires Increasing(history) && IsOrderOf(order, PushAll(capacity, history))
    requires n <= if capacity == 0 then 1 else capacity
    ensures TailIn(PushAll(capacity, history), order, services, n) == Last(Requested(history, services), n)
  {
    hide PushAll, TailIn;
    TailIsExact(capacity, history, order, services, n);
    var end := Last(Requested(history, services), n);
    assert NoneOverflows(end, Kept(capacity));
  }
}
