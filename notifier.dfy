/** The report aggregator: a pytest plugin object that remembers, per test
    function name, the listeners its `notifiable` marker names and the reports
    that arrive for it, and at the end of the session hands each listener its
    tests' data and then tells every distinct listener to finish. */
module Notifier {
  import opened Reports

  /** A pytest marker on a test item: its name and its `listeners` keyword argument. */
  datatype Marker = Marker(name: string, listeners: seq<ListenerId>)

  /** The value stored per test function name: its listeners and its reports. */
  datatype Entry = Entry(listeners: seq<ListenerId>, records: seq<Record>)

  /** A call the plugin makes on a listener: `update((name, records))` or `finish()`. */
  datatype Notification =
    | Update(listener: ListenerId, name: string, records: seq<Record>)
    | Finish(listener: ListenerId)

  const NOTIFIABLE: string := "notifiable"

  // ---------------------------------------------------------------------------
  // Marker lookup

  /** Position `i` holds a `notifiable` marker and no earlier position does. */
  ghost predicate FirstNotifiableAt(markers: seq<Marker>, i: int)
  {
    && 0 <= i < |markers|
    && markers[i].name == NOTIFIABLE
    && forall j :: 0 <= j < i ==> markers[j].name != NOTIFIABLE
  }

  /** The first marker named `notifiable`, if there is one. */
  function FirstNotifiable(markers: seq<Marker>): (r: Option<Marker>)
    ensures r.None? <==> forall i :: 0 <= i < |markers| ==> markers[i].name != NOTIFIABLE
    ensures r.Some? ==> exists i :: FirstNotifiableAt(markers, i) && markers[i] == r.value
  {
    if markers == [] then None
    else if markers[0].name == NOTIFIABLE then (assert FirstNotifiableAt(markers, 0); Some(markers[0]))
    else
      var r := FirstNotifiable(markers[1..]);
      assert r.Some? ==> exists i :: FirstNotifiableAt(markers, i) && markers[i] == r.value by {
        if r.Some? {
          var k :| FirstNotifiableAt(markers[1..], k) && markers[1..][k] == r.value;
          assert forall j :: 1 <= j < k + 1 ==> markers[j] == markers[1..][j - 1];
          assert FirstNotifiableAt(markers, k + 1);
        }
      }
      r
  }

  /** `notifiable_marker`: scans the item's own markers in order and returns the
      first whose name is `notifiable`, or nothing. */
  method NotifiableMarker(ownMarkers: seq<Marker>) returns (marker: Option<Marker>)
    ensures marker == FirstNotifiable(ownMarkers)
  {
    var i := 0;
    while i < |ownMarkers|
      invariant 0 <= i <= |ownMarkers|
      invariant FirstNotifiable(ownMarkers) == FirstNotifiable(ownMarkers[i..])
    {
      if ownMarkers[i].name == NOTIFIABLE {
        return Some(ownMarkers[i]);
      }
      assert ownMarkers[i..][1..] == ownMarkers[i + 1..];
      i := i + 1;
    }
    return None;
  }

  // ---------------------------------------------------------------------------
  // The aggregator's state and what it dispatches

  /** The aggregator's invariant. `order` is the insertion order of the dict's
      keys: each name at most once, exactly the keys of `items`. The listener set
      is exactly the listeners of all entries. */
  ghost predicate WellFormed(items: map<string, Entry>, order: seq<string>, listeners: set<ListenerId>)
  {
    && (forall i, j :: 0 <= i < j < |order| ==> order[i] != order[j])
    && (forall n :: n in items <==> n in order)
    && (forall n, l :: n in items && l in items[n].listeners ==> l in listeners)
    && (forall l :: l in listeners ==> exists n :: n in items && l in items[n].listeners)
  }

  /** The records a report adds to its test's entry: once if it is skipped, and
      once more if it comes from the call phase. */
  function Retained(when: Phase, result: Record): (added: seq<Record>)
    ensures |added| == (if result.outcome == SKIPPED then 1 else 0) + (if when == Call then 1 else 0)
    ensures forall r :: r in added ==> r == result
  {
    (if result.outcome == SKIPPED then [result] else []) + (if when == Call then [result] else [])
  }

  /** The `update` calls for one entry: one per occurrence of a listener in its list, in list order. */
  function EntryUpdates(name: string, listeners: seq<ListenerId>, records: seq<Record>): seq<Notification>
  {
    if listeners == [] then []
    else EntryUpdates(name, listeners[..|listeners| - 1], records) + [Update(listeners[|listeners| - 1], name, records)]
  }

  /** The `update` calls of `pytest_sessionfinish`: entries in insertion order. */
  function UpdatePlan(order: seq<string>, items: map<string, Entry>): seq<Notification>
    requires forall n :: n in order ==> n in items
  {
    if order == [] then []
    else
      var name := order[|order| - 1];
      UpdatePlan(order[..|order| - 1], items) + EntryUpdates(name, items[name].listeners, items[name].records)
  }

  /** The `finish` calls: one for each listener of the set and nothing else, in some order. */
  ghost predicate FinishesEach(calls: seq<Notification>, listeners: set<ListenerId>)
  {
    && (forall k :: 0 <= k < |calls| ==> calls[k].Finish? && calls[k].listener in listeners)
    && (forall l :: l in listeners ==> Finish(l) in calls)
    && (forall a, b :: 0 <= a < b < |calls| ==> calls[a] != calls[b])
  }

  lemma FinishesEachSnoc(calls: seq<Notification>, listeners: set<ListenerId>, l: ListenerId)
    requires FinishesEach(calls, listeners) && l !in listeners
    ensures FinishesEach(calls + [Finish(l)], listeners + {l})
  {
    var calls' := calls + [Finish(l)];
    forall a, b | 0 <= a < b < |calls'| ensures calls'[a] != calls'[b] {
      if b == |calls| {
        assert calls'[a] == calls[a];
      }
    }
  }

  /** The data handed to listener `l` by the `update` calls of `calls`, in call order. */
  function Received(calls: seq<Notification>, l: ListenerId): seq<TestData>
  {
    if calls == [] then []
    else
      var last := calls[|calls| - 1];
      Received(calls[..|calls| - 1], l) + (if last.Update? && last.listener == l then [(last.name, last.records)] else [])
  }

  function Repeat<T>(x: T, k: nat): (r: seq<T>)
    ensures |r| == k && forall i :: 0 <= i < k ==> r[i] == x
  {
    if k == 0 then [] else Repeat(x, k - 1) + [x]
  }

  /** What listener `l` should see: walking the entries in insertion order, each
      entry's name and records once for every time `l` occurs in its list. */
  function Feed(order: seq<string>, items: map<string, Entry>, l: ListenerId): seq<TestData>
    requires forall n :: n in order ==> n in items
  {
    if order == [] then []
    else
      var name := order[|order| - 1];
      Feed(order[..|order| - 1], items, l) + Repeat((name, items[name].records), multiset(items[name].listeners)[l])
  }

  // ---------------------------------------------------------------------------
  // Properties of the dispatch

  lemma {:induction false} ReceivedConcat(a: seq<Notification>, b: seq<Notification>, l: ListenerId)
    ensures Received(a + b, l) == Received(a, l) + Received(b, l)
  {
    if b == [] {
      assert a + b == a;
    } else {
      var b' := b[..|b| - 1];
      assert (a + b)[..|a + b| - 1] == a + b';
      ReceivedConcat(a, b', l);
    }
  }

  lemma {:induction false} ReceivedEntryUpdates(name: string, listeners: seq<ListenerId>, records: seq<Record>, l: ListenerId)
    ensures Received(EntryUpdates(name, listeners, records), l) == Repeat((name, records), multiset(listeners)[l])
  {
    if listeners != [] {
      var init, last := listeners[..|listeners| - 1], listeners[|listeners| - 1];
      assert listeners == init + [last];
      var calls := EntryUpdates(name, listeners, records);
      assert calls[..|calls| - 1] == EntryUpdates(name, init, records);
      ReceivedEntryUpdates(name, init, records, l);
    }
  }

  /** Each listener receives, through `update`, exactly its feed: the data of
      every entry it is attached to, once per occurrence in that entry's list,
      walking the entries in insertion order. */
  lemma {:induction false} ReceivedFromPlan(order: seq<string>, items: map<string, Entry>, l: ListenerId)
    requires forall n :: n in order ==> n in items
    ensures Received(UpdatePlan(order, items), l) == Feed(order, items, l)
  {
    if order != [] {
      var init, name := order[..|order| - 1], order[|order| - 1];
      ReceivedFromPlan(init, items, l);
      ReceivedConcat(UpdatePlan(init, items), EntryUpdates(name, items[name].listeners, items[name].records), l);
      ReceivedEntryUpdates(name, items[name].listeners, items[name].records, l);
    }
  }

  lemma {:induction false} EntryUpdatesContain(name: string, listeners: seq<ListenerId>, records: seq<Record>, l: ListenerId)
    requires l in listeners
    ensures Update(l, name, records) in EntryUpdates(name, listeners, records)
  {
    var init, last := listeners[..|listeners| - 1], listeners[|listeners| - 1];
    assert listeners == init + [last];
    if l != last {
      EntryUpdatesContain(name, init, records, l);
    }
  }

  lemma {:induction false} UpdatePlanContains(order: seq<string>, items: map<string, Entry>, name: string, l: ListenerId)
    requires forall n :: n in order ==> n in items
    requires name in order && l in items[name].listeners
    ensures Update(l, name, items[name].records) in UpdatePlan(order, items)
  {
    var init, last := order[..|order| - 1], order[|order| - 1];
    assert order == init + [last];
    if name == last {
      EntryUpdatesContain(name, items[name].listeners, items[name].records, l);
    } else {
      UpdatePlanContains(init, items, name, l);
    }
  }

  /** No listener is finished without data: every listener of a well-formed
      aggregator has at least one `update` call in the plan. */
  lemma ListenersAreUpdated(items: map<string, Entry>, order: seq<string>, listeners: set<ListenerId>, l: ListenerId)
    requires WellFormed(items, order, listeners)
    requires l in listeners
    ensures exists n :: n in items && Update(l, n, items[n].records) in UpdatePlan(order, items)
  {
    var n :| n in items && l in items[n].listeners;
    UpdatePlanContains(order, items, n, l);
  }

  lemma {:induction false} EntryUpdatesCarry(name: string, listeners: seq<ListenerId>, records: seq<Record>)
    ensures forall c :: c in EntryUpdates(name, listeners, records) ==>
              c.Update? && c.name == name && c.records == records && c.listener in listeners
  {
    if listeners != [] {
      var init := listeners[..|listeners| - 1];
      EntryUpdatesCarry(name, init, records);
      assert forall l :: l in init ==> l in listeners;
    }
  }

  /** Every call of the plan is an `update` for a tracked name, to one of that
      name's listeners, carrying that name's records. */
  lemma {:induction false} UpdatePlanCarries(order: seq<string>, items: map<string, Entry>)
    requires forall n :: n in order ==> n in items
    ensures forall c :: c in UpdatePlan(order, items) ==>
              c.Update? && c.name in order && c.records == items[c.name].records && c.listener in items[c.name].listeners
  {
    if order != [] {
      var init, name := order[..|order| - 1], order[|order| - 1];
      UpdatePlanCarries(init, items);
      EntryUpdatesCarry(name, items[name].listeners, items[name].records);
      assert forall n :: n in init ==> n in order;
    }
  }

  /** `finish` reaches each listener of the set exactly once, and no other listener. */
  lemma {:induction false} FinishedOnce(calls: seq<Notification>, listeners: set<ListenerId>, l: ListenerId)
    requires FinishesEach(calls, listeners)
    ensures multiset(calls)[Finish(l)] == if l in listeners then 1 else 0
  {
    if calls == [] {
    } else {
      var init, last := calls[..|calls| - 1], calls[|calls| - 1];
      assert calls == init + [last];
      var rest := listeners - {last.listener};
      assert FinishesEach(init, rest) by {
        forall k | 0 <= k < |init| ensures init[k].listener in rest {
          assert init[k] == calls[k];
        }
        forall m | m in rest ensures Finish(m) in init {
          assert Finish(m) in calls;
        }
      }
      FinishedOnce(init, rest, l);
    }
  }

  /** The closing loop of `pytest_sessionfinish`: `finish` for each listener of
      the set, taken in whatever order the set yields them. */
  method FinishAll(listeners: set<ListenerId>) returns (calls: seq<Notification>)
    ensures |calls| == |listeners| && FinishesEach(calls, listeners)
  {
    calls := [];
    ghost var done: set<ListenerId> := {};
    var pending := listeners;
    while pending != {}
      invariant done + pending == listeners && done !! pending
      invariant |calls| == |done| && FinishesEach(calls, done)
      decreases pending
    {
      var l :| l in pending;
      FinishesEachSnoc(calls, done, l);
      calls := calls + [Finish(l)];
      done := done + {l};
      pending := pending - {l};
    }
  }

  // ---------------------------------------------------------------------------
  // The plugin object

  class NotifyPlugin {
    /** `_test_items`: per test function name, its listeners and its reports. */
    var items: map<string, Entry>
    /** The insertion order of the keys of `items`. */
    var order: seq<string>
    /** `_listeners`: every listener seen on a notifiable marker. */
    var listeners: set<ListenerId>

    ghost predicate Valid()
      reads this
    {
      WellFormed(items, order, listeners)
    }

    constructor ()
      ensures Valid()
      ensures items == map[] && order == [] && listeners == {}
    {
      items := map[];
      order := [];
      listeners := {};
    }

    /** `pytest_runtest_protocol`: when the item carries a notifiable marker and
        its name is not yet tracked, records the marker's listeners and starts an
        empty record list; an existing entry is never replaced. */
    method RuntestProtocol(name: string, ownMarkers: seq<Marker>)
      requires Valid()
      modifies this
      ensures Valid()
      ensures var marker := FirstNotifiable(ownMarkers);
        if name !in old(items) && marker.Some? then
          && items == old(items)[name := Entry(marker.value.listeners, [])]
          && order == old(order) + [name]
          && listeners == old(listeners) + set l | l in marker.value.listeners
        else
          items == old(items) && order == old(order) && listeners == old(listeners)
    {
      var marker := NotifiableMarker(ownMarkers);
      if name !in items && marker.Some? {
        var attached := marker.value.listeners;
        for i := 0 to |attached|
          invariant listeners == old(listeners) + set j | 0 <= j < i :: attached[j]
          invariant items == old(items) && order == old(order)
        {
          listeners := listeners + {attached[i]};
        }
        assert (set j | 0 <= j < |attached| :: attached[j]) == set l | l in attached;
        items := items[name := Entry(attached, [])];
        order := order + [name];
        forall l | l in listeners ensures exists n :: n in items && l in items[n].listeners {
          if l !in attached {
            var n :| n in old(items) && l in old(items)[n].listeners;
            assert n in items && l in items[n].listeners;
          } else {
            assert name in items && l in items[name].listeners;
          }
        }
      }
    }

    /** `add_report`: appends `result` to the end of `name`'s records. */
    method AddReport(name: string, result: Record)
      requires Valid()
      requires name in items
      modifies this
      ensures Valid()
      ensures items == old(items)[name := old(items)[name].(records := old(items)[name].records + [result])]
      ensures order == old(order) && listeners == old(listeners)
    {
      items := items[name := items[name].(records := items[name].records + [result])];
      assert forall n :: n in items ==> items[n].listeners == old(items)[n].listeners;
      forall l | l in listeners ensures exists n :: n in items && l in items[n].listeners {
        var n :| n in old(items) && l in old(items)[n].listeners;
        assert n in items && l in items[n].listeners;
      }
    }

    /** `pytest_runtest_makereport`: for a tracked name, keeps the report once if
        it is skipped and once if it is from the call phase; for any other name
        nothing changes. */
    method MakeReport(name: string, when: Phase, result: Record)
      requires Valid()
      modifies this
      ensures Valid()
      ensures name in old(items) ==>
                items == old(items)[name := old(items)[name].(records := old(items)[name].records + Retained(when, result))]
      ensures name !in old(items) ==> items == old(items)
      ensures order == old(order) && listeners == old(listeners)
    {
      if name in items {
        ghost var entry := items[name];
        if result.outcome == SKIPPED {
          AddReport(name, result);
        }
        if when == Call {
          AddReport(name, result);
        }
        assert items[name].records == entry.records + Retained(when, result);
        assert items == old(items)[name := entry.(records := entry.records + Retained(when, result))];
      }
    }

    /** `pytest_sessionfinish`: the calls it makes, in order. First, for each
        entry in insertion order and each listener in its list, `update` with the
        entry's name and records; then `finish` once for each listener of the set,
        in an unspecified order. */
    method SessionFinish() returns (calls: seq<Notification>)
      requires Valid()
      ensures |calls| == |UpdatePlan(order, items)| + |listeners|
      ensures calls[..|UpdatePlan(order, items)|] == UpdatePlan(order, items)
      ensures FinishesEach(calls[|UpdatePlan(order, items)|..], listeners)
    {
      calls := [];
      for i := 0 to |order|
        invariant calls == UpdatePlan(order[..i], items)
      {
        var name := order[i];
        var entry := items[name];
        for j := 0 to |entry.listeners|
          invariant calls == UpdatePlan(order[..i], items) + EntryUpdates(name, entry.listeners[..j], entry.records)
        {
          assert entry.listeners[..j + 1][..j] == entry.listeners[..j];
          calls := calls + [Update(entry.listeners[j], name, entry.records)];
        }
        assert entry.listeners[..|entry.listeners|] == entry.listeners;
        assert order[..i + 1][..i] == order[..i];
      }
      assert order[..|order|] == order;
      var finishes := FinishAll(listeners);
      calls := calls + finishes;
      assert calls[|UpdatePlan(order, items)|..] == finishes;
    }
  }
}
