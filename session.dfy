/** How the two components meet at the end of a session: the calls that
    `pytest_sessionfinish` makes, applied to one Slack listener, and the
    messages that listener then posts. */
module Session {
  import opened Reports
  import Notifier
  import Slack

  /** A Slack listener's state after the calls of `calls`, starting from `state`. */
  function StateAfter(calls: seq<Notifier.Notification>, id: ListenerId, state: seq<TestData>): seq<TestData>
  {
    state + Notifier.Received(calls, id)
  }

  /** The messages listener `id` posts while the calls of `calls` reach it: at
      each `finish` addressed to it, the report over the state it holds then. */
  function Posted(calls: seq<Notifier.Notification>, id: ListenerId, chat: string, title: string,
                  state: seq<TestData>): seq<Slack.Message>
  {
    if calls == [] then []
    else
      var init, last := calls[..|calls| - 1], calls[|calls| - 1];
      Posted(init, id, chat, title, state) +
        (if last == Notifier.Finish(id)
         then [Slack.Message(chat, title, Slack.ReportBlocks(title, StateAfter(init, id, state)))]
         else [])
  }

  /** One more call extends `StateAfter` and `Posted` by at most one step. */
  lemma ListenerStep(calls: seq<Notifier.Notification>, c: Notifier.Notification, id: ListenerId, chat: string,
                     title: string, state: seq<TestData>)
    ensures StateAfter(calls + [c], id, state) ==
              StateAfter(calls, id, state) + (if c.Update? && c.listener == id then [(c.name, c.records)] else [])
    ensures Posted(calls + [c], id, chat, title, state) ==
              Posted(calls, id, chat, title, state) +
                (if c == Notifier.Finish(id)
                 then [Slack.Message(chat, title, Slack.ReportBlocks(title, StateAfter(calls, id, state)))]
                 else [])
  {
    assert (calls + [c])[..|calls|] == calls;
  }

  /** The calls `pytest_sessionfinish` makes, as they reach one Slack listener
      object: an `update` addressed to it runs `SlackListener.Update` with the
      call's data, a `finish` addressed to it runs `SlackListener.Finish`, and
      calls to other listeners leave it alone. Its state and outbox then follow
      `StateAfter` and `Posted`. */
  method Deliver(listener: Slack.SlackListener, id: ListenerId, calls: seq<Notifier.Notification>, title: string)
    modifies listener
    ensures listener.state == StateAfter(calls, id, old(listener.state))
    ensures listener.outbox == old(listener.outbox) + Posted(calls, id, listener.chat, title, old(listener.state))
  {
    for i := 0 to |calls|
      invariant listener.state == StateAfter(calls[..i], id, old(listener.state))
      invariant listener.outbox == old(listener.outbox) + Posted(calls[..i], id, listener.chat, title, old(listener.state))
    {
      var c := calls[i];
      assert calls[..i + 1] == calls[..i] + [c];
      ListenerStep(calls[..i], c, id, listener.chat, title, old(listener.state));
      if c.Update? && c.listener == id {
        listener.Update((c.name, c.records));
      } else if c == Notifier.Finish(id) {
        listener.Finish(title);
      }
    }
    assert calls[..|calls|] == calls;
  }

  lemma {:induction false} ReceivedOfFinishes(u: seq<Notifier.Notification>, f: seq<Notifier.Notification>, id: ListenerId)
    requires forall k :: 0 <= k < |f| ==> f[k].Finish?
    ensures Notifier.Received(u + f, id) == Notifier.Received(u, id)
  {
    if f != [] {
      var f' := f[..|f| - 1];
      assert (u + f)[..|u + f| - 1] == u + f';
      ReceivedOfFinishes(u, f', id);
    } else {
      assert u + f == u;
    }
  }

  lemma {:induction false} PostedOfUpdates(u: seq<Notifier.Notification>, id: ListenerId, chat: string, title: string,
                                           state: seq<TestData>)
    requires forall k :: 0 <= k < |u| ==> u[k].Update?
    ensures Posted(u, id, chat, title, state) == []
  {
    if u != [] {
      PostedOfUpdates(u[..|u| - 1], id, chat, title, state);
    }
  }

  /** After the updates, each `finish` addressed to the listener posts the same
      report, over everything the updates delivered. */
  lemma {:induction false} PostedAfterUpdates(u: seq<Notifier.Notification>, f: seq<Notifier.Notification>,
                                              id: ListenerId, chat: string, title: string, state: seq<TestData>)
    requires forall k :: 0 <= k < |u| ==> u[k].Update?
    requires forall k :: 0 <= k < |f| ==> f[k].Finish?
    ensures Posted(u + f, id, chat, title, state) ==
              Notifier.Repeat(Slack.Message(chat, title, Slack.ReportBlocks(title, StateAfter(u, id, state))),
                              multiset(f)[Notifier.Finish(id)])
  {
    if f == [] {
      assert u + f == u;
      PostedOfUpdates(u, id, chat, title, state);
    } else {
      var f', last := f[..|f| - 1], f[|f| - 1];
      assert f == f' + [last];
      assert u + f == (u + f') + [last];
      ListenerStep(u + f', last, id, chat, title, state);
      ReceivedOfFinishes(u, f', id);
      PostedAfterUpdates(u, f', id, chat, title, state);
    }
  }

  /** The end-to-end promise for one Slack listener: given the calls that
      `pytest_sessionfinish` makes on a well-formed aggregator, a listener of
      the set that starts empty posts exactly one message, whose blocks are the
      report over its feed, of length 1 + sum over the feed of (2 + failed). */
  lemma SessionReport(items: map<string, Notifier.Entry>, order: seq<string>, listeners: set<ListenerId>,
                      calls: seq<Notifier.Notification>, id: ListenerId, chat: string, title: string)
    requires Notifier.WellFormed(items, order, listeners)
    requires |calls| == |Notifier.UpdatePlan(order, items)| + |listeners|
    requires calls[..|Notifier.UpdatePlan(order, items)|] == Notifier.UpdatePlan(order, items)
    requires Notifier.FinishesEach(calls[|Notifier.UpdatePlan(order, items)|..], listeners)
    requires id in listeners
    ensures Posted(calls, id, chat, title, []) ==
              [Slack.Message(chat, title, Slack.ReportBlocks(title, Notifier.Feed(order, items, id)))]
    ensures |Slack.ReportBlocks(title, Notifier.Feed(order, items, id))| == 1 + Slack.BlockCount(Notifier.Feed(order, items, id))
  {
    var u := Notifier.UpdatePlan(order, items);
    var f := calls[|u|..];
    assert calls == u + f;
    Notifier.UpdatePlanCarries(order, items);
    assert forall k :: 0 <= k < |u| ==> u[k].Update? by {
      forall k | 0 <= k < |u| ensures u[k].Update? {
        assert u[k] in u;
      }
    }
    Notifier.FinishedOnce(f, listeners, id);
    PostedAfterUpdates(u, f, id, chat, title, []);
    Notifier.ReceivedFromPlan(order, items, id);
    assert StateAfter(u, id, []) == Notifier.Feed(order, items, id);
  }
}
