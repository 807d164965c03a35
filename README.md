# pytest-message: a Dafny model of the notification core

pytest-message is a pytest plugin. Tests marked `@notify(listeners=[...])` (a
`notifiable` marker) have their reports collected per test function. When the
session ends, each listener gets its tests' data and is then told to finish.
The Slack listener then posts one message summarising every test it was given.

This project models the two components that carry the logic:

- **`Notifier.NotifyPlugin`** (`pytest_message/notifier.py`) is the aggregator.
  It is a class. `items: map<string, Entry>` is `_test_items`. `order: seq<string>`
  holds the insertion order of that dict's keys, because Python dicts iterate in
  that order. `listeners: set<ListenerId>` is `_listeners`. Each pytest hook is a
  method that takes plain values in place of pytest objects: a test function
  name, the item's own markers, the phase and the report. `FirstNotifiable` states
  what `notifiable_marker` returns, and the method `NotifiableMarker` carries the
  loop. `SessionFinish` does not change the plugin; it returns the calls it makes
  on listeners, in order. These are `Notification` values (`Update(listener,
  name, records)` or `Finish(listener)`). The Python `Listener` interface
  (`pytest_message/listiner.py`) therefore has no Dafny type of its own: a
  listener is an identity (`ListenerId`), and a call on it is a `Notification`.
- **`Slack`** (`pytest_message/listeners/slack_listener.py`) is the Slack listener.
  `GetTestInfo` is the counting loop of `_get_test_info`, proved against the
  functions `Count`, `Classify` and `FailureMessages`. `StatusMessage`,
  `HeaderBlock`, `ErrorBlocks`, `TestReportBlocks` and `ReportBlocks` are the
  pure block builders. Slack blocks are the datatype `Block` (`Header`, `Fields`,
  `Code`, `Divider`). The class `SlackListener` has `state`. It also has `outbox`,
  the messages handed to the Slack client. `Finish` is the block-assembling loop,
  and it ends in one send.
- **`Session`** connects the two. `Deliver` applies the calls that `SessionFinish`
  returns to a `SlackListener` object, running its `Update` and `Finish` methods,
  and proves that the object's state and outbox then equal `StateAfter` and
  `Posted`. `SessionReport` shows that, for those calls, `Posted` is exactly one
  message: the report over the listener's feed.
- **`Decimal`** renders counts the way an f-string renders an `int`, and proves
  that this rendering is injective.

`StatusMessage`, `HeadingBlock`, `HeaderBlock` and `Emphasis` have no contract of
their own. What they promise is stated by `SingleRecordStatus`,
`CountsLineInjective`, `TestReportBlocksShape` and `ReportBlocks` below.

The model follows the code as written:

- The status line for a test with other than exactly one record always shows
  the passed and failed counts and never the skipped count. This includes a test
  with no records, such as one whose only report is a failed setup
  (`Retained(Setup, failed)` is empty). A single record with an unrecognised
  outcome gets the same line, `CountsLine(0, 0)`. Zero counts are not left out.
- A test's listeners are a list, not a set. A listener listed twice gets two
  `update` calls.
- There is no truncation of long failure messages. There is no threaded or
  chunked delivery, no concurrency, no annotation block, and no suppression of
  delivery errors.
- A report skipped during the call phase is recorded twice. The test then has
  two records and is shown by counts, not as "Skipped".
- `pytest_runtest_makereport` tests `self._test_items.get(name)`. Its value is a
  2-tuple, which is always truthy, so the test is plain membership of the name.

## Model

| member | source | states |
|---|---|---|
| `Notifier.FirstNotifiable` | pytest_message/notifier.py:40-44 | The result is none exactly when no own marker is named `notifiable`. Otherwise it is the marker at the first position with that name. |
| `Notifier.NotifiableMarker` | pytest_message/notifier.py:41-44 | The scan over the markers returns exactly `FirstNotifiable` of them. |
| `Notifier.NotifyPlugin.constructor` | pytest_message/notifier.py:17-19 | The plugin starts with no entries, an empty key order and an empty listener set, and satisfies the invariant. |
| `Notifier.NotifyPlugin.RuntestProtocol` | pytest_message/notifier.py:21-25 | If a notifiable marker is present and the name is new, the plugin adds the entry (marker's listeners, no records). It appends the name to the key order and adds every listener of the marker to the set. Otherwise nothing changes, so an existing entry is never overwritten. The invariant is kept: each name once, and the set is exactly the entries' listeners. |
| `Notifier.NotifyPlugin.MakeReport` | pytest_message/notifier.py:27-34 | For an untracked name nothing changes. For a tracked name, the `Retained` records are appended to that entry only, and the listener set and key order stay unchanged. |
| `Notifier.Retained` | pytest_message/notifier.py:31-34 | A report is kept once if skipped, plus once more if from the call phase. These two checks are independent, so a skipped call-phase report is kept twice and a non-skipped setup or teardown report is not kept. Every kept record is the report itself. |
| `Notifier.NotifyPlugin.AddReport` | pytest_message/notifier.py:37-38 | The report goes at the end of that name's records. Every other entry, the listeners of this entry, the key order and the listener set are unchanged. |
| `Notifier.NotifyPlugin.SessionFinish` | pytest_message/notifier.py:46-54 | The calls are the update plan, which walks entries in insertion order and each entry's listener list in order. They are followed by exactly as many calls as there are distinct listeners, each a `finish` for a different listener of the set. All `update` calls come before any `finish`. |
| `Notifier.FinishAll` | pytest_message/notifier.py:53-54 | In whatever order the set yields them, there is one `finish` per listener of the set, no others and no repeats. |
| `Notifier.ReceivedFromPlan` | pytest_message/notifier.py:48-51 | Through `update`, a listener receives each entry's (name, records) once for every occurrence of the listener in that entry's list, with entries in insertion order, and nothing else. |
| `Notifier.UpdatePlanCarries` | pytest_message/notifier.py:48-51 | Every call of the plan is an `update` for a tracked name. It goes to a listener of that name and carries that name's current records. |
| `Notifier.ListenersAreUpdated` | pytest_message/notifier.py:48-54 | Every listener that is finished has received at least one `update`, so no listener is finished without data. |
| `Notifier.FinishedOnce` | pytest_message/notifier.py:53-54 | `finish` reaches each listener of the set exactly once, however many tests it is attached to, and reaches no other listener. |
| `Slack.Count` | pytest_message/listeners/slack_listener.py:75-81 | The number of records with a given outcome is never more than the number of records. |
| `Slack.FailureMessages` | pytest_message/listeners/slack_listener.py:80-82 | There is one error per failed record: the list's length equals the failed count. |
| `Slack.FailureMessagesConcat` | pytest_message/listeners/slack_listener.py:75-82 | Errors follow record order: the errors of `a + b` are those of `a` followed by those of `b`. |
| `Slack.ClassifyCounts` | pytest_message/listeners/slack_listener.py:68-84 | `total` is the number of records, and passed + failed + skipped is at most `total`. The sum equals `total` when every outcome is passed, failed or skipped. |
| `Slack.GetTestInfo` | pytest_message/listeners/slack_listener.py:67-84 | The loop's counts and error list are exactly `Classify` and `FailureMessages` of the records. |
| `Slack.SingleRecordStatus` | pytest_message/listeners/slack_listener.py:103-111 | For a single record, the status is the Failed, Passed or Skipped marker for its outcome. A single record with any other outcome falls through to the counts line with zero counts. |
| `Slack.CountsLineInjective` | pytest_message/listeners/slack_listener.py:111 | The counts line `:large_green_circle: *Passed*: {p}\n:red_circle: *Failed*: {f}` determines both p and f. |
| `Slack.SkippedCallShownAsCounts` | pytest_message/listeners/slack_listener.py:103-111 | A test whose one skipped report was kept twice gets the counts line with zero counts, not the Skipped marker. |
| `Slack.ErrorBlocks` | pytest_message/listeners/slack_listener.py:113-124 | There is one code block per error, in order. Each block's text is the error wrapped in three backticks on each side, and unwrapping gives back the error exactly. |
| `Slack.TestReportBlocks` | pytest_message/listeners/slack_listener.py:59-65 | A test's report has 1 + (number of failed records) blocks. |
| `Slack.TestReportBlocksShape` | pytest_message/listeners/slack_listener.py:86-100 | The first block is a header whose first field is `*name*` and whose second field is the status message. The rest are code blocks holding the failure messages in record order. There is no divider among them. |
| `Slack.Body` | pytest_message/listeners/slack_listener.py:43-45 | The blocks following the heading number the sum over the state of (2 + failed). |
| `Slack.ReportBlocks` | pytest_message/listeners/slack_listener.py:40-47 | The posted block list starts with the heading block for the title and has length 1 + the sum over the state of (2 + failed). |
| `Slack.GroupsOfBody` | pytest_message/listeners/slack_listener.py:42-45 | Cutting the body at its dividers gives back, in state order, each state entry's own test blocks. |
| `Slack.DividersOfBody` | pytest_message/listeners/slack_listener.py:43-45 | The body holds exactly one divider per state entry. |
| `Slack.SlackListener.constructor` | pytest_message/listeners/slack_listener.py:28-31 | A new listener has an empty state, the given channel and nothing sent. |
| `Slack.SlackListener.Update` | pytest_message/listeners/slack_listener.py:37-38 | `data` goes at the end of the state, and nothing else changes. |
| `Slack.SlackListener.Finish` | pytest_message/listeners/slack_listener.py:40-47 | Exactly one message is sent, to the listener's channel, carrying the title and the report blocks over the current state. The state is unchanged. |
| `Decimal.NatToString` | pytest_message/listeners/slack_listener.py:111 | A count is rendered as a non-empty string of decimal digits with no leading zero. |
| `Decimal.ParseNatToString` | pytest_message/listeners/slack_listener.py:111 | Reading the rendered digits back gives the count. |
| `Decimal.NatToStringInjective` | pytest_message/listeners/slack_listener.py:111 | Different counts are rendered differently. |
| `Session.Deliver` | pytest_message/notifier.py:48-54 | Running the calls on a `SlackListener` object, an `update` addressed to it appends its data to the object's state and a `finish` addressed to it sends one message. Calls to other listeners leave it alone. Afterwards the state is the old state plus what the calls delivered to it, and the outbox is the old outbox plus `Posted`: one report per `finish`, over the state held at that moment. |
| `Session.PostedAfterUpdates` | pytest_message/notifier.py:48-54 | When all updates come before all finishes, each `finish` addressed to a listener posts the same report, over everything the updates delivered to it. |
| `Session.SessionReport` | pytest_message/notifier.py:46-54 | Take the calls of `pytest_sessionfinish` and a listener of the set whose state starts empty. That listener posts exactly one message, whose blocks are the report over its feed, of length 1 + the sum over its feed of (2 + failed). |

## Left out

- The Slack `WebClient`, its token and `chat_postMessage` (pytest_message/listeners/slack_listener.py:28-35, 47) are a network client. Sending is modelled as appending the message (channel, text, blocks) to `outbox`. An exception raised by the client is not modelled.
- `datetime.datetime.now().ctime()` (pytest_message/listeners/slack_listener.py:41) reads the wall clock, so the whole title is a parameter of `Finish`.
- Session.SessionReport: the lemma uses one title for the listener's report. In the source each `finish` computes its own title from the clock.
- The pytest machinery is replaced by plain values: the hook wrapper and `(yield).get_result()`, and the `Item`, `CallInfo`, `TestReport` and `Mark` objects. The values are the function name (`originalname`), the item's own markers, the phase (`call.when`), the outcome string and the crash message.
- A failed report without `longrepr.reprcrash` would raise in the source. In the model, every record carries a crash message.
- A `notifiable` marker without a `listeners` keyword would raise `KeyError` in the source. In the model, a marker always carries a listener list.
- Listeners are passed as any iterable. The model treats them as a sequence that can be read twice. A one-shot iterator would be used up by the set update at line 24 and stored empty at line 25, and this is not modelled.
- Aliasing is not modelled. A listener receives the same list object that the aggregator keeps appending to, while the model passes values. No report arrives after `pytest_sessionfinish`, so the data seen is the same.
- The iteration order of the listener set (pytest_message/notifier.py:53) is unspecified in Python. It is modelled as an arbitrary choice, and only "once per distinct listener" is stated.
- The `Listener` abstract class (pytest_message/listiner.py) has no behaviour. It appears only as the `Notification` values a listener receives.
- `notify` (pytest_message/notifier.py:12-13) only builds the pytest marker. It is represented by the `Marker` value.
- `pytest_message/plugin.py` (command-line option, plugin registration), `setup.py`, `pytest_message/__init__.py` and `tests/test_plugin.py` are plumbing, packaging, re-exports and an option test.
