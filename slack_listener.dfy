/** The Slack listener: it stores the data the aggregator hands it and, when the
    run finishes, classifies each test's records, formats one report as a list
    of Slack blocks and posts it in a single message. */
module Slack {
  import opened Reports
  import Decimal

  /** The per-test summary computed from its records. */
  datatype Status = Status(total: nat, passed: nat, failed: nat, skipped: nat)

  /** The Slack blocks the report is made of:
      the plain-text heading, a test's section of two mrkdwn fields (name, status),
      a mrkdwn section holding one error in a code span, and the divider. */
  datatype Block =
    | Header(text: string)
    | Fields(title: string, status: string)
    | Code(text: string)
    | Divider

  const DIVIDER: Block := Divider

  /** What the one `chat_postMessage` call receives: channel, fallback text and blocks. */
  datatype Message = Message(channel: string, text: string, blocks: seq<Block>)

  // ---------------------------------------------------------------------------
  // Classifier

  /** The number of records whose outcome is `outcome`. */
  function Count(reports: seq<Record>, outcome: string): (n: nat)
    ensures n <= |reports|
  {
    if reports == [] then 0
    else Count(reports[..|reports| - 1], outcome) + (if reports[|reports| - 1].outcome == outcome then 1 else 0)
  }

  /** The crash messages of the failed records, in record order. */
  function FailureMessages(reports: seq<Record>): (errors: seq<string>)
    ensures |errors| == Count(reports, FAILED)
  {
    if reports == [] then []
    else
      var last := reports[|reports| - 1];
      FailureMessages(reports[..|reports| - 1]) + (if last.outcome == FAILED then [last.crashMessage] else [])
  }

  function Classify(reports: seq<Record>): Status
  {
    Status(|reports|, Count(reports, PASSED), Count(reports, FAILED), Count(reports, SKIPPED))
  }

  predicate Recognised(r: Record)
  {
    r.outcome == PASSED || r.outcome == FAILED || r.outcome == SKIPPED
  }

  /** The three counts never exceed the total, and add up to it when every
      outcome is one of passed, failed and skipped. */
  lemma {:induction false} ClassifyCounts(reports: seq<Record>)
    ensures Classify(reports).total == |reports|
    ensures Classify(reports).passed + Classify(reports).failed + Classify(reports).skipped <= |reports|
    ensures (forall i :: 0 <= i < |reports| ==> Recognised(reports[i])) ==>
              Classify(reports).passed + Classify(reports).failed + Classify(reports).skipped == |reports|
  {
    if reports != [] {
      var init := reports[..|reports| - 1];
      ClassifyCounts(init);
      assert forall i :: 0 <= i < |init| ==> init[i] == reports[i];
    }
  }

  /** Failure messages of a concatenation are the concatenation of the failure
      messages: they follow record order and nothing is dropped or reordered. */
  lemma {:induction false} FailureMessagesConcat(a: seq<Record>, b: seq<Record>)
    ensures FailureMessages(a + b) == FailureMessages(a) + FailureMessages(b)
  {
    if b == [] {
      assert a + b == a;
    } else {
      var b' := b[..|b| - 1];
      assert (a + b)[..|a + b| - 1] == a + b';
      FailureMessagesConcat(a, b');
    }
  }

  /** `_get_test_info`: one pass over the records, counting outcomes and
      collecting the crash message of every failed record. */
  method GetTestInfo(reports: seq<Record>) returns (status: Status, errors: seq<string>)
    ensures status == Classify(reports)
    ensures errors == FailureMessages(reports)
  {
    var total := |reports|;
    var passed, failed, skipped := 0, 0, 0;
    errors := [];
    for i := 0 to |reports|
      invariant passed == Count(reports[..i], PASSED)
      invariant failed == Count(reports[..i], FAILED)
      invariant skipped == Count(reports[..i], SKIPPED)
      invariant errors == FailureMessages(reports[..i])
    {
      assert reports[..i + 1][..i] == reports[..i];
      var report := reports[i];
      if report.outcome == SKIPPED {
        skipped := skipped + 1;
      } else if report.outcome == PASSED {
        passed := passed + 1;
      } else if report.outcome == FAILED {
        failed := failed + 1;
        errors := errors + [report.crashMessage];
      }
    }
    assert reports[..|reports|] == reports;
    status := Status(total, passed, failed, skipped);
  }

  // ---------------------------------------------------------------------------
  // Formatter

  const FAILED_MARK: string := ":red_circle: *Failed*"
  const PASSED_MARK: string := ":large_green_circle: *Passed*"
  const SKIPPED_MARK: string := ":white_circle: *Skipped*"

  const PASSED_LABEL: string := PASSED_MARK + ": "
  const FAILED_LABEL: string := "\n" + FAILED_MARK + ": "

  /** The two-line summary used whenever a test has other than exactly one record. */
  function CountsLine(passed: nat, failed: nat): string
  {
    PASSED_LABEL + Decimal.NatToString(passed) + FAILED_LABEL + Decimal.NatToString(failed)
  }

  /** `_create_testfunc_status_msg`. A single record is shown by one marker,
      failed before passed before skipped; anything else, including a single
      record whose outcome is none of the three, by the passed and failed counts. */
  function StatusMessage(status: Status): string
  {
    if status.total == 1 && status.failed > 0 then FAILED_MARK
    else if status.total == 1 && status.passed > 0 then PASSED_MARK
    else if status.total == 1 && status.skipped > 0 then SKIPPED_MARK
    else CountsLine(status.passed, status.failed)
  }

  /** The status of a test with exactly one record names that record's outcome. */
  lemma SingleRecordStatus(r: Record)
    ensures StatusMessage(Classify([r])) ==
      if r.outcome == FAILED then FAILED_MARK
      else if r.outcome == PASSED then PASSED_MARK
      else if r.outcome == SKIPPED then SKIPPED_MARK
      else CountsLine(0, 0)
  {
    assert [r][..0] == [];
  }

  /** The counts line can be read back: different passed or failed counts give
      different lines (the skipped count is never part of it). */
  lemma CountsLineInjective(p1: nat, f1: nat, p2: nat, f2: nat)
    requires CountsLine(p1, f1) == CountsLine(p2, f2)
    ensures p1 == p2 && f1 == f2
  {
    assert FAILED_LABEL[0] == '\n';
    Decimal.SplitAtDigits(PASSED_LABEL, Decimal.NatToString(p1), FAILED_LABEL, Decimal.NatToString(f1),
                          Decimal.NatToString(p2), Decimal.NatToString(f2));
    Decimal.NatToStringInjective(p1, p2);
    Decimal.NatToStringInjective(f1, f2);
  }

  /** A test whose only record is skipped during its call phase is recorded
      twice by the aggregator, and is then reported by counts, not as skipped. */
  lemma SkippedCallShownAsCounts(r: Record)
    requires r.outcome == SKIPPED
    ensures StatusMessage(Classify([r, r])) == CountsLine(0, 0)
  {
    assert [r, r][..1] == [r];
    assert [r][..0] == [];
    assert Count([r, r], PASSED) == 0 && Count([r, r], FAILED) == 0;
  }

  function HeadingBlock(heading: string): Block
  {
    Header(heading)
  }

  /** Markdown bold around the test function's name. */
  function Emphasis(name: string): string
  {
    "*" + name + "*"
  }

  function HeaderBlock(status: Status, name: string): Block
  {
    Fields(Emphasis(name), StatusMessage(status))
  }

  const FENCE: string := "```"

  function Fenced(text: string): string
  {
    FENCE + text + FENCE
  }

  predicate IsFenced(text: string)
  {
    |text| >= 2 * |FENCE| && text[..|FENCE|] == FENCE && text[|text| - |FENCE|..] == FENCE
  }

  /** The text inside a code span. */
  function Unfenced(text: string): string
    requires IsFenced(text)
  {
    text[|FENCE|..|text| - |FENCE|]
  }

  /** `_create_testfunc_report_blocks`: one code block per error, in order,
      from which the error text is recovered exactly. */
  function ErrorBlocks(errors: seq<string>): (blocks: seq<Block>)
    ensures |blocks| == |errors|
    ensures forall i :: 0 <= i < |errors| ==>
              blocks[i].Code? && IsFenced(blocks[i].text) && Unfenced(blocks[i].text) == errors[i]
  {
    seq(|errors|, i requires 0 <= i < |errors| => Code(Fenced(errors[i])))
  }

  /** `_prepare_test_report_block`: the test's header section, then one code
      block per failed record holding its crash message. */
  function TestReportBlocks(name: string, reports: seq<Record>): (blocks: seq<Block>)
    ensures |blocks| == 1 + Count(reports, FAILED)
  {
    [HeaderBlock(Classify(reports), name)] + ErrorBlocks(FailureMessages(reports))
  }

  /** The first block of a test's report is its header section, holding the
      emphasised name and the status line; each further block is a code block
      holding one failure message, in record order; there is no divider. */
  lemma TestReportBlocksShape(name: string, reports: seq<Record>)
    ensures var blocks := TestReportBlocks(name, reports);
      && blocks[0].Fields? && blocks[0].title == Emphasis(name)
      && blocks[0].status == StatusMessage(Classify(reports))
      && (forall i :: 1 <= i < |blocks| ==>
            blocks[i].Code? && IsFenced(blocks[i].text) && Unfenced(blocks[i].text) == FailureMessages(reports)[i - 1])
      && Divider !in blocks
  {
    var blocks := TestReportBlocks(name, reports);
    var errors := ErrorBlocks(FailureMessages(reports));
    assert blocks == [HeaderBlock(Classify(reports), name)] + errors;
    assert forall i :: 1 <= i < |blocks| ==> blocks[i] == errors[i - 1];
    assert forall b :: b in errors ==> b.Code?;
  }

  /** The number of blocks the tests of `state` take: a header, the errors and a divider each. */
  function BlockCount(state: seq<TestData>): nat
  {
    if state == [] then 0
    else BlockCount(state[..|state| - 1]) + 2 + Count(state[|state| - 1].1, FAILED)
  }

  /** The blocks following the heading: per test, its blocks and a divider. */
  function Body(state: seq<TestData>): (blocks: seq<Block>)
    ensures |blocks| == BlockCount(state)
  {
    if state == [] then []
    else
      var last := state[|state| - 1];
      Body(state[..|state| - 1]) + TestReportBlocks(last.0, last.1) + [DIVIDER]
  }

  /** The block list `finish` posts. */
  function ReportBlocks(title: string, state: seq<TestData>): (blocks: seq<Block>)
    ensures |blocks| == 1 + BlockCount(state)
    ensures blocks[0] == Header(title)
  {
    [HeadingBlock(title)] + Body(state)
  }

  lemma {:induction false} BodyConcat(a: seq<TestData>, b: seq<TestData>)
    ensures Body(a + b) == Body(a) + Body(b)
  {
    if b == [] {
      assert a + b == a;
    } else {
      var b', last := b[..|b| - 1], b[|b| - 1];
      assert a + b == (a + b') + [last];
      assert b == b' + [last];
      BodySnoc(a + b', last);
      BodySnoc(b', last);
      BodyConcat(a, b');
      ConcatAssoc(Body(a), Body(b'), TestReportBlocks(last.0, last.1), [DIVIDER]);
    }
  }

  lemma ConcatAssoc<T>(a: seq<T>, b: seq<T>, c: seq<T>, d: seq<T>)
    ensures a + b + c + d == a + (b + c + d)
  {
  }

  lemma BodySnoc(state: seq<TestData>, data: TestData)
    ensures Body(state + [data]) == Body(state) + TestReportBlocks(data.0, data.1) + [DIVIDER]
  {
    assert (state + [data])[..|state|] == state;
  }

  /** The index of the first divider, or the length when there is none. */
  function FirstDivider(blocks: seq<Block>): (k: nat)
    ensures k <= |blocks|
  {
    if blocks == [] || blocks[0] == Divider then 0 else 1 + FirstDivider(blocks[1..])
  }

  /** The groups of blocks that the dividers close. */
  function Groups(blocks: seq<Block>): seq<seq<Block>>
    decreases |blocks|
  {
    if blocks == [] then []
    else
      var k := FirstDivider(blocks);
      if k == |blocks| then [blocks] else [blocks[..k]] + Groups(blocks[k + 1..])
  }

  lemma {:induction false} FirstDividerAfter(group: seq<Block>, rest: seq<Block>)
    requires Divider !in group
    ensures FirstDivider(group + [Divider] + rest) == |group|
  {
    if group != [] {
      assert (group + [Divider] + rest)[1..] == group[1..] + [Divider] + rest;
      FirstDividerAfter(group[1..], rest);
    }
  }

  lemma GroupsCons(group: seq<Block>, rest: seq<Block>)
    requires Divider !in group
    ensures Groups(group + [Divider] + rest) == [group] + Groups(rest)
  {
    var b := group + [Divider] + rest;
    FirstDividerAfter(group, rest);
    assert b[..|group|] == group;
    assert b[|group| + 1..] == rest;
  }

  /** Splitting the report body at its dividers gives back each test's blocks,
      one group per state entry, in state order. */
  lemma {:induction false} GroupsOfBody(state: seq<TestData>)
    ensures |Groups(Body(state))| == |state|
    ensures forall i :: 0 <= i < |state| ==> Groups(Body(state))[i] == TestReportBlocks(state[i].0, state[i].1)
  {
    if state != [] {
      var head, tail := state[0], state[1..];
      var group := TestReportBlocks(head.0, head.1);
      assert state == [head] + tail;
      assert [head] == [] + [head];
      BodySnoc([], head);
      BodyConcat([head], tail);
      assert Body(state) == group + [Divider] + Body(tail);
      TestReportBlocksShape(head.0, head.1);
      GroupsCons(group, Body(tail));
      GroupsOfBody(tail);
      assert forall i :: 1 <= i < |state| ==> state[i] == tail[i - 1];
    }
  }

  /** The report has exactly one divider per test. */
  lemma {:induction false} DividersOfBody(state: seq<TestData>)
    ensures multiset(Body(state))[Divider] == |state|
  {
    if state != [] {
      var last := state[|state| - 1];
      DividersOfBody(state[..|state| - 1]);
      assert multiset(TestReportBlocks(last.0, last.1))[Divider] == 0;
    }
  }

  // ---------------------------------------------------------------------------
  // The listener object

  class SlackListener {
    /** The data received through `update`, in arrival order. */
    var state: seq<TestData>
    /** The channel `chat_postMessage` is called with. */
    const chat: string
    /** The messages handed to the Slack client, in order. */
    var outbox: seq<Message>

    constructor (chat: string)
      ensures state == [] && this.chat == chat && outbox == []
    {
      state := [];
      this.chat := chat;
      outbox := [];
    }

    /** Appends `data` to the state; nothing is sent. */
    method Update(data: TestData)
      modifies this`state
      ensures state == old(state) + [data]
    {
      state := state + [data];
    }

    /** Builds the heading followed by each test's blocks and a divider, and
        sends them in one message titled `title`. */
    method Finish(title: string)
      modifies this`outbox
      ensures outbox == old(outbox) + [Message(chat, title, ReportBlocks(title, state))]
    {
      var blocks := [HeadingBlock(title)];
      for i := 0 to |state|
        invariant blocks == [HeadingBlock(title)] + Body(state[..i])
        invariant outbox == old(outbox)
      {
        var funcName, report := state[i].0, state[i].1;
        assert state[..i + 1] == state[..i] + [state[i]];
        BodySnoc(state[..i], state[i]);
        ConcatAssoc([HeadingBlock(title)], Body(state[..i]), TestReportBlocks(funcName, report), [DIVIDER]);
        blocks := blocks + TestReportBlocks(funcName, report);
        blocks := blocks + [DIVIDER];
      }
      assert state[..|state|] == state;
      outbox := outbox + [Message(chat, title, blocks)];
    }
  }
}
