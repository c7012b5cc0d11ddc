/**
 * The splitter that sends a long reply as several messages. handlers.py
 * holds three copies of it (today stats, service report, scooter search).
 * Each appends lines to a buffer and sends the buffer first when the next
 * line would take the joined text over 4000 characters. The copies differ
 * in two ways: the service-report copy measures the exact joined length,
 * and only the today-stats copy refuses to send an empty buffer.
 */
module Chunker {
  import opened Text

  const MessageLimit: nat := 4000

  /** Which of the three copies. */
  datatype Policy = TodayStats | ServiceReport | FindScooter

  function Join(lines: seq<string>): string
  {
    JoinWith(lines, "\n")
  }

  /** The test that sends the buffer before `line` is added to it. */
  predicate Overflows(policy: Policy, buffer: seq<string>, line: string)
  {
    match policy
    case ServiceReport => |Join(buffer + [line])| > MessageLimit
    case _ => |Join(buffer)| + |line| + 1 > MessageLimit
  }

  /** The messages sent so far, as groups of lines, and the current buffer. */
  datatype State = State(sent: seq<seq<string>>, buffer: seq<string>)

  /** The state after the loop has taken `lines`. */
  function Feed(policy: Policy, lines: seq<string>): State
  {
    if lines == [] then State([], [])
    else
      var st := Feed(policy, lines[..|lines| - 1]);
      var line := lines[|lines| - 1];
      if Overflows(policy, st.buffer, line) then
        if policy == TodayStats && st.buffer == [] then State(st.sent, [line])
        else State(st.sent + [st.buffer], [line])
      else State(st.sent, st.buffer + [line])
  }

  /** The groups of lines sent as messages: the flushes, then the last buffer if it holds anything. */
  function Groups(policy: Policy, lines: seq<string>): seq<seq<string>>
  {
    var st := Feed(policy, lines);
    if st.buffer != [] then st.sent + [st.buffer] else st.sent
  }

  function Flatten(groups: seq<seq<string>>): seq<string>
  {
    if groups == [] then [] else Flatten(groups[..|groups| - 1]) + groups[|groups| - 1]
  }

  lemma FlattenAppend(groups: seq<seq<string>>, g: seq<string>)
    ensures Flatten(groups + [g]) == Flatten(groups) + g
  {
    assert (groups + [g])[..|groups|] == groups;
  }

  lemma {:induction false} FeedKeepsLines(policy: Policy, lines: seq<string>)
    ensures Flatten(Feed(policy, lines).sent) + Feed(policy, lines).buffer == lines
  {
    if lines != [] {
      var init := lines[..|lines| - 1];
      var line := lines[|lines| - 1];
      FeedKeepsLines(policy, init);
      var st := Feed(policy, init);
      assert init + [line] == lines;
      if Overflows(policy, st.buffer, line) {
        if !(policy == TodayStats && st.buffer == []) {
          FlattenAppend(st.sent, st.buffer);
        }
      }
    }
  }

  /** Every line is sent exactly once, in order: the groups concatenate to the input. */
  lemma GroupsKeepLines(policy: Policy, lines: seq<string>)
    ensures Flatten(Groups(policy, lines)) == lines
  {
    FeedKeepsLines(policy, lines);
    var st := Feed(policy, lines);
    if st.buffer != [] {
      FlattenAppend(st.sent, st.buffer);
    } else {
      assert Flatten(st.sent) + [] == Flatten(st.sent);
    }
  }

  lemma JoinAppend(lines: seq<string>, line: string)
    ensures |Join(lines + [line])| == if lines == [] then |line| else |Join(lines)| + 1 + |line|
  {
    if lines == [] {
      assert lines + [line] == [line];
    } else {
      JoinWithAppend(lines, "\n", line);
    }
  }

  /** Messages of two or more lines fit the limit; so does a buffer of two or more lines. */
  ghost predicate Fits(st: State)
  {
    && (forall k :: 0 <= k < |st.sent| && |st.sent[k]| >= 2 ==> |Join(st.sent[k])| <= MessageLimit)
    && (|st.buffer| >= 2 ==> |Join(st.buffer)| <= MessageLimit)
  }

  lemma {:induction false} FeedFits(policy: Policy, lines: seq<string>)
    ensures Fits(Feed(policy, lines))
  {
    if lines != [] {
      var init := lines[..|lines| - 1];
      var line := lines[|lines| - 1];
      FeedFits(policy, init);
      var st := Feed(policy, init);
      if !Overflows(policy, st.buffer, line) {
        JoinAppend(st.buffer, line);
      }
    }
  }

  /** A message of two or more lines is at most 4000 characters long. */
  lemma GroupsFit(policy: Policy, lines: seq<string>)
    ensures forall g :: g in Groups(policy, lines) && |g| >= 2 ==> |Join(g)| <= MessageLimit
  {
    FeedFits(policy, lines);
  }

  /**
   * Only a flush before anything was buffered sends an empty message, so
   * an empty message can only be the first, and only the copies without
   * the guard send one: exactly when the first line alone overflows.
   */
  ghost predicate EmptyOnlyFirst(policy: Policy, lines: seq<string>, sent: seq<seq<string>>)
  {
    forall k :: 0 <= k < |sent| && sent[k] == [] ==>
      k == 0 && policy != TodayStats && lines != [] && Overflows(policy, [], lines[0])
  }

  lemma {:induction false} FeedEmpty(policy: Policy, lines: seq<string>)
    ensures EmptyOnlyFirst(policy, lines, Feed(policy, lines).sent)
    ensures lines != [] ==> Feed(policy, lines).buffer != []
    ensures lines != [] && policy != TodayStats && Overflows(policy, [], lines[0]) ==>
              Feed(policy, lines).sent != [] && Feed(policy, lines).sent[0] == []
    ensures lines == [] ==> Feed(policy, lines).sent == []
  {
    if lines != [] {
      var init := lines[..|lines| - 1];
      FeedEmpty(policy, init);
      if init != [] {
        assert init[0] == lines[0];
      } else {
        assert Feed(policy, init) == State([], []);
      }
    }
  }

  lemma GroupsEmpty(policy: Policy, lines: seq<string>)
    ensures forall k :: 0 <= k < |Groups(policy, lines)| && Groups(policy, lines)[k] == [] ==>
      k == 0 && policy != TodayStats && lines != [] && Overflows(policy, [], lines[0])
    ensures lines != [] && policy != TodayStats && Overflows(policy, [], lines[0]) ==>
      Groups(policy, lines) != [] && Groups(policy, lines)[0] == []
  {
    FeedEmpty(policy, lines);
  }

  /** The copies with a guard never send an empty message. */
  lemma TodayStatsNeverEmpty(lines: seq<string>)
    ensures [] !in Groups(TodayStats, lines)
  {
    GroupsEmpty(TodayStats, lines);
  }

  /** The two unguarded tests differ by one when the buffer is empty: a line of exactly 4000 characters. */
  lemma FirstLineThresholds(line: string)
    ensures Overflows(FindScooter, [], line) <==> |line| >= MessageLimit
    ensures Overflows(TodayStats, [], line) <==> |line| >= MessageLimit
    ensures Overflows(ServiceReport, [], line) <==> |line| > MessageLimit
  {
    assert [] + [line] == [line];
  }

  function Messages(groups: seq<seq<string>>): seq<string>
  {
    seq(|groups|, k requires 0 <= k < |groups| => Join(groups[k]))
  }

  /** The splitting loop; returns the texts of the messages it sends, in order. */
  method Chunk(policy: Policy, lines: seq<string>) returns (messages: seq<string>)
    ensures messages == Messages(Groups(policy, lines))
  {
    messages := [];
    var buffer: seq<string> := [];
    ghost var sent: seq<seq<string>> := [];
    for i := 0 to |lines|
      invariant Feed(policy, lines[..i]) == State(sent, buffer)
      invariant messages == Messages(sent)
    {
      var line := lines[i];
      assert lines[..i + 1][..i] == lines[..i];
      var overflow := match policy
        case ServiceReport => |Join(buffer + [line])| > MessageLimit
        case _ => |Join(buffer)| + |line| + 1 > MessageLimit;
      if overflow {
        if policy != TodayStats || buffer != [] {
          messages := messages + [Join(buffer)];
          sent := sent + [buffer];
          buffer := [];
        }
      }
      buffer := buffer + [line];
    }
    assert lines[..|lines|] == lines;
    if buffer != [] {
      messages := messages + [Join(buffer)];
      sent := sent + [buffer];
    }
  }
}
