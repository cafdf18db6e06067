/** Conversation values shared by the completions engine, and what it means for
    a transcript to be well formed. */
module Messages {

  datatype Option<+T> = None | Some(value: T)

  datatype ToolCall = ToolCall(id: string, name: string, arguments: string)

  datatype Message =
    | System(content: string)
    | User(content: string)
    | Assistant(content: string, name: string, calls: seq<ToolCall>)
    | Tool(content: string, callId: string)

  /** `ms` begins with one tool message per call, in the order of the calls. */
  predicate Answers(ms: seq<Message>, calls: seq<ToolCall>) {
    && |calls| <= |ms|
    && forall i | 0 <= i < |calls| :: ms[i].Tool? && ms[i].callId == calls[i].id
  }

  /** Reads the transcript block by block: a block is one message that is not a
      tool message, followed by the answers to its tool calls. */
  predicate WellFormed(ms: seq<Message>) {
    if ms == [] then true
    else match ms[0]
      case Tool(_, _) => false
      case Assistant(_, _, calls) => Answers(ms[1..], calls) && WellFormed(ms[1 + |calls|..])
      case _ => WellFormed(ms[1..])
  }

  /** The message at `i` has its calls answered by the messages directly after it. */
  predicate AnsweredAt(ms: seq<Message>, i: nat)
    requires i < |ms|
  {
    ms[i].Assistant? ==>
      && i + |ms[i].calls| < |ms|
      && forall j: nat | i < j <= i + |ms[i].calls| ::
           ms[j].Tool? && ms[j].callId == ms[i].calls[j - i - 1].id
  }

  /** The message at `j` lies among the answers to the message at `i`. */
  predicate Covers(ms: seq<Message>, i: nat, j: nat)
    requires i < |ms|
  {
    ms[i].Assistant? && i < j <= i + |ms[i].calls|
  }

  /** The same notion message by message: every call is answered in order right
      after its message, and a tool message stands nowhere else. */
  ghost predicate AnsweredEverywhere(ms: seq<Message>) {
    && (forall i: nat | i < |ms| :: AnsweredAt(ms, i))
    && (forall j: nat | j < |ms| && ms[j].Tool? :: exists i: nat :: i < j && Covers(ms, i, j))
  }

  /** The number of messages in the first block. */
  function BlockLength(ms: seq<Message>): (n: nat)
    requires ms != []
    ensures n >= 1
  {
    if ms[0].Assistant? then 1 + |ms[0].calls| else 1
  }

  lemma {:induction false} WellFormedIsPointwise(ms: seq<Message>)
    ensures WellFormed(ms) <==> AnsweredEverywhere(ms)
    decreases |ms|
  {
    if ms == [] {
    } else if ms[0].Tool? {
    } else {
      if ms[0].Assistant? {
        HeadAnswered(ms);
      }
      if AnsweredAt(ms, 0) {
        WellFormedIsPointwise(ms[BlockLength(ms)..]);
        PointwiseFromTail(ms);
        if AnsweredEverywhere(ms) {
          PointwiseToTail(ms);
        }
      }
    }
  }

  lemma HeadAnswered(ms: seq<Message>)
    requires ms != [] && ms[0].Assistant?
    ensures AnsweredAt(ms, 0) <==> Answers(ms[1..], ms[0].calls)
  {
    var calls := ms[0].calls;
    if AnsweredAt(ms, 0) {
      assert forall k | 0 <= k < |calls| :: ms[1..][k] == ms[k + 1];
    }
    if Answers(ms[1..], calls) {
      assert forall j: nat | 0 < j <= |calls| :: ms[j] == ms[1..][j - 1];
    }
  }

  lemma PointwiseToTail(ms: seq<Message>)
    requires ms != [] && !ms[0].Tool? && AnsweredAt(ms, 0) && AnsweredEverywhere(ms)
    ensures AnsweredEverywhere(ms[BlockLength(ms)..])
  {
    var n := BlockLength(ms);
    var rest := ms[n..];
    forall i: nat | i < |rest| ensures AnsweredAt(rest, i) {
      assert AnsweredAt(ms, n + i);
    }
    forall j: nat | j < |rest| && rest[j].Tool? ensures exists i: nat :: i < j && Covers(rest, i, j) {
      assert ms[n + j].Tool?;
      var i: nat :| i < n + j && Covers(ms, i, n + j);
      assert i >= n;
      assert Covers(rest, i - n, j);
    }
  }

  lemma PointwiseFromTail(ms: seq<Message>)
    requires ms != [] && !ms[0].Tool? && AnsweredAt(ms, 0)
    ensures AnsweredEverywhere(ms[BlockLength(ms)..]) ==> AnsweredEverywhere(ms)
  {
    var n := BlockLength(ms);
    var rest := ms[n..];
    if AnsweredEverywhere(rest) {
      forall i: nat | i < |ms| ensures AnsweredAt(ms, i) {
        if i >= n {
          assert AnsweredAt(rest, i - n);
        }
      }
      forall j: nat | j < |ms| && ms[j].Tool? ensures exists i: nat :: i < j && Covers(ms, i, j) {
        if j < n {
          assert Covers(ms, 0, j);
        } else {
          assert rest[j - n].Tool?;
          var i: nat :| i < j - n && Covers(rest, i, j - n);
          assert Covers(ms, n + i, j);
        }
      }
    }
  }

  lemma FirstBlock(ms: seq<Message>)
    requires ms != [] && WellFormed(ms)
    ensures !ms[0].Tool? && (ms[0].Assistant? ==> Answers(ms[1..], ms[0].calls))
    ensures BlockLength(ms) <= |ms| && WellFormed(ms[BlockLength(ms)..])
  {
  }

  lemma BlockAndRest(ms: seq<Message>)
    requires ms != [] && !ms[0].Tool? && (ms[0].Assistant? ==> Answers(ms[1..], ms[0].calls))
    requires BlockLength(ms) <= |ms| && WellFormed(ms[BlockLength(ms)..])
    ensures WellFormed(ms)
  {
  }

  /** Behind a well-formed transcript, what follows decides whether the whole is well formed. */
  lemma {:induction false} WellFormedAppend(a: seq<Message>, b: seq<Message>)
    requires WellFormed(a)
    ensures WellFormed(a + b) <==> WellFormed(b)
    decreases |a|
  {
    if a == [] {
      assert a + b == b;
    } else {
      var n := BlockLength(a);
      FirstBlock(a);
      WellFormedAppend(a[n..], b);
      assert (a + b)[n..] == a[n..] + b;
      if WellFormed(a + b) {
        FirstBlock(a + b);
      }
      if WellFormed(b) {
        AnswersBehind(a, b);
        BlockAndRest(a + b);
      }
    }
  }

  lemma AnswersBehind(a: seq<Message>, b: seq<Message>)
    requires a != [] && (a[0].Assistant? ==> Answers(a[1..], a[0].calls))
    ensures a[0].Assistant? ==> Answers((a + b)[1..], a[0].calls)
  {
    assert (a + b)[1..] == a[1..] + b;
  }

  /** What does not begin with a tool message cannot complete a transcript that is not well formed. */
  lemma {:induction false} SuffixCannotRepair(a: seq<Message>, b: seq<Message>)
    requires WellFormed(a + b) && (b == [] || !b[0].Tool?)
    ensures WellFormed(a)
    decreases |a|
  {
    if a != [] {
      var n := BlockLength(a);
      FirstBlock(a + b);
      AppendTail(a, b, 1);
      if a[0].Assistant? {
        AnswersBefore(a[1..], b, a[0].calls);
      }
      AppendTail(a, b, n);
      SuffixCannotRepair(a[n..], b);
      BlockAndRest(a);
    }
  }

  lemma AppendTail(a: seq<Message>, b: seq<Message>, n: nat)
    ensures n <= |a| ==> (a + b)[n..] == a[n..] + b
  {
  }

  lemma AnswersBefore(a: seq<Message>, b: seq<Message>, calls: seq<ToolCall>)
    requires Answers(a + b, calls) && (b == [] || !b[0].Tool?)
    ensures Answers(a, calls)
  {
    var ms := a + b;
    if b != [] {
      assert ms[|a|] == b[0];
    }
    assert forall i | 0 <= i < |a| :: ms[i] == a[i];
  }

  /** An assistant message and its tool messages are well formed exactly when
      every call has its answer. */
  lemma BlockWellFormed(m: Message, answers: seq<Message>)
    requires m.Assistant? && |answers| <= |m.calls| && Answers(answers, m.calls[..|answers|])
    ensures WellFormed([m] + answers) <==> |answers| == |m.calls|
  {
    var ms := [m] + answers;
    assert ms[1..] == answers;
    if |answers| == |m.calls| {
      assert m.calls[..|answers|] == m.calls;
      assert ms[1 + |m.calls|..] == [];
    }
  }

  lemma PlainWellFormed(m: Message)
    requires !m.Tool? && (m.Assistant? ==> m.calls == [])
    ensures WellFormed([m])
  {
    assert [m][1..] == [];
  }
}
