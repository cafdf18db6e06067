/** Rebuilding tool calls from the fragments of a streamed completion. */
module ToolCallStream {
  import opened Messages

  /** A fragment of the tool call at `index`; the first fragment names the call. */
  datatype Delta = Delta(index: int, id: string, name: string, arguments: string)

  datatype Choice = Choice(content: string, deltas: seq<Delta>, finish: string)

  datatype Chunk = Chunk(id: string, choice: Option<Choice>)

  datatype Response = Response(id: string, hasChoice: bool, content: string, finish: string, toolCalls: seq<ToolCall>)

  type Calls = map<int, ToolCall>

  datatype Acc = Acc(response: Option<Response>, calls: Calls)

  function Absorb(calls: Calls, d: Delta): Calls {
    if d.index in calls then
      calls[d.index := calls[d.index].(arguments := calls[d.index].arguments + d.arguments)]
    else calls[d.index := ToolCall(d.id, d.name, d.arguments)]
  }

  function AbsorbAll(calls: Calls, ds: seq<Delta>): Calls
    decreases |ds|
  {
    if ds == [] then calls else AbsorbAll(Absorb(calls, ds[0]), ds[1..])
  }

  function Accumulate(acc: Acc, chunk: Chunk): Acc {
    var r := if acc.response.None? then Response(chunk.id, false, "", "", []) else acc.response.value;
    if chunk.choice.None? then acc.(response := Some(r))
    else
      var c := chunk.choice.value;
      Acc(Some(r.(hasChoice := true, content := r.content + c.content,
                  finish := if c.finish != "" then c.finish else r.finish)),
          AbsorbAll(acc.calls, c.deltas))
  }

  function AccumulateAll(acc: Acc, chunks: seq<Chunk>): Acc
    decreases |chunks|
  {
    if chunks == [] then acc else AccumulateAll(Accumulate(acc, chunks[0]), chunks[1..])
  }

  const EMPTY := Acc(None, map[])

  /** The calls at indices below `n`, in index order. */
  function Listed(calls: Calls, n: nat): seq<ToolCall> {
    if n == 0 then []
    else Listed(calls, n - 1) + if n - 1 in calls then [calls[n - 1]] else []
  }

  predicate Below(calls: Calls, n: int) {
    forall i :: i in calls ==> i < n
  }

  /** The list is that of all calls, whatever bound above the indices one takes. */
  lemma {:induction false} ListedAnyBound(calls: Calls, m: nat, n: nat)
    requires m <= n && Below(calls, m)
    ensures Listed(calls, m) == Listed(calls, n)
    decreases n - m
  {
    if m < n {
      ListedAnyBound(calls, m, n - 1);
    }
  }

  function IndicesBelow(calls: Calls, n: int): set<int> {
    set i | i in calls && 0 <= i < n
  }

  lemma RankStep(calls: Calls, n: nat)
    ensures |IndicesBelow(calls, 0)| == 0
    ensures |IndicesBelow(calls, n + 1)| == |IndicesBelow(calls, n)| + if n in calls then 1 else 0
  {
    assert IndicesBelow(calls, 0) == {};
    if n in calls {
      assert IndicesBelow(calls, n + 1) == IndicesBelow(calls, n) + {n};
    } else {
      assert IndicesBelow(calls, n + 1) == IndicesBelow(calls, n);
    }
  }

  /** The list holds the call where the call's index stands among the indices there are. */
  predicate ListedAtRank(calls: Calls, listed: seq<ToolCall>, i: int)
    requires i in calls
  {
    |IndicesBelow(calls, i)| < |listed| && listed[|IndicesBelow(calls, i)|] == calls[i]
  }

  /** All calls below the bound are listed, each at its place, whatever the gaps between
      the indices. */
  lemma {:induction false} ListedByRank(calls: Calls, n: nat)
    ensures |Listed(calls, n)| == |IndicesBelow(calls, n)|
    ensures forall i | i in calls && 0 <= i < n :: ListedAtRank(calls, Listed(calls, n), i)
  {
    if n > 0 {
      ListedByRank(calls, n - 1);
      RankStep(calls, n - 1);
      var before, listed := Listed(calls, n - 1), Listed(calls, n);
      forall i | i in calls && 0 <= i < n ensures ListedAtRank(calls, listed, i) {
        assert i < n - 1 ==> ListedAtRank(calls, before, i);
      }
    } else {
      RankStep(calls, 0);
    }
  }

  /** The fragments at one index, in order of arrival. */
  function Fragments(ds: seq<Delta>, index: int): seq<Delta> {
    if ds == [] then []
    else (if ds[0].index == index then [ds[0]] else []) + Fragments(ds[1..], index)
  }

  function Arguments(ds: seq<Delta>): string {
    if ds == [] then "" else ds[0].arguments + Arguments(ds[1..])
  }

  /** What one index holds depends on the fragments at that index alone, however
      the fragments of different calls are interleaved. */
  lemma {:induction false} PerIndex(calls: Calls, ds: seq<Delta>, i: int)
    ensures var all, f := AbsorbAll(calls, ds), Fragments(ds, i);
      && (i in all <==> i in calls || f != [])
      && (i in calls ==> all[i] == calls[i].(arguments := calls[i].arguments + Arguments(f)))
      && (i !in calls && f != [] ==> all[i] == ToolCall(f[0].id, f[0].name, Arguments(f)))
    decreases |ds|
  {
    if ds != [] {
      PerIndex(Absorb(calls, ds[0]), ds[1..], i);
      if ds[0].index == i {
        var rest := Fragments(ds[1..], i);
        assert ([ds[0]] + rest)[1..] == rest;
        if i in calls {
          assert (calls[i].arguments + ds[0].arguments) + Arguments(rest)
              == calls[i].arguments + (ds[0].arguments + Arguments(rest));
        }
      } else {
        assert [] + Fragments(ds[1..], i) == Fragments(ds[1..], i);
      }
    } else if i in calls {
      assert calls[i].arguments + "" == calls[i].arguments;
    }
  }

  /** `ds` cuts the arguments of each call into fragments, interleaved in any way;
      the first fragment of a call carries its id and name. */
  ghost predicate Cuts(ds: seq<Delta>, calls: seq<ToolCall>) {
    && (forall d | d in ds :: 0 <= d.index < |calls|)
    && forall i | 0 <= i < |calls| :: CutOf(Fragments(ds, i), calls[i])
  }

  predicate CutOf(f: seq<Delta>, call: ToolCall) {
    f != [] && f[0].id == call.id && f[0].name == call.name && Arguments(f) == call.arguments
  }

  lemma {:induction false} NoFragments(ds: seq<Delta>, i: int)
    requires forall d | d in ds :: d.index != i
    ensures Fragments(ds, i) == []
  {
    if ds != [] {
      NoFragments(ds[1..], i);
    }
  }

  lemma {:induction false} ListedExactly(calls: Calls, expected: seq<ToolCall>, n: nat)
    requires n <= |expected| && forall i | 0 <= i < |expected| :: i in calls && calls[i] == expected[i]
    ensures Listed(calls, n) == expected[..n]
  {
    if n > 0 {
      ListedExactly(calls, expected, n - 1);
    }
  }

  lemma CutsRebuild(ds: seq<Delta>, calls: seq<ToolCall>)
    requires Cuts(ds, calls)
    ensures var all := AbsorbAll(map[], ds); Below(all, |calls|) && Listed(all, |calls|) == calls
  {
    var all := AbsorbAll(map[], ds);
    forall i ensures i in all <==> 0 <= i < |calls| {
      PerIndex(map[], ds, i);
      if !(0 <= i < |calls|) {
        NoFragments(ds, i);
      } else {
        assert CutOf(Fragments(ds, i), calls[i]);
      }
    }
    forall i | 0 <= i < |calls| ensures all[i] == calls[i] {
      PerIndex(map[], ds, i);
      assert CutOf(Fragments(ds, i), calls[i]);
    }
    ListedExactly(all, calls, |calls|);
    assert calls[..|calls|] == calls;
  }

  function AllDeltas(chunks: seq<Chunk>): seq<Delta> {
    if chunks == [] then []
    else (if chunks[0].choice.Some? then chunks[0].choice.value.deltas else []) + AllDeltas(chunks[1..])
  }

  function AllContent(chunks: seq<Chunk>): string {
    if chunks == [] then ""
    else (if chunks[0].choice.Some? then chunks[0].choice.value.content else "") + AllContent(chunks[1..])
  }

  lemma {:induction false} AbsorbAppend(calls: Calls, a: seq<Delta>, b: seq<Delta>)
    ensures AbsorbAll(calls, a + b) == AbsorbAll(AbsorbAll(calls, a), b)
    decreases |a|
  {
    if a == [] {
      assert a + b == b;
    } else {
      assert (a + b)[1..] == a[1..] + b;
      AbsorbAppend(Absorb(calls, a[0]), a[1..], b);
    }
  }

  lemma {:induction false} ChunksAccumulate(acc: Acc, chunks: seq<Chunk>)
    requires acc.response.Some?
    ensures var all := AccumulateAll(acc, chunks);
      && all.calls == AbsorbAll(acc.calls, AllDeltas(chunks))
      && all.response.Some? && all.response.value.content == acc.response.value.content + AllContent(chunks)
      && all.response.value.toolCalls == acc.response.value.toolCalls
      && (all.response.value.hasChoice <==>
            acc.response.value.hasChoice || exists i :: 0 <= i < |chunks| && chunks[i].choice.Some?)
    decreases |chunks|
  {
    if chunks != [] {
      var next := Accumulate(acc, chunks[0]);
      ChunksAccumulate(next, chunks[1..]);
      if chunks[0].choice.Some? {
        AbsorbAppend(acc.calls, chunks[0].choice.value.deltas, AllDeltas(chunks[1..]));
        assert acc.response.value.content + (chunks[0].choice.value.content + AllContent(chunks[1..]))
            == (acc.response.value.content + chunks[0].choice.value.content) + AllContent(chunks[1..]);
      } else {
        assert [] + AllDeltas(chunks[1..]) == AllDeltas(chunks[1..]);
        assert "" + AllContent(chunks[1..]) == AllContent(chunks[1..]);
      }
      if next.response.value.hasChoice && !acc.response.value.hasChoice {
        assert chunks[0].choice.Some?;
      }
      assert forall i | 0 < i < |chunks| :: chunks[i] == chunks[1..][i - 1];
      if i :| 0 <= i < |chunks[1..]| && chunks[1..][i].choice.Some? {
        assert chunks[i + 1].choice.Some?;
      }
    }
  }

  predicate Finishes(chunk: Chunk) {
    chunk.choice.Some? && chunk.choice.value.finish != ""
  }

  /** The id is the first one, and the finish reason the last one that was given. */
  lemma {:induction false} FirstIdLastFinish(acc: Acc, chunks: seq<Chunk>)
    requires acc.response.Some?
    ensures var was, r := acc.response.value, AccumulateAll(acc, chunks).response;
      && r.Some? && r.value.id == was.id
      && ((forall i | 0 <= i < |chunks| :: !Finishes(chunks[i])) ==> r.value.finish == was.finish)
      && (forall i | 0 <= i < |chunks| && FinishesLast(chunks, i) :: r.value.finish == chunks[i].choice.value.finish)
    decreases |chunks|
  {
    if chunks != [] {
      FirstIdLastFinish(Accumulate(acc, chunks[0]), chunks[1..]);
      assert forall i | 0 < i < |chunks| :: chunks[i] == chunks[1..][i - 1];
      forall i | 0 <= i < |chunks| && FinishesLast(chunks, i)
        ensures AccumulateAll(acc, chunks).response.value.finish == chunks[i].choice.value.finish
      {
        if i > 0 {
          assert FinishesLast(chunks[1..], i - 1);
        }
      }
    }
  }

  predicate FinishesLast(chunks: seq<Chunk>, i: nat)
    requires i < |chunks|
  {
    && Finishes(chunks[i])
    && forall j | i < j < |chunks| :: !Finishes(chunks[j])
  }

  /** There are calls, and a choice to put them on. */
  predicate Finalizes(acc: Acc) {
    acc.calls != map[] && acc.response.Some? && acc.response.value.hasChoice
  }

  /** The response with its tool calls in place. */
  function Finalized(acc: Acc, n: nat): Option<Response> {
    if !Finalizes(acc) then acc.response
    else Some(acc.response.value.(toolCalls := Listed(acc.calls, n)))
  }

  /** Any cutting of the tool calls and of the text over any number of chunks is put
      together again: the calls in index order, the text in order of arrival, under the
      first chunk's id and with the finish reason given last; and there is a final chunk
      to send exactly when there are calls. */
  lemma {:induction false} StreamRebuildsResponse(chunks: seq<Chunk>, calls: seq<ToolCall>)
    requires chunks != [] && Cuts(AllDeltas(chunks), calls)
    ensures var acc := AccumulateAll(EMPTY, chunks);
      var r := Finalized(acc, |calls|);
      && Below(acc.calls, |calls|)
      && r.Some? && r.value.toolCalls == calls && r.value.content == AllContent(chunks)
      && r.value.id == chunks[0].id
      && ((forall i | 0 <= i < |chunks| :: !Finishes(chunks[i])) ==> r.value.finish == "")
      && (forall i | 0 <= i < |chunks| && FinishesLast(chunks, i) :: r.value.finish == chunks[i].choice.value.finish)
      && (Finalizes(acc) <==> calls != [])
  {
    var first := Acc(Some(Response(chunks[0].id, false, "", "", [])), map[]);
    assert Accumulate(EMPTY, chunks[0]) == Accumulate(first, chunks[0]);
    assert AccumulateAll(EMPTY, chunks) == AccumulateAll(first, chunks);
    ChunksAccumulate(first, chunks);
    FirstIdLastFinish(first, chunks);
    CutsRebuild(AllDeltas(chunks), calls);
    var acc := AccumulateAll(EMPTY, chunks);
    assert "" + AllContent(chunks) == AllContent(chunks);
    if calls != [] {
      assert CutOf(Fragments(AllDeltas(chunks), 0), calls[0]);
      SomeChoice(chunks);
      PerIndex(map[], AllDeltas(chunks), 0);
      assert 0 in acc.calls;
    }
  }

  lemma {:induction false} SomeChoice(chunks: seq<Chunk>)
    requires AllDeltas(chunks) != []
    ensures exists i :: 0 <= i < |chunks| && chunks[i].choice.Some?
  {
    if chunks[0].choice.None? {
      assert [] + AllDeltas(chunks[1..]) == AllDeltas(chunks[1..]);
      SomeChoice(chunks[1..]);
      var i :| 0 <= i < |chunks[1..]| && chunks[1..][i].choice.Some?;
      assert chunks[i + 1].choice.Some?;
    }
  }

  /** The single chunk that repeats the finished calls at the end of the stream. */
  function FinalDeltas(calls: seq<ToolCall>): seq<Delta> {
    seq(|calls|, i requires 0 <= i < |calls| => Delta(i, calls[i].id, calls[i].name, calls[i].arguments))
  }

  lemma {:induction false} FragmentsOfFinal(calls: seq<ToolCall>, from: nat, i: int)
    requires from <= |calls|
    ensures Fragments(FinalDeltas(calls)[from..], i)
            == if from <= i < |calls| then [FinalDeltas(calls)[i]] else []
    decreases |calls| - from
  {
    var ds := FinalDeltas(calls)[from..];
    if from < |calls| {
      assert ds[1..] == FinalDeltas(calls)[from + 1..];
      FragmentsOfFinal(calls, from + 1, i);
    }
  }

  /** A consumer that sees only the final chunk rebuilds the calls from it. One that
      adds it to the fragments it already has ends up with every argument string
      twice: with the same calls exactly when no call has arguments. */
  lemma FinalChunk(ds: seq<Delta>, calls: seq<ToolCall>)
    requires Cuts(ds, calls)
    ensures Cuts(FinalDeltas(calls), calls)
    ensures var both := AbsorbAll(AbsorbAll(map[], ds), FinalDeltas(calls));
      Listed(both, |calls|) == calls <==> forall i | 0 <= i < |calls| :: calls[i].arguments == ""
  {
    var both := AbsorbAll(AbsorbAll(map[], ds), FinalDeltas(calls));
    forall i | 0 <= i < |calls|
      ensures CutOf(Fragments(FinalDeltas(calls), i), calls[i])
      ensures i in both && both[i] == DoubledAll(calls)[i]
    {
      FinalAt(ds, calls, i);
    }
    ListedExactly(both, DoubledAll(calls), |calls|);
    DoubledSame(calls);
  }

  function DoubledAll(calls: seq<ToolCall>): seq<ToolCall> {
    seq(|calls|, i requires 0 <= i < |calls| => Doubled(calls[i]))
  }

  lemma DoubledSame(calls: seq<ToolCall>)
    ensures DoubledAll(calls)[..|calls|] == calls <==> forall i | 0 <= i < |calls| :: calls[i].arguments == ""
  {
    var twice := DoubledAll(calls);
    assert twice[..|calls|] == twice;
    assert forall i | 0 <= i < |calls| :: |twice[i].arguments| == 2 * |calls[i].arguments|;
    assert forall i | 0 <= i < |calls| :: twice[i] == calls[i] <==> calls[i].arguments == "";
    assert twice == calls <==> forall i | 0 <= i < |calls| :: twice[i] == calls[i];
  }

  function Doubled(call: ToolCall): ToolCall {
    call.(arguments := call.arguments + call.arguments)
  }

  lemma FinalAt(ds: seq<Delta>, calls: seq<ToolCall>, i: nat)
    requires Cuts(ds, calls) && i < |calls|
    ensures CutOf(Fragments(FinalDeltas(calls), i), calls[i])
    ensures var both := AbsorbAll(AbsorbAll(map[], ds), FinalDeltas(calls));
      i in both && both[i] == Doubled(calls[i])
  {
    var final := FinalDeltas(calls);
    assert final[0..] == final;
    FragmentsOfFinal(calls, 0, i);
    assert [final[i]][1..] == [] && final[i].arguments + "" == final[i].arguments;
    assert CutOf(Fragments(ds, i), calls[i]);
    PerIndex(map[], ds, i);
    PerIndex(AbsorbAll(map[], ds), final, i);
  }

  /** The accumulator of a running stream. */
  class Stream {
    var response: Option<Response>
    var toolCallsMap: Calls

    constructor ()
      ensures Acc(response, toolCallsMap) == EMPTY
    {
      response, toolCallsMap := None, map[];
    }

    method AccumulateStreamChunk(chunk: Chunk)
      modifies this
      ensures Acc(response, toolCallsMap) == Accumulate(Acc(old(response), old(toolCallsMap)), chunk)
    {
      if response.None? {
        response := Some(Response(chunk.id, false, "", "", []));
      }
      if chunk.choice.None? {
        return;
      }
      var choice := chunk.choice.value;
      response := Some(response.value.(hasChoice := true));
      assert response.value.content + "" == response.value.content;
      if choice.content != "" {
        response := Some(response.value.(content := response.value.content + choice.content));
      }
      assert choice.deltas[0..] == choice.deltas;
      for i := 0 to |choice.deltas|
        invariant AbsorbAll(toolCallsMap, choice.deltas[i..]) == AbsorbAll(old(toolCallsMap), choice.deltas)
        modifies this`toolCallsMap
      {
        var d := choice.deltas[i];
        assert choice.deltas[i..][0] == d && choice.deltas[i..][1..] == choice.deltas[i + 1..];
        if d.index in toolCallsMap {
          if d.arguments != "" {
            var existing := toolCallsMap[d.index];
            toolCallsMap := toolCallsMap[d.index := existing.(arguments := existing.arguments + d.arguments)];
          } else {
            AbsorbNothing(toolCallsMap, d);
          }
        } else {
          toolCallsMap := toolCallsMap[d.index := ToolCall(d.id, d.name, d.arguments)];
        }
      }
      if choice.finish != "" {
        response := Some(response.value.(finish := choice.finish));
      }
    }

    /** Sets the finished calls on the response and, exactly when there are any, sends
        the final chunk with them. */
    method ProcessToolCalls() returns (final: Option<seq<Delta>>)
      modifies this`response
      ensures forall n: nat :: Below(toolCallsMap, n) ==>
        response == Finalized(Acc(old(response), toolCallsMap), n)
      ensures response.Some? <==> old(response).Some?
      ensures var listed := Finalizes(Acc(old(response), toolCallsMap)) && response.value.toolCalls != [];
        final == if listed then Some(FinalDeltas(response.value.toolCalls)) else None
    {
      if toolCallsMap == map[] || response.None? || !response.value.hasChoice {
        return None;
      }
      var maxIndex := MaxIndex(toolCallsMap);
      var toolCalls := [];
      for i := 0 to maxIndex + 1
        invariant toolCalls == Listed(toolCallsMap, i)
      {
        if i in toolCallsMap {
          toolCalls := toolCalls + [toolCallsMap[i]];
        }
      }
      response := Some(response.value.(toolCalls := toolCalls));
      forall n: nat | Below(toolCallsMap, n) ensures Listed(toolCallsMap, n) == toolCalls {
        if n <= maxIndex + 1 {
          ListedAnyBound(toolCallsMap, n, maxIndex + 1);
        } else {
          ListedAnyBound(toolCallsMap, maxIndex + 1, n);
        }
      }
      if |toolCalls| > 0 {
        var deltas := SendFinal(toolCalls);
        return Some(deltas);
      }
      final := None;
    }
  }

  lemma AbsorbNothing(calls: Calls, d: Delta)
    requires d.index in calls && d.arguments == ""
    ensures Absorb(calls, d) == calls
  {
    assert calls[d.index].arguments + "" == calls[d.index].arguments;
  }

  lemma HasElement(s: set<int>)
    ensures s == {} || exists x :: x in s
  {
    if forall x :: x !in s {
      assert s == {};
    }
  }

  /** The largest index, or -1 when every index is negative. */
  method MaxIndex(calls: Calls) returns (max: int)
    ensures max >= -1 && Below(calls, max + 1)
    ensures max == -1 || max in calls
  {
    max := -1;
    var rest: set<int> := calls.Keys;
    while rest != {}
      invariant max >= -1 && (max == -1 || max in calls)
      invariant rest <= calls.Keys
      invariant forall i | i in calls :: i in rest || i <= max
      decreases rest
    {
      HasElement(rest);
      var index :| index in rest;
      if index > max {
        max := index;
      }
      rest := rest - {index};
    }
  }

  method SendFinal(calls: seq<ToolCall>) returns (deltas: seq<Delta>)
    ensures deltas == FinalDeltas(calls)
  {
    var buffer := new Delta[|calls|](_ => Delta(0, "", "", ""));
    for i := 0 to |calls|
      invariant buffer[..i] == FinalDeltas(calls)[..i]
    {
      buffer[i] := Delta(i, calls[i].id, calls[i].name, calls[i].arguments);
    }
    deltas := buffer[..];
  }

  /** The second provider's finalizer: the same list by its own loop; the final chunk
      is sent whenever the calls are put in place. */
  method FinalizeToolCalls(response: Response, calls: Calls) returns (r: Response, final: Option<seq<Delta>>)
    ensures final == if Finalizes(Acc(Some(response), calls)) then Some(FinalDeltas(r.toolCalls)) else None
    ensures forall n: nat :: Below(calls, n) ==> Some(r) == Finalized(Acc(Some(response), calls), n)
  {
    if calls == map[] || !response.hasChoice {
      return response, None;
    }
    var maxIndex := MaxIndex(calls);
    var toolCalls := [];
    var i := 0;
    while i <= maxIndex
      invariant 0 <= i <= maxIndex + 1 && toolCalls == Listed(calls, i)
    {
      if i in calls {
        toolCalls := toolCalls + [calls[i]];
      }
      i := i + 1;
    }
    r := response.(toolCalls := toolCalls);
    var deltas := SendFinal(toolCalls);
    final := Some(deltas);
    forall n: nat | Below(calls, n) ensures Listed(calls, n) == toolCalls {
      if n <= maxIndex + 1 {
        ListedAnyBound(calls, n, maxIndex + 1);
      } else {
        ListedAnyBound(calls, maxIndex + 1, n);
      }
    }
  }
}
