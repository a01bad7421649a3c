/**
 Accumulation of streamed tool calls by the Google LLM service that speaks the
 OpenAI-compatible chat-completion format.

 The service reads a stream of completion chunks. Text chunks are passed on as
 they arrive. Tool-call chunks carry fragments of function calls, tagged with
 the index of the call they belong to: the service concatenates the name and
 argument fragments of the current call and, whenever the index changes,
 files the finished (name, arguments, id) triple away. At the end of the
 stream the last triple is filed too, provided it has both a name and
 arguments, and every filed triple with a non-empty name becomes a function
 call. Triples with an empty name are dropped: the service's workaround for
 Google reporting a missing index, which makes every chunk look like a new call.

 The stream is a finite sequence of chunks and the outputs are returned lists.
 Argument strings are kept opaque.
 */
module ToolCalls {

  datatype Option<T> = None | Some(value: T)

  /**
   One tool-call fragment. `index` is `None` when the stream leaves it out.
   A missing function, a missing name and an empty name are all the empty
   string `name`, and likewise for `arguments`: the service only tests them for
   emptiness and uses them only when they are not empty. The id is kept as
   given, `None` included, because it is stored whatever it is.
   */
  datatype ToolCallDelta = ToolCallDelta(index: Option<int>, name: string, id: Option<string>, arguments: string)

  /** The delta of a choice: its tool-call fragments (missing is empty) and its text (missing is empty). */
  datatype Delta = Delta(toolCalls: seq<ToolCallDelta>, content: string)

  datatype Choice = Choice(delta: Option<Delta>)

  /** A streamed completion chunk; missing choices are the empty sequence. */
  datatype Chunk = Chunk(choices: seq<Choice>)

  /** What a chunk means to the service: nothing, a tool-call fragment, or text. */
  datatype Event = Ignored | ToolCallEvent(call: ToolCallDelta) | TextEvent(text: string)

  /** A function call handed to the function runner. */
  datatype FunctionCall = FunctionCall(toolCallId: Option<string>, functionName: string, arguments: string)

  /**
   The accumulator state: the three lists of filed names, arguments and ids,
   the running call index, and the name, arguments and id of the call being
   accumulated.
   */
  datatype Acc = Acc(
    functions: seq<string>,
    argumentsList: seq<string>,
    toolIds: seq<Option<string>>,
    funcIdx: int,
    name: string,
    args: string,
    toolCallId: Option<string>)

  /** The state before the first chunk. */
  const Initial: Acc := Acc([], [], [], 0, "", "", Some(""))

  /** The outcome of one chunk: the new state and the text pushed downstream, if any. */
  datatype Stepped = Stepped(acc: Acc, text: Option<string>)

  /** The outcome of a run of chunks: the final state and the texts pushed, in order. */
  datatype Folded = Folded(acc: Acc, texts: seq<string>)

  /** The outcome of a whole stream: texts pushed and function calls run. */
  datatype Outcome = Outcome(texts: seq<string>, calls: seq<FunctionCall>)

  /** The three filed lists have the same length. */
  ghost predicate Aligned(a: Acc)
  {
    |a.functions| == |a.argumentsList| && |a.argumentsList| == |a.toolIds|
  }

  // ---------------------------------------------------------------------------
  // One chunk
  // ---------------------------------------------------------------------------

  /**
   Reads a chunk the way the service does: no choices or no delta means
   nothing; otherwise the first tool-call fragment of the first choice, if
   there is one; otherwise the text, if it is not empty.
   */
  function Classify(c: Chunk): (r: Event)
    ensures r.ToolCallEvent? <==>
              |c.choices| > 0 && c.choices[0].delta.Some? && |c.choices[0].delta.value.toolCalls| > 0
    ensures r.ToolCallEvent? ==> r.call == c.choices[0].delta.value.toolCalls[0]
    ensures r.TextEvent? <==>
              && |c.choices| > 0 && c.choices[0].delta.Some?
              && |c.choices[0].delta.value.toolCalls| == 0 && c.choices[0].delta.value.content != ""
    ensures r.TextEvent? ==> r.text == c.choices[0].delta.value.content
  {
    if |c.choices| == 0 then Ignored
    else match c.choices[0].delta
      case None => Ignored
      case Some(d) =>
        if |d.toolCalls| > 0 then ToolCallEvent(d.toolCalls[0])
        else if d.content != "" then TextEvent(d.content)
        else Ignored
  }

  /** Files the current triple away and starts an empty one under the next index. */
  function Flush(a: Acc): (r: Acc)
    ensures Aligned(a) ==> Aligned(r)
    ensures r.functions == a.functions + [a.name]
    ensures r.argumentsList == a.argumentsList + [a.args]
    ensures r.toolIds == a.toolIds + [a.toolCallId]
    ensures r.funcIdx == a.funcIdx + 1
    ensures r.name == "" && r.args == "" && r.toolCallId == Some("")
  {
    Acc(a.functions + [a.name], a.argumentsList + [a.args], a.toolIds + [a.toolCallId],
        a.funcIdx + 1, "", "", Some(""))
  }

  /**
   Takes in one tool-call fragment. An index other than the running one files
   the current triple and moves the running index on by exactly one, whatever
   the incoming index was; then a non-empty name fragment is appended to the
   name and its chunk's id becomes the call's id, and a non-empty argument
   fragment is appended to the arguments.
   */
  function AccumulateToolCall(a: Acc, tc: ToolCallDelta): (r: Acc)
    ensures Aligned(a) ==> Aligned(r)
    ensures tc.index != Some(a.funcIdx) ==>
              && r.functions == a.functions + [a.name]
              && r.argumentsList == a.argumentsList + [a.args]
              && r.toolIds == a.toolIds + [a.toolCallId]
              && r.funcIdx == a.funcIdx + 1
              && r.name == tc.name
              && r.args == tc.arguments
              && r.toolCallId == (if tc.name != "" then tc.id else Some(""))
    ensures tc.index == Some(a.funcIdx) ==>
              && r.functions == a.functions
              && r.argumentsList == a.argumentsList
              && r.toolIds == a.toolIds
              && r.funcIdx == a.funcIdx
              && r.name == a.name + tc.name
              && r.args == a.args + tc.arguments
              && r.toolCallId == (if tc.name != "" then tc.id else a.toolCallId)
  {
    var current := if tc.index != Some(a.funcIdx) then Flush(a) else a;
    var named := if tc.name != "" then current.(name := current.name + tc.name, toolCallId := tc.id) else current;
    if tc.arguments != "" then named.(args := named.args + tc.arguments) else named
  }

  /** One chunk: tool-call fragments go to the accumulator, text goes downstream. */
  function Step(a: Acc, c: Chunk): (r: Stepped)
    ensures r.text.Some? ==> r.acc == a
    ensures r.text.Some? <==> Classify(c).TextEvent?
  {
    match Classify(c)
    case Ignored => Stepped(a, None)
    case ToolCallEvent(tc) => Stepped(AccumulateToolCall(a, tc), None)
    case TextEvent(s) => Stepped(a, Some(s))
  }

  /**
   Chunks without choices or without a delta contribute nothing; a text chunk
   is pushed only when its delta has no tool calls, and never changes the
   accumulator.
   */
  lemma StepIgnoresNonToolChunks(a: Acc, c: Chunk)
    ensures |c.choices| == 0 || c.choices[0].delta.None? ==> Step(a, c) == Stepped(a, None)
    ensures Step(a, c).text.Some? <==>
              && |c.choices| > 0
              && c.choices[0].delta.Some?
              && |c.choices[0].delta.value.toolCalls| == 0
              && c.choices[0].delta.value.content != ""
    ensures Step(a, c).text.Some? ==>
              Step(a, c).text.value == c.choices[0].delta.value.content && Step(a, c).acc == a
  {
  }

  // ---------------------------------------------------------------------------
  // The stream
  // ---------------------------------------------------------------------------

  /** The texts of the text chunks, in arrival order. */
  function Texts(chunks: seq<Chunk>): seq<string>
  {
    if |chunks| == 0 then []
    else (match Classify(chunks[0]) case TextEvent(s) => [s] case _ => []) + Texts(chunks[1..])
  }

  /** How many chunks carry a tool-call fragment. */
  function ToolCallCount(chunks: seq<Chunk>): nat
  {
    if |chunks| == 0 then 0
    else (if Classify(chunks[0]).ToolCallEvent? then 1 else 0) + ToolCallCount(chunks[1..])
  }

  /**
   The loop over the stream. The filed lists stay aligned and only grow; each
   filing moves the running index on by one, and there is at most one filing
   per tool-call chunk; the texts pushed are exactly the text chunks' texts.
   */
  function Fold(a: Acc, chunks: seq<Chunk>): (r: Folded)
    ensures Aligned(a) ==> Aligned(r.acc)
    ensures |r.acc.functions| >= |a.functions| && r.acc.functions[..|a.functions|] == a.functions
    ensures |r.acc.argumentsList| >= |a.argumentsList| && r.acc.argumentsList[..|a.argumentsList|] == a.argumentsList
    ensures |r.acc.toolIds| >= |a.toolIds| && r.acc.toolIds[..|a.toolIds|] == a.toolIds
    ensures r.acc.funcIdx - a.funcIdx == |r.acc.functions| - |a.functions|
    ensures r.acc.funcIdx - a.funcIdx <= ToolCallCount(chunks)
    ensures r.texts == Texts(chunks)
    decreases |chunks|
  {
    if |chunks| == 0 then Folded(a, [])
    else
      var s := Step(a, chunks[0]);
      var rest := Fold(s.acc, chunks[1..]);
      Folded(rest.acc, (if s.text.Some? then [s.text.value] else []) + rest.texts)
  }

  // ---------------------------------------------------------------------------
  // End of stream
  // ---------------------------------------------------------------------------

  /** The three lists zipped: as long as the shortest. */
  function Zip3(fs: seq<string>, argss: seq<string>, ids: seq<Option<string>>): (r: seq<FunctionCall>)
    ensures |r| <= |fs| && |r| <= |argss| && |r| <= |ids|
    ensures |r| == |fs| || |r| == |argss| || |r| == |ids|
    ensures forall i :: 0 <= i < |r| ==> r[i] == FunctionCall(ids[i], fs[i], argss[i])
  {
    if |fs| == 0 || |argss| == 0 || |ids| == 0 then []
    else [FunctionCall(ids[0], fs[0], argss[0])] + Zip3(fs[1..], argss[1..], ids[1..])
  }

  /** The filed triples plus the current one, as the end of the stream files it. */
  function FiledTriples(a: Acc): (ts: seq<FunctionCall>)
    requires Aligned(a)
    ensures |ts| == |a.functions| + 1
    ensures forall i :: 0 <= i < |a.functions| ==>
              ts[i] == FunctionCall(a.toolIds[i], a.functions[i], a.argumentsList[i])
    ensures ts[|a.functions|] == FunctionCall(a.toolCallId, a.name, a.args)
  {
    Zip3(a.functions + [a.name], a.argumentsList + [a.args], a.toolIds + [a.toolCallId])
  }

  /** The triples whose name is not empty, in their original order. */
  function NamedOnly(ts: seq<FunctionCall>): (r: seq<FunctionCall>)
    ensures |r| <= |ts|
    ensures forall i :: 0 <= i < |r| ==> r[i].functionName != ""
  {
    if |ts| == 0 then []
    else (if ts[0].functionName == "" then [] else [ts[0]]) + NamedOnly(ts[1..])
  }

  /**
   The end of the stream: when the current call has both a name and arguments,
   it is filed and every filed triple with a non-empty name becomes a call;
   otherwise no call is made at all, even if triples were filed earlier.
   */
  function Finish(a: Acc): (calls: seq<FunctionCall>)
    requires Aligned(a)
    ensures |calls| > 0 <==> a.name != "" && a.args != ""
    ensures |calls| <= |a.functions| + 1
    ensures forall i :: 0 <= i < |calls| ==> calls[i].functionName != ""
  {
    if a.name != "" && a.args != "" then
      var ts := FiledTriples(a);
      NamedOnlyKeepsLastNamed(ts);
      NamedOnly(ts)
    else []
  }

  /** The whole stream: texts as they come, then the function calls. */
  function ProcessContext(chunks: seq<Chunk>): (r: Outcome)
    ensures r.texts == Texts(chunks)
    ensures |r.calls| <= Fold(Initial, chunks).acc.funcIdx + 1
    ensures |r.calls| <= ToolCallCount(chunks) + 1
    ensures forall i :: 0 <= i < |r.calls| ==> r.calls[i].functionName != ""
  {
    var f := Fold(Initial, chunks);
    Outcome(f.texts, Finish(f.acc))
  }

  /**
   The loop that turns the filed triples into calls: a triple with an empty
   name is skipped, every other one becomes a call, in order.
   */
  method CollectFunctionCalls(ts: seq<FunctionCall>) returns (calls: seq<FunctionCall>)
    ensures calls == NamedOnly(ts)
  {
    calls := [];
    var i := 0;
    while i < |ts|
      invariant 0 <= i <= |ts|
      invariant calls + NamedOnly(ts[i..]) == NamedOnly(ts)
    {
      assert ts[i..] == [ts[i]] + ts[i + 1..];
      if ts[i].functionName == "" {
        i := i + 1;
        continue;
      }
      calls := calls + [ts[i]];
      i := i + 1;
    }
    assert ts[i..] == [];
  }

  // ---------------------------------------------------------------------------
  // Helper facts
  // ---------------------------------------------------------------------------

  /** Filtering a list whose last triple is named keeps at least that triple. */
  lemma {:induction false} NamedOnlyKeepsLastNamed(ts: seq<FunctionCall>)
    requires |ts| > 0 && ts[|ts| - 1].functionName != ""
    ensures |NamedOnly(ts)| > 0
    decreases |ts|
  {
    if ts[0].functionName == "" {
      NamedOnlyKeepsLastNamed(ts[1..]);
    }
  }

  // ---------------------------------------------------------------------------
  // Properties
  // ---------------------------------------------------------------------------

  /** From the initial state the filed lists stay aligned and the running index counts the filings. */
  lemma FoldFromInitial(chunks: seq<Chunk>)
    ensures var a := Fold(Initial, chunks).acc;
            Aligned(a) && a.funcIdx == |a.functions| && a.funcIdx <= ToolCallCount(chunks)
  {
  }

  /** Filtering distributes over concatenation: the kept triples keep their relative order. */
  lemma {:induction false} NamedOnlyAppend(xs: seq<FunctionCall>, ys: seq<FunctionCall>)
    ensures NamedOnly(xs + ys) == NamedOnly(xs) + NamedOnly(ys)
    decreases |xs|
  {
    if |xs| == 0 {
      assert xs + ys == ys;
    } else {
      assert (xs + ys)[0] == xs[0];
      assert (xs + ys)[1..] == xs[1..] + ys;
      NamedOnlyAppend(xs[1..], ys);
    }
  }

  /** A triple is kept exactly when it is in the list and its name is not empty. */
  lemma {:induction false} NamedOnlyMembership(ts: seq<FunctionCall>, x: FunctionCall)
    ensures x in NamedOnly(ts) <==> x in ts && x.functionName != ""
    decreases |ts|
  {
    if |ts| > 0 {
      NamedOnlyMembership(ts[1..], x);
      assert ts == [ts[0]] + ts[1..];
    }
  }

  /** The name fragment a chunk contributes: its tool-call fragment's name, or nothing. */
  function NameOf(c: Chunk): string
  {
    if Classify(c).ToolCallEvent? then Classify(c).call.name else ""
  }

  /** The argument fragment a chunk contributes: its tool-call fragment's arguments, or nothing. */
  function ArgumentsOf(c: Chunk): string
  {
    if Classify(c).ToolCallEvent? then Classify(c).call.arguments else ""
  }

  /** The name fragments of the tool-call chunks, concatenated in arrival order. */
  function NameFragments(chunks: seq<Chunk>): string
  {
    if |chunks| == 0 then "" else NameOf(chunks[0]) + NameFragments(chunks[1..])
  }

  /** The argument fragments of the tool-call chunks, concatenated in arrival order. */
  function ArgumentFragments(chunks: seq<Chunk>): string
  {
    if |chunks| == 0 then "" else ArgumentsOf(chunks[0]) + ArgumentFragments(chunks[1..])
  }

  /** Whether a chunk carries a tool-call fragment with a non-empty name. */
  predicate CarriesName(c: Chunk)
  {
    Classify(c).ToolCallEvent? && Classify(c).call.name != ""
  }

  /** The id of the last chunk carrying a non-empty name, or `otherwise` if none does. */
  function LastNamedId(chunks: seq<Chunk>, otherwise: Option<string>): Option<string>
  {
    if |chunks| == 0 then otherwise
    else if CarriesName(chunks[|chunks| - 1]) then Classify(chunks[|chunks| - 1]).call.id
    else LastNamedId(chunks[..|chunks| - 1], otherwise)
  }

  /** Looking for the last named chunk after the first one is looking in the rest with a new fallback. */
  lemma {:induction false} LastNamedIdFront(chunks: seq<Chunk>, otherwise: Option<string>)
    requires |chunks| > 0
    ensures LastNamedId(chunks, otherwise) ==
              LastNamedId(chunks[1..], if CarriesName(chunks[0]) then Classify(chunks[0]).call.id else otherwise)
    decreases |chunks|
  {
    var n := |chunks|;
    if n > 1 && !CarriesName(chunks[n - 1]) {
      LastNamedIdFront(chunks[..n - 1], otherwise);
      assert chunks[..n - 1][1..] == chunks[1..][..n - 2];
      assert chunks[..n - 1][0] == chunks[0];
    }
  }

  /** Every tool-call chunk carries the given index. */
  ghost predicate StaysOnIndex(chunks: seq<Chunk>, idx: int)
  {
    forall i :: 0 <= i < |chunks| && Classify(chunks[i]).ToolCallEvent? ==>
      Classify(chunks[i]).call.index == Some(idx)
  }

  /** One chunk on the running index: nothing is filed and its fragments are appended. */
  lemma StepOnIndex(a: Acc, c: Chunk)
    requires Classify(c).ToolCallEvent? ==> Classify(c).call.index == Some(a.funcIdx)
    ensures var r := Step(a, c).acc;
            && r.functions == a.functions
            && r.argumentsList == a.argumentsList
            && r.toolIds == a.toolIds
            && r.funcIdx == a.funcIdx
            && r.name == a.name + NameOf(c)
            && r.args == a.args + ArgumentsOf(c)
            && r.toolCallId == (if CarriesName(c) then Classify(c).call.id else a.toolCallId)
  {
  }

  /** Staying on an index is inherited by the tail of the run. */
  lemma StaysOnIndexTail(chunks: seq<Chunk>, idx: int)
    requires |chunks| > 0 && StaysOnIndex(chunks, idx)
    ensures StaysOnIndex(chunks[1..], idx)
    ensures Classify(chunks[0]).ToolCallEvent? ==> Classify(chunks[0]).call.index == Some(idx)
  {
  }

  /** String concatenation regroups freely. */
  lemma ConcatAssoc(x: string, y: string, z: string)
    ensures (x + y) + z == x + (y + z)
  {
  }

  /** Within one function (no index change), nothing is filed. */
  lemma {:induction false} NothingFiledOnIndex(a: Acc, chunks: seq<Chunk>)
    requires StaysOnIndex(chunks, a.funcIdx)
    ensures Fold(a, chunks).acc.functions == a.functions
    ensures Fold(a, chunks).acc.argumentsList == a.argumentsList
    ensures Fold(a, chunks).acc.toolIds == a.toolIds
    ensures Fold(a, chunks).acc.funcIdx == a.funcIdx
    decreases |chunks|
  {
    if |chunks| > 0 {
      StaysOnIndexTail(chunks, a.funcIdx);
      StepOnIndex(a, chunks[0]);
      NothingFiledOnIndex(Step(a, chunks[0]).acc, chunks[1..]);
      FoldFront(a, chunks);
    }
  }

  /**
   Within one function (no index change), the name fragments and the argument
   fragments are each concatenated in arrival order.
   */
  lemma {:induction false} FragmentsConcatenate(a: Acc, chunks: seq<Chunk>)
    requires StaysOnIndex(chunks, a.funcIdx)
    ensures Fold(a, chunks).acc.name == a.name + NameFragments(chunks)
    ensures Fold(a, chunks).acc.args == a.args + ArgumentFragments(chunks)
    decreases |chunks|
  {
    if |chunks| == 0 {
      assert a.name + "" == a.name && a.args + "" == a.args;
    } else {
      var s := Step(a, chunks[0]).acc;
      StaysOnIndexTail(chunks, a.funcIdx);
      StepOnIndex(a, chunks[0]);
      FragmentsConcatenate(s, chunks[1..]);
      FoldFront(a, chunks);
      ConcatAssoc(a.name, NameOf(chunks[0]), NameFragments(chunks[1..]));
      ConcatAssoc(a.args, ArgumentsOf(chunks[0]), ArgumentFragments(chunks[1..]));
    }
  }

  /**
   Within one function (no index change), the call's id ends up as the id of
   the last chunk that carried a non-empty name.
   */
  lemma {:induction false} IdOfLastNamedChunk(a: Acc, chunks: seq<Chunk>)
    requires StaysOnIndex(chunks, a.funcIdx)
    ensures Fold(a, chunks).acc.toolCallId == LastNamedId(chunks, a.toolCallId)
    decreases |chunks|
  {
    if |chunks| > 0 {
      var s := Step(a, chunks[0]).acc;
      StaysOnIndexTail(chunks, a.funcIdx);
      StepOnIndex(a, chunks[0]);
      IdOfLastNamedChunk(s, chunks[1..]);
      FoldFront(a, chunks);
      LastNamedIdFront(chunks, a.toolCallId);
    }
  }

  /** The state after a non-empty run is the state after its tail, started from the first step. */
  lemma FoldFront(a: Acc, chunks: seq<Chunk>)
    requires |chunks| > 0
    ensures Fold(a, chunks).acc == Fold(Step(a, chunks[0]).acc, chunks[1..]).acc
  {
  }

  /**
   The calls made are exactly the filed triples with a non-empty name, in
   their order (the filter keeps order by `NamedOnlyAppend`), and they are
   made only when the last call has both a name and arguments; as a
   corollary, a triple is among the calls iff it was filed and is named.
   */
  lemma CallsAreNamedFiledTriples(chunks: seq<Chunk>, x: FunctionCall)
    ensures Aligned(Fold(Initial, chunks).acc)
    ensures var a := Fold(Initial, chunks).acc;
            ProcessContext(chunks).calls == (if a.name != "" && a.args != "" then NamedOnly(FiledTriples(a)) else [])
    ensures var a := Fold(Initial, chunks).acc;
            var calls := ProcessContext(chunks).calls;
            && (|calls| > 0 <==> a.name != "" && a.args != "")
            && (x in calls <==> a.name != "" && a.args != "" && x in FiledTriples(a) && x.functionName != "")
  {
    var a := Fold(Initial, chunks).acc;
    FoldFromInitial(chunks);
    NamedOnlyMembership(FiledTriples(a), x);
  }

  // ---------------------------------------------------------------------------
  // Example streams
  // ---------------------------------------------------------------------------

  /** A chunk with a single tool-call fragment. */
  function ToolChunk(index: Option<int>, name: string, id: string, arguments: string): Chunk
  {
    Chunk([Choice(Some(Delta([ToolCallDelta(index, name, Some(id), arguments)], "")))])
  }

  /** A chunk with text only. */
  function TextChunk(text: string): Chunk
  {
    Chunk([Choice(Some(Delta([], text)))])
  }

  /** A single-fragment chunk reads as that fragment; a text chunk reads as its text. */
  lemma ExampleChunksClassify(index: Option<int>, name: string, id: string, arguments: string, text: string)
    ensures Classify(ToolChunk(index, name, id, arguments)) == ToolCallEvent(ToolCallDelta(index, name, Some(id), arguments))
    ensures text != "" ==> Classify(TextChunk(text)) == TextEvent(text)
  {
  }

  /** Running a single chunk from state `a`. */
  lemma FoldSingle(a: Acc, c: Chunk)
    ensures Fold(a, [c]) == Folded(Step(a, c).acc, if Step(a, c).text.Some? then [Step(a, c).text.value] else [])
  {
  }

  /** The state a well-indexed four-chunk stream leaves behind, and the text it pushes. */
  lemma WellIndexedFold()
    ensures Fold(Initial, [ToolChunk(Some(0), "get_weather", "a", "{\"city\":"),
                           TextChunk("hi"),
                           ToolChunk(Some(0), "", "", "\"Paris\"}"),
                           ToolChunk(Some(1), "get_time", "b", "{}")])
            == Folded(Acc(["get_weather"], ["{\"city\":\"Paris\"}"], [Some("a")], 1, "get_time", "{}", Some("b")), ["hi"])
  {
    var c0 := ToolChunk(Some(0), "get_weather", "a", "{\"city\":");
    var c1 := TextChunk("hi");
    var c2 := ToolChunk(Some(0), "", "", "\"Paris\"}");
    var c3 := ToolChunk(Some(1), "get_time", "b", "{}");
    ExampleChunksClassify(Some(0), "get_weather", "a", "{\"city\":", "hi");
    ExampleChunksClassify(Some(0), "", "", "\"Paris\"}", "hi");
    ExampleChunksClassify(Some(1), "get_time", "b", "{}", "hi");
    var a1 := Step(Initial, c0).acc;
    assert a1 == Acc([], [], [], 0, "get_weather", "{\"city\":", Some("a"));
    assert Step(a1, c1) == Stepped(a1, Some("hi"));
    var a3 := Step(a1, c2).acc;
    assert a3 == Acc([], [], [], 0, "get_weather", "{\"city\":\"Paris\"}", Some("a"));
    var a4 := Step(a3, c3).acc;
    assert a4 == Acc(["get_weather"], ["{\"city\":\"Paris\"}"], [Some("a")], 1, "get_time", "{}", Some("b"));
    FoldSingle(a3, c3);
    assert Fold(a1, [c2, c3]) == Folded(a4, []) by {
      assert [c2, c3][1..] == [c3];
    }
    assert Fold(a1, [c1, c2, c3]) == Folded(a4, ["hi"]) by {
      assert [c1, c2, c3][1..] == [c2, c3];
    }
    assert [c0, c1, c2, c3][1..] == [c1, c2, c3];
  }

  /**
   A well-indexed stream: the first call's name and arguments arrive in two
   fragments, a text chunk in between is pushed without disturbing them, and
   the change to index 1 files the first call.
   */
  lemma WellIndexedStream()
    ensures ProcessContext([ToolChunk(Some(0), "get_weather", "a", "{\"city\":"),
                            TextChunk("hi"),
                            ToolChunk(Some(0), "", "", "\"Paris\"}"),
                            ToolChunk(Some(1), "get_time", "b", "{}")])
            == Outcome(["hi"], [FunctionCall(Some("a"), "get_weather", "{\"city\":\"Paris\"}"),
                                FunctionCall(Some("b"), "get_time", "{}")])
  {
    WellIndexedFold();
    var a4 := Acc(["get_weather"], ["{\"city\":\"Paris\"}"], [Some("a")], 1, "get_time", "{}", Some("b"));
    var ts := FiledTriples(a4);
    assert ts == [FunctionCall(Some("a"), "get_weather", "{\"city\":\"Paris\"}"), FunctionCall(Some("b"), "get_time", "{}")];
    assert ts[1..][1..] == [];
    assert NamedOnly(ts[1..]) == ts[1..];
    assert NamedOnly(ts) == ts;
  }

  /** The state a two-chunk stream without indices leaves behind. */
  lemma MissingIndexFold()
    ensures Fold(Initial, [ToolChunk(None, "get_weather", "a", "{}"), ToolChunk(None, "get_time", "b", "{}")]).acc
            == Acc(["", "get_weather"], ["", "{}"], [Some(""), Some("a")], 2, "get_time", "{}", Some("b"))
  {
  }

  /**
   Google leaving out the index: every fragment looks like a new call, so an
   empty triple is filed first, and the filter drops it.
   */
  lemma MissingIndexStream()
    ensures var chunks := [ToolChunk(None, "get_weather", "a", "{}"), ToolChunk(None, "get_time", "b", "{}")];
            && Fold(Initial, chunks).acc.functions == ["", "get_weather"]
            && ProcessContext(chunks).calls == [FunctionCall(Some("a"), "get_weather", "{}"),
                                                FunctionCall(Some("b"), "get_time", "{}")]
  {
    MissingIndexFold();
    var a2 := Acc(["", "get_weather"], ["", "{}"], [Some(""), Some("a")], 2, "get_time", "{}", Some("b"));
    var ts := FiledTriples(a2);
    assert ts == [FunctionCall(Some(""), "", ""), FunctionCall(Some("a"), "get_weather", "{}"), FunctionCall(Some("b"), "get_time", "{}")];
    assert ts[1..][1..][1..] == [];
    assert NamedOnly(ts[1..][1..]) == ts[1..][1..];
    assert NamedOnly(ts[1..]) == [ts[1]] + ts[1..][1..];
    assert NamedOnly(ts) == ts[1..];
  }

  /**
   A last call without arguments suppresses every call, including earlier
   complete ones.
   */
  lemma LastCallWithoutArgumentsDropsAll()
    ensures ProcessContext([ToolChunk(Some(0), "get_weather", "a", "{}"), ToolChunk(Some(1), "hang_up", "b", "")]).calls == []
  {
  }
}
