# Word timestamps and streamed tool calls

This project models two small pieces of sequential logic from pipecat, a
framework for voice and multimodal conversational agents. It also proves
properties of both models.

1. **Word-timestamp tracking** (`word_timestamps.dfy`, module `WordTimestamps`).
   A word-timed text-to-speech service turns each word's offset within its
   sentence into an absolute presentation timestamp (pts). The model has:
   - a controllable clock that reads integer nanoseconds and starts at one
     second (`InitialClock`);
   - a tracker record `(clock, initial, frames)`, where `initial` is the
     absolute start of the current sentence and `-1` (`Unset`) means no
     sentence is active;
   - `Start`, which latches the clock only while the tracker is unset;
   - `Reset`, which puts `initial` back to the sentinel;
   - `Add`, which appends the frame `{text, pts = initial + offset}` and
     returns `pts`.

   The multi-sentence scenario is modelled as `Run` over `Sentence`s. Each
   sentence resets the tracker, starts it, adds its words and then advances
   the clock. The main result, `RunIncreasing`, is the cross-sentence claim:
   the whole frame list has strictly increasing timestamps. It holds when
   all of the following are true:
   - the starting tracker's frames are strictly increasing and all lie
     before its clock reading (`OrderedBeforeClock`; a fresh tracker over a
     fresh clock meets this, by `NewTrackerOrdered`);
   - each sentence's offsets are non-negative and strictly increasing;
   - the clock advance after every sentence but the last is non-negative
     and exceeds that sentence's last offset.

2. **Streamed tool-call accumulation** (`tool_calls.dfy`, module `ToolCalls`).
   This is the chunk loop of the Google LLM service that uses the
   OpenAI-compatible API. The model is a left fold (`Fold`) over a sequence
   of chunks:
   - text chunks are passed on unchanged;
   - tool-call fragments are concatenated into the current
     `(name, arguments, id)` triple;
   - whenever a fragment's index differs from the running index, the triple
     is filed into three parallel lists and the running index goes up by one;
   - at the end of the stream, `Finish` files the last triple, but only if
     it has both a name and arguments. It then keeps the filed triples whose
     name is not empty (`NamedOnly`). This filter is the workaround for
     Google sending a missing index.

   `ProcessContext` puts the fold and `Finish` together.
   `CollectFunctionCalls` is the loop that builds the call list, and it is
   proved equal to `NamedOnly`.

## Model

| member | source | states |
|---|---|---|
| WordTimestamps.Advance | tests/test_multiple_sentences_timestamps.py:25-27 | advancing the clock moves its reading by exactly the given number of nanoseconds |
| WordTimestamps.AdvanceClock | tests/test_multiple_sentences_timestamps.py:25-27 | advancing the clock a tracker reads changes the reading by the amount and leaves the sentence start and the frames alone |
| WordTimestamps.NewTracker | tests/test_multiple_sentences_timestamps.py:33-36 | a new tracker has no sentence started (the -1 sentinel), no frames, and reads the given clock |
| WordTimestamps.Start | tests/test_multiple_sentences_timestamps.py:38-41 | start latches the current clock reading only when the sentence start is the sentinel, otherwise keeps it; clock and frames untouched |
| WordTimestamps.StartIdempotent | tests/test_multiple_sentences_timestamps.py:38-41 | starting twice without a reset equals starting once |
| WordTimestamps.StartKeepsActiveOrigin | tests/test_multiple_sentences_timestamps.py:38-41 | once a sentence is active, a later start keeps its origin however far the clock moved |
| WordTimestamps.Reset | tests/test_multiple_sentences_timestamps.py:43-45 | reset sets the sentence start to -1 and changes neither the clock nor the frames |
| WordTimestamps.ResetThenStartLatchesClock | tests/test_multiple_sentences_timestamps.py:38-45 | reset then start makes the sentence start the current clock reading, whatever it was before, and keeps the frames |
| WordTimestamps.ResetOfUnsetIsNoop | tests/test_multiple_sentences_timestamps.py:43-45 | resetting a tracker with no active sentence leaves it as it is |
| WordTimestamps.Add | tests/test_multiple_sentences_timestamps.py:47-55 | add returns initial + offset and appends exactly one frame with the word and that pts at the end; earlier frames, sentence start and clock unchanged |
| WordTimestamps.InitialClockReadsOneSecond | tests/test_multiple_sentences_timestamps.py:18-23 | a fresh mock clock reads one second in nanoseconds, and starting a fresh tracker on it latches that reading without moving the clock |
| WordTimestamps.AddAll | tests/test_multiple_sentences_timestamps.py:83-84 | adding a sentence's words appends one frame per word, in order, the i-th stamped initial + offset_i; earlier frames kept |
| WordTimestamps.AddAllIncreasing | tests/test_multiple_sentences_timestamps.py:164-174 | within one started sentence, strictly increasing offsets give strictly increasing pts |
| WordTimestamps.RunSentence | tests/test_multiple_sentences_timestamps.py:86-96 | a sentence (reset, start, add words, advance) starts at the clock reading it begins with, moves the clock by its advance and appends one frame per word |
| WordTimestamps.Run | tests/test_multiple_sentences_timestamps.py:63-130 | running sentences one after another advances the clock by the sum of their advances; afterwards the last sentence is the active one, started at the reading just before its own advance; no sentences leave the tracker as it was |
| WordTimestamps.RunAppendsOneFramePerWord | tests/test_multiple_sentences_timestamps.py:51-54 | frames are append-only: after any sentences the frame count is the earlier count plus the number of words added, and the earlier frames are a prefix |
| WordTimestamps.RunSentenceIncreasing | tests/test_multiple_sentences_timestamps.py:164-174 | a sentence with non-negative increasing offsets, run after frames that all lie before the clock, keeps the frame list strictly increasing |
| WordTimestamps.RunSentenceOrderedBeforeClock | tests/test_multiple_sentences_timestamps.py:86-96 | if the advance after a sentence exceeds its last offset, every frame lies strictly before the clock afterwards |
| WordTimestamps.SentencesSeparated | tests/test_multiple_sentences_timestamps.py:179-200 | if the clock advance exceeds the previous sentence's last offset and the next offsets are non-negative, the next sentence's first pts is greater than the previous sentence's last pts |
| WordTimestamps.RunIncreasing | tests/test_multiple_sentences_timestamps.py:164-177 | across any number of reset-and-restarted sentences meeting those conditions, the whole frame list is strictly increasing |
| WordTimestamps.NewTrackerOrdered | tests/test_multiple_sentences_timestamps.py:63-65 | a new tracker over a new clock meets the ordering precondition |
| WordTimestamps.ThreeSentencesWellSpaced | tests/test_multiple_sentences_timestamps.py:74-127 | the scenario's three sentences meet the offset and advance conditions |
| WordTimestamps.ThreeSentencesStates | tests/test_multiple_sentences_timestamps.py:63-130 | in the scenario the sentences start at 1 s, 3 s and 6 s of clock time, with 6, 12 and 15 frames after each |
| WordTimestamps.ThreeSentencesScenario | tests/test_multiple_sentences_timestamps.py:139-200 | the scenario yields 15 strictly increasing frames; sentence boundaries at 2.87 s / 3.10 s and 3.90 s / 6.10 s |
| ToolCalls.Classify | src/pipecat/services/google/llm_openai.py:89-125 | a chunk is a tool-call event iff its first choice has a delta with tool calls, and then the event carries the first fragment; it is a text event iff that delta has no tool calls and non-empty content, and then carries that content |
| ToolCalls.Flush | src/pipecat/services/google/llm_openai.py:110-117 | filing appends the current name, arguments and id to the three lists, raises the running index by one, clears the accumulators and keeps the lists aligned |
| ToolCalls.AccumulateToolCall | src/pipecat/services/google/llm_openai.py:109-123 | an index other than the running one files the current triple, clears the accumulators and raises the running index by exactly one, whatever the incoming index; then name and argument fragments are appended and a named fragment's id becomes the call's id; the three lists stay equally long |
| ToolCalls.Step | src/pipecat/services/google/llm_openai.py:89-125 | a chunk pushes text exactly when it reads as a text chunk, and then leaves the accumulator unchanged |
| ToolCalls.StepIgnoresNonToolChunks | src/pipecat/services/google/llm_openai.py:89-125 | chunks without choices or delta change nothing; text is pushed iff the delta has no tool calls and non-empty content, and it is that content |
| ToolCalls.Fold | src/pipecat/services/google/llm_openai.py:80-125 | over a stream the filed lists stay aligned and only grow, the running index rises by the number of filings, filings are at most the number of tool-call chunks, and the pushed texts are the text chunks' texts in order |
| ToolCalls.FoldFromInitial | src/pipecat/services/google/llm_openai.py:66-117 | from the initial state the three lists have equal length and the running index equals the number of filed triples |
| ToolCalls.NothingFiledOnIndex | src/pipecat/services/google/llm_openai.py:110-117 | while every fragment carries the running index, nothing is filed and the running index stays put |
| ToolCalls.FragmentsConcatenate | src/pipecat/services/google/llm_openai.py:118-123 | within one function, the name fragments and the argument fragments are each concatenated in arrival order |
| ToolCalls.IdOfLastNamedChunk | src/pipecat/services/google/llm_openai.py:118-120 | within one function, the call id is the id of the last chunk that carried a non-empty name |
| ToolCalls.FiledTriples | src/pipecat/services/google/llm_openai.py:131-144 | after the last triple is appended, the zipped list holds every filed triple at its position followed by the current one, one longer than the filed lists |
| ToolCalls.Zip3 | src/pipecat/services/google/llm_openai.py:142-144 | zipping the three lists pairs equal positions and is as long as the shortest list |
| ToolCalls.NamedOnly | src/pipecat/services/google/llm_openai.py:142-149 | the filter keeps no triple with an empty name and never lengthens the list |
| ToolCalls.NamedOnlyAppend | src/pipecat/services/google/llm_openai.py:142-149 | the filter distributes over concatenation, so kept triples keep their order |
| ToolCalls.NamedOnlyMembership | src/pipecat/services/google/llm_openai.py:142-149 | a triple is kept iff it is in the list and its name is not empty |
| ToolCalls.CollectFunctionCalls | src/pipecat/services/google/llm_openai.py:141-160 | the call-building loop returns exactly the named triples in order |
| ToolCalls.Finish | src/pipecat/services/google/llm_openai.py:131-160 | calls are made iff the last name and arguments are both non-empty; at most one more than the filed triples; none has an empty name |
| ToolCalls.ProcessContext | src/pipecat/services/google/llm_openai.py:65-162 | texts are the text chunks' texts; calls number at most the index changes plus one and at most the tool-call chunks plus one; no call has an empty name |
| ToolCalls.CallsAreNamedFiledTriples | src/pipecat/services/google/llm_openai.py:131-160 | the calls equal the named-only filter of the filed triples with the last one appended when the final name and arguments are both non-empty, and are empty otherwise; hence a call is made iff those are non-empty, and a triple is a call iff it was filed and is named |
| ToolCalls.WellIndexedStream | src/pipecat/services/google/llm_openai.py:97-135 | a two-call stream with split fragments and interleaved text yields the text and both assembled calls |
| ToolCalls.MissingIndexStream | src/pipecat/services/google/llm_openai.py:140-149 | with the index missing, an empty triple is filed first and the filter drops it, leaving both calls |
| ToolCalls.LastCallWithoutArgumentsDropsAll | src/pipecat/services/google/llm_openai.py:131-135 | a last call without arguments suppresses every call, including an earlier complete one |

## Left out

- `seconds_to_nanoseconds` (tests/test_multiple_sentences_timestamps.py:10-12) converts with floating-point multiplication and truncation. Offsets and clock advances are taken as integer nanoseconds instead, so a truncation that moves a value by one nanosecond is not modelled.
- The clock is a value held in the tracker record rather than a shared object. The test only advances it between sentences, so this loses nothing the test observes.
- All printing and logging in both files.
- Token-usage and time-to-first-byte metrics (src/pipecat/services/google/llm_openai.py:74, 81-87, 92) have no effect on the accumulated calls and are left out.
- The asynchronous stream (`_stream_chat_completions`, the watchdog iterator) is modelled as a finite sequence of chunks. `push_frame` is modelled as the returned list of texts, and `run_function_calls` as the returned list of calls.
- `json.loads` of the arguments (src/pipecat/services/google/llm_openai.py:151) is left out. Arguments stay opaque strings, so a parse failure (an exception in the source) is not modelled.
- The LLM context object passed with each call, and the constructor and environment setup, are left out.
- A missing function, a missing name and an empty name are all modelled as the empty string, and likewise for arguments. The source only tests these for emptiness and uses them only when they are non-empty, so the behaviour is the same.
- Only the first choice and its first tool-call fragment of a chunk are read, as in the source. Any other fragments in the same chunk are ignored by both.
