/**
 Word-timestamp tracking as done by a word-timed text-to-speech service.

 A controllable clock reports the current time in nanoseconds. A tracker keeps
 the clock, the absolute time at which the current sentence started (or the
 sentinel `Unset` when no sentence is active) and the list of text frames it
 has produced. Each word arrives with an offset relative to the start of its
 sentence; the tracker stamps it with the absolute presentation timestamp
 `initial + offset`.

 All times are integer nanoseconds.
 */
module WordTimestamps {

  /** The time a fresh mock clock reports: one second. */
  const ClockStartNs: int := 1_000_000_000

  /** The value of `initial` meaning "no sentence has been started". */
  const Unset: int := -1

  datatype Clock = Clock(nowNs: int)

  /** A fresh clock, as the mock clock is constructed. */
  const InitialClock: Clock := Clock(ClockStartNs)

  /** A text frame: one word and its absolute presentation timestamp. */
  datatype Frame = Frame(text: string, pts: int)

  /** The tracker state: the clock it reads, the sentence start and the frames so far. */
  datatype Tracker = Tracker(clock: Clock, initial: int, frames: seq<Frame>)

  /** A word with its offset from the start of its sentence. */
  datatype Word = Word(text: string, offsetNs: int)

  /** The result of adding a word: the new state and the timestamp given to the word. */
  datatype Added = Added(tracker: Tracker, pts: int)

  // ---------------------------------------------------------------------------
  // Clock
  // ---------------------------------------------------------------------------

  /** Reading the clock. A function of the clock's value only: reading changes nothing. */
  function GetTime(c: Clock): int
  {
    c.nowNs
  }

  /** Moves the clock forward (or back, for a negative amount) by `deltaNs`. */
  function Advance(c: Clock, deltaNs: int): (r: Clock)
    ensures GetTime(r) - GetTime(c) == deltaNs
  {
    Clock(c.nowNs + deltaNs)
  }

  /** Two advances add up: the clock keeps no other state than its reading. */
  lemma AdvanceAdds(c: Clock, a: int, b: int)
    ensures Advance(Advance(c, a), b) == Advance(c, a + b)
  {
  }

  // ---------------------------------------------------------------------------
  // Tracker operations
  // ---------------------------------------------------------------------------

  /** A tracker constructed over clock `c`: no sentence started, no frames. */
  function NewTracker(c: Clock): (t: Tracker)
    ensures t.initial == Unset && t.frames == [] && t.clock == c
  {
    Tracker(c, Unset, [])
  }

  /**
   Starts a sentence: latches the clock's current time as the sentence start,
   but only when no sentence is active.
   */
  function Start(t: Tracker): (r: Tracker)
    ensures r.clock == t.clock && r.frames == t.frames
    ensures t.initial == Unset ==> r.initial == GetTime(t.clock)
    ensures t.initial != Unset ==> r.initial == t.initial
  {
    if t.initial == Unset then t.(initial := GetTime(t.clock)) else t
  }

  /** Ends the current sentence: the sentence start goes back to the sentinel. */
  function Reset(t: Tracker): (r: Tracker)
    ensures r.initial == Unset
    ensures r.clock == t.clock && r.frames == t.frames
  {
    t.(initial := Unset)
  }

  /**
   Adds a word at `offsetNs` after the sentence start: it returns the absolute
   timestamp and appends exactly one frame carrying it. Nothing checks that a
   sentence was started; on an unset tracker the timestamp is `offsetNs - 1`.
   */
  function Add(t: Tracker, word: string, offsetNs: int): (r: Added)
    ensures r.pts == t.initial + offsetNs
    ensures r.tracker.frames == t.frames + [Frame(word, r.pts)]
    ensures r.tracker.initial == t.initial && r.tracker.clock == t.clock
  {
    var pts := t.initial + offsetNs;
    Added(t.(frames := t.frames + [Frame(word, pts)]), pts)
  }

  /** Advances the clock the tracker reads. */
  function AdvanceClock(t: Tracker, deltaNs: int): (r: Tracker)
    ensures GetTime(r.clock) == GetTime(t.clock) + deltaNs
    ensures r.initial == t.initial && r.frames == t.frames
  {
    t.(clock := Advance(t.clock, deltaNs))
  }

  /** Adds the words of a sentence one after another, in order. */
  function AddAll(t: Tracker, words: seq<Word>): (r: Tracker)
    ensures r.initial == t.initial && r.clock == t.clock
    ensures |r.frames| == |t.frames| + |words|
    ensures r.frames[..|t.frames|] == t.frames
    ensures forall i :: 0 <= i < |words| ==>
              r.frames[|t.frames| + i] == Frame(words[i].text, t.initial + words[i].offsetNs)
    decreases |words|
  {
    if |words| == 0 then t
    else AddAll(Add(t, words[0].text, words[0].offsetNs).tracker, words[1..])
  }

  // ---------------------------------------------------------------------------
  // Lifecycle properties
  // ---------------------------------------------------------------------------

  /** Starting twice without a reset in between is the same as starting once. */
  lemma StartIdempotent(t: Tracker)
    ensures Start(Start(t)) == Start(t)
  {
  }

  /**
   Once a sentence is active, a later start does not move its origin, however
   far the clock has advanced in between.
   */
  lemma StartKeepsActiveOrigin(t: Tracker, deltaNs: int)
    requires Start(t).initial != Unset
    ensures Start(AdvanceClock(Start(t), deltaNs)).initial == Start(t).initial
  {
  }

  /** A reset followed by a start re-latches the clock, whatever the previous origin was. */
  lemma ResetThenStartLatchesClock(t: Tracker)
    ensures Start(Reset(t)).initial == GetTime(t.clock)
    ensures Start(Reset(t)).frames == t.frames
  {
  }

  /** Resetting a tracker that has not started a sentence changes nothing. */
  lemma ResetOfUnsetIsNoop(t: Tracker)
    requires t.initial == Unset
    ensures Reset(t) == t
  {
  }

  // ---------------------------------------------------------------------------
  // Ordering of timestamps
  // ---------------------------------------------------------------------------

  /** Frame timestamps strictly increase along the list. */
  ghost predicate StrictlyIncreasing(frames: seq<Frame>)
  {
    forall i, j :: 0 <= i < j < |frames| ==> frames[i].pts < frames[j].pts
  }

  /** Word offsets strictly increase within a sentence. */
  ghost predicate OffsetsIncreasing(words: seq<Word>)
  {
    forall i, j :: 0 <= i < j < |words| ==> words[i].offsetNs < words[j].offsetNs
  }

  /** Word offsets are not negative. */
  ghost predicate OffsetsNonNegative(words: seq<Word>)
  {
    forall i :: 0 <= i < |words| ==> words[i].offsetNs >= 0
  }

  /** Appending a frame later than the last one keeps the list increasing. */
  lemma AppendKeepsIncreasing(frames: seq<Frame>, f: Frame)
    requires StrictlyIncreasing(frames)
    requires |frames| > 0 ==> frames[|frames| - 1].pts < f.pts
    ensures StrictlyIncreasing(frames + [f])
  {
  }

  /**
   Within one sentence, strictly increasing offsets give strictly increasing
   timestamps, and the new frames keep the earlier frames' ordering when the
   first new timestamp lies after the last earlier one.
   */
  lemma {:induction false} AddAllIncreasing(t: Tracker, words: seq<Word>)
    requires OffsetsIncreasing(words)
    requires StrictlyIncreasing(t.frames)
    requires |t.frames| > 0 && |words| > 0 ==>
               t.frames[|t.frames| - 1].pts < t.initial + words[0].offsetNs
    ensures StrictlyIncreasing(AddAll(t, words).frames)
    decreases |words|
  {
    if |words| > 0 {
      var added := Add(t, words[0].text, words[0].offsetNs);
      var t1 := added.tracker;
      AppendKeepsIncreasing(t.frames, Frame(words[0].text, added.pts));
      var rest := words[1..];
      assert OffsetsIncreasing(rest) by {
        forall i, j | 0 <= i < j < |rest| ensures rest[i].offsetNs < rest[j].offsetNs {
          assert rest[i] == words[i + 1] && rest[j] == words[j + 1];
        }
      }
      if |rest| > 0 {
        assert words[0].offsetNs < words[1].offsetNs;
      }
      AddAllIncreasing(t1, rest);
    }
  }

  // ---------------------------------------------------------------------------
  // Several sentences
  // ---------------------------------------------------------------------------

  /**
   One sentence of the multi-sentence scenario: the words, then how far the
   clock moves while the sentence plays.
   */
  datatype Sentence = Sentence(words: seq<Word>, advanceNs: int)

  /** One sentence: reset, start, add every word, then let the clock advance. */
  function RunSentence(t: Tracker, s: Sentence): (r: Tracker)
    ensures r.initial == GetTime(t.clock)
    ensures GetTime(r.clock) == GetTime(t.clock) + s.advanceNs
    ensures |r.frames| == |t.frames| + |s.words|
    ensures r.frames[..|t.frames|] == t.frames
  {
    AdvanceClock(AddAll(Start(Reset(t)), s.words), s.advanceNs)
  }

  /** The total clock advance over all the sentences. */
  function TotalAdvance(ss: seq<Sentence>): int
  {
    if |ss| == 0 then 0 else ss[0].advanceNs + TotalAdvance(ss[1..])
  }

  /**
   The sentences one after another. The clock ends up advanced by the sum of
   the sentences' advances; after at least one sentence the last sentence is
   the active one, started at the clock reading before its own words.
   */
  function Run(t: Tracker, ss: seq<Sentence>): (r: Tracker)
    ensures GetTime(r.clock) == GetTime(t.clock) + TotalAdvance(ss)
    ensures |ss| > 0 ==> r.initial == GetTime(r.clock) - ss[|ss| - 1].advanceNs
    ensures |ss| == 0 ==> r == t
    decreases |ss|
  {
    if |ss| == 0 then t else Run(RunSentence(t, ss[0]), ss[1..])
  }

  /** The number of words in all the sentences. */
  function WordCount(ss: seq<Sentence>): nat
  {
    if |ss| == 0 then 0 else |ss[0].words| + WordCount(ss[1..])
  }

  /** Frames are only ever appended: one frame per added word, earlier frames kept. */
  lemma {:induction false} RunAppendsOneFramePerWord(t: Tracker, ss: seq<Sentence>)
    ensures |Run(t, ss).frames| == |t.frames| + WordCount(ss)
    ensures Run(t, ss).frames[..|t.frames|] == t.frames
    decreases |ss|
  {
    if |ss| > 0 {
      var t1 := RunSentence(t, ss[0]);
      RunAppendsOneFramePerWord(t1, ss[1..]);
      assert Run(t, ss) == Run(t1, ss[1..]);
      assert t1.frames[..|t.frames|] == t.frames;
      assert Run(t, ss).frames[..|t1.frames|] == t1.frames;
      assert Run(t, ss).frames[..|t.frames|] == Run(t, ss).frames[..|t1.frames|][..|t.frames|];
    }
  }

  /** Offsets of a sentence are usable: not negative and strictly increasing. */
  ghost predicate WellTimed(s: Sentence)
  {
    OffsetsNonNegative(s.words) && OffsetsIncreasing(s.words)
  }

  /** The clock advance after a sentence exceeds the sentence's last offset. */
  ghost predicate AdvanceCoversSentence(s: Sentence)
  {
    s.advanceNs >= 0 && (|s.words| > 0 ==> s.words[|s.words| - 1].offsetNs < s.advanceNs)
  }

  /** The frames so far are ordered and all lie strictly before the current clock. */
  ghost predicate OrderedBeforeClock(t: Tracker)
  {
    StrictlyIncreasing(t.frames) &&
    (|t.frames| > 0 ==> t.frames[|t.frames| - 1].pts < GetTime(t.clock))
  }

  /** One well-timed sentence keeps the frames ordered. */
  lemma RunSentenceIncreasing(t: Tracker, s: Sentence)
    requires OrderedBeforeClock(t)
    requires WellTimed(s)
    ensures StrictlyIncreasing(RunSentence(t, s).frames)
  {
    var started := Start(Reset(t));
    assert started.initial == GetTime(t.clock);
    AddAllIncreasing(started, s.words);
  }

  /** A well-timed sentence whose advance covers it leaves every frame before the clock. */
  lemma RunSentenceOrderedBeforeClock(t: Tracker, s: Sentence)
    requires OrderedBeforeClock(t)
    requires WellTimed(s) && AdvanceCoversSentence(s)
    ensures OrderedBeforeClock(RunSentence(t, s))
  {
    RunSentenceIncreasing(t, s);
    var r := RunSentence(t, s);
    var started := Start(Reset(t));
    var n := |t.frames|;
    if |s.words| > 0 {
      var k := |s.words| - 1;
      assert AddAll(started, s.words).frames[n + k] == Frame(s.words[k].text, GetTime(t.clock) + s.words[k].offsetNs);
      assert r.frames[|r.frames| - 1].pts == GetTime(t.clock) + s.words[k].offsetNs;
    } else {
      assert r.frames == t.frames;
    }
  }

  /**
   The first word of the next sentence is stamped after the last word of the
   previous one, provided the clock advance exceeded the previous sentence's
   last offset and the next sentence's offsets are not negative.
   */
  lemma SentencesSeparated(t: Tracker, s1: Sentence, s2: Sentence)
    requires |s1.words| > 0 && |s2.words| > 0
    requires AdvanceCoversSentence(s1)
    requires OffsetsNonNegative(s2.words)
    ensures var t1 := RunSentence(t, s1);
            var t2 := RunSentence(t1, s2);
            t2.frames[|t1.frames|].pts > t1.frames[|t1.frames| - 1].pts
  {
  }

  /** Every sentence is well timed, and every sentence but the last is covered by its advance. */
  ghost predicate WellSpaced(ss: seq<Sentence>)
  {
    (forall k :: 0 <= k < |ss| ==> WellTimed(ss[k])) &&
    (forall k :: 0 <= k < |ss| - 1 ==> AdvanceCoversSentence(ss[k]))
  }

  /**
   The cross-sentence claim: across any number of sentences, each reset and
   restarted, the whole frame list has strictly increasing timestamps.
   */
  lemma {:induction false} RunIncreasing(t: Tracker, ss: seq<Sentence>)
    requires OrderedBeforeClock(t)
    requires WellSpaced(ss)
    ensures StrictlyIncreasing(Run(t, ss).frames)
    decreases |ss|
  {
    if |ss| == 0 {
    } else if |ss| == 1 {
      RunSentenceIncreasing(t, ss[0]);
      assert Run(t, ss) == Run(RunSentence(t, ss[0]), []);
    } else {
      RunSentenceOrderedBeforeClock(t, ss[0]);
      var rest := ss[1..];
      assert WellSpaced(rest) by {
        forall k | 0 <= k < |rest| ensures WellTimed(rest[k]) {
          assert rest[k] == ss[k + 1];
        }
        forall k | 0 <= k < |rest| - 1 ensures AdvanceCoversSentence(rest[k]) {
          assert rest[k] == ss[k + 1];
        }
      }
      RunIncreasing(RunSentence(t, ss[0]), rest);
    }
  }

  /** A fresh clock reads one second, and reading it leaves it as it was. */
  lemma InitialClockReadsOneSecond()
    ensures GetTime(InitialClock) == 1_000_000_000
    ensures Start(NewTracker(InitialClock)).clock == InitialClock
    ensures Start(NewTracker(InitialClock)).initial == 1_000_000_000
  {
  }

  /** A fresh tracker over a fresh clock satisfies the ordering precondition. */
  lemma NewTrackerOrdered()
    ensures OrderedBeforeClock(NewTracker(InitialClock))
  {
  }

  // ---------------------------------------------------------------------------
  // The three-sentence scenario
  // ---------------------------------------------------------------------------

  /** The scenario's sentences, with the offsets written out in nanoseconds. */
  function ThreeSentences(): seq<Sentence>
  {
    [ Sentence([Word("Bonjour", 80_000_000), Word(",", 770_000_000), Word("merci", 1_010_000_000),
                Word("d'être", 1_300_000_000), Word("là", 1_580_000_000), Word(".", 1_870_000_000)],
               2_000_000_000),
      Sentence([Word("Nous", 100_000_000), Word("allons", 200_000_000), Word("faire", 430_000_000),
                Word("un", 620_000_000), Word("petit", 680_000_000), Word("échange", 900_000_000)],
               3_000_000_000),
      Sentence([Word("Avant", 100_000_000), Word("de", 300_000_000), Word("commencer", 390_000_000)], 0) ]
  }

  /** The frame a sentence gives its `k`-th word: the clock at its start plus the word's offset. */
  lemma RunSentenceFrame(t: Tracker, s: Sentence, k: int)
    requires 0 <= k < |s.words|
    ensures RunSentence(t, s).frames[|t.frames| + k] == Frame(s.words[k].text, GetTime(t.clock) + s.words[k].offsetNs)
  {
  }

  /** The scenario's sentences meet the ordering preconditions. */
  lemma ThreeSentencesWellSpaced()
    ensures WellSpaced(ThreeSentences())
  {
    var ss := ThreeSentences();
    assert WellTimed(ss[0]);
    assert WellTimed(ss[1]);
    assert WellTimed(ss[2]);
    assert AdvanceCoversSentence(ss[0]) && AdvanceCoversSentence(ss[1]);
  }

  /** The tracker after each sentence of the scenario: when it started and where the clock is. */
  lemma ThreeSentencesStates()
    ensures var ss := ThreeSentences();
            var t1 := RunSentence(NewTracker(InitialClock), ss[0]);
            var t2 := RunSentence(t1, ss[1]);
            var t3 := RunSentence(t2, ss[2]);
            Run(NewTracker(InitialClock), ss) == t3 &&
            t1.initial == 1_000_000_000 && GetTime(t1.clock) == 3_000_000_000 && |t1.frames| == 6 &&
            t2.initial == 3_000_000_000 && GetTime(t2.clock) == 6_000_000_000 && |t2.frames| == 12 &&
            t3.initial == 6_000_000_000 && |t3.frames| == 15 &&
            t2.frames[..6] == t1.frames && t3.frames[..12] == t2.frames
  {
  }

  /**
   The scenario produces fifteen frames with strictly increasing timestamps;
   the second sentence starts at 3 s and the third at 6 s of clock time.
   */
  lemma ThreeSentencesScenario()
    ensures var frames := Run(NewTracker(InitialClock), ThreeSentences()).frames;
            |frames| == 15 &&
            StrictlyIncreasing(frames) &&
            frames[0].pts == 1_080_000_000 &&
            frames[5].pts == 2_870_000_000 &&
            frames[6].pts == 3_100_000_000 &&
            frames[11].pts == 3_900_000_000 &&
            frames[12].pts == 6_100_000_000 &&
            frames[14].pts == 6_390_000_000
  {
    var ss := ThreeSentences();
    var t0 := NewTracker(InitialClock);
    ThreeSentencesWellSpaced();
    RunIncreasing(t0, ss);
    ThreeSentencesStates();
    var t1 := RunSentence(t0, ss[0]);
    var t2 := RunSentence(t1, ss[1]);
    var t3 := RunSentence(t2, ss[2]);
    RunSentenceFrame(t0, ss[0], 0);
    RunSentenceFrame(t0, ss[0], 5);
    RunSentenceFrame(t1, ss[1], 0);
    RunSentenceFrame(t1, ss[1], 5);
    RunSentenceFrame(t2, ss[2], 0);
    RunSentenceFrame(t2, ss[2], 2);
    assert t3.frames[0] == t2.frames[0] == t1.frames[0];
    assert t3.frames[5] == t2.frames[5] == t1.frames[5];
    assert t3.frames[6] == t2.frames[6];
    assert t3.frames[11] == t2.frames[11];
  }
}
