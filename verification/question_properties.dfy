/**
 * What `extract_questions` computes, stated without its loop: every
 * question line opens a block that runs to the next question line, and the
 * block's record holds, per letter, the text of the last option line for
 * that letter. Lines before the first question line belong to no block.
 */
module QuestionExtractionProperties {
  import opened Wrappers
  import opened Text
  import opened QuestionExtraction

  predicate IsOptionFor(t: Tag, l: Letter) {
    t.OptionLine? && t.letter == l
  }

  /** Number of classified lines before the next question line. */
  function BlockLen(tags: seq<Tag>): (n: nat)
    ensures n <= |tags|
    ensures forall k :: 0 <= k < n ==> !tags[k].QuestionLine?
    ensures n < |tags| ==> tags[n].QuestionLine?
    decreases |tags|
  {
    if tags == [] || tags[0].QuestionLine? then 0 else 1 + BlockLen(tags[1..])
  }

  /** The text of the last option line for `l` in `block`, if there is one. */
  function LastOption(block: seq<Tag>, l: Letter): Option<string>
    decreases |block|
  {
    if block == [] then None
    else if IsOptionFor(block[|block| - 1], l) then Some(block[|block| - 1].text)
    else LastOption(block[..|block| - 1], l)
  }

  /** `r` with each slot replaced by the last option line for it in `block`, where there is one. */
  function Overlay(r: Record, block: seq<Tag>): (r': Record)
    ensures r'.questionMain == r.questionMain
    ensures forall l :: Slot(r', l) == if LastOption(block, l).Some? then LastOption(block, l) else Slot(r, l)
  {
    var pick := (l: Letter) => if LastOption(block, l).Some? then LastOption(block, l) else Slot(r, l);
    Record(r.questionMain, pick(A), pick(B), pick(C), pick(D), pick(E))
  }

  /** The records of a run of classified lines, block by block. */
  function Blocks(tags: seq<Tag>): seq<Record>
    decreases |tags|
  {
    if tags == [] then []
    else if tags[0].QuestionLine? then
      var rest := tags[1..];
      var n := BlockLen(rest);
      [Overlay(NewRecord(tags[0].prompt), rest[..n])] + Blocks(rest[n..])
    else Blocks(tags[1..])
  }

  lemma RecordsEqual(r: Record, r': Record)
    requires r.questionMain == r'.questionMain
    requires forall l :: Slot(r, l) == Slot(r', l)
    ensures r == r'
  {
    assert Slot(r, A) == Slot(r', A) && Slot(r, B) == Slot(r', B) && Slot(r, C) == Slot(r', C);
    assert Slot(r, D) == Slot(r', D) && Slot(r, E) == Slot(r', E);
  }

  /** A line in front of a block only counts for a letter no later line sets. */
  lemma {:induction false} LastOptionCons(x: Tag, b: seq<Tag>, l: Letter)
    ensures LastOption([x] + b, l) ==
      if LastOption(b, l).Some? then LastOption(b, l)
      else if IsOptionFor(x, l) then Some(x.text)
      else None
    decreases |b|
  {
    var s := [x] + b;
    if b == [] {
      assert s[..|s| - 1] == [];
    } else {
      assert s[..|s| - 1] == [x] + b[..|b| - 1];
      assert s[|s| - 1] == b[|b| - 1];
      LastOptionCons(x, b[..|b| - 1], l);
    }
  }

  /**
   * Last write wins: a slot holds `text` exactly when some option line for
   * its letter carries `text` and no later line in the block is for the same
   * letter; it stays unset exactly when no line in the block is for it.
   */
  lemma {:induction false} LastOptionIsLastWrite(block: seq<Tag>, l: Letter, text: string)
    ensures LastOption(block, l) == Some(text) <==>
      exists k :: 0 <= k < |block| && block[k] == OptionLine(l, text) &&
        forall j :: k < j < |block| ==> !IsOptionFor(block[j], l)
    ensures LastOption(block, l) == None <==> forall k :: 0 <= k < |block| ==> !IsOptionFor(block[k], l)
    decreases |block|
  {
    if block != [] {
      var m := |block| - 1;
      var init := block[..m];
      LastOptionIsLastWrite(init, l, text);
      if IsOptionFor(block[m], l) {
        if block[m] != OptionLine(l, text) {
          forall k | 0 <= k < |block| && block[k] == OptionLine(l, text)
            ensures exists j :: k < j < |block| && IsOptionFor(block[j], l)
          {
            assert k < m;
          }
        }
      } else {
        assert forall k :: 0 <= k < m ==> init[k] == block[k];
        if LastOption(init, l) == Some(text) {
          var k :| 0 <= k < |init| && init[k] == OptionLine(l, text) &&
            forall j :: k < j < |init| ==> !IsOptionFor(init[j], l);
          assert forall j :: k < j < |block| ==> !IsOptionFor(block[j], l);
        }
      }
    }
  }

  lemma OverlayEmpty(r: Record)
    ensures Overlay(r, []) == r
  {
    RecordsEqual(Overlay(r, []), r);
  }

  /** Overlaying a block is taking its first line, then overlaying the rest. */
  lemma OverlayCons(r: Record, x: Tag, b: seq<Tag>)
    requires !x.QuestionLine?
    ensures x.OptionLine? ==> Overlay(r, [x] + b) == Overlay(SetSlot(r, x.letter, x.text), b)
    ensures x.OtherLine? ==> Overlay(r, [x] + b) == Overlay(r, b)
  {
    var r1 := if x.OptionLine? then SetSlot(r, x.letter, x.text) else r;
    forall l ensures Slot(Overlay(r, [x] + b), l) == Slot(Overlay(r1, b), l) {
      LastOptionCons(x, b, l);
    }
    RecordsEqual(Overlay(r, [x] + b), Overlay(r1, b));
  }

  /**
   * The records the block reading gives from state `st`: an open record
   * absorbs the lines up to the next question line, and the blocks after it
   * follow.
   */
  function FromState(st: Accumulated, tags: seq<Tag>): seq<Record> {
    if st.current.None? then st.questions + Blocks(tags)
    else st.questions + [Overlay(st.current.value, tags[..BlockLen(tags)])] + Blocks(tags[BlockLen(tags)..])
  }

  lemma QuestionStep(st: Accumulated, tags: seq<Tag>)
    requires tags != [] && tags[0].QuestionLine?
    requires Flush(Accumulate(Transition(st, tags[0]), tags[1..])) == FromState(Transition(st, tags[0]), tags[1..])
    ensures Flush(Accumulate(st, tags)) == FromState(st, tags)
  {
    assert Accumulate(st, tags) == Accumulate(Transition(st, tags[0]), tags[1..]);
    QuestionFromState(st, tags);
  }

  /** Reading a question line moves the open record, if any, into the flushed part of the block reading. */
  lemma QuestionFromState(st: Accumulated, tags: seq<Tag>)
    requires tags != [] && tags[0].QuestionLine?
    ensures FromState(Transition(st, tags[0]), tags[1..]) == FromState(st, tags)
  {
    var st' := Transition(st, tags[0]);
    QuestionOpensBlock(st, tags);
    if st.current.Some? {
      var r := st.current.value;
      assert st'.questions == st.questions + [r];
      OpenRecordClosed(st, tags);
      assert st.questions + [r] + Blocks(tags) == st.questions + ([r] + Blocks(tags));
    } else {
      assert st'.questions == st.questions;
    }
  }

  lemma QuestionOpensBlock(st: Accumulated, tags: seq<Tag>)
    requires tags != [] && tags[0].QuestionLine?
    ensures FromState(Transition(st, tags[0]), tags[1..]) == Transition(st, tags[0]).questions + Blocks(tags)
  {
    var st' := Transition(st, tags[0]);
    assert st'.current == Some(NewRecord(tags[0].prompt));
    FromStateOpen(st', tags[1..]);
    BlocksAtQuestion(tags);
  }

  lemma BlocksAtQuestion(tags: seq<Tag>)
    requires tags != [] && tags[0].QuestionLine?
    ensures Blocks(tags) ==
      [Overlay(NewRecord(tags[0].prompt), tags[1..][..BlockLen(tags[1..])])] + Blocks(tags[1..][BlockLen(tags[1..])..])
  {
  }

  lemma FromStateOpen(st: Accumulated, tags: seq<Tag>)
    requires st.current.Some?
    ensures FromState(st, tags) ==
      st.questions + ([Overlay(st.current.value, tags[..BlockLen(tags)])] + Blocks(tags[BlockLen(tags)..]))
  {
    var first := Overlay(st.current.value, tags[..BlockLen(tags)]);
    assert st.questions + [first] + Blocks(tags[BlockLen(tags)..]) ==
      st.questions + ([first] + Blocks(tags[BlockLen(tags)..]));
  }

  /** A record still open when a question line arrives is closed with no further change. */
  lemma OpenRecordClosed(st: Accumulated, tags: seq<Tag>)
    requires st.current.Some? && tags != [] && tags[0].QuestionLine?
    ensures FromState(st, tags) == st.questions + ([st.current.value] + Blocks(tags))
  {
    assert BlockLen(tags) == 0;
    assert tags[..0] == [];
    OverlayEmpty(st.current.value);
    assert tags[0..] == tags;
    FromStateOpen(st, tags);
  }

  lemma OptionOrOtherStep(st: Accumulated, tags: seq<Tag>)
    requires tags != [] && !tags[0].QuestionLine?
    requires Flush(Accumulate(Transition(st, tags[0]), tags[1..])) == FromState(Transition(st, tags[0]), tags[1..])
    ensures Flush(Accumulate(st, tags)) == FromState(st, tags)
  {
    assert Accumulate(st, tags) == Accumulate(Transition(st, tags[0]), tags[1..]);
    if st.current.Some? {
      OptionOrOtherOpen(st, tags);
    } else {
      assert Transition(st, tags[0]) == st;
      assert Blocks(tags) == Blocks(tags[1..]);
    }
  }

  /** With a record open, an option or other line extends the open record's block by one line. */
  lemma OptionOrOtherOpen(st: Accumulated, tags: seq<Tag>)
    requires tags != [] && !tags[0].QuestionLine? && st.current.Some?
    ensures FromState(Transition(st, tags[0]), tags[1..]) == FromState(st, tags)
  {
    var x, rest := tags[0], tags[1..];
    var n := BlockLen(rest);
    assert BlockLen(tags) == 1 + n;
    assert tags[..1 + n] == [x] + rest[..n];
    assert tags[1 + n..] == rest[n..];
    OverlayCons(st.current.value, x, rest[..n]);
  }

  /** The accumulator, started from any state, agrees with the block reading. */
  lemma {:induction false} AccumulateMatchesBlocks(st: Accumulated, tags: seq<Tag>)
    ensures Flush(Accumulate(st, tags)) == FromState(st, tags)
    decreases |tags|
  {
    if tags == [] {
      if st.current.Some? {
        OverlayEmpty(st.current.value);
      }
    } else {
      AccumulateMatchesBlocks(Transition(st, tags[0]), tags[1..]);
      if tags[0].QuestionLine? {
        QuestionStep(st, tags);
      } else {
        OptionOrOtherStep(st, tags);
      }
    }
  }

  /** `extract_questions` returns exactly the blocks of its classified lines. */
  lemma ExtractIsBlocks(content: string)
    ensures Extract(content) == Blocks(Classified(Lines(content)))
  {
    AccumulateMatchesBlocks(Start, Classified(Lines(content)));
    assert FromState(Start, Classified(Lines(content))) == [] + Blocks(Classified(Lines(content)));
    assert [] + Blocks(Classified(Lines(content))) == Blocks(Classified(Lines(content)));
  }
  /** The prompts of the question lines, in the order they appear. */
  function QuestionPrompts(tags: seq<Tag>): (ps: seq<string>)
    ensures |ps| <= |tags|
    decreases |tags|
  {
    if tags == [] then []
    else (if tags[0].QuestionLine? then [tags[0].prompt] else []) + QuestionPrompts(tags[1..])
  }

  /** The `question_main` of each record, in order. */
  function Prompts(rs: seq<Record>): (ps: seq<string>)
    ensures |ps| == |rs|
    ensures forall k :: 0 <= k < |rs| ==> ps[k] == rs[k].questionMain
  {
    seq(|rs|, k requires 0 <= k < |rs| => rs[k].questionMain)
  }

  lemma {:induction false} QuestionPromptsSkip(tags: seq<Tag>, n: nat)
    requires n <= |tags|
    requires forall k :: 0 <= k < n ==> !tags[k].QuestionLine?
    ensures QuestionPrompts(tags) == QuestionPrompts(tags[n..])
    decreases n
  {
    if n > 0 {
      assert tags[1..][n - 1..] == tags[n..];
      QuestionPromptsSkip(tags[1..], n - 1);
    }
  }

  /** One record per question line, in the order of the question lines, each with that line's prompt. */
  lemma {:induction false} BlocksFollowQuestionLines(tags: seq<Tag>)
    ensures Prompts(Blocks(tags)) == QuestionPrompts(tags)
    decreases |tags|
  {
    if tags != [] {
      var rest := tags[1..];
      if tags[0].QuestionLine? {
        BlocksFollowQuestionLines(rest[BlockLen(rest)..]);
        PromptsAtQuestion(tags);
      } else {
        BlocksFollowQuestionLines(rest);
        PromptsAtOther(tags);
      }
    }
  }

  lemma PromptsAtQuestion(tags: seq<Tag>)
    requires tags != [] && tags[0].QuestionLine?
    requires var rest := tags[1..];
      Prompts(Blocks(rest[BlockLen(rest)..])) == QuestionPrompts(rest[BlockLen(rest)..])
    ensures Prompts(Blocks(tags)) == QuestionPrompts(tags)
  {
    var rest := tags[1..];
    var n := BlockLen(rest);
    var first := Overlay(NewRecord(tags[0].prompt), rest[..n]);
    BlocksAtQuestion(tags);
    PromptsCons(first, Blocks(rest[n..]));
    QuestionPromptsSkip(rest, n);
    assert QuestionPrompts(tags) == [tags[0].prompt] + QuestionPrompts(rest);
  }

  lemma PromptsCons(r: Record, rs: seq<Record>)
    ensures Prompts([r] + rs) == [r.questionMain] + Prompts(rs)
  {
  }

  lemma PromptsAtOther(tags: seq<Tag>)
    requires tags != [] && !tags[0].QuestionLine?
    requires Prompts(Blocks(tags[1..])) == QuestionPrompts(tags[1..])
    ensures Prompts(Blocks(tags)) == QuestionPrompts(tags)
  {
    assert Blocks(tags) == Blocks(tags[1..]);
    assert QuestionPrompts(tags) == [] + QuestionPrompts(tags[1..]);
  }

  /** Lines with no question line among them open no block: whatever they say is lost. */
  lemma {:induction false} BlocksSkipStrayLines(pre: seq<Tag>, tags: seq<Tag>)
    requires forall k :: 0 <= k < |pre| ==> !pre[k].QuestionLine?
    ensures Blocks(pre + tags) == Blocks(tags)
    decreases |pre|
  {
    if pre != [] {
      assert (pre + tags)[0] == pre[0];
      assert (pre + tags)[1..] == pre[1..] + tags;
      BlocksSkipStrayLines(pre[1..], tags);
    } else {
      assert pre + tags == tags;
    }
  }

  /** The number of raw lines that are question lines once stripped. */
  function CountQuestionLines(lines: seq<string>): (n: nat)
    ensures n <= |lines|
    decreases |lines|
  {
    if lines == [] then 0
    else (if IsQuestionStart(Strip(lines[0])) then 1 else 0) + CountQuestionLines(lines[1..])
  }

  lemma {:induction false} ClassifiedQuestionCount(lines: seq<string>)
    ensures |QuestionPrompts(Classified(lines))| == CountQuestionLines(lines)
    decreases |lines|
  {
    if lines != [] {
      var line := Strip(lines[0]);
      var head := LineTags(lines[0]);
      ClassifiedQuestionCount(lines[1..]);
      QuestionPromptsAppend(head, Classified(lines[1..]));
      if line == [] {
        assert !IsQuestionStart(line);
      }
    }
  }

  lemma {:induction false} QuestionPromptsAppend(a: seq<Tag>, b: seq<Tag>)
    ensures QuestionPrompts(a + b) == QuestionPrompts(a) + QuestionPrompts(b)
    decreases |a|
  {
    if a != [] {
      assert (a + b)[0] == a[0];
      assert (a + b)[1..] == a[1..] + b;
      QuestionPromptsAppend(a[1..], b);
      var head := if a[0].QuestionLine? then [a[0].prompt] else [];
      assert QuestionPrompts(a + b) == head + (QuestionPrompts(a[1..]) + QuestionPrompts(b));
    } else {
      assert a + b == b;
    }
  }

  lemma {:induction false} FlatMapAppend<X, Y>(a: seq<X>, b: seq<X>, f: X -> seq<Y>)
    ensures FlatMap(a + b, f) == FlatMap(a, f) + FlatMap(b, f)
    decreases |a|
  {
    if a != [] {
      assert (a + b)[0] == a[0];
      assert (a + b)[1..] == a[1..] + b;
      FlatMapAppend(a[1..], b, f);
    } else {
      assert a + b == b;
    }
  }

  /** Blank lines (whitespace only) classify to nothing. */
  lemma {:induction false} ClassifiedBlank(lines: seq<string>)
    requires forall k :: 0 <= k < |lines| ==> AllSpace(lines[k])
    ensures Classified(lines) == []
    decreases |lines|
  {
    if lines != [] {
      StripEmpty(lines[0]);
      assert LineTags(lines[0]) == [];
      ClassifiedBlank(lines[1..]);
    }
  }

  /**
   * The result has one record per question line and in their order, each
   * record's `question_main` being that line's prompt.
   */
  lemma ExtractFollowsQuestionLines(content: string)
    ensures |Extract(content)| == CountQuestionLines(Lines(content))
    ensures Prompts(Extract(content)) == QuestionPrompts(Classified(Lines(content)))
  {
    ExtractIsBlocks(content);
    BlocksFollowQuestionLines(Classified(Lines(content)));
    ClassifiedQuestionCount(Lines(content));
  }

  /** A text with no question line gives no record, whatever else it holds. */
  lemma ExtractWithoutQuestionLines(content: string)
    requires forall k :: 0 <= k < |Lines(content)| ==> !IsQuestionStart(Strip(Lines(content)[k]))
    ensures Extract(content) == []
  {
    var lines := Lines(content);
    assert CountQuestionLines(lines) == 0 by {
      CountZero(lines);
    }
    ExtractFollowsQuestionLines(content);
  }

  lemma {:induction false} CountZero(lines: seq<string>)
    requires forall k :: 0 <= k < |lines| ==> !IsQuestionStart(Strip(lines[k]))
    ensures CountQuestionLines(lines) == 0
    decreases |lines|
  {
    if lines != [] {
      CountZero(lines[1..]);
    }
  }

  /** The empty text gives no record. */
  lemma ExtractEmpty()
    ensures Extract("") == []
  {
    assert Lines("") == [""];
    ExtractWithoutQuestionLines("");
  }

  /**
   * The last open record is flushed once, however the text ends: a newline
   * followed by any amount of whitespace, newlines included, changes nothing.
   */
  lemma ExtractTrailingBlank(content: string, tail: string)
    requires AllSpace(tail)
    ensures Extract(content + "\n" + tail) == Extract(content)
  {
    SplitAppend(content, tail, '\n');
    SplitAllSpace(tail, '\n');
    FlatMapAppend(Lines(content), Lines(tail), LineTags);
    ClassifiedBlank(Lines(tail));
    assert Classified(Lines(content + "\n" + tail)) == Classified(Lines(content));
  }

  /**
   * Text in front of the first question line is dropped: prefixing a text
   * with lines none of which is a question line (stray option lines,
   * unrecognised lines, blank lines) changes nothing.
   */
  lemma ExtractDropsStrayPrefix(pre: string, content: string)
    requires forall k :: 0 <= k < |Lines(pre)| ==> !IsQuestionStart(Strip(Lines(pre)[k]))
    ensures Extract(pre + "\n" + content) == Extract(content)
  {
    SplitAppend(pre, content, '\n');
    FlatMapAppend(Lines(pre), Lines(content), LineTags);
    var stray := Classified(Lines(pre));
    NoQuestionTags(Lines(pre));
    BlocksSkipStrayLines(stray, Classified(Lines(content)));
    ExtractIsBlocks(pre + "\n" + content);
    ExtractIsBlocks(content);
  }

  lemma {:induction false} NoQuestionTags(lines: seq<string>)
    requires forall k :: 0 <= k < |lines| ==> !IsQuestionStart(Strip(lines[k]))
    ensures forall k :: 0 <= k < |Classified(lines)| ==> !Classified(lines)[k].QuestionLine?
    decreases |lines|
  {
    if lines != [] {
      NoQuestionTags(lines[1..]);
      assert lines[0..] == lines;
      ClassifiedFrom(lines, 0);
      LineTagsOf(lines[0]);
      NoQuestionConcat(LineTags(lines[0]), Classified(lines[1..]));
    }
  }

  lemma NoQuestionConcat(a: seq<Tag>, b: seq<Tag>)
    requires forall k :: 0 <= k < |a| ==> !a[k].QuestionLine?
    requires forall k :: 0 <= k < |b| ==> !b[k].QuestionLine?
    ensures forall k :: 0 <= k < |a + b| ==> !(a + b)[k].QuestionLine?
  {
  }
}
