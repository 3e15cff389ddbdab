/**
 * `extract_questions` of cbt_app/core/views.py: one pass over a text blob
 * that cuts it into quiz questions, each a prompt and five option slots.
 */
module QuestionExtraction {
  import opened Wrappers
  import opened Text

  /** The five option letters a question line may be followed by. */
  datatype Letter = A | B | C | D | E

  /** The upper-case character that opens an option line for `l`. */
  function LetterChar(l: Letter): char {
    match l
    case A => 'A'
    case B => 'B'
    case C => 'C'
    case D => 'D'
    case E => 'E'
  }

  /** The letter an option line opens with, if `c` is one of `A`..`E`. */
  function LetterOf(c: char): (r: Option<Letter>)
    ensures r.Some? <==> c in "ABCDE"
    ensures r.Some? ==> LetterChar(r.value) == c
  {
    if c == 'A' then Some(A)
    else if c == 'B' then Some(B)
    else if c == 'C' then Some(C)
    else if c == 'D' then Some(D)
    else if c == 'E' then Some(E)
    else None
  }

  /** Each letter is read back from its own character. */
  lemma LetterRoundTrip(l: Letter)
    ensures LetterOf(LetterChar(l)) == Some(l)
  {
  }

  /**
   * One extracted question: the `question_main` text and the slots `a`..`e`.
   * `None` is an option line never seen; `Some("")` is one seen with no text.
   */
  datatype Record = Record(
    questionMain: string,
    a: Option<string>,
    b: Option<string>,
    c: Option<string>,
    d: Option<string>,
    e: Option<string>)

  function Slot(r: Record, l: Letter): Option<string> {
    match l
    case A => r.a
    case B => r.b
    case C => r.c
    case D => r.d
    case E => r.e
  }

  /** The record a question line opens: its prompt and no option seen. */
  function NewRecord(prompt: string): (r: Record)
    ensures r.questionMain == prompt
    ensures forall l :: Slot(r, l) == None
  {
    Record(prompt, None, None, None, None, None)
  }

  /** `current_question[option] = option_text`: one slot overwritten, the rest kept. */
  function SetSlot(r: Record, l: Letter, text: string): (r': Record)
    ensures r'.questionMain == r.questionMain
    ensures Slot(r', l) == Some(text)
    ensures forall m :: m != l ==> Slot(r', m) == Slot(r, m)
  {
    match l
    case A => r.(a := Some(text))
    case B => r.(b := Some(text))
    case C => r.(c := Some(text))
    case D => r.(d := Some(text))
    case E => r.(e := Some(text))
  }

  /** What the classifier makes of one stripped, non-empty line. */
  datatype Tag =
    | QuestionLine(prompt: string)
    | OptionLine(letter: Letter, text: string)
    | OtherLine

  /** Length of the run of digits `line` starts with. */
  function LeadingDigits(line: string): (n: nat)
    ensures n <= |line|
    decreases |line|
  {
    if line != [] && IsDigit(line[0]) then 1 + LeadingDigits(line[1..]) else 0
  }

  /** The leading run is all digits and is followed by a non-digit or the end of the line. */
  lemma {:induction false} LeadingDigitsRun(line: string)
    ensures forall k :: 0 <= k < LeadingDigits(line) ==> IsDigit(line[k])
    ensures LeadingDigits(line) < |line| ==> !IsDigit(line[LeadingDigits(line)])
    decreases |line|
  {
    if line != [] && IsDigit(line[0]) {
      LeadingDigitsRun(line[1..]);
    }
  }

  /** `re.match(r'^\d+\.', line)`: one or more digits, then a period. */
  predicate IsQuestionStart(line: string) {
    var n := LeadingDigits(line);
    0 < n < |line| && line[n] == '.'
  }

  /** `line.startswith(('A.', 'B.', 'C.', 'D.', 'E.'))`. */
  predicate IsOptionStart(line: string) {
    |line| >= 2 && LetterOf(line[0]).Some? && line[1] == '.'
  }

  /** The prefix test spelled as the source spells it: one of the five two-character prefixes. */
  lemma OptionStartIff(line: string)
    ensures IsOptionStart(line) <==> |line| >= 2 && line[..2] in ["A.", "B.", "C.", "D.", "E."]
  {
    if |line| >= 2 {
      var p := line[..2];
      assert p == [line[0], line[1]];
    }
  }

  /**
   * The line classifier. A question line's prompt is what follows its first
   * period, stripped (`line.split('.', 1)[1].strip()`); an option line's text
   * is `line[2:].strip()`.
   */
  function Classify(line: string): (t: Tag)
    ensures t.QuestionLine? <==> IsQuestionStart(line)
    ensures t.OptionLine? <==> !IsQuestionStart(line) && IsOptionStart(line)
  {
    if IsQuestionStart(line) then
      LeadingDigitsRun(line);
      QuestionLine(Strip(line[IndexOf(line, '.') + 1..]))
    else if IsOptionStart(line) then
      OptionLine(LetterOf(line[0]).value, Strip(line[2..]))
    else
      OtherLine
  }

  /**
   * `^\d+\.` matches exactly the lines that open with one or more digits
   * followed by a period; what comes later in the line does not matter.
   */
  lemma QuestionStartIff(line: string)
    ensures IsQuestionStart(line) <==>
      exists k :: 0 < k < |line| && line[k] == '.' && forall j :: 0 <= j < k ==> IsDigit(line[j])
  {
    var n := LeadingDigits(line);
    LeadingDigitsRun(line);
    if !IsQuestionStart(line) {
      forall k | 0 < k < |line| && line[k] == '.'
        ensures exists j :: 0 <= j < k && !IsDigit(line[j])
      {
        if n < k { assert !IsDigit(line[n]); }
      }
    }
  }

  /** A question line is read as: the prompt is what follows the digits and the first period, stripped. */
  lemma {:induction false} ClassifyQuestion(digits: string, rest: string)
    requires |digits| > 0 && forall j :: 0 <= j < |digits| ==> IsDigit(digits[j])
    ensures Classify(digits + "." + rest) == QuestionLine(Strip(rest))
  {
    var line := digits + "." + rest;
    assert line[|digits|] == '.';
    QuestionStartIff(line);
    LeadingDigitsRun(line);
    assert LeadingDigits(line) == |digits|;
    assert IndexOf(line, '.') == |digits|;
    assert line[|digits| + 1..] == rest;
  }

  /** An option line `X.` with X in A..E is read as option X with the rest of the line, stripped. */
  lemma ClassifyOption(l: Letter, rest: string)
    ensures Classify([LetterChar(l), '.'] + rest) == OptionLine(l, Strip(rest))
  {
    var line := [LetterChar(l), '.'] + rest;
    assert line[0] == LetterChar(l) && line[1] == '.';
    assert LeadingDigits(line) == 0;
    assert !IsQuestionStart(line);
    LetterRoundTrip(l);
    assert IsOptionStart(line);
    assert line[2..] == rest;
  }

  /** Every line that is neither a question line nor an option line is `OtherLine`. */
  lemma ClassifyOther(line: string)
    requires !(exists k :: 0 < k < |line| && line[k] == '.' && forall j :: 0 <= j < k ==> IsDigit(line[j]))
    requires !(|line| >= 2 && line[0] in "ABCDE" && line[1] == '.')
    ensures Classify(line) == OtherLine
  {
    QuestionStartIff(line);
  }

  /** The extractor's state: the records flushed so far and the open one. */
  datatype Accumulated = Accumulated(questions: seq<Record>, current: Option<Record>)

  const Start := Accumulated([], None)

  /**
   * One classified line. A question line flushes the open record and opens a
   * new one; an option line fills a slot of the open record, or is dropped
   * when none is open; any other line changes nothing. Flushed records are
   * never touched again.
   */
  function Transition(st: Accumulated, tag: Tag): (st': Accumulated)
    ensures st.questions <= st'.questions
    ensures st'.current.None? ==> st' == st
  {
    match tag
    case QuestionLine(prompt) =>
      var flushed := if st.current.Some? then st.questions + [st.current.value] else st.questions;
      Accumulated(flushed, Some(NewRecord(prompt)))
    case OptionLine(l, text) =>
      if st.current.Some? then Accumulated(st.questions, Some(SetSlot(st.current.value, l, text))) else st
    case OtherLine => st
  }

  /** The accumulator over a run of classified lines, from state `st`. */
  function Accumulate(st: Accumulated, tags: seq<Tag>): (st': Accumulated)
    ensures st.questions <= st'.questions
    decreases |tags|
  {
    if tags == [] then st else Accumulate(Transition(st, tags[0]), tags[1..])
  }

  /** The end-of-input flush: the open record, if any, goes last. */
  function Flush(st: Accumulated): (qs: seq<Record>)
    ensures |qs| == |st.questions| + (if st.current.Some? then 1 else 0)
    ensures st.questions <= qs
    ensures st.current.Some? ==> qs[|qs| - 1] == st.current.value
  {
    if st.current.Some? then st.questions + [st.current.value] else st.questions
  }

  /** `pdf_content.split("\n")`. */
  function Lines(content: string): seq<string> {
    Split(content, '\n')
  }

  /** One raw line: stripped, then skipped when empty or else classified. */
  function LineTags(raw: string): (tags: seq<Tag>)
    ensures |tags| <= 1
  {
    var line := Strip(raw);
    if line == [] then [] else [Classify(line)]
  }

  /** `f` applied to each element, the results concatenated in order. */
  function FlatMap<X, Y>(xs: seq<X>, f: X -> seq<Y>): seq<Y>
    decreases |xs|
  {
    if xs == [] then [] else f(xs[0]) + FlatMap(xs[1..], f)
  }

  /** The classified lines of the blob, blank lines left out. */
  function Classified(lines: seq<string>): seq<Tag> {
    FlatMap(lines, LineTags)
  }

  /** What `extract_questions(content)` returns. */
  function Extract(content: string): seq<Record> {
    Flush(Accumulate(Start, Classified(Lines(content))))
  }

  /** The state of one extraction run: `questions` and `current_question`. */
  class QuestionAccumulator {
    var questions: seq<Record>
    var current: Option<Record>

    function State(): Accumulated
      reads this
    {
      Accumulated(questions, current)
    }

    constructor ()
      ensures State() == Start
    {
      questions := [];
      current := None;
    }

    /** Takes one classified line (views.py lines 47-65). */
    method Accept(tag: Tag)
      modifies this
      ensures State() == Transition(old(State()), tag)
      ensures old(questions) <= questions
    {
      match tag
      case QuestionLine(prompt) =>
        if current.Some? {
          questions := questions + [current.value];
        }
        current := Some(NewRecord(prompt));
      case OptionLine(l, text) =>
        if current.Some? {
          current := Some(SetSlot(current.value, l, text));
        }
      case OtherLine =>
    }

    /** The end-of-input flush (views.py lines 67-68). */
    method Finish() returns (qs: seq<Record>)
      modifies this
      ensures qs == questions == Flush(old(State()))
      ensures current == old(current)
    {
      if current.Some? {
        questions := questions + [current.value];
      }
      qs := questions;
    }
  }

  lemma ClassifiedFrom(lines: seq<string>, i: nat)
    requires i < |lines|
    ensures Classified(lines[i..]) == LineTags(lines[i]) + Classified(lines[i + 1..])
  {
    assert lines[i..][0] == lines[i];
    assert lines[i..][1..] == lines[i + 1..];
  }

  lemma LineTagsOf(raw: string)
    ensures Strip(raw) == [] ==> LineTags(raw) == []
    ensures Strip(raw) != [] ==> LineTags(raw) == [Classify(Strip(raw))]
  {
  }

  lemma AccumulateCons(st: Accumulated, tag: Tag, rest: seq<Tag>)
    ensures Accumulate(st, [tag] + rest) == Accumulate(Transition(st, tag), rest)
  {
    assert ([tag] + rest)[1..] == rest;
  }

  /** `extract_questions`: the loop over the lines of `content`. */
  method ExtractQuestions(content: string) returns (qs: seq<Record>)
    ensures qs == Extract(content)
  {
    var acc := new QuestionAccumulator();
    var lines := Lines(content);
    var i := 0;
    ghost var all := Accumulate(Start, Classified(lines));
    while i < |lines|
      invariant 0 <= i <= |lines|
      invariant Accumulate(acc.State(), Classified(lines[i..])) == all
    {
      var line := Strip(lines[i]);
      ClassifiedFrom(lines, i);
      ghost var rest := Classified(lines[i + 1..]);
      if line != [] {
        var tag := Classify(line);
        LineTagsOf(lines[i]);
        AccumulateCons(acc.State(), tag, rest);
        acc.Accept(tag);
      } else {
        LineTagsOf(lines[i]);
        assert [] + rest == rest;
      }
      i := i + 1;
    }
    qs := acc.Finish();
  }
}
