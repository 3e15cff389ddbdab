/**
 * Worked instances of the extractor's documented behaviour, each derived
 * from the general lemmas about the classifier and the block reference.
 */
module QuestionExamples {
  import opened Wrappers
  import opened Text
  import opened QuestionExtraction
  import opened QuestionExtractionProperties

  /** A text with no whitespace at either end is left alone by strip(). */
  lemma StripPlain(s: string)
    requires s != [] && !IsSpace(s[0]) && !IsSpace(s[|s| - 1])
    ensures Strip(s) == s
  {
    assert [] + s + [] == s;
    StripOf([], s, []);
  }

  /** One leading blank is removed by strip(). */
  lemma StripOneSpace(s: string)
    requires s != [] && !IsSpace(s[0]) && !IsSpace(s[|s| - 1])
    ensures Strip([' '] + s) == s
  {
    assert [' '] + s + [] == [' '] + s;
    StripOf([' '], s, []);
  }

  /** A line without surrounding whitespace yields exactly its own classification. */
  lemma LineTagsPlain(line: string)
    requires line != [] && !IsSpace(line[0]) && !IsSpace(line[|line| - 1])
    ensures LineTags(line) == [Classify(line)]
  {
    StripPlain(line);
  }

  /** `"<digit>. <prompt>"` is a question line whose prompt is the text after the blank. */
  lemma QuestionLineOf(digit: char, prompt: string)
    requires IsDigit(digit) && prompt != [] && !IsSpace(prompt[0]) && !IsSpace(prompt[|prompt| - 1])
    ensures Classify([digit, '.', ' '] + prompt) == QuestionLine(prompt)
  {
    var rest := [' '] + prompt;
    var line := [digit] + "." + rest;
    assert line == [digit, '.', ' '] + prompt;
    ClassifyQuestion([digit], rest);
    StripOneSpace(prompt);
  }

  /** `"<letter>. <text>"` is an option line for that letter. */
  lemma OptionLineOf(l: Letter, text: string)
    requires text != [] && !IsSpace(text[0]) && !IsSpace(text[|text| - 1])
    ensures Classify([LetterChar(l), '.', ' '] + text) == OptionLine(l, text)
  {
    StripOneSpace(text);
    assert [LetterChar(l), '.'] + ([' '] + text) == [LetterChar(l), '.', ' '] + text;
    ClassifyOption(l, [' '] + text);
  }

  /** Only the leading digits and the first period open a question: `"1.5 x"` has prompt `"5 x"`. */
  lemma PromptFollowsFirstPeriod()
    ensures Classify("1.5 x") == QuestionLine("5 x")
  {
    PromptText();
    StripPlain("5 x");
    PromptClassified();
  }

  lemma PromptClassified()
    ensures Classify("1" + "." + "5 x") == QuestionLine(Strip("5 x"))
  {
    ClassifyQuestion("1", "5 x");
  }

  lemma PromptText()
    ensures "1" + "." + "5 x" == "1.5 x"
  {
  }

  /** An option line with no text stores the empty text, not "unset". */
  lemma EmptyOptionIsSeen()
    ensures Classify("A.") == OptionLine(A, "")
  {
    StripOf([], [], []);
    assert [LetterChar(A), '.'] + [] == "A.";
    ClassifyOption(A, []);
  }

  /** A lower-case letter does not open an option line. */
  lemma LowerCaseIsNotOption()
    ensures Classify("a. x") == OtherLine
  {
    var s := "a. x";
    assert !IsQuestionStart(s);
    assert !IsOptionStart(s);
  }

  /** A letter after E does not open an option line. */
  lemma LetterAfterEIsNotOption()
    ensures Classify("F. x") == OtherLine
  {
    var s := "F. x";
    assert !IsQuestionStart(s);
    assert !IsOptionStart(s);
  }

  /** A letter without the period does not open an option line. */
  lemma MissingPeriodIsNotOption()
    ensures Classify("A x") == OtherLine
  {
    var s := "A x";
    assert !IsQuestionStart(s);
    assert !IsOptionStart(s);
  }

  lemma FlatMapFour<X, Y>(a: X, b: X, c: X, d: X, f: X -> seq<Y>)
    ensures FlatMap([a, b, c, d], f) == f(a) + f(b) + f(c) + f(d)
  {
    assert [a, b, c, d][1..] == [b, c, d];
    assert [b, c, d][1..] == [c, d];
    assert [c, d][1..] == [d];
    assert [d][1..] == [];
    assert FlatMap([d], f) == f(d) + FlatMap([], f);
    assert FlatMap([c, d], f) == f(c) + FlatMap([d], f);
    assert FlatMap([b, c, d], f) == f(b) + FlatMap([c, d], f);
  }

  /** The running example, two question blocks of one option each. */
  function TwoBlockText(): string
  {
    "1. First?" + "\n" + "A. x" + "\n" + "2. Second?" + "\n" + "B. y"
  }

  lemma TwoBlockLines()
    ensures Lines(TwoBlockText()) == ["1. First?", "A. x", "2. Second?", "B. y"]
  {
    var parts := ["1. First?", "A. x", "2. Second?", "B. y"];
    assert parts[1..] == ["A. x", "2. Second?", "B. y"];
    assert parts[1..][1..] == ["2. Second?", "B. y"];
    assert parts[1..][1..][1..] == ["B. y"];
    assert Join(parts, '\n') == TwoBlockText();
    SplitJoin(parts, '\n');
  }

  lemma QuestionLineTags(digit: char, prompt: string)
    requires IsDigit(digit) && prompt != [] && !IsSpace(prompt[0]) && !IsSpace(prompt[|prompt| - 1])
    ensures LineTags([digit, '.', ' '] + prompt) == [QuestionLine(prompt)]
  {
    var line := [digit, '.', ' '] + prompt;
    assert line[0] == digit && line[|line| - 1] == prompt[|prompt| - 1];
    LineTagsPlain(line);
    QuestionLineOf(digit, prompt);
  }

  lemma OptionLineTags(l: Letter, text: string)
    requires text != [] && !IsSpace(text[0]) && !IsSpace(text[|text| - 1])
    ensures LineTags([LetterChar(l), '.', ' '] + text) == [OptionLine(l, text)]
  {
    var line := [LetterChar(l), '.', ' '] + text;
    assert line[0] == LetterChar(l) && line[|line| - 1] == text[|text| - 1];
    LineTagsPlain(line);
    OptionLineOf(l, text);
  }

  lemma FirstLineTags()
    ensures LineTags("1. First?") == [QuestionLine("First?")]
  {
    assert "1. First?" == ['1', '.', ' '] + "First?";
    QuestionLineTags('1', "First?");
  }

  lemma SecondLineTags()
    ensures LineTags("A. x") == [OptionLine(A, "x")]
  {
    assert "A. x" == [LetterChar(A), '.', ' '] + "x";
    OptionLineTags(A, "x");
  }

  lemma ThirdLineTags()
    ensures LineTags("2. Second?") == [QuestionLine("Second?")]
  {
    assert "2. Second?" == ['2', '.', ' '] + "Second?";
    QuestionLineTags('2', "Second?");
  }

  lemma FourthLineTags()
    ensures LineTags("B. y") == [OptionLine(B, "y")]
  {
    assert "B. y" == [LetterChar(B), '.', ' '] + "y";
    OptionLineTags(B, "y");
  }

  lemma TwoBlockTags()
    ensures Classified(Lines(TwoBlockText())) ==
      [QuestionLine("First?"), OptionLine(A, "x"), QuestionLine("Second?"), OptionLine(B, "y")]
  {
    TwoBlockLines();
    FirstLineTags();
    SecondLineTags();
    ThirdLineTags();
    FourthLineTags();
    FourTags("1. First?", "A. x", "2. Second?", "B. y",
      QuestionLine("First?"), OptionLine(A, "x"), QuestionLine("Second?"), OptionLine(B, "y"), LineTags);
  }

  lemma FourTags<X, Y>(a: X, b: X, c: X, d: X, ta: Y, tb: Y, tc: Y, td: Y, f: X -> seq<Y>)
    requires f(a) == [ta] && f(b) == [tb] && f(c) == [tc] && f(d) == [td]
    ensures FlatMap([a, b, c, d], f) == [ta, tb, tc, td]
  {
    FlatMapFour(a, b, c, d, f);
    assert [ta] + [tb] + [tc] + [td] == [ta, tb, tc, td];
  }

  lemma TwoBlockRecords()
    ensures Blocks([QuestionLine("First?"), OptionLine(A, "x"), QuestionLine("Second?"), OptionLine(B, "y")]) ==
      [Record("First?", Some("x"), None, None, None, None), Record("Second?", None, Some("y"), None, None, None)]
  {
    var tags := [QuestionLine("First?"), OptionLine(A, "x"), QuestionLine("Second?"), OptionLine(B, "y")];
    assert tags[1..] == [OptionLine(A, "x"), QuestionLine("Second?"), OptionLine(B, "y")];
    assert BlockLen(tags[1..]) == 1;
    assert tags[1..][..1] == [OptionLine(A, "x")];
    assert tags[1..][1..] == tags[2..];
    assert tags[3..] == [OptionLine(B, "y")];
    assert BlockLen(tags[3..]) == 1;
    assert tags[3..][..1] == tags[3..];
    assert tags[3..][1..] == [];
    assert LastOption([OptionLine(A, "x")], A) == Some("x");
    assert LastOption([OptionLine(B, "y")], B) == Some("y");
  }

  /** Two question blocks come out as two records in input order, each with only its own option. */
  lemma TwoBlocks()
    ensures Extract(TwoBlockText()) ==
      [Record("First?", Some("x"), None, None, None, None), Record("Second?", None, Some("y"), None, None, None)]
  {
    TwoBlockTags();
    TwoBlockRecords();
    ExtractIsBlocks(TwoBlockText());
  }
}
