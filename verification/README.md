# Quiz-question extraction, hub serial numbers and address checks

This project is a Dafny model of the algorithmic parts of a small Django quiz
application and two utility scripts that ship with it.

- **Question extraction** (`extract_questions`). A text blob, the text of an
  uploaded PDF, is cut into lines. Each line is stripped. Blank lines are
  skipped. A line opening with digits and a period starts a new question
  record, and the record that was open is flushed. A line opening with `A.`
  to `E.` fills that option slot of the open record. Every other line is
  ignored. At the end of the input the open record is flushed.
  - `text.dfy` models Python's `str.strip()` and `str.split`.
  - `questions.dfy` holds the line classifier, the accumulator state as a
    class with `Accept`/`Finish` methods, a fold that specifies it, and the
    extraction loop.
  - `question_properties.dfy` holds an independent block-by-block reference
    and the theorems connecting the two.
  - `question_examples.dfy` works through concrete inputs.
- **Hub serial numbers** (`validate_hubs`, `assign_serial_numbers`,
  `validate_and_assign_serial_numbers`).
  - A hub is kept when its id starts with `mn` followed by a digit.
  - A kept hub's copy gets the serial number at index `digit - 1` of the
    reversed nine-entry table, when that index exists.
  - The result holds the original input and the updated hubs, together with
    the comment.
  - JSON values and the Python exceptions the code can raise on them are in
    `py_values.dfy`. The operations are in `schema_validation.dfy`, and what
    they promise is in `schema_properties.dfy`.
  - The JSON-schema library check enters as its verdict: `None`, or the
    failure message.
- **Address check** (`validate_address`, `hypothetical_service.dfy`). An
  address is valid when each of nine required fields is present and not
  `None`.

## Model

| member | source | states |
|---|---|---|
| Text.TrimStart | cbt_app/core/views.py:42 | the result is a suffix of the input; everything removed is whitespace; a non-empty result starts with a non-space |
| Text.TrimEnd | cbt_app/core/views.py:42 | the result is a prefix of the input; everything removed is whitespace; a non-empty result ends with a non-space |
| Text.Strip | cbt_app/core/views.py:42 | `line.strip()`: trims both ends; characterised completely by `StripOf` (whitespace around a text with non-space ends strips to that text) together with `StripEnds` and `StripEmpty` |
| Text.StripEnds | cbt_app/core/views.py:42 | a non-empty stripped line begins and ends with a non-space character |
| Text.StripEmpty | cbt_app/core/views.py:42-45 | a stripped line is empty (and so skipped) exactly when the raw line is all whitespace |
| Text.StripOf | cbt_app/core/views.py:42 | the converse: a text with non-space ends, wrapped in any whitespace, strips to exactly that text |
| Text.StripIdempotent | cbt_app/core/views.py:42 | stripping twice equals stripping once |
| Text.IndexOf | cbt_app/core/views.py:51 | the index of the first occurrence of the character, or the length when it does not occur |
| Text.Split | cbt_app/core/views.py:40 | `split("\n")` yields at least one piece, and no piece contains the separator |
| Text.JoinSplit | cbt_app/core/views.py:40 | joining the pieces of a split with the separator gives back the text |
| Text.SplitJoin | cbt_app/core/views.py:40 | splitting a join of separator-free pieces gives back the pieces |
| Text.SplitAppend | cbt_app/core/views.py:40 | splitting `a + "\n" + b` gives the pieces of `a` followed by the pieces of `b` |
| Text.SplitAllSpace | cbt_app/core/views.py:40-45 | every line of an all-whitespace text is all whitespace |
| QuestionExtraction.LetterOf | cbt_app/core/views.py:61-62 | an option letter is recognised exactly for `A`..`E`, and it maps back to its own character |
| QuestionExtraction.NewRecord | cbt_app/core/views.py:52-59 | a fresh record has the given prompt and all five slots `None` |
| QuestionExtraction.SetSlot | cbt_app/core/views.py:62-65 | the slot for the letter becomes `Some(text)`; the prompt and the other four slots are unchanged |
| QuestionExtraction.LeadingDigitsRun | cbt_app/core/views.py:47 | the counted prefix is all digits and is followed by a non-digit or the end of the line |
| QuestionExtraction.Classify | cbt_app/core/views.py:47-65 | a line is a question line exactly when it opens with `^\d+\.`; it is an option line exactly when it is not a question line and opens with a letter `A`..`E` and a period; otherwise it is ignored |
| QuestionExtraction.IsQuestionStart | cbt_app/core/views.py:47 | `re.match(r'^\d+\.', line)`: the maximal leading digit run is non-empty and followed by a period; `QuestionStartIff` states the pattern independently |
| QuestionExtraction.IsOptionStart | cbt_app/core/views.py:61 | `line.startswith(('A.', 'B.', 'C.', 'D.', 'E.'))`; `OptionStartIff` states it as membership of the first two characters in the five prefixes |
| QuestionExtraction.OptionStartIff | cbt_app/core/views.py:61 | a line is an option line exactly when it has at least two characters and its first two are one of `A.`, `B.`, `C.`, `D.`, `E.` |
| QuestionExtraction.QuestionStartIff | cbt_app/core/views.py:47 | the question pattern means: some period is preceded only by one or more digits from the start of the line |
| QuestionExtraction.ClassifyQuestion | cbt_app/core/views.py:47-51 | `digits + "." + rest` is a question line whose prompt is `rest` stripped, so the prompt follows the first period only |
| QuestionExtraction.ClassifyOption | cbt_app/core/views.py:61-63 | `X.` + rest, with X in A..E, is option X with text `rest` stripped (`line[2:].strip()`) |
| QuestionExtraction.ClassifyOther | cbt_app/core/views.py:47-61 | a line matching neither pattern is ignored |
| QuestionExtraction.Transition | cbt_app/core/views.py:47-65 | one line never alters records already flushed; when no record is open afterwards, the state is unchanged |
| QuestionExtraction.Accumulate | cbt_app/core/views.py:40-65 | flushed records only grow over a run of lines |
| QuestionExtraction.Flush | cbt_app/core/views.py:67-68 | the end-of-input flush appends the open record, if there is one, exactly once, after the flushed ones |
| QuestionExtraction.Lines | cbt_app/core/views.py:40 | `pdf_content.split("\n")`; as `Split`, it round-trips with joining on newlines (`JoinSplit`, `SplitJoin`) |
| QuestionExtraction.LineTags | cbt_app/core/views.py:42-45 | one raw line contributes at most one classified line |
| QuestionExtraction.QuestionAccumulator.constructor | cbt_app/core/views.py:37-38 | the extraction starts with no records and no open record |
| QuestionExtraction.QuestionAccumulator.Accept | cbt_app/core/views.py:47-65 | the state after one line is the fold step applied to the old state, and records already flushed are kept |
| QuestionExtraction.QuestionAccumulator.Finish | cbt_app/core/views.py:67-70 | the returned list is the old state flushed |
| QuestionExtraction.ExtractQuestions | cbt_app/core/views.py:15-70 | the loop over the lines returns exactly the fold of the classified lines, flushed |
| QuestionExtractionProperties.BlockLen | cbt_app/core/views.py:47-49 | a question's block runs up to, and not including, the next question line |
| QuestionExtractionProperties.Overlay | cbt_app/core/views.py:61-65 | a record after its block: the prompt is kept, and each slot holds the block's last value for that letter, or its old value |
| QuestionExtractionProperties.LastOptionIsLastWrite | cbt_app/core/views.py:61-65 | a slot holds `text` exactly when some option line for that letter carries `text` and no later line of the block sets it; it is `None` exactly when no line sets it |
| QuestionExtractionProperties.RecordsEqual | cbt_app/core/views.py:52-59 | a record is determined by its prompt and its five slots |
| QuestionExtractionProperties.AccumulateMatchesBlocks | cbt_app/core/views.py:37-70 | from any state, the fold agrees with the reference that cuts the lines into blocks at question lines |
| QuestionExtraction.Extract | cbt_app/core/views.py:15-70 | `extract_questions` as a fold over the classified lines and a final flush; `ExtractIsBlocks` characterises it as one overlaid record per question block, and `ExtractQuestions` is proved equal to it |
| QuestionExtractionProperties.ExtractIsBlocks | cbt_app/core/views.py:15-70 | extraction returns one overlaid record per question block, in input order |
| QuestionExtractionProperties.BlocksFollowQuestionLines | cbt_app/core/views.py:47-68 | the prompts of the records are exactly the prompts of the question lines, in order |
| QuestionExtractionProperties.BlocksSkipStrayLines | cbt_app/core/views.py:61-65 | lines before the first question line change no record |
| QuestionExtractionProperties.ClassifiedQuestionCount | cbt_app/core/views.py:40-47 | the number of question tags equals the number of raw lines that are question lines once stripped |
| QuestionExtractionProperties.ExtractFollowsQuestionLines | cbt_app/core/views.py:47-68 | extraction returns one record per question line, with prompts in the order of the question lines |
| QuestionExtractionProperties.ExtractWithoutQuestionLines | cbt_app/core/views.py:37-70 | a text with no question line yields the empty list |
| QuestionExtractionProperties.ExtractEmpty | cbt_app/core/views.py:37-70 | the empty text yields the empty list |
| QuestionExtractionProperties.ExtractTrailingBlank | cbt_app/core/views.py:40-68 | a trailing newline and any trailing whitespace change nothing: the last record is flushed exactly once |
| QuestionExtractionProperties.ExtractDropsStrayPrefix | cbt_app/core/views.py:44-65 | a prefix with no question line (stray options, other lines) changes nothing |
| QuestionExtractionProperties.FlatMapAppend | cbt_app/core/views.py:40-45 | classifying concatenated line lists concatenates the results |
| QuestionExamples.PromptFollowsFirstPeriod | cbt_app/core/views.py:47-51 | `"1.5 x"` is a question line with prompt `"5 x"` |
| QuestionExamples.EmptyOptionIsSeen | cbt_app/core/views.py:61-65 | `"A."` is an option line for A with text `""`, which is not `None` |
| QuestionExamples.LowerCaseIsNotOption | cbt_app/core/views.py:61 | `"a. x"` is ignored |
| QuestionExamples.LetterAfterEIsNotOption | cbt_app/core/views.py:61 | `"F. x"` is ignored |
| QuestionExamples.MissingPeriodIsNotOption | cbt_app/core/views.py:61 | `"A x"` is ignored |
| QuestionExamples.TwoBlocks | cbt_app/core/views.py:15-70 | a two-question text yields two records in order, each with only its own option set |
| PyValues.GetItem | schema_validation/schema_validation.py:111 | `v[key]` succeeds exactly on a dict holding the key; a dict without it raises KeyError; any other value raises TypeError |
| PyValues.GetOrDefault | schema_validation/schema_validation.py:125 | `dict.get` returns the value when the key is present, else the default |
| SchemaValidation.Reversed | schema_validation/schema_validation.py:109 | `s[::-1]` has the same length and holds element `|s|-1-i` at index `i` |
| SchemaValidation.ValidateHub | schema_validation/schema_validation.py:57-70 | true exactly for a dict whose `id` is a string starting `mn` then a digit; it raises exactly when the hub is not a dict, has no `id`, has a non-string `id`, or has `id == "mn"`, the last with IndexError |
| SchemaValidation.DigitValue | schema_validation/schema_validation.py:116 | `int()` of a digit character is its value: a number d in 0..9 whose decimal digit is that character |
| SchemaValidation.HubDigit | schema_validation/schema_validation.py:116 | `int(hub_copy["id"][2])`: the value 0..9 of the id's third character, the only character that decides the serial number |
| SchemaValidation.SerialFor | schema_validation/schema_validation.py:109-120 | a serial number is assigned exactly for digits 1..9, and digit d receives `SERIAL_NUMBER_RANGE[9-d]` |
| SchemaValidation.Renumber | schema_validation/schema_validation.py:115-120 | a kept hub with digit 0 is copied unchanged; with digit d in 1..9 its copy has `serial_number` set to `SERIAL_NUMBER_RANGE[9-d]` and every other field unchanged |
| SchemaValidation.CopyWithSerial | schema_validation/schema_validation.py:115-120 | the loop body's copy-and-overwrite of a kept hub yields exactly `Renumber(hub)` |
| SchemaValidation.PrependAppend | schema_validation/schema_validation.py:113-121 | appending in two steps equals appending once, and errors pass through |
| SchemaValidation.UpdatedHubs | schema_validation/schema_validation.py:110-121 | when the loop succeeds, it produces no more hubs than it was given |
| SchemaValidation.LoopItems | schema_validation/schema_validation.py:111-113 | a list's items are visited; a dict in place of the list is iterated without error only when empty |
| SchemaValidation.Assigned | schema_validation/schema_validation.py:96-129 | success implies the input is a dict with `Internet_hubs` |
| SchemaValidation.AssignSerialNumbers | schema_validation/schema_validation.py:96-129 | the loop returns exactly the specified result or exception |
| SchemaValidation.ValidateSerialNumbers | schema_validation/schema_validation.py:73-93 | the input is returned when the schema accepts it; otherwise a string `"Invalid JSON schema: "` followed by the schema's message |
| SchemaValidation.ValidateAndAssign | schema_validation/schema_validation.py:132-156 | `validate_and_assign_serial_numbers` as written; `SchemaFailureGivesString`, `ValidDataAssigned` and `SchemaMessageLost` state its results |
| SchemaValidation.ValidateAndAssignIntended | schema_validation/schema_validation.py:149-156 | the corrected combination, reporting a schema failure with its own message; `IntendedKeepsSchemaMessage` and `ValidDataAssigned` state its results |
| SchemaValidationProperties.Kept | schema_validation/schema_validation.py:113-114 | the reference filter keeps only input hubs that `validate_hubs` accepts and is no longer than the input |
| SchemaValidationProperties.KeptComplete | schema_validation/schema_validation.py:113-114 | every accepted input hub is in the filter's output |
| SchemaValidationProperties.RenumberAll | schema_validation/schema_validation.py:115-121 | one renumbered copy per kept hub, position by position |
| SchemaValidationProperties.UpdatedHubsAreKept | schema_validation/schema_validation.py:110-121 | the loop succeeds exactly when no hub raises; then the updated hubs are the renumbered accepted hubs in input order, so there are no more of them than input hubs |
| SchemaValidationProperties.UpdatedHubsFirstError | schema_validation/schema_validation.py:113-114 | the exception is the one raised by the first hub that raises |
| SchemaValidationProperties.RenumberKeepsOtherFields | schema_validation/schema_validation.py:115-121 | every field of a kept hub other than `serial_number` is copied unchanged |
| SchemaValidationProperties.SerialTableEnds | schema_validation/schema_validation.py:8-18 | digit 1 gets `…1478`, digit 9 gets `…1470`, and digit 0 gets none |
| SchemaValidationProperties.AssignedFromList | schema_validation/schema_validation.py:107-129 | for a hub list where no hub raises, the result is `{original: input, updated: {comment: input comment or "", Internet_hubs: renumbered accepted hubs}}` |
| SchemaValidation.Output | schema_validation/schema_validation.py:123-129 | the `{"original", "updated"}` dict; `OutputParts` states its exact keys and that `comment` is the input's or `""` |
| SchemaValidationProperties.OutputParts | schema_validation/schema_validation.py:124-129 | the result holds exactly `original` and `updated`; `comment` is the input's or `""` |
| SchemaValidationProperties.AssignedNeedsHubs | schema_validation/schema_validation.py:111 | a non-dict input raises TypeError; a dict without `Internet_hubs` raises KeyError |
| SchemaValidationProperties.StringHubFails | schema_validation/schema_validation.py:70 | a string in place of a hub raises the string-index TypeError |
| SchemaValidationProperties.AssignedNonListHubs | schema_validation/schema_validation.py:111-114 | a string or dict in place of the hub list is accepted only when empty, and otherwise raises the string-index TypeError |
| SchemaValidationProperties.OnlyThirdCharacterCounts | schema_validation/schema_validation.py:116-120 | id `"mn12"` is kept and gets digit 1's serial number, `…1478` |
| SchemaValidationProperties.MenIsDropped | schema_validation/schema_validation.py:70 | id `"men1"` is not kept |
| SchemaValidationProperties.SchemaFailureGivesString | schema_validation/schema_validation.py:151-156 | on a schema failure the combined function returns an error string, not the `{original, updated}` dict |
| SchemaValidationProperties.ValidDataAssigned | schema_validation/schema_validation.py:149-156 | for schema-valid data the result is the assignment's result, or `"Couldn't assign and validate serial numbers: "` followed by the exception's text |
| SchemaValidationProperties.SchemaMessageLost | schema_validation/schema_validation.py:151-156 | as written, every schema failure yields the same string-index TypeError message, whatever the schema reported |
| SchemaValidationProperties.IntendedKeepsSchemaMessage | schema_validation/schema_validation.py:73-93 | the corrected combination reports `"Invalid JSON schema: "` followed by the schema's message, so different messages stay different |
| HypotheticalService.AllFieldsSet | hypothetical_service/hypothetical_service.py:62-65 | the early-return loop answers true exactly when every listed field is present and not `None` |
| HypotheticalService.ValidateAddress | hypothetical_service/hypothetical_service.py:47-65 | an address is valid exactly when each of the nine required fields is present and not `None` |
| HypotheticalService.MissingFieldRejected | hypothetical_service/hypothetical_service.py:60-64 | a missing required field makes the address invalid |
| HypotheticalService.NullFieldRejected | hypothetical_service/hypothetical_service.py:63-64 | a required field holding `None` makes the address invalid |
| HypotheticalService.ExtraFieldIrrelevant | hypothetical_service/hypothetical_service.py:60-65 | adding or changing a field outside the nine never changes the verdict |
| HypotheticalService.OnlyRequiredFieldsMatter | hypothetical_service/hypothetical_service.py:60-65 | the verdict equals the verdict on the address restricted to the nine fields |
| HypotheticalService.EmptyValuesAccepted | hypothetical_service/hypothetical_service.py:51-65 | nine fields that all hold `""`, or all hold `0`, are accepted; only `None` is refused |

## Left out

- The Django views are not part of this model: uploading, previewing, listing, editing and deleting questions (cbt_app/core/views.py:73-197). They are PDF decoding, sessions, database writes, clocks, redirects and templates.
- `models.py`, `forms.py` and `urls.py` are not part of this model. They are declarative framework configuration.
- The JSON-schema check is a library call. It enters as its verdict: `None` when the data conforms, or the library's message. The schema itself is not modelled.
- The network and CSV functions of the address script, and both scripts' demo data and console output, are not part of this model.
- Whitespace is the fixed set of characters for which Python's `str.isspace()` holds, written out as a list. Digits are ASCII `0`..`9` only. Python's `\d` and `str.isdigit()` also accept other Unicode digits, and `int()` of those can raise; this is not modelled.
- JSON numbers are integers. Floats and the difference between `1` and `True` as dict keys are not modelled.
- Python dicts are modelled as Dafny maps. Equality is the same, but key order is not represented. Iterating a non-empty dict in place of the hub list is modelled by its outcome: the first key is a string, and the first hub check raises the string-index TypeError, whatever the key order.
- Records and hubs are values. The in-place update of the open record and the copy of each hub (`hub.copy()`) become value updates, so aliasing is not represented. The input hubs are therefore trivially never mutated.
- The texts of the TypeError messages are those of Python 3.11 and later (`"string indices must be integers, not 'str'"`). Earlier versions print a shorter text.
- Records carry no ordinal: the code keeps only `question_main` and the slots `a`..`e` (cbt_app/core/views.py:52-59), so the number before the period is dropped.
- A prompt may be empty: `"1."` gives the prompt `""` (cbt_app/core/views.py:51).
- `validate_address` is modelled on a dict, its annotated type. A non-dict argument is not modelled.

## Findings

| source | as written | input that shows it | evidently intended | confidence | as-written member | corrected member |
|---|---|---|---|---|---|---|
| schema_validation/schema_validation.py:151-156 | On a schema failure `validate_serial_numbers` returns the message string. That string goes into `assign_serial_numbers`, and `validated_data["Internet_hubs"]` raises TypeError on it. The caller receives `"Couldn't assign and validate serial numbers: string indices must be integers, not 'str'"`, and the schema's message is lost. | any input the schema rejects, e.g. `{}` (no `comment`) | return `"Invalid JSON schema: <message>"` to the caller | not executed | SchemaValidationProperties.SchemaMessageLost | SchemaValidationProperties.IntendedKeepsSchemaMessage |
