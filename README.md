# Quiz generator: reply parsing and normalisation

This project models the part of the quiz generator that turns a language
model's free-text reply into schema-conformant question records, and proves
properties of that model in Dafny.

It covers two pipelines.

- **The current pipeline** (`generator.py`):
  - Extraction (`_extract_json_from_text`): the JSON payload is picked out of
    the stripped reply. The order is:
    - the first `[` and its depth-counted match;
    - else the first `{` object, followed by any comma-separated sibling
      objects (wrapped into an array when there is more than one);
    - else the greedy `[...]` and `{...}` regexes;
    - else the stripped text itself.
  - `_safe_json_load`: if the strict parse fails, smart quotes are
    straightened, commas before a closer are dropped, and the text is parsed
    once more.
  - The parsed value is checked and wrapped: a lone object becomes a
    one-element list, and anything that is neither an object nor a list is
    rejected.
  - `_normalize_questions`:
    - fills the `type`, `question`, `difficulty` and `explanation` defaults;
    - coerces mcq options to exactly four and tf answers to booleans;
    - assigns missing ids from a rising watermark.
- **The older pipeline** (`prompts/generator.py`):
  - the regex extractor;
  - the repairs of `parse_llm_json`: commas before `]` and `}`, and the
    guarded single-to-double quote conversion;
  - the `dict()`-and-`setdefault` sanitising loop of
    `generate_questions_from_text`;
  - the `"mixed"` fan-out, which splits the count, makes three sub-requests,
    concatenates them and renumbers the ids from 1.

## Modules

- `Wrappers`: `Option` and `Result`.
- `Json`:
  - the values `json.loads` yields;
  - Python dicts as insertion-ordered keys plus a map;
  - `d[k] = v`, `setdefault`, truthiness and `isinstance(v, int)`.
  - `Collected` and `Accepted`: the shape of a loop that keeps the elements of a parsed list that a conversion accepts, in order. Both pipelines' filtering loops are instances of it.
- `PyStr`: `str.isspace`/`\s`, `strip`, ASCII `lower`, `splitlines`, `find`,
  `rfind` and `join`.
- `Extractor`:
  - the three depth-counting loops, as one `ScanToMatch` method;
  - the sibling loop, as `NextSibling` and `CollectObjects`;
  - the extractor, as the method `ExtractJsonFromText`, proved equal to the
    function `Extracted`.
- `Repair`: the two text repairs and `SafeJsonLoad`.
- `Normalizer`:
  - `_normalize_questions` as two loops (`CoerceLoop` and `AssignIdsLoop`),
    each proved against a recursive function;
  - lines 238-253 of `generator.py`, as the method `ProcessReply`.
- `LegacyGenerator`: `prompts/generator.py`. `Generate` recurses once for
  `"mixed"`, as the source does.

The model call, the prompt template and `json.loads` are parameters:
- `Ask` is a function from (source text, type, count, difficulty) to the
  reply text or an error;
- `Parser` is a function from text to a value or an error message.

Every property below therefore holds for any model reply and any parser.

## Model

| member | source | states |
|---|---|---|
| Json.Set | generator.py:155 | `d[k] = v` stores `v` under `k`, leaves every other key's value alone, and appends `k` to the key order only when it is new |
| Json.SetDefault | generator.py:157-159 | `setdefault` yields the existing value when the key is present and the default otherwise; no other key changes; the key order is kept when the key is present and gains the key at its end otherwise |
| Json.SetValid | generator.py:155 | assignment keeps a dict well formed: keys stay distinct and exactly the stored keys are listed |
| PyStr.LeadEndSpec | generator.py:59 | every character before `LeadEnd` is whitespace, and the character at `LeadEnd`, if any, is not |
| PyStr.TrailStartSpec | generator.py:59 | every character from `TrailStart` on is whitespace, and the character before it, if any, is not |
| PyStr.Strip | generator.py:59 | the stripped text is no longer than the input and neither starts nor ends with whitespace |
| PyStr.StripSpec | generator.py:59 | when the text is not all whitespace, the stripped text is exactly the slice between the leading and the trailing whitespace runs; it is empty exactly when every character is whitespace |
| PyStr.StripKeeps | generator.py:59 | stripping removes only whitespace: a non-space character is in the result exactly when it is in the input |
| PyStr.Find | generator.py:61 | `find` gives -1 exactly when the character is absent; otherwise it points at that character and no earlier copy exists |
| PyStr.RFind | generator.py:116-121 | `rfind` gives -1 exactly when the character is absent; otherwise it points at that character and no later copy exists |
| PyStr.Lower | prompts/generator.py:92 | lowering keeps the length, maps each character on its own, and leaves no ASCII capital letter |
| PyStr.SplitLinesText | generator.py:165 | `splitlines` loses only the line breaks: the lines joined back together are the text with every line-break character removed |
| PyStr.SplitLinesCons | generator.py:165 | a line without breaks followed by `"\n"` is split off on its own, and the rest is split independently |
| PyStr.SplitLinesTerminated | generator.py:165 | `splitlines` inverts joining: break-free lines each ended by `"\n"`, then a break-free last line, split back into exactly those lines, the last only when it is not empty |
| PyStr.SplitLinesTwo | generator.py:165 | `"a\nb"` splits into `"a"` and `"b"` |
| PyStr.NonBlankLines | generator.py:165 | every option line split from a string is non-empty and neither starts nor ends with whitespace |
| PyStr.NonBlankLinesSpec | generator.py:165 | the option lines are, in order, the stripped lines of `splitlines` that are not blank, and every line that is not blank contributes one |
| PyStr.SkipSpaceSkipped | generator.py:95-96 | every character the whitespace loop skips is whitespace |
| PyStr.SkipSpaceAt | generator.py:90-96 | the whitespace loop stops at the first position that is not whitespace |
| Extractor.FindClose | generator.py:64-71 | the result is a position where the depth counted from the opening bracket returns to zero on a closer, and no earlier position does; `None` means no position does |
| Extractor.ScanToMatch | generator.py:64-71 | the depth-counting loop returns -1 exactly when no closer balances the opening bracket, and otherwise the first position that does |
| Extractor.FirstCloseIsBalanced | generator.py:64-71 | the span from an opening bracket to its first balancing closer starts and ends with the brackets, holds as many openers as closers, and every proper prefix is still open |
| Extractor.SkipSpaces | generator.py:90-91 | the whitespace loop stops where `SkipSpace` does, at the first non-whitespace position or the end |
| Extractor.NextObject | generator.py:90-109 | a found sibling object lies after the current position, starts with `{`, and ends at the brace that balances it |
| Extractor.NextObjectSeparated | generator.py:90-97 | a found sibling is reached from the current position through whitespace, exactly one comma, and whitespace |
| Extractor.NextObjectFinds | generator.py:90-109 | conversely, whitespace, a comma, whitespace and a `{` whose depth count returns to zero always yield that object as the next sibling |
| Extractor.NextObjectNone | generator.py:90-110 | no sibling follows exactly when no such separator leads to a balanced `{...}`: any other text ends the run |
| Extractor.NextSibling | generator.py:90-109 | one pass of the sibling loop either yields the next `, {...}` object and moves past it, or reports that no further siblings follow |
| Extractor.CollectObjects | generator.py:86-111 | the sibling loop collects the first object followed by exactly the sibling objects that follow it |
| Extractor.SiblingsNext | generator.py:86-111 | a separator and a balanced `{...}` make that object the next one collected, and the run goes on after it |
| Extractor.SiblingsNone | generator.py:86-111 | the run of siblings is empty exactly when no separator leads to a balanced `{...}` |
| Extractor.SiblingsAreObjects | generator.py:97-109 | every collected sibling is a balanced `{...}` span |
| Extractor.ScanArray | generator.py:60-71 | the first-array loop yields the balanced span from the first `[`, or nothing when the count never returns to zero |
| Extractor.ScanObjects | generator.py:72-114 | the object loop yields the first balanced object alone, or it and its siblings joined by commas inside `[` `]` |
| Extractor.ExtractJsonFromText | generator.py:52-123 | the extractor with its loops computes the array path, else the object path, else the greedy regex fallbacks, else the stripped text |
| Extractor.ArraySpanBalanced | generator.py:61-71 | the array span begins at the first `[` of the text and is balanced |
| Extractor.ArrayPathIsBalanced | generator.py:59-71 | when the stripped reply holds a balanced `[`, the result begins at its first `[` and is a balanced `[...]` span |
| Extractor.ObjectSpanShape | generator.py:73-114 | every collected object is balanced and the first starts at the first `{`; more than one object is wrapped into a comma-joined array |
| Extractor.ObjectRunSiblings | generator.py:86-114 | the first object has siblings exactly when a separator after it leads to a balanced `{...}`; without one the object path yields the first object alone |
| Extractor.ObjectRunSecond | generator.py:90-109 | after such a separator, the balanced object it leads to is the second object collected |
| Extractor.ObjectSpanTwo | generator.py:86-112 | `{}, {}` is collected as two objects and returned as `[{},{}]` |
| Extractor.ObjectSpanOne | generator.py:90-114 | in `{} x {}` the `x` ends the run, so only the first `{}` is returned |
| Extractor.GreedySpanSpec | generator.py:116-121 | the greedy regex matches exactly when some opener precedes some closer, and then spans from the first opener to the last closer |
| Extractor.NoBracketsGivesStripped | generator.py:59-123 | a reply without `[` or `{` comes back stripped and otherwise unchanged |
| Repair.ReplaceChar | generator.py:134 | `replace` of one character keeps the length and changes exactly the positions holding that character |
| Repair.StraightenQuotesPointwise | generator.py:134 | the three quote replacements keep the length and map each character on its own: the two curly double quotes become `"` and the curly apostrophe becomes `'` |
| Repair.DropCommaRuns | generator.py:136 | the comma-run substitution never lengthens the text |
| Repair.DropCommaRunsAppend | generator.py:136 | text that does not end inside a comma run is repaired independently of text that follows, as long as that text starts with neither whitespace nor a closer |
| Repair.DropCommaRunsRun | generator.py:136 | a comma, a whitespace run and a closer shrink to the closer |
| Repair.TrailingCommaRemoved | generator.py:136 | a comma and whitespace before a closer disappear, and the text around them is repaired on its own |
| Repair.DropCommaRunsNoComma | generator.py:136 | text without commas is left unchanged |
| Repair.DropCommaRunsNoRun | generator.py:136 | text in which no comma starts a whitespace run ending at a closer passes the substitution unchanged |
| Repair.DropCommaRunsKeepChar | generator.py:136 | a character that is neither a comma, whitespace nor a closer is kept, and the text on each side of it is repaired on its own |
| Repair.DropCommaRunsPastRun | generator.py:136 | a comma and whitespace before a character that is not a closer are kept, and the text on each side is repaired on its own |
| Repair.DropCommaRunsKeepsSolid | generator.py:136 | only commas and whitespace are removed: every other character survives, in order |
| Repair.RepairedUnchanged | generator.py:134-136 | text with no smart quote and no comma run before a closer is its own repair |
| Repair.SafeJsonLoadSpec | generator.py:126-141 | a strict success is returned as it is; a strict failure gives the parse of the repaired text, error included; when the repairs change nothing, the strict result is returned |
| Repair.TrailingCommaRepaired | generator.py:126-141 | a reply with no smart quote whose one comma run is a trailing comma, with any whitespace, before its final closer is loaded as the parse of the text without that comma and whitespace |
| Normalizer.TypeFilledFacts | generator.py:154-155 | an absent type becomes the requested type when that is mcq, tf, full or mixed, and mcq otherwise; a present type and all other keys are kept |
| Normalizer.DefaultedFacts | generator.py:157-159 | an absent question becomes `""` and an absent difficulty `"medium"`; present values and all other keys are kept |
| Normalizer.TypeFixedFacts | generator.py:161-183 | only options and answer can change; an mcq record goes through the mcq branch, a tf record through the tf branch, and any other record is untouched |
| Normalizer.McqFixedFacts | generator.py:161-175 | the mcq branch stores the four padded options and fills `"A"` for a missing or null answer |
| Normalizer.FourOptionsShape | generator.py:170-172 | padding and truncation give exactly four options: the first supplied ones in order, then `Option i` at 1-based position `i` |
| Normalizer.PadOptions | generator.py:170-172 | the padding loop computes the four options `FourOptions` describes |
| Normalizer.CoerceRecord | generator.py:152-186 | the first loop's body, updating its copy step by step, produces the record `Coerced` describes |
| Normalizer.CoercedErr | generator.py:157 | a mapping fails exactly when its question is truthy and not a string, and then only with `QuestionNotText` |
| Normalizer.CoercedDefaults | generator.py:153-185 | type, question, difficulty and explanation get their defaults when absent and keep their values when present; every key the function does not write is unchanged |
| Normalizer.CoercedKeepsByType | generator.py:160-183 | only an mcq record has its options rewritten, and only mcq and tf records have their answer rewritten |
| Normalizer.McqRecordShape | generator.py:161-175 | an mcq record has exactly four options: the first of those supplied (a string split into its non-blank lines), then placeholders; a missing or null answer becomes `"A"`, and any other answer is kept |
| Normalizer.TfRecordShape | generator.py:176-183 | a tf record's answer is a boolean computed from the answer it came with, and a missing answer gives `true` |
| Normalizer.Mappings | generator.py:149-151 | there are never more retained mappings than parsed elements |
| Normalizer.MappingsSpec | generator.py:149-151 | exactly the dicts survive, in order: the k-th mapping is the dict at the k-th dict position, those positions increase, and every dict in the list is among them |
| Normalizer.CoerceFailureSticks | generator.py:148-186 | once a prefix of the list fails, the whole list fails with the same error |
| Normalizer.CoerceKeepsOrder | generator.py:148-186 | the k-th record is the k-th mapping, coerced: order is kept, and only mappings survive |
| Normalizer.CoerceErrWitness | generator.py:148-186 | a failing list holds a mapping whose question raises, and the error is `QuestionNotText` |
| Normalizer.CoerceErrFrom | generator.py:148-186 | a mapping whose question raises makes the whole list fail |
| Normalizer.CoerceFails | generator.py:148-186 | the list fails exactly when some mapping would fail on its own, and then only with `QuestionNotText` |
| Normalizer.CoerceLoop | generator.py:148-186 | the first loop computes `Coerce`, stopping at the first failure |
| Normalizer.NextAfter | generator.py:190-199 | the watermark never falls; a generated id raises it by exactly one; after a supplied int id it lies above that id, and a supplied id below it leaves it where it was |
| Normalizer.AssignOne | generator.py:190-199 | one pass of the id loop keeps an int id and raises the watermark past it, or writes the watermark and advances it by one; the watermark never falls |
| Normalizer.AssignIdsShape | generator.py:188-199 | every record ends with an int id; a record with an int id is unchanged, and any other record gets an id at or above the starting watermark with no other key changed |
| Normalizer.AutoIdAtLeast | generator.py:190-192 | an assigned id is at least the watermark the loop started from |
| Normalizer.AutoIdsAboveEarlier | generator.py:188-199 | an assigned id exceeds every id earlier in the list, so assigned ids strictly increase and never collide with an earlier id |
| Normalizer.SuppliedIdCollides | generator.py:190-197 | a supplied id at or below an id assigned earlier is kept: `[{}, {"id": 1}]` ends with the id 1 twice |
| Normalizer.AssignIdsLoop | generator.py:188-199 | the in-place id loop computes `AssignIds` from watermark 1 |
| Normalizer.NormalizeQuestions | generator.py:144-200 | the two loops together compute `Normalized` |
| Normalizer.NormalizedIds | generator.py:144-200 | every returned record holds an int id, and there are never more records than parsed elements |
| Normalizer.ProcessReply | generator.py:238-253 | extraction, loading, list check and normalisation, as written, compute `Processed` |
| Normalizer.ProcessedListCheck | generator.py:246-253 | the reply is rejected as not a list exactly when it loads to something that is neither an object nor a list, and a lone object is normalised as a one-element list |
| LegacyGenerator.MixedSplit | prompts/generator.py:95-97 | the mcq count is at least 1, the three counts add up to `n` (or to 1 when `n` is below 1), and `n <= 1` gives only one mcq question |
| LegacyGenerator.MixedSplitExamples | prompts/generator.py:95-97 | a request for 1 splits into (1, 0, 0), and a request for 10 into (5, 2, 3) |
| LegacyGenerator.RegexSnippetSpec | prompts/generator.py:42-55 | the snippet spans from the first `[` to the last `]` when some `[` precedes some `]`, else from the first `{` to the last `}`, else extraction fails with the fixed message |
| LegacyGenerator.TrailingCommaDropped | prompts/generator.py:72-73 | wherever it occurs, a comma and the whitespace after it disappear before either closer, and the text on each side is repaired on its own |
| LegacyGenerator.QuotesFixedSpec | prompts/generator.py:75-76 | the quote conversion changes the text exactly when its guard holds, and then replaces every single quote by a double quote and keeps everything else |
| LegacyGenerator.ParseLlmJson | prompts/generator.py:57-80 | a strict success is returned unchanged; otherwise the result is the parse of the repaired regex snippet; it succeeds exactly when one of the two parses does; every failure is a `ParseError` carrying the raw reply, and a reply with no bracket pair fails with the extractor's message |
| LegacyGenerator.Elements | prompts/generator.py:125-129 | a lone dict is wrapped into a one-element list, a list is walked as it is, a string character by character, and a number, boolean or null is not iterable |
| LegacyGenerator.ToMappingSpec | prompts/generator.py:131 | `dict()` keeps a dict as it is, accepts a list exactly when every element is a pair and then builds a well-formed dict, accepts only the empty string, and rejects numbers, booleans and null |
| LegacyGenerator.PairsToObjSome | prompts/generator.py:131 | `dict()` of a list succeeds exactly when every element is a pair |
| LegacyGenerator.PairsToObjValid | prompts/generator.py:131 | `dict()` of a list of pairs, starting from a well-formed dict, builds a well-formed dict |
| Json.Accepted | prompts/generator.py:129-133 | every accepted position is an item the conversion accepts |
| Json.AcceptedComplete | prompts/generator.py:129-133 | every item the conversion accepts is at an accepted position, and accepted positions increase |
| Json.CollectedAll | prompts/generator.py:128-137 | the k-th collected record is the k-th accepted item, converted and filled with its 1-based position |
| LegacyGenerator.Kept | prompts/generator.py:129-133 | every kept position is an item that `dict()` accepts |
| LegacyGenerator.KeptComplete | prompts/generator.py:129-133 | every item that `dict()` accepts is kept, and kept positions increase |
| LegacyGenerator.Sanitized | prompts/generator.py:128-137 | there are never more records than items |
| LegacyGenerator.SanitizedAt | prompts/generator.py:128-138 | the k-th record comes from the k-th accepted item, filled with defaults whose id is that item's 1-based position, so items `dict()` rejects leave gaps in the ids |
| LegacyGenerator.FilledSpec | prompts/generator.py:134-136 | absent id, type and difficulty get their defaults (`"auto"` becomes `"medium"`); present keys and all other keys are unchanged |
| LegacyGenerator.SanitizeLoop | prompts/generator.py:128-137 | the sanitising loop computes `Sanitized` |
| LegacyGenerator.Renumbered | prompts/generator.py:106-107 | renumbering keeps the number of records |
| LegacyGenerator.RenumberedIds | prompts/generator.py:106-107 | after renumbering the ids are exactly 1, 2, … in order, and no other key changes |
| LegacyGenerator.RenumberLoop | prompts/generator.py:106-107 | the renumbering loop computes `Renumbered` |
| LegacyGenerator.Generate | prompts/generator.py:82-138 | the recursive method computes `Generated` for every type, count and model reply |
| LegacyGenerator.GenerateMixed | prompts/generator.py:93-108 | the fan-out method computes `FanOut`: the first failing sub-request aborts the whole request |
| LegacyGenerator.GeneratePart | prompts/generator.py:99-104 | a sub-request runs only when its count is positive, and otherwise contributes nothing |
| LegacyGenerator.GenerateSingle | prompts/generator.py:110-138 | a single-type request computes `Single` |
| LegacyGenerator.BlankSourceGivesNothing | prompts/generator.py:88-90 | a blank source text yields no questions, whatever the model would reply |
| LegacyGenerator.UnknownTypeRejected | prompts/generator.py:110-116 | a lowercased type other than mixed, mcq, tf and full is rejected with that type |
| LegacyGenerator.MixedFanOut | prompts/generator.py:93-108 | a successful mixed request returns the mcq, tf and full results concatenated in that order, with ids 1, 2, … and nothing else changed |

## Left out

- The model call is not modelled, and neither is `generate_questions_from_text` of `generator.py:203-236`: that covers the template read, `str.format`, the API request and reading the response shape. The current pipeline is modelled from the reply text onwards.
- The older pipeline's `load_prompt`, `str.format` and `call_llm` are the `Ask` parameter: I/O and network.
- `json.loads` is not modelled: it is the `Parser` parameter. The properties hold for every parser.
- Floating-point JSON numbers are not modelled: `JsonValue` has integers only.
- `None` as the older pipeline's `source_text` is not modelled: the parameter is a string.
- LegacyGenerator.AsPair: `dict()` of a pair whose key is an integer, boolean or null is treated as a failed conversion, and the item is skipped. Python would build a dict with a non-string key, which `Json.Obj` cannot hold. Unhashable keys (lists and objects) raise, as modelled.
- PyStr.Lower: ASCII only. Python's `lower` also maps non-ASCII capitals. For the comparisons the pipelines make (`"mixed"`, `"mcq"`, `"tf"`, `"full"`, `"true"`, `"t"`, `"yes"`) the verdicts still agree: the only non-ASCII characters that Python lowers to text containing an ASCII letter are the Kelvin sign, which lowers to `k`, a letter none of these words holds, and the dotted capital I (U+0130), which lowers to `i` followed by the combining dot U+0307, so a word containing it still differs from every word in the list.
- LegacyGenerator.UnknownTypeRejected: the `UnknownType` error carries the ASCII-lowered type, while Python's message carries `qtype.lower()`, so for a type holding non-ASCII capitals the text in the error can differ; whether the request is rejected does not.
- Normalizer.PadOptions: works on a fresh sequence. In the source, `opts.append` extends the list object of the caller's item in place. Only the copy `q` is returned, so the visible result is the same, but the mutation of the input is not modelled.
- Python exceptions are `Failure` values. The `RuntimeError` and `ValueError` message texts are reduced to the data they carry (the raw reply and the parser's message).

## Behaviour of the code as written

The model follows the code in these places, where a reader of the names and docstrings might expect otherwise:
- The docstring of the older `generate_questions_from_text` (`prompts/generator.py:85`) names `'mixed'` as a request type, and `generator.py:155` accepts `"mixed"` as a default type too. So a record with no `type` under a `"mixed"` request is stored with type `"mixed"` and goes through neither the mcq nor the tf branch. An existing `type` of any value is kept as it is.
- The mcq answer is not checked to be one of `A`-`D` (`generator.py:173-175`).
- The bracket counters do not skip brackets inside JSON strings (`generator.py:64-109`).
- The docstring of `_normalize_questions` (`generator.py:145-147`) speaks of assigning missing ids sequentially. Ids are unique only in the sense that `Normalizer.AutoIdsAboveEarlier` states: every assigned id exceeds every id before it. A supplied id is kept even when it collides with an earlier supplied id, or lies at or below an id assigned earlier; `Normalizer.SuppliedIdCollides` shows `[{}, {"id": 1}]` ending with the id 1 twice.
