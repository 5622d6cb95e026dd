# type-track romaji checker, topic conversion and worker XML extractor in Dafny

This project models the core of type-track, a Japanese typing-practice
application. The model has four parts.

- **The conversion table and its lookups** (`src/utils/romanTable.ts`).
  - The ordered table of `{input, output, nextInput?}` rows is transcribed
    row for row, duplicates included: "shi", "chi" and "ji" each appear
    twice.
  - `searchEntry` is a first-match `find` and `searchEntriesByPrefix` is an
    order-keeping `filter`.
  - `createExpectedInput` converts a kana word into the romaji the player is
    expected to type, one character at a time.
- **The incremental checker** (`src/utils/typingChecker.ts`).
  - `initializeChecker` closes over five variables: the pending romaji
    `buffer`, the romaji still `expected`, the position `wordIndex` in the
    word, the kana committed so far and the romaji typed so far.
  - `setCharacter` updates them in one of four branches, chosen from the
    lookups of `buffer + character`: several rows continue it, a row is typed
    as it, no row continues it, or it falls through.
  - The class `TypingChecker.Checker` keeps the five variables as fields. Its
    `SetCharacter` is proved to answer and move exactly as the function
    `TypingChecker.Step` does.
  - The checker's properties are proved on `Step`: the committed kana are
    always the word up to `wordIndex`, a rejected key changes nothing, and the
    romaji typed only grows. Concrete syllables are also covered: "shi" stays
    pending, "si" commits し at once, and "ts" falls through.
- **Topic conversion** (`src/utils/xmlParser.ts`,
  `convertETypingTopicToAppData`).
  - The mapping from a parsed topic to application records.
  - Its id scheme `topicId * 1000 + index + 1`: ids are distinct within a
    topic and across topics of at most 1000 words, and they collide beyond
    that.
- **The database worker's tag extractor** (`src/backend/worker/seed.ts`,
  `parseXmlInWorker`).
  - The lazy regular expressions `/<T>(.*?)<\/T>/s` are modelled as "first
    opening tag, then the first closing tag after it". The global `matchAll`
    becomes a chain of such matches, each search starting after the previous
    closing tag.
  - `trim` is modelled with the ECMAScript white-space set.
  - The method `Seed.ParseXmlInWorker` keeps the source's loop over the
    blocks and is proved equal to the function `Seed.WordsOf`. The extractor's
    promises are proved on that function.

The files are:

| file | contents |
|---|---|
| `options.dfy` | the `Option` datatype |
| `js_string.dfy` | JavaScript's `startsWith`, `slice`, a literal search and `trim` |
| `roman_table.dfy` | the table, its lookups over any list of rows, and `createExpectedInput` |
| `roman_table_facts.dfy` | what the table's contents imply for the lookups |
| `typing_checker.dfy` | the checker: `Step`, its properties, and the class `Checker` |
| `checker_scenarios.dfy` | the checker on the syllables the duplicate rows affect |
| `xml_parser.dfy` | `convertETypingTopicToAppData` and its id scheme |
| `seed.dfy` | `parseXmlInWorker` |

Three facts about the code shape the model.

- `createExpectedInput` takes one argument, converts each character on its
  own and never fails (`src/utils/romanTable.ts:238-252`).
- The checker passes a second argument to `createExpectedInput` at
  `src/utils/typingChecker.ts:78` and `:127`. That argument is ignored.
- The checker has no completion flag: a finished word is only visible as
  `currentKana` equal to the word.

## Model

| member | source | states |
|---|---|---|
| JsString.StartsWith | src/utils/romanTable.ts:235 | `startsWith`, compared one code unit at a time; `StartsWithIsPrefix` shows it is the prefix relation |
| JsString.StartsWithIsPrefix | src/utils/romanTable.ts:235 | `startsWith`, compared one code unit at a time, holds exactly when the second string is a prefix of the first |
| JsString.SliceFrom | src/utils/typingChecker.ts:101 | `slice(start)` is the suffix from `start`, or empty when `start` is past the end |
| JsString.SliceMatches | src/utils/typingChecker.ts:56 | the test `x === word.slice(i, i + x.length)` holds exactly when `x` lies inside the word at `i` |
| JsString.Slice | src/utils/typingChecker.ts:56 | `slice(start, end)` with both ends clamped to the length; `SliceMatches` shows that comparing with it tests for an occurrence at `start` |
| JsString.IndexOf | src/backend/worker/seed.ts:6 | the literal search from a position; `IndexOfSpec` shows it finds the leftmost occurrence, or none exactly when there is none |
| JsString.IndexOfSpec | src/backend/worker/seed.ts:6 | the literal search returns the leftmost occurrence at or after the start, and returns nothing exactly when there is none |
| JsString.TrimStart | src/backend/worker/seed.ts:7 | the result is a suffix of the input, everything dropped is white space, and the result does not start with white space |
| JsString.TrimEnd | src/backend/worker/seed.ts:7 | the result is a prefix of the input, everything dropped is white space, and the result does not end with white space |
| JsString.Trim | src/backend/worker/seed.ts:7 | `trim()` (also called at :21-22) is never longer than its input, and a non-empty result neither starts nor ends with white space |
| JsString.TrimDropsEnds | src/backend/worker/seed.ts:7 | `trim()` is a contiguous slice of its input, and what it drops at both ends is white space |
| RomanTable.CarryOver | src/utils/typingChecker.ts:90 | `entry.nextInput ? entry.nextInput : ''`; `ExactBranchCommits` shows it becomes the new buffer |
| RomanTable.FindByInput | src/utils/romanTable.ts:231 | `find(entry => entry.input === input)` over any list of rows; `FindByInputSpec` and `FindByInputAppend` show it returns the first row with that input |
| RomanTable.FindByOutput | src/utils/romanTable.ts:244 | `find(e => e.output === char)` over any list of rows; `FindByOutputSpec` and `FindByOutputAppend` show it returns the first row giving exactly that character |
| RomanTable.FindByInputSpec | src/utils/romanTable.ts:231 | `find` by input returns the first row with that input, and nothing exactly when no row has it |
| RomanTable.FindByOutputSpec | src/utils/romanTable.ts:244 | `find` by output returns the first row whose whole output is the character, and nothing exactly when no row gives it |
| RomanTable.FilterByPrefix | src/utils/romanTable.ts:235 | the filtered list is never longer than the rows it filters |
| RomanTable.FilterByPrefixMembers | src/utils/romanTable.ts:235 | the filter keeps every row whose input starts with the prefix, and only such rows |
| RomanTable.FilterByPrefixCounts | src/utils/romanTable.ts:235 | each matching row is kept as often as it occurs, and each other row is dropped |
| RomanTable.FilterByPrefixAppend | src/utils/romanTable.ts:235 | filtering distributes over concatenation, so table order is kept |
| RomanTable.FindByInputAppend | src/utils/romanTable.ts:231 | a first match within the first part is the first match overall; otherwise the search goes on into the rest |
| RomanTable.FindByOutputAppend | src/utils/romanTable.ts:244 | the same for the search by output |
| RomanTable.SearchEntry | src/utils/romanTable.ts:230-232 | `searchEntry(s)` is the first table row whose input is `s`, and nothing exactly when no row has it |
| RomanTable.SearchEntriesByPrefix | src/utils/romanTable.ts:234-236 | `searchEntriesByPrefix`, the filter over the table; `SearchEntriesByPrefixMembers`, `FilterByPrefixCounts` and `FilterByPrefixAppend` show it keeps exactly the matching rows, with their multiplicity, in table order |
| RomanTable.SearchEntriesByPrefixMembers | src/utils/romanTable.ts:234-236 | a row is in `searchEntriesByPrefix(p)` exactly when it is in the table and its input starts with `p` |
| RomanTable.ExactMatchIsPrefixMatch | src/utils/romanTable.ts:230-236 | an exact match is among the prefix matches, so the prefix list is then non-empty; there is an exact match exactly when some prefix match has the input itself |
| RomanTable.CharInputIn | src/utils/romanTable.ts:243-249 | the loop body for one character; `CharInputSpec` shows it gives the first matching row's input, or the character itself |
| RomanTable.ExpectedInputIn | src/utils/romanTable.ts:238-252 | the per-character conversion of a word; `CreateExpectedInput` proves the source's loop computes it, and `ExpectedInputAppend` shows it distributes over concatenation |
| RomanTable.CharInputSpec | src/utils/romanTable.ts:243-249 | a character no row gives is copied; otherwise the input of the first row whose output is that character is appended |
| RomanTable.ExpectedInputSnoc | src/utils/romanTable.ts:242-250 | converting one more character appends that character's conversion |
| RomanTable.CreateExpectedInput | src/utils/romanTable.ts:238-252 | the loop's accumulator ends as the per-character conversion of the whole word |
| RomanTable.ExpectedInputEmpty | src/utils/romanTable.ts:241 | the empty word converts to the empty string |
| RomanTable.ExpectedInputAppend | src/utils/romanTable.ts:241-251 | the conversion of `a + b` is the conversion of `a` followed by that of `b` |
| RomanTableFacts.PrefixOfS | src/utils/romanTable.ts:23-24 | "s" begins at least two rows ("si" and "shi"), "si" among them, so a lone "s" is ambiguous |
| RomanTableFacts.PrefixOfSh | src/utils/romanTable.ts:112-114 | "sh" begins at least two rows ("shi" and "shu"), "shi" among them |
| RomanTableFacts.TableShaped | src/utils/romanTable.ts:8-228 | every row of `Table`, the 182 rows transcribed in order, is well formed, and its first input letter and first output character lie in the table's summary sets |
| RomanTableFacts.TableWellFormed | src/utils/romanTable.ts:193-208 | every row has non-empty input and output; a row with `nextInput` gives っ from a doubled two-letter input and keeps that letter pending |
| RomanTableFacts.SiLookups | src/utils/romanTable.ts:23 | "si" has a single prefix match, its own row, which is also its exact match |
| RomanTableFacts.ShiLookups | src/utils/romanTable.ts:24 | "shi" (rows 24 and 112) has two prefix matches, and the exact search returns the earlier row |
| RomanTableFacts.ChiLookups | src/utils/romanTable.ts:31 | "chi" (rows 31 and 123) has two prefix matches, and the exact search returns the earlier row |
| RomanTableFacts.JiLookups | src/utils/romanTable.ts:79 | "ji" (rows 79 and 166) has two prefix matches, and the exact search returns the earlier row |
| RomanTableFacts.TsLookups | src/utils/romanTable.ts:33 | "ts" is a prefix of "tsu" alone, and no row is typed as "ts" |
| RomanTableFacts.TuLookups | src/utils/romanTable.ts:32 | "tu" has one prefix match, its own row |
| RomanTableFacts.CharInputOutsideTable | src/utils/romanTable.ts:247-249 | a character that starts no output of the table is copied unchanged |
| RomanTableFacts.CharInputOfSmallYa | src/utils/romanTable.ts:247-249 | ゃ, which only ever follows another kana in an output, is copied unchanged |
| RomanTableFacts.CharInputBelowComma | src/utils/romanTable.ts:247-249 | any character below U+3001, such as a Latin letter, an ASCII digit or a space, is copied unchanged |
| RomanTableFacts.CharInputOfShi | src/utils/romanTable.ts:244-246 | し becomes "si", the input of its first row |
| RomanTableFacts.CharInputOfTsu | src/utils/romanTable.ts:244-246 | つ becomes "tu", the input of its first row |
| RomanTableFacts.CharInputOfN | src/utils/romanTable.ts:68 | ん becomes "n" |
| RomanTableFacts.CharInputOfSmallTsu | src/utils/romanTable.ts:193 | っ becomes "kk", the first doubled consonant |
| RomanTableFacts.CharInputNotEmpty | src/utils/romanTable.ts:243-249 | every character converts to at least one letter |
| RomanTableFacts.ExpectedInputCoversWord | src/utils/romanTable.ts:238-252 | the expected romaji is at least as long as the word |
| TypingChecker.Init | src/utils/typingChecker.ts:25-29 | the five initial values; `InitValid` shows they satisfy the invariant |
| TypingChecker.BranchOf | src/utils/typingChecker.ts:49-52 | the four-way choice of :52, :86, :108 and :135 from the two lookups of the pending romaji plus the key; the four branch lemmas below describe each choice |
| TypingChecker.NextExpected | src/utils/typingChecker.ts:75-79 | drop the key from the expected romaji when it is the next expected letter, otherwise convert the rest of the word afresh (:95-102 too); `ExpectedAfter` is the method that performs it |
| TypingChecker.Step | src/utils/typingChecker.ts:42-136 | one call of `setCharacter` as an answer and a new state; `StepKeepsValid`, `StepRejectUnchanged`, `StepRomanGrows` and the branch lemmas state what it preserves |
| TypingChecker.OutputFits | src/utils/typingChecker.ts:56 | the test `x === word.slice(i, i + x.length)` (also at :89 and :117); `SliceMatches` shows it holds exactly when `x` occurs at `i`, and `FitsExtends` that the kana then extend to `word[..i + |x|]` |
| TypingChecker.SomeFits | src/utils/typingChecker.ts:61-63 | the `.some(...)` over the rows continuing `nextInput`; `AmbiguousBranch` uses it through `Fits` |
| TypingChecker.Fits | src/utils/typingChecker.ts:55-66 | the `find` callback: the output fits, and a truthy `nextInput` is continued by some fitting row; `FindFitting` and `AmbiguousBranch` state the acceptance it decides |
| TypingChecker.FindFitting | src/utils/typingChecker.ts:54-67 | the candidate `find` returns the first fitting row, and nothing exactly when no candidate fits |
| TypingChecker.InitValid | src/utils/typingChecker.ts:25-29 | the initial buffer, index, kana and romaji are empty or zero, the expected romaji is the conversion of the word, and the invariant holds |
| TypingChecker.FitsExtends | src/utils/typingChecker.ts:89-93 | text that passed the slice comparison extends the committed kana to the word up to the new index |
| TypingChecker.StepKeepsValid | src/utils/typingChecker.ts:42-136 | every call keeps `wordIndex <= word.length` and the committed kana equal to the word up to `wordIndex` |
| TypingChecker.StepRejectUnchanged | src/utils/typingChecker.ts:82-84 | a call answering `correct: false` changes none of the five variables |
| TypingChecker.StepRomanGrows | src/utils/typingChecker.ts:72 | a call changes nothing or appends exactly the key to the romaji typed; it appends the key on every accepting branch except the fall-through; the index never moves back |
| TypingChecker.AmbiguousBranch | src/utils/typingChecker.ts:52-84 | with two or more prefix rows, the key is accepted exactly when one fits the word; then only the buffer, romaji and expected romaji change |
| TypingChecker.ExactBranchAccepts | src/utils/typingChecker.ts:86-89 | with an exact row, the key is accepted exactly when the row's output lies in the word at `wordIndex` |
| TypingChecker.ExactBranchCommits | src/utils/typingChecker.ts:90-102 | on acceptance, the index grows by the output's length, the kana get the output, the buffer gets `nextInput` or "", and the expected romaji is updated from the new index |
| TypingChecker.NoPrefixBranch | src/utils/typingChecker.ts:108-131 | with no prefix row, the key is accepted exactly when the old buffer's conversion comes next and the helper accepts the key after it; then the key stays pending alone and the rest of the word is converted afresh |
| TypingChecker.FallThroughBranch | src/utils/typingChecker.ts:135 | one prefix row and no exact row: the call answers `correct: true` and changes nothing |
| TypingChecker.RunKeepsValid | src/utils/typingChecker.ts:42-136 | after any sequence of keys, the committed kana are still the word up to `wordIndex` |
| TypingChecker.RunOnlyGrows | src/utils/typingChecker.ts:72 | over any sequence of keys, the earlier romaji typed is a prefix of the later, and the index never moves back |
| TypingChecker.Checker.constructor | src/utils/typingChecker.ts:24-29 | the fields hold the initial state of the word, looked up in the table, with the invariant established |
| TypingChecker.Checker.SetCharacter | src/utils/typingChecker.ts:42-136 | the answer and the new fields are those of `Step`, and the invariant is kept |
| TypingChecker.Checker.TryPending | src/utils/typingChecker.ts:52-84 | the ambiguous branch as `Step` defines it |
| TypingChecker.Checker.TryEntry | src/utils/typingChecker.ts:86-107 | the exact branch as `Step` defines it |
| TypingChecker.Checker.TrySplit | src/utils/typingChecker.ts:108-131 | the no-prefix branch as `Step` defines it |
| TypingChecker.Checker.Advance | src/utils/typingChecker.ts:90-93 | sets the pending text and expected romaji, and appends the output to the kana, moving the index past it, and the key to the romaji |
| TypingChecker.Checker.ExpectedAfter | src/utils/typingChecker.ts:95-102 | the key is dropped from the expected romaji when it was the next expected letter (never when nothing is expected), and otherwise the word is converted afresh from the given index |
| CheckerScenarios.OneKanaFits | src/utils/typingChecker.ts:56 | a one-character output fits exactly when the word has that character at the index |
| CheckerScenarios.ShiSearch | src/utils/typingChecker.ts:50-52 | "shi" finds both of its rows and takes the ambiguous branch |
| CheckerScenarios.SiSearch | src/utils/typingChecker.ts:49-52 | "si" finds its row exactly and takes the exact branch |
| CheckerScenarios.TsSearch | src/utils/typingChecker.ts:49-50 | "ts" has one prefix row and no exact row |
| CheckerScenarios.ShiStaysPending | src/utils/typingChecker.ts:52-81 | typing i after "sh" is accepted exactly when し comes next, and then "shi" stays pending with nothing committed |
| CheckerScenarios.SiAccepted | src/utils/typingChecker.ts:86-89 | typing i after "s" takes the exact branch and is accepted exactly when し comes next |
| CheckerScenarios.SiCommits | src/utils/typingChecker.ts:90-102 | once accepted, し is committed, the index moves one place and the buffer empties |
| CheckerScenarios.TsFallsThrough | src/utils/typingChecker.ts:135 | typing s after "t" answers `correct: true` and changes nothing |
| CheckerScenarios.SPending | src/utils/typingChecker.ts:52-81 | with nothing pending and し next, s is accepted and left pending alone |
| CheckerScenarios.ShPending | src/utils/typingChecker.ts:52-81 | with "s" pending and し next, h is accepted and "sh" is left pending |
| CheckerScenarios.ShiFromInit | src/utils/typingChecker.ts:24-136 | a fresh checker for a word starting with し, fed s, h, i, accepts every key and leaves "shi" pending with no kana committed |
| CheckerScenarios.SiFromInit | src/utils/typingChecker.ts:24-136 | a fresh checker for a word starting with し, fed s, i, commits し, moves one place and leaves nothing pending |
| XmlParser.ConvertETypingTopicToAppData | src/utils/xmlParser.ts:69 | there are exactly as many word records as parsed words |
| XmlParser.WordId | src/utils/xmlParser.ts:70 | the id `topicId * 1000 + index + 1`; `WordIdsIncrease`, `WordIdDecodes` and `IdsDisjointAcrossTopics` show where it is unique and `IdsCollideBeyondThousand` where it is not |
| XmlParser.ConvertKeepsWords | src/utils/xmlParser.ts:64-74 | the topic keeps the id and name; each word record has id `topicId*1000+i+1`, the topic's id, the display text and the reading of word `i` |
| XmlParser.WordIdsIncrease | src/utils/xmlParser.ts:70 | ids strictly increase with the position, so they are pairwise distinct |
| XmlParser.WordIdDecodes | src/utils/xmlParser.ts:70 | for fewer than 1000 words, an id gives back its topic and position |
| XmlParser.IdsDisjointAcrossTopics | src/utils/xmlParser.ts:70 | two different topics of at most 1000 words each share no id |
| XmlParser.IdsCollideBeyondThousand | src/utils/xmlParser.ts:70 | word 1001 of topic `t` gets the id of the first word of topic `t + 1` |
| Seed.FindMatch | src/backend/worker/seed.ts:16-17 | one lazy match as two literal searches; `FindMatchSpec` and `FirstMatchUnique` show it is the unique leftmost match |
| Seed.FindMatchSpec | src/backend/worker/seed.ts:16-17 | one lazy match is the first opening tag with the first closing tag after it, and there is none exactly when no opening tag is followed by a closing tag |
| Seed.FirstMatchUnique | src/backend/worker/seed.ts:6 | there is only one leftmost match |
| Seed.Captured | src/backend/worker/seed.ts:15 | the capture group `match[1]` of a match (also at :7 and :21); `FirstElementSpec` and `BlocksAreCaptures` state which text it is |
| Seed.FirstElement | src/backend/worker/seed.ts:6 | the captured group of `match`, or none; `FirstElementSpec` states which text it is |
| Seed.FirstElementSpec | src/backend/worker/seed.ts:6-7 | the captured group is the text between the tags of the leftmost match, and there is none exactly when nothing matches |
| Seed.MatchAll | src/backend/worker/seed.ts:10 | the global matches form a chain: each is the leftmost match after the previous closing tag, and none follows the last |
| Seed.ChainedUnique | src/backend/worker/seed.ts:10 | the chain of matches is unique |
| Seed.ChainedInOrder | src/backend/worker/seed.ts:10 | the matches lie left to right without overlapping |
| Seed.ChainedMatches | src/backend/worker/seed.ts:10 | each match has its tags where it says, with no closing tag between them |
| Seed.Blocks | src/backend/worker/seed.ts:10-15 | the captured text of every global `<Word>` match, in order; `BlocksAreCaptures` states what each block is |
| Seed.BlocksAreCaptures | src/backend/worker/seed.ts:10-15 | each block is the text between a `<Word>` and the first `</Word>` after it |
| Seed.WordsOfPrefix | src/backend/worker/seed.ts:14-25 | one more block adds its word, if it gives one |
| Seed.ParseXmlInWorker | src/backend/worker/seed.ts:4-34 | the loop returns the name and the words of the blocks in order |
| Seed.NameOf | src/backend/worker/seed.ts:6-7 | the topic name; `NameOfSpec` gives its two cases |
| Seed.NameOfSpec | src/backend/worker/seed.ts:6-7 | the name is "Unknown Topic" when no `<Name>` is followed by `</Name>`, and otherwise the trimmed text of the leftmost element |
| Seed.WordOf | src/backend/worker/seed.ts:16-24 | the word one block gives, if any; `WordOfSpec` gives when and which |
| Seed.WordsOf | src/backend/worker/seed.ts:14-25 | the words of a list of blocks; `ParseXmlInWorker` proves the loop computes it, and `WordsOfSnoc`, `WordsOfAppend`, `WordsOfAtMostBlocks` state its order and size |
| Seed.WordsOfSnoc | src/backend/worker/seed.ts:19-24 | one more block appends its word, if it gives one, at the end |
| Seed.WordOfSpec | src/backend/worker/seed.ts:16-23 | a block gives a word exactly when it has both elements, and the word is their trimmed text |
| Seed.WordsOfAppend | src/backend/worker/seed.ts:14-25 | the words of consecutive runs of blocks follow one another, so document order is kept |
| Seed.WordsOfOne | src/backend/worker/seed.ts:19-24 | one block gives its word or nothing |
| Seed.WordsOfAtMostBlocks | src/backend/worker/seed.ts:14-25 | there are never more words than blocks |

## Left out

- `convertRoman` and `checkRightCorrect` are imported by the checker
  (`src/utils/typingChecker.ts:2-3`) but defined in no file of this model.
  - They are function-valued parameters of `TypingChecker.Setup` and of the
    `Checker` constructor.
  - Everything proved about the no-prefix branch holds whatever they compute.
- The checker's lookups take the rows as a `Setup` field, which the
  `Checker` constructor always sets to the table. The concrete scenarios
  assume that.
- CheckerScenarios: the behaviour of concrete syllables is proved for si,
  shi, ts and the rows of shi, chi, ji, tu and ts. Every other syllable is
  covered only by the general branch lemmas.
- Keystrokes are one `char`. Strings are sequences of UTF-16 code units, and
  every kana involved lies in the Basic Multilingual Plane. Surrogate pairs
  are not modelled.
- The getters `expected`, `currentRoman` and `currentKana`
  (`src/utils/typingChecker.ts:31-40`) are the fields themselves.
- Word and topic ids are unbounded integers. JavaScript numbers lose
  precision above 2^53, and that is not modelled.
- `parseXmlToTopic` (`src/utils/xmlParser.ts:16-58`) is left out: it needs
  the browser's DOMParser.
- `importWordsFromXml`, `fetchXmlFile` and `importMultipleXmlFiles`
  (`src/backend/worker/seed.ts:37-100`) are database and network I/O.
- The two `console.log` calls in `parseXmlInWorker`
  (`src/backend/worker/seed.ts:27-28`) are output only.
- Seed.MatchAll requires a non-empty closing tag. Every tag the extractor
  uses is a non-empty literal.
- The user interface, the worker plumbing and the statistics computations
  are outside this model.
