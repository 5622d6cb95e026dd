/**
 * The incremental romaji checker of src/utils/typingChecker.ts.
 *
 * `initializeChecker` closes over five variables that `setCharacter`
 * reassigns: the pending romaji `buffer`, the romaji still `expected`, the
 * position `wordIndex` in the word, the kana committed so far and the romaji
 * typed so far.  The class `Checker` keeps them as fields; its
 * `SetCharacter` is proved to make the same move as the function `Step`, on
 * which the properties of the checker are proved.
 *
 * `convertRoman` and `checkRightCorrect` are imported by the checker but
 * defined nowhere in the code modelled here, so both are parameters: the
 * proofs hold whatever they compute.
 */
module TypingChecker {
  import opened Options
  import opened JsString
  import opened RomanTable

  /** The five variables of one checker. */
  datatype State = State(buffer: string, expected: string, wordIndex: nat, currentKana: string, currentRoman: string)

  /**
   * What a checker is made with: the word, the rows it looks romaji up in
   * (always `RomanTable.Table` in the program, and the constructor of
   * `Checker` passes that), and the two helpers it calls but does not define.
   */
  datatype Setup = Setup(word: string, table: seq<RomanEntry>, convertRoman: string -> string,
                         checkRightCorrect: (string, string, nat) -> bool)

  /** The answer to one keystroke, and the variables afterwards. */
  datatype StepResult = StepResult(correct: bool, next: State)

  /** The variables as `initializeChecker` sets them. */
  function Init(env: Setup): State {
    State("", ExpectedInputIn(env.table, env.word), 0, "", "")
  }

  // ---------------------------------------------------------------------------
  // Whether a row fits the word
  // ---------------------------------------------------------------------------

  /** `x === word.slice(i, i + x.length)`: the text `x` comes next in the word at `i`. */
  predicate OutputFits(x: string, word: string, i: nat) {
    x == Slice(word, i, i + |x|)
  }

  /** `entries.some(e => e.output === word.slice(i, i + e.output.length))`. */
  predicate SomeFits(entries: seq<RomanEntry>, word: string, i: nat) {
    exists k :: 0 <= k < |entries| && OutputFits(entries[k].output, word, i)
  }

  /**
   * The test the ambiguous branch applies to a candidate row: its output
   * comes next in the word and, if it leaves a letter pending, some row
   * starting with that letter gives what follows.  A pending text that is
   * empty counts as none, as in JavaScript.
   */
  predicate Fits(rows: seq<RomanEntry>, e: RomanEntry, word: string, i: nat) {
    OutputFits(e.output, word, i) &&
    (e.nextInput.Some? && e.nextInput.value != "" ==>
       SomeFits(FilterByPrefix(rows, e.nextInput.value), word, i + |e.output|))
  }

  /** `entries.find(...)` with the test above: the first candidate that fits. */
  function FindFitting(rows: seq<RomanEntry>, entries: seq<RomanEntry>, word: string, i: nat): (r: Option<RomanEntry>)
    ensures r.None? <==> forall k :: 0 <= k < |entries| ==> !Fits(rows, entries[k], word, i)
    ensures r.Some? ==> exists k :: 0 <= k < |entries| && entries[k] == r.value && Fits(rows, r.value, word, i)
                                    && forall j :: 0 <= j < k ==> !Fits(rows, entries[j], word, i)
  {
    if entries == [] then None
    else if Fits(rows, entries[0], word, i) then Some(entries[0])
    else
      var r := FindFitting(rows, entries[1..], word, i);
      assert forall k :: 1 <= k < |entries| ==> entries[k] == entries[1..][k - 1];
      r
  }

  // ---------------------------------------------------------------------------
  // setCharacter
  // ---------------------------------------------------------------------------

  /** The four ways `setCharacter` can go, chosen from the lookups of `buffer + c`. */
  datatype Branch = Ambiguous | Exact | NoPrefix | FallThrough

  function BranchOf(rows: seq<RomanEntry>, temp: string): Branch {
    if |FilterByPrefix(rows, temp)| >= 2 then Ambiguous
    else if FindByInput(rows, temp).Some? then Exact
    else if |FilterByPrefix(rows, temp)| == 0 then NoPrefix
    else FallThrough
  }

  /**
   * The expected romaji after an accepted key in the first two branches:
   * the key was the next expected letter, which is dropped, or the rest of
   * the word from `wordIndex` is converted afresh.
   */
  function NextExpected(rows: seq<RomanEntry>, expected: string, c: char, word: string, wordIndex: nat): string {
    if |expected| > 0 && c == expected[0] then expected[1..]
    else ExpectedInputIn(rows, SliceFrom(word, wordIndex))
  }

  /** One call of `setCharacter(c)`. */
  function Step(env: Setup, st: State, c: char): StepResult {
    var temp := st.buffer + [c];
    var rows := env.table;
    var word := env.word;
    match BranchOf(rows, temp)
    case Ambiguous =>
      if FindFitting(rows, FilterByPrefix(rows, temp), word, st.wordIndex).Some? then
        StepResult(true, st.(buffer := temp, currentRoman := st.currentRoman + [c],
                             expected := NextExpected(rows, st.expected, c, word, st.wordIndex)))
      else StepResult(false, st)
    case Exact =>
      var e := FindByInput(rows, temp).value;
      if OutputFits(e.output, word, st.wordIndex) then
        var wi := st.wordIndex + |e.output|;
        StepResult(true, State(CarryOver(e), NextExpected(rows, st.expected, c, word, wi), wi,
                               st.currentKana + e.output, st.currentRoman + [c]))
      else StepResult(false, st)
    case NoPrefix =>
      var left := Slice(temp, 0, |temp| - 1);
      var right := SliceFrom(temp, |temp| - 1);
      var leftConverted := env.convertRoman(left);
      var isLeftCorrect := OutputFits(leftConverted, word, st.wordIndex);
      var isRightCorrect := env.checkRightCorrect(right, word, st.wordIndex + |leftConverted|);
      if isLeftCorrect && isRightCorrect then
        var wi := st.wordIndex + |leftConverted|;
        StepResult(true, State(right, ExpectedInputIn(rows, SliceFrom(word, wi)), wi,
                               st.currentKana + leftConverted, st.currentRoman + [c]))
      else StepResult(false, st)
    case FallThrough =>
      StepResult(true, st)
  }

  /** The checker after the keys `keys`, one `setCharacter` each. */
  function Run(env: Setup, st: State, keys: string): State
    decreases |keys|
  {
    if keys == [] then st else Run(env, Step(env, st, keys[0]).next, keys[1..])
  }

  // ---------------------------------------------------------------------------
  // What every keystroke keeps
  // ---------------------------------------------------------------------------

  /** The kana committed are exactly the word up to `wordIndex`. */
  predicate Valid(word: string, st: State) {
    st.wordIndex <= |word| && st.currentKana == word[..st.wordIndex]
  }

  lemma InitValid(env: Setup)
    ensures Valid(env.word, Init(env))
    ensures Init(env).buffer == "" && Init(env).wordIndex == 0
    ensures Init(env).currentKana == "" && Init(env).currentRoman == ""
    ensures Init(env).expected == ExpectedInputIn(env.table, env.word)
  {
  }

  /** Text that fits the word at a valid position extends the committed kana by exactly that text. */
  lemma FitsExtends(word: string, st: State, x: string)
    requires Valid(word, st) && OutputFits(x, word, st.wordIndex)
    ensures st.wordIndex + |x| <= |word|
    ensures st.currentKana + x == word[..st.wordIndex + |x|]
  {
    SliceMatches(word, st.wordIndex, x);
    assert word[..st.wordIndex + |x|] == word[..st.wordIndex] + word[st.wordIndex..st.wordIndex + |x|];
  }

  lemma StepKeepsValid(env: Setup, st: State, c: char)
    requires Valid(env.word, st)
    ensures Valid(env.word, Step(env, st, c).next)
  {
    var temp := st.buffer + [c];
    match BranchOf(env.table, temp)
    case Ambiguous =>
    case Exact =>
      var e := FindByInput(env.table, temp).value;
      if OutputFits(e.output, env.word, st.wordIndex) {
        FitsExtends(env.word, st, e.output);
      }
    case NoPrefix =>
      var leftConverted := env.convertRoman(Slice(temp, 0, |temp| - 1));
      if OutputFits(leftConverted, env.word, st.wordIndex) {
        FitsExtends(env.word, st, leftConverted);
      }
    case FallThrough =>
  }

  /** A rejected key changes nothing. */
  lemma StepRejectUnchanged(env: Setup, st: State, c: char)
    ensures !Step(env, st, c).correct ==> Step(env, st, c).next == st
  {
  }

  /**
   * The romaji typed grows by exactly the key whenever anything changes, and
   * a key that changes nothing was either rejected or fell through.
   */
  lemma StepRomanGrows(env: Setup, st: State, c: char)
    ensures Step(env, st, c).next == st ||
            Step(env, st, c).next.currentRoman == st.currentRoman + [c]
    ensures Step(env, st, c).correct && BranchOf(env.table, st.buffer + [c]) != FallThrough ==>
            Step(env, st, c).next.currentRoman == st.currentRoman + [c]
    ensures st.wordIndex <= Step(env, st, c).next.wordIndex
  {
  }

  /** The ambiguous branch accepts exactly when a candidate fits, and then only extends the pending romaji. */
  lemma AmbiguousBranch(env: Setup, st: State, c: char)
    requires BranchOf(env.table, st.buffer + [c]) == Ambiguous
    ensures Step(env, st, c).correct <==>
            exists k :: 0 <= k < |FilterByPrefix(env.table, st.buffer + [c])| &&
                        Fits(env.table, FilterByPrefix(env.table, st.buffer + [c])[k], env.word, st.wordIndex)
    ensures Step(env, st, c).correct ==>
              var n := Step(env, st, c).next;
              n.buffer == st.buffer + [c] && n.currentRoman == st.currentRoman + [c] &&
              n.wordIndex == st.wordIndex && n.currentKana == st.currentKana &&
              n.expected == NextExpected(env.table, st.expected, c, env.word, st.wordIndex)
  {
  }

  /** The exact branch accepts exactly when the row's output comes next in the word. */
  lemma ExactBranchAccepts(env: Setup, st: State, c: char)
    requires Valid(env.word, st) && BranchOf(env.table, st.buffer + [c]) == Exact
    ensures FindByInput(env.table, st.buffer + [c]).Some?
    ensures var e := FindByInput(env.table, st.buffer + [c]).value;
            Step(env, st, c).correct <==>
              st.wordIndex + |e.output| <= |env.word| &&
              env.word[st.wordIndex..st.wordIndex + |e.output|] == e.output
  {
    SliceMatches(env.word, st.wordIndex, FindByInput(env.table, st.buffer + [c]).value.output);
  }

  /**
   * On acceptance the exact branch commits the row's output, moves past it,
   * leaves the row's pending letter (if any) in the buffer and updates the
   * expected romaji as the ambiguous branch does, from the new position.
   */
  lemma ExactBranchCommits(env: Setup, st: State, c: char)
    requires BranchOf(env.table, st.buffer + [c]) == Exact && Step(env, st, c).correct
    ensures FindByInput(env.table, st.buffer + [c]).Some?
    ensures var e := FindByInput(env.table, st.buffer + [c]).value;
            var n := Step(env, st, c).next;
            n.wordIndex == st.wordIndex + |e.output| && n.currentKana == st.currentKana + e.output &&
            n.buffer == CarryOver(e) && n.currentRoman == st.currentRoman + [c] &&
            n.expected == NextExpected(env.table, st.expected, c, env.word, n.wordIndex)
  {
  }

  /**
   * When nothing starts with `buffer + c`, the key is accepted exactly when
   * the conversion of the old buffer comes next in the word and the helper
   * accepts the key after it; the key then stays pending alone, and the rest
   * of the word is converted afresh.
   */
  lemma NoPrefixBranch(env: Setup, st: State, c: char)
    requires Valid(env.word, st) && BranchOf(env.table, st.buffer + [c]) == NoPrefix
    ensures var lc := env.convertRoman(st.buffer);
            Step(env, st, c).correct <==>
              st.wordIndex + |lc| <= |env.word| &&
              env.word[st.wordIndex..st.wordIndex + |lc|] == lc &&
              env.checkRightCorrect([c], env.word, st.wordIndex + |lc|)
    ensures var lc := env.convertRoman(st.buffer);
            Step(env, st, c).correct ==>
              var n := Step(env, st, c).next;
              n.buffer == [c] && n.wordIndex == st.wordIndex + |lc| &&
              n.currentKana == st.currentKana + lc && n.currentRoman == st.currentRoman + [c] &&
              n.expected == ExpectedInputIn(env.table, env.word[n.wordIndex..])
  {
    var temp := st.buffer + [c];
    assert Slice(temp, 0, |temp| - 1) == st.buffer;
    assert SliceFrom(temp, |temp| - 1) == [c];
    SliceMatches(env.word, st.wordIndex, env.convertRoman(st.buffer));
  }

  /** Exactly one row continues `buffer + c` and none is typed as it: the key is accepted and nothing changes. */
  lemma FallThroughBranch(env: Setup, st: State, c: char)
    requires |FilterByPrefix(env.table, st.buffer + [c])| == 1 && FindByInput(env.table, st.buffer + [c]).None?
    ensures BranchOf(env.table, st.buffer + [c]) == FallThrough
    ensures Step(env, st, c) == StepResult(true, st)
  {
  }

  lemma {:induction false} RunKeepsValid(env: Setup, st: State, keys: string)
    requires Valid(env.word, st)
    ensures Valid(env.word, Run(env, st, keys))
    decreases |keys|
  {
    if keys != [] {
      StepKeepsValid(env, st, keys[0]);
      RunKeepsValid(env, Step(env, st, keys[0]).next, keys[1..]);
    }
  }

  /** The romaji typed never shrinks, and the word index never moves back. */
  lemma {:induction false} RunOnlyGrows(env: Setup, st: State, keys: string)
    ensures st.currentRoman <= Run(env, st, keys).currentRoman
    ensures st.wordIndex <= Run(env, st, keys).wordIndex
    decreases |keys|
  {
    if keys != [] {
      StepRomanGrows(env, st, keys[0]);
      RunOnlyGrows(env, Step(env, st, keys[0]).next, keys[1..]);
    }
  }

  // ---------------------------------------------------------------------------
  // The checker object
  // ---------------------------------------------------------------------------

  /** The object `initializeChecker` returns, with its closed-over variables as fields. */
  class Checker {
    const word: string
    const table: seq<RomanEntry>
    const convertRoman: string -> string
    const checkRightCorrect: (string, string, nat) -> bool
    var buffer: string
    var expected: string
    var wordIndex: nat
    var currentKana: string
    var currentRoman: string

    function Env(): Setup {
      Setup(word, table, convertRoman, checkRightCorrect)
    }

    /** The five variables now. */
    function Snapshot(): State
      reads this
    {
      State(buffer, expected, wordIndex, currentKana, currentRoman)
    }

    /** `initializeChecker({ word })`, looking romaji up in the table. */
    constructor (word: string, convertRoman: string -> string, checkRightCorrect: (string, string, nat) -> bool)
      ensures Env() == Setup(word, Table, convertRoman, checkRightCorrect)
      ensures Snapshot() == Init(Env())
      ensures Valid(word, Snapshot())
    {
      var initial := CreateExpectedInput(Table, word);
      this.word := word;
      this.table := Table;
      this.convertRoman := convertRoman;
      this.checkRightCorrect := checkRightCorrect;
      buffer := "";
      expected := initial;
      wordIndex := 0;
      currentKana := "";
      currentRoman := "";
    }

    /**
     * `setCharacter(character)`: answers as `Step` does and leaves the
     * variables where `Step` puts them, so that every property proved of
     * `Step` holds of the object; in particular the committed kana stay the
     * word up to `wordIndex`.
     */
    method SetCharacter(c: char) returns (correct: bool)
      modifies this
      ensures correct == Step(Env(), old(Snapshot()), c).correct
      ensures Snapshot() == Step(Env(), old(Snapshot()), c).next
      ensures old(Valid(word, Snapshot())) ==> Valid(word, Snapshot())
    {
      ghost var st := Snapshot();
      var tempBuffer := buffer + [c];
      var entry := FindByInput(table, tempBuffer);
      var prefixEntries := FilterByPrefix(table, tempBuffer);
      if |prefixEntries| >= 2 {
        correct := TryPending(c, tempBuffer, prefixEntries);
      } else if entry.Some? {
        assert BranchOf(table, tempBuffer) == Exact;
        correct := TryEntry(c, entry.value);
      } else if |prefixEntries| == 0 {
        correct := TrySplit(c, tempBuffer);
      } else {
        correct := true;
      }
      if Valid(word, st) {
        StepKeepsValid(Env(), st, c);
      }
    }
  
    /** Several rows continue `tempBuffer`: keep it pending if one of them fits the word. */
    method TryPending(c: char, tempBuffer: string, prefixEntries: seq<RomanEntry>) returns (correct: bool)
      requires tempBuffer == buffer + [c] && prefixEntries == FilterByPrefix(table, tempBuffer)
      requires |prefixEntries| >= 2
      modifies this
      ensures correct == Step(Env(), old(Snapshot()), c).correct
      ensures Snapshot() == Step(Env(), old(Snapshot()), c).next
    {
      var found := FindFitting(table, prefixEntries, word, wordIndex);
      if found.Some? {
        var expectedAfter := ExpectedAfter(c, wordIndex);
        buffer := tempBuffer;
        currentRoman := currentRoman + [c];
        expected := expectedAfter;
        correct := true;
      } else {
        correct := false;
      }
    }

    /** A row is typed exactly as `buffer + c`: commit its output if it comes next in the word. */
    method TryEntry(c: char, e: RomanEntry) returns (correct: bool)
      requires BranchOf(table, buffer + [c]) == Exact && e == FindByInput(table, buffer + [c]).value
      modifies this
      ensures correct == Step(Env(), old(Snapshot()), c).correct
      ensures Snapshot() == Step(Env(), old(Snapshot()), c).next
    {
      if e.output == Slice(word, wordIndex, wordIndex + |e.output|) {
        ExactBranchCommits(Env(), Snapshot(), c);
        var expectedAfter := ExpectedAfter(c, wordIndex + |e.output|);
        Advance(CarryOver(e), e.output, c, expectedAfter);
        correct := true;
      } else {
        correct := false;
      }
    }

    /** Nothing continues `tempBuffer`: convert all but its last letter, and keep that letter pending. */
    method TrySplit(c: char, tempBuffer: string) returns (correct: bool)
      requires tempBuffer == buffer + [c] && BranchOf(table, tempBuffer) == NoPrefix
      modifies this
      ensures correct == Step(Env(), old(Snapshot()), c).correct
      ensures Snapshot() == Step(Env(), old(Snapshot()), c).next
    {
      var left := Slice(tempBuffer, 0, |tempBuffer| - 1);
      var right := SliceFrom(tempBuffer, |tempBuffer| - 1);
      var leftConverted := convertRoman(left);
      var isLeftCorrect := leftConverted == Slice(word, wordIndex, wordIndex + |leftConverted|);
      var isRightCorrect := checkRightCorrect(right, word, wordIndex + |leftConverted|);
      if isLeftCorrect && isRightCorrect {
        var expectedAfter := CreateExpectedInput(table, SliceFrom(word, wordIndex + |leftConverted|));
        Advance(right, leftConverted, c, expectedAfter);
        correct := true;
      } else {
        correct := false;
      }
    }

    /**
     * The updates both converting branches make on acceptance: the pending
     * text, the key appended to the romaji typed, the kana committed and the
     * position moved past them, and the new expected romaji.
     */
    method Advance(pending: string, output: string, c: char, expectedAfter: string)
      modifies this
      ensures Snapshot() == State(pending, expectedAfter, old(wordIndex) + |output|,
                                  old(currentKana) + output, old(currentRoman) + [c])
    {
      buffer := pending;
      currentRoman := currentRoman + [c];
      currentKana := currentKana + output;
      wordIndex := wordIndex + |output|;
      expected := expectedAfter;
    }
  
    /**
     * The expected romaji after an accepted key in the first two branches:
     * drop the key when it was the next expected letter, otherwise convert
     * the word afresh from `from`.
     */
    method ExpectedAfter(c: char, from: nat) returns (r: string)
      ensures r == NextExpected(table, expected, c, word, from)
    {
      if |expected| > 0 && c == expected[0] {
        r := expected[1..];
      } else {
        r := CreateExpectedInput(table, SliceFrom(word, from));
      }
    }
  }
}
