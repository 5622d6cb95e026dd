/**
 * The checker on the syllables whose rows make it behave specially
 * (src/utils/typingChecker.ts with the table of src/utils/romanTable.ts).
 */
module CheckerScenarios {
  import opened Options
  import opened RomanTable
  import opened RomanTableFacts
  import opened TypingChecker

  /** The character at `i` of `word` is `ch`, as `word.slice(i, i + 1) === ch` tests it. */
  predicate KanaAt(word: string, i: nat, ch: char) {
    i < |word| && word[i] == ch
  }

  lemma OneKanaFits(word: string, i: nat, ch: char)
    ensures OutputFits([ch], word, i) <==> KanaAt(word, i, ch)
  {
  }

  /** The romaji "shi" finds its two rows and makes the checker wait. */
  lemma ShiSearch(temp: string)
    requires |temp| == 3 && temp[0] == 's' && temp[1] == 'h' && temp[2] == 'i'
    ensures SearchEntriesByPrefix(temp) == [ShiRow, ShiRow]
    ensures BranchOf(Table, temp) == Ambiguous
  {
    assert temp == "shi";
    ShiLookups();
  }

  /** The romaji "si" finds one row, typed exactly so. */
  lemma SiSearch(temp: string)
    requires |temp| == 2 && temp[0] == 's' && temp[1] == 'i'
    ensures SearchEntry(temp) == Some(SiRow)
    ensures BranchOf(Table, temp) == Exact
  {
    assert temp == "si";
    SiLookups();
  }

  /** The romaji "ts" finds one row, which is typed "tsu". */
  lemma TsSearch(temp: string)
    requires |temp| == 2 && temp[0] == 't' && temp[1] == 's'
    ensures |SearchEntriesByPrefix(temp)| == 1 && SearchEntry(temp).None?
  {
    assert temp == "ts";
    TsLookups();
  }

  /**
   * Typing i after s, h: "shi" is listed twice, so the prefix search finds
   * two rows and the ambiguous branch handles the key.  It is accepted
   * exactly when し comes next, and then "shi" stays pending: nothing is
   * committed and the position does not move.
   */
  lemma ShiStaysPending(env: Setup, st: State, c: char)
    requires env.table == Table && st.buffer == "sh" && c == 'i'
    ensures BranchOf(env.table, st.buffer + [c]) == Ambiguous
    ensures Step(env, st, c).correct <==> KanaAt(env.word, st.wordIndex, 'し')
    ensures Step(env, st, c).correct ==>
              Step(env, st, c).next ==
                st.(buffer := "shi", currentRoman := st.currentRoman + "i",
                    expected := NextExpected(Table, st.expected, c, env.word, st.wordIndex))
  {
    ShiSearch(st.buffer + [c]);
    OneKanaFits(env.word, st.wordIndex, 'し');
    assert Fits(Table, ShiRow, env.word, st.wordIndex) <==> KanaAt(env.word, st.wordIndex, 'し');
  }

  /**
   * Typing i after s: only one row starts with "si" and it is typed as
   * "si", so the exact branch accepts the key exactly when し comes next.
   */
  lemma SiAccepted(env: Setup, st: State, c: char)
    requires env.table == Table && st.buffer == "s" && c == 'i'
    ensures BranchOf(env.table, st.buffer + [c]) == Exact
    ensures Step(env, st, c).correct <==> KanaAt(env.word, st.wordIndex, 'し')
  {
    SiSearch(st.buffer + [c]);
    OneKanaFits(env.word, st.wordIndex, 'し');
  }

  /** ... and then commits し, moves one place on and empties the buffer. */
  lemma SiCommits(env: Setup, st: State, c: char)
    requires env.table == Table && st.buffer == "s" && c == 'i' && Step(env, st, c).correct
    ensures Step(env, st, c).next ==
              State("", NextExpected(Table, st.expected, c, env.word, st.wordIndex + 1), st.wordIndex + 1,
                    st.currentKana + "し", st.currentRoman + "i")
  {
    SiSearch(st.buffer + [c]);
  }

  /**
   * Typing s after t: only "tsu" starts with "ts" and no row is typed as
   * "ts", so the call falls through: it answers correct and changes
   * nothing, not even the pending romaji.
   */
  lemma TsFallsThrough(env: Setup, st: State, c: char)
    requires env.table == Table && st.buffer == "t" && c == 's'
    ensures BranchOf(env.table, st.buffer + [c]) == FallThrough
    ensures Step(env, st, c) == StepResult(true, st)
  {
    TsSearch(st.buffer + [c]);
    FallThroughBranch(env, st, c);
  }

  /**
   * Typing s with nothing pending when し comes next: "s" begins several
   * rows, "si" among them fits, so the key is accepted and stays pending.
   */
  lemma SPending(env: Setup, st: State, c: char)
    requires env.table == Table && st.buffer == "" && c == 's' && KanaAt(env.word, st.wordIndex, 'し')
    ensures Step(env, st, c) ==
              StepResult(true, st.(buffer := "s", currentRoman := st.currentRoman + "s",
                                   expected := NextExpected(Table, st.expected, c, env.word, st.wordIndex)))
  {
    var temp := st.buffer + [c];
    PrefixOfS(temp);
    var k :| 0 <= k < |SearchEntriesByPrefix(temp)| && SearchEntriesByPrefix(temp)[k] == SiRow;
    OneKanaFits(env.word, st.wordIndex, 'し');
    assert Fits(Table, SearchEntriesByPrefix(temp)[k], env.word, st.wordIndex);
  }

  /** Typing h after s when し comes next: "sh" begins several rows, "shi" among them fits. */
  lemma ShPending(env: Setup, st: State, c: char)
    requires env.table == Table && st.buffer == "s" && c == 'h' && KanaAt(env.word, st.wordIndex, 'し')
    ensures Step(env, st, c) ==
              StepResult(true, st.(buffer := "sh", currentRoman := st.currentRoman + "h",
                                   expected := NextExpected(Table, st.expected, c, env.word, st.wordIndex)))
  {
    var temp := st.buffer + [c];
    PrefixOfSh(temp);
    var k :| 0 <= k < |SearchEntriesByPrefix(temp)| && SearchEntriesByPrefix(temp)[k] == ShiRow;
    OneKanaFits(env.word, st.wordIndex, 'し');
    assert Fits(Table, SearchEntriesByPrefix(temp)[k], env.word, st.wordIndex);
  }

  /**
   * A fresh checker for a word starting with し, fed s, h, i: every key is
   * accepted and "shi" is left pending, with no kana committed.
   */
  lemma ShiFromInit(env: Setup)
    requires env.table == Table && |env.word| > 0 && env.word[0] == 'し'
    ensures var n := Run(env, Init(env), "shi");
            n.buffer == "shi" && n.wordIndex == 0 && n.currentKana == "" && n.currentRoman == "shi"
  {
    var s0 := Init(env);
    SPending(env, s0, 's');
    var s1 := Step(env, s0, 's').next;
    ShPending(env, s1, 'h');
    var s2 := Step(env, s1, 'h').next;
    ShiStaysPending(env, s2, 'i');
    var s3 := Step(env, s2, 'i').next;
    assert Run(env, s0, "shi") == Run(env, s1, "hi") == Run(env, s2, "i") == Run(env, s3, "") == s3;
  }

  /**
   * A fresh checker for a word starting with し, fed s, i: both keys are
   * accepted, し is committed, the position moves one place and nothing is
   * left pending.
   */
  lemma SiFromInit(env: Setup)
    requires env.table == Table && |env.word| > 0 && env.word[0] == 'し'
    ensures var n := Run(env, Init(env), "si");
            n.buffer == "" && n.wordIndex == 1 && n.currentKana == "し" && n.currentRoman == "si"
  {
    var s0 := Init(env);
    SPending(env, s0, 's');
    var s1 := Step(env, s0, 's').next;
    SiAccepted(env, s1, 'i');
    SiCommits(env, s1, 'i');
    var s2 := Step(env, s1, 'i').next;
    assert Run(env, s0, "si") == Run(env, s1, "i") == Run(env, s2, "") == s2;
  }
}
