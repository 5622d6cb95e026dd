/**
 * What the contents of the conversion table (src/utils/romanTable.ts)
 * imply for its lookups: every row is well formed, which kana each
 * character turns into, and the answers to the queries the typing checker
 * makes for the syllables it treats specially.
 *
 * The facts are found piece by piece: each piece of the table is summarised
 * by the first letters of its inputs and the first characters of its
 * outputs, a lookup is split along the pieces, the pieces that cannot match
 * are set aside by those summaries, and only the few that can are searched.
 */
module RomanTableFacts {
  import opened Options
  import opened JsString
  import opened RomanTable

  /**
   * Every row of `rows` is well formed, its input starts with a letter in
   * `ins` and its output starts with a character in `outs`.
   */
  ghost predicate RowsShaped(rows: seq<RomanEntry>, ins: set<char>, outs: set<char>) {
    forall i :: 0 <= i < |rows| ==>
      WellFormedEntry(rows[i]) && rows[i].input[0] in ins && rows[i].output[0] in outs
  }

  // ---------------------------------------------------------------------------
  // The summary of each piece
  // ---------------------------------------------------------------------------

  const Seion1Inputs: set<char> := {'a', 'c', 'e', 'i', 'k', 'o', 's', 't', 'u'}
  const Seion1Outputs: set<char> := {'あ', 'い', 'う', 'え', 'お', 'か', 'き', 'く', 'け', 'こ', 'さ', 'し', 'す', 'せ', 'そ', 'た', 'ち', 'つ', 'て', 'と'}

  lemma Seion1Shape()
    ensures RowsShaped(Seion1, Seion1Inputs, Seion1Outputs)
  {
  }

  const Seion2Inputs: set<char> := {'f', 'h', 'm', 'n', 'r', 'w', 'y'}
  const Seion2Outputs: set<char> := {'な', 'に', 'ぬ', 'ね', 'の', 'は', 'ひ', 'ふ', 'へ', 'ほ', 'ま', 'み', 'む', 'め', 'も', 'や', 'ゆ', 'よ', 'ら', 'り', 'る', 'れ', 'ろ', 'わ', 'を', 'ん'}

  lemma Seion2Shape()
    ensures RowsShaped(Seion2, Seion2Inputs, Seion2Outputs)
  {
  }

  const DakuonInputs: set<char> := {'b', 'd', 'g', 'j', 'z'}
  const DakuonOutputs: set<char> := {'が', 'ぎ', 'ぐ', 'げ', 'ご', 'ざ', 'じ', 'ず', 'ぜ', 'ぞ', 'だ', 'ぢ', 'づ', 'で', 'ど', 'ば', 'び', 'ぶ', 'べ', 'ぼ'}

  lemma DakuonShape()
    ensures RowsShaped(Dakuon, DakuonInputs, DakuonOutputs)
  {
  }

  const HandakuonInputs: set<char> := {'p'}
  const HandakuonOutputs: set<char> := {'ぱ', 'ぴ', 'ぷ', 'ぺ', 'ぽ'}

  lemma HandakuonShape()
    ensures RowsShaped(Handakuon, HandakuonInputs, HandakuonOutputs)
  {
  }

  const Youon1Inputs: set<char> := {'c', 'k', 's', 't'}
  const Youon1Outputs: set<char> := {'き', 'し', 'ち'}

  lemma Youon1Shape()
    ensures RowsShaped(Youon1, Youon1Inputs, Youon1Outputs)
  {
  }

  const Youon2Inputs: set<char> := {'h', 'm', 'n', 'r'}
  const Youon2Outputs: set<char> := {'に', 'ひ', 'み', 'り'}

  lemma Youon2Shape()
    ensures RowsShaped(Youon2, Youon2Inputs, Youon2Outputs)
  {
  }

  const DakuonYouonInputs: set<char> := {'b', 'g', 'j', 'z'}
  const DakuonYouonOutputs: set<char> := {'ぎ', 'じ', 'び'}

  lemma DakuonYouonShape()
    ensures RowsShaped(DakuonYouon, DakuonYouonInputs, DakuonYouonOutputs)
  {
  }

  const HandakuonYouonInputs: set<char> := {'p'}
  const HandakuonYouonOutputs: set<char> := {'ぴ'}

  lemma HandakuonYouonShape()
    ensures RowsShaped(HandakuonYouon, HandakuonYouonInputs, HandakuonYouonOutputs)
  {
  }

  const SokuonInputs: set<char> := {'b', 'c', 'd', 'f', 'g', 'h', 'j', 'k', 'm', 'p', 'r', 's', 't', 'w', 'y', 'z'}
  const SokuonOutputs: set<char> := {'っ'}

  lemma SokuonShape()
    ensures RowsShaped(Sokuon, SokuonInputs, SokuonOutputs)
  {
  }

  const DigitsInputs: set<char> := {'0', '1', '2', '3', '4', '5', '6', '7', '8', '9'}
  const DigitsOutputs: set<char> := {'０', '１', '２', '３', '４', '５', '６', '７', '８', '９'}

  lemma DigitsShape()
    ensures RowsShaped(Digits, DigitsInputs, DigitsOutputs)
  {
  }

  const SymbolsInputs: set<char> := {'!', ',', '-', '.', '?'}
  const SymbolsOutputs: set<char> := {'、', '。', 'ー', '！', '？'}

  lemma SymbolsShape()
    ensures RowsShaped(Symbols, SymbolsInputs, SymbolsOutputs)
  {
  }
  // ---------------------------------------------------------------------------
  // The whole table
  // ---------------------------------------------------------------------------

  /** The summaries of two pieces combine into one for the pieces joined. */
  lemma ShapedAppend(a: seq<RomanEntry>, ia: set<char>, oa: set<char>,
                     b: seq<RomanEntry>, ib: set<char>, ob: set<char>)
    requires RowsShaped(a, ia, oa) && RowsShaped(b, ib, ob)
    ensures RowsShaped(a + b, ia + ib, oa + ob)
  {
    assert forall i :: |a| <= i < |a + b| ==> (a + b)[i] == b[i - |a|];
  }

  /** Every letter some row of the table starts with. */
  const TableInputs: set<char> :=
    Seion1Inputs + Seion2Inputs + DakuonInputs + HandakuonInputs + Youon1Inputs + Youon2Inputs
    + DakuonYouonInputs + HandakuonYouonInputs + SokuonInputs + DigitsInputs + SymbolsInputs

  /** Every character some row's output starts with. */
  const TableOutputs: set<char> :=
    Seion1Outputs + Seion2Outputs + DakuonOutputs + HandakuonOutputs + Youon1Outputs + Youon2Outputs
    + DakuonYouonOutputs + HandakuonYouonOutputs + SokuonOutputs + DigitsOutputs + SymbolsOutputs

  /** The summary of the eight pieces before the doubled consonants. */
  lemma BeforeSokuonShaped()
    ensures RowsShaped(Seion1 + Seion2 + Dakuon + Handakuon + Youon1 + Youon2 + DakuonYouon + HandakuonYouon,
                       Seion1Inputs + Seion2Inputs + DakuonInputs + HandakuonInputs + Youon1Inputs + Youon2Inputs + DakuonYouonInputs + HandakuonYouonInputs,
                       Seion1Outputs + Seion2Outputs + DakuonOutputs + HandakuonOutputs + Youon1Outputs + Youon2Outputs + DakuonYouonOutputs + HandakuonYouonOutputs)
  {
    var t, i, o := Seion1, Seion1Inputs, Seion1Outputs;
    Seion1Shape();
    Seion2Shape();
    ShapedAppend(t, i, o, Seion2, Seion2Inputs, Seion2Outputs);
    t, i, o := t + Seion2, i + Seion2Inputs, o + Seion2Outputs;
    DakuonShape();
    ShapedAppend(t, i, o, Dakuon, DakuonInputs, DakuonOutputs);
    t, i, o := t + Dakuon, i + DakuonInputs, o + DakuonOutputs;
    HandakuonShape();
    ShapedAppend(t, i, o, Handakuon, HandakuonInputs, HandakuonOutputs);
    t, i, o := t + Handakuon, i + HandakuonInputs, o + HandakuonOutputs;
    Youon1Shape();
    ShapedAppend(t, i, o, Youon1, Youon1Inputs, Youon1Outputs);
    t, i, o := t + Youon1, i + Youon1Inputs, o + Youon1Outputs;
    Youon2Shape();
    ShapedAppend(t, i, o, Youon2, Youon2Inputs, Youon2Outputs);
    t, i, o := t + Youon2, i + Youon2Inputs, o + Youon2Outputs;
    DakuonYouonShape();
    ShapedAppend(t, i, o, DakuonYouon, DakuonYouonInputs, DakuonYouonOutputs);
    t, i, o := t + DakuonYouon, i + DakuonYouonInputs, o + DakuonYouonOutputs;
    HandakuonYouonShape();
    ShapedAppend(t, i, o, HandakuonYouon, HandakuonYouonInputs, HandakuonYouonOutputs);
    t, i, o := t + HandakuonYouon, i + HandakuonYouonInputs, o + HandakuonYouonOutputs;
  }

  lemma TableShaped()
    ensures RowsShaped(Table, TableInputs, TableOutputs)
  {
    var t := Seion1 + Seion2 + Dakuon + Handakuon + Youon1 + Youon2 + DakuonYouon + HandakuonYouon;
    var i := Seion1Inputs + Seion2Inputs + DakuonInputs + HandakuonInputs + Youon1Inputs + Youon2Inputs + DakuonYouonInputs + HandakuonYouonInputs;
    var o := Seion1Outputs + Seion2Outputs + DakuonOutputs + HandakuonOutputs + Youon1Outputs + Youon2Outputs + DakuonYouonOutputs + HandakuonYouonOutputs;
    BeforeSokuonShaped();
    SokuonShape();
    ShapedAppend(t, i, o, Sokuon, SokuonInputs, SokuonOutputs);
    t, i, o := t + Sokuon, i + SokuonInputs, o + SokuonOutputs;
    DigitsShape();
    ShapedAppend(t, i, o, Digits, DigitsInputs, DigitsOutputs);
    t, i, o := t + Digits, i + DigitsInputs, o + DigitsOutputs;
    SymbolsShape();
    ShapedAppend(t, i, o, Symbols, SymbolsInputs, SymbolsOutputs);
  }

  /**
   * Every row of the table types at least one letter and gives at least one
   * kana, and every row with a pending letter is a doubled consonant giving
   * っ with that consonant pending.
   */
  lemma TableWellFormed()
    ensures forall i :: 0 <= i < |Table| ==> WellFormedEntry(Table[i])
  {
    TableShaped();
  }

  // ---------------------------------------------------------------------------
  // Lookups in one piece
  // ---------------------------------------------------------------------------

  /** `s` and `p` differ at position `j` of `p`. */
  predicate DiffersAt(s: string, p: string, j: nat) {
    j < |p| && (j >= |s| || s[j] != p[j])
  }

  /** `s` and `p` differ in one of the first three letters of `p`. */
  predicate DiffersEarly(s: string, p: string) {
    DiffersAt(s, p, 0) || DiffersAt(s, p, 1) || DiffersAt(s, p, 2)
  }

  lemma DiffersEarlyRejects(s: string, p: string)
    requires DiffersEarly(s, p)
    ensures !StartsWith(s, p)
  {
    StartsWithIsPrefix(s, p);
  }

  /** No input in `rows` starts with `p`, as an early difference shows. */
  ghost predicate NoneStartWith(rows: seq<RomanEntry>, p: string) {
    forall i :: 0 <= i < |rows| ==> DiffersEarly(rows[i].input, p)
  }

  /** Filtering rows of which none matches gives nothing. */
  lemma {:induction false} FilterNone(rows: seq<RomanEntry>, p: string)
    requires NoneStartWith(rows, p)
    ensures FilterByPrefix(rows, p) == []
  {
    if rows != [] {
      DiffersEarlyRejects(rows[0].input, p);
      assert forall i :: 1 <= i < |rows| ==> rows[i] == rows[1..][i - 1];
      FilterNone(rows[1..], p);
    }
  }

  /** Of `rows`, only the input at `k` can start with `p`, and it does. */
  ghost predicate OnlyMatchAt(rows: seq<RomanEntry>, p: string, k: nat) {
    k < |rows| && p <= rows[k].input &&
    forall i :: 0 <= i < |rows| && i != k ==> DiffersEarly(rows[i].input, p)
  }

  /** Filtering rows of which only the one at `k` matches gives that row alone. */
  lemma FilterOne(rows: seq<RomanEntry>, p: string, k: nat)
    requires OnlyMatchAt(rows, p, k)
    ensures FilterByPrefix(rows, p) == [rows[k]]
  {
    StartsWithIsPrefix(rows[k].input, p);
    assert rows == rows[..k] + [rows[k]] + rows[k + 1..];
    FilterByPrefixAppend(rows[..k] + [rows[k]], rows[k + 1..], p);
    FilterByPrefixAppend(rows[..k], [rows[k]], p);
    FilterNone(rows[..k], p);
    FilterNone(rows[k + 1..], p);
  }

  /** A piece whose outputs all start with other characters has no row giving `ch`. */
  lemma FindByOutputByHead(rows: seq<RomanEntry>, ins: set<char>, outs: set<char>, ch: char)
    requires RowsShaped(rows, ins, outs) && ch !in outs
    ensures FindByOutput(rows, ch) == None
  {
    FindByOutputSpec(rows, ch);
  }

  /** The row at `k` is the first to give `ch`, so the search finds it. */
  lemma FindByOutputAt(rows: seq<RomanEntry>, ch: char, k: nat)
    requires k < |rows| && rows[k].output == [ch]
    requires forall j :: 0 <= j < k ==> rows[j].output != [ch]
    ensures FindByOutput(rows, ch) == Some(rows[k])
  {
    FindByOutputSpec(rows, ch);
  }

  // ---------------------------------------------------------------------------
  // Lookups in eleven pieces joined, as the table is
  // ---------------------------------------------------------------------------

  /** The first of two searches that finds something. */
  function FirstFound(a: Option<RomanEntry>, b: Option<RomanEntry>): Option<RomanEntry> {
    if a.Some? then a else b
  }

  // The lemmas over eleven pieces below say nothing about the table that the
  // general lemmas of RomanTable do not; they only spare the verifier from
  // unfolding the literal table when the pieces are joined.

  /** Filtering eleven pieces joined is filtering each and joining the results. */
  lemma FilterSplit(r0: seq<RomanEntry>, r1: seq<RomanEntry>, r2: seq<RomanEntry>, r3: seq<RomanEntry>, r4: seq<RomanEntry>, r5: seq<RomanEntry>, r6: seq<RomanEntry>, r7: seq<RomanEntry>, r8: seq<RomanEntry>, r9: seq<RomanEntry>, r10: seq<RomanEntry>, p: string)
    ensures FilterByPrefix(r0 + r1 + r2 + r3 + r4 + r5 + r6 + r7 + r8 + r9 + r10, p) ==
      FilterByPrefix(r0, p) + FilterByPrefix(r1, p) + FilterByPrefix(r2, p) + FilterByPrefix(r3, p) + FilterByPrefix(r4, p) + FilterByPrefix(r5, p) + FilterByPrefix(r6, p) + FilterByPrefix(r7, p) + FilterByPrefix(r8, p) + FilterByPrefix(r9, p) + FilterByPrefix(r10, p)
  {
    FilterByPrefixAppend(r0, r1, p);
    FilterByPrefixAppend(r0 + r1, r2, p);
    FilterByPrefixAppend(r0 + r1 + r2, r3, p);
    FilterByPrefixAppend(r0 + r1 + r2 + r3, r4, p);
    FilterByPrefixAppend(r0 + r1 + r2 + r3 + r4, r5, p);
    FilterByPrefixAppend(r0 + r1 + r2 + r3 + r4 + r5, r6, p);
    FilterByPrefixAppend(r0 + r1 + r2 + r3 + r4 + r5 + r6, r7, p);
    FilterByPrefixAppend(r0 + r1 + r2 + r3 + r4 + r5 + r6 + r7, r8, p);
    FilterByPrefixAppend(r0 + r1 + r2 + r3 + r4 + r5 + r6 + r7 + r8, r9, p);
    FilterByPrefixAppend(r0 + r1 + r2 + r3 + r4 + r5 + r6 + r7 + r8 + r9, r10, p);
  }

  lemma FindOutputSplitTwo(a: seq<RomanEntry>, b: seq<RomanEntry>, ch: char)
    ensures FindByOutput(a + b, ch) == FirstFound(FindByOutput(a, ch), FindByOutput(b, ch))
  {
    FindByOutputAppend(a, b, ch);
  }

  /** Searching eleven pieces joined finds what the first piece with a match finds. */
  lemma FindOutputSplit(r0: seq<RomanEntry>, r1: seq<RomanEntry>, r2: seq<RomanEntry>, r3: seq<RomanEntry>, r4: seq<RomanEntry>, r5: seq<RomanEntry>, r6: seq<RomanEntry>, r7: seq<RomanEntry>, r8: seq<RomanEntry>, r9: seq<RomanEntry>, r10: seq<RomanEntry>, ch: char)
    ensures FindByOutput(r0 + r1 + r2 + r3 + r4 + r5 + r6 + r7 + r8 + r9 + r10, ch) ==
      FirstFound(FirstFound(FirstFound(FirstFound(FirstFound(FirstFound(FirstFound(FirstFound(FirstFound(FirstFound(FindByOutput(r0, ch), FindByOutput(r1, ch)), FindByOutput(r2, ch)), FindByOutput(r3, ch)), FindByOutput(r4, ch)), FindByOutput(r5, ch)), FindByOutput(r6, ch)), FindByOutput(r7, ch)), FindByOutput(r8, ch)), FindByOutput(r9, ch)), FindByOutput(r10, ch))
  {
    FindOutputSplitTwo(r0, r1, ch);
    FindOutputSplitTwo(r0 + r1, r2, ch);
    FindOutputSplitTwo(r0 + r1 + r2, r3, ch);
    FindOutputSplitTwo(r0 + r1 + r2 + r3, r4, ch);
    FindOutputSplitTwo(r0 + r1 + r2 + r3 + r4, r5, ch);
    FindOutputSplitTwo(r0 + r1 + r2 + r3 + r4 + r5, r6, ch);
    FindOutputSplitTwo(r0 + r1 + r2 + r3 + r4 + r5 + r6, r7, ch);
    FindOutputSplitTwo(r0 + r1 + r2 + r3 + r4 + r5 + r6 + r7, r8, ch);
    FindOutputSplitTwo(r0 + r1 + r2 + r3 + r4 + r5 + r6 + r7 + r8, r9, ch);
    FindOutputSplitTwo(r0 + r1 + r2 + r3 + r4 + r5 + r6 + r7 + r8 + r9, r10, ch);
  }

  /** Joining eleven lists of which only the first, fifth and ninth may be non-empty. */
  lemma JoinFirstFifthNinth(f0: seq<RomanEntry>, f1: seq<RomanEntry>, f2: seq<RomanEntry>, f3: seq<RomanEntry>, f4: seq<RomanEntry>, f5: seq<RomanEntry>, f6: seq<RomanEntry>, f7: seq<RomanEntry>, f8: seq<RomanEntry>, f9: seq<RomanEntry>, f10: seq<RomanEntry>)
    requires f1 == [] && f2 == [] && f3 == [] && f5 == [] && f6 == [] && f7 == [] && f9 == [] && f10 == []
    ensures f0 + f1 + f2 + f3 + f4 + f5 + f6 + f7 + f8 + f9 + f10 == f0 + f4 + f8
  {
  }

  /** Of eleven pieces joined, only the first, fifth and ninth can hold rows starting with `p`. */
  lemma FilterKeepsFirstFifthNinth(r0: seq<RomanEntry>, r1: seq<RomanEntry>, r2: seq<RomanEntry>, r3: seq<RomanEntry>, r4: seq<RomanEntry>, r5: seq<RomanEntry>, r6: seq<RomanEntry>, r7: seq<RomanEntry>, r8: seq<RomanEntry>, r9: seq<RomanEntry>, r10: seq<RomanEntry>, p: string)
    requires NoneStartWith(r1, p) && NoneStartWith(r2, p) && NoneStartWith(r3, p) && NoneStartWith(r5, p) && NoneStartWith(r6, p) && NoneStartWith(r7, p) && NoneStartWith(r9, p) && NoneStartWith(r10, p)
    ensures FilterByPrefix(r0 + r1 + r2 + r3 + r4 + r5 + r6 + r7 + r8 + r9 + r10, p) == FilterByPrefix(r0, p) + FilterByPrefix(r4, p) + FilterByPrefix(r8, p)
  {
    FilterSplit(r0, r1, r2, r3, r4, r5, r6, r7, r8, r9, r10, p);
    FilterNone(r1, p);
    FilterNone(r2, p);
    FilterNone(r3, p);
    FilterNone(r5, p);
    FilterNone(r6, p);
    FilterNone(r7, p);
    FilterNone(r9, p);
    FilterNone(r10, p);
    JoinFirstFifthNinth(FilterByPrefix(r0, p), FilterByPrefix(r1, p), FilterByPrefix(r2, p), FilterByPrefix(r3, p), FilterByPrefix(r4, p), FilterByPrefix(r5, p), FilterByPrefix(r6, p), FilterByPrefix(r7, p), FilterByPrefix(r8, p), FilterByPrefix(r9, p), FilterByPrefix(r10, p));
  }

  /** Joining eleven lists of which only the third, seventh and ninth may be non-empty. */
  lemma JoinThirdSeventhNinth(f0: seq<RomanEntry>, f1: seq<RomanEntry>, f2: seq<RomanEntry>, f3: seq<RomanEntry>, f4: seq<RomanEntry>, f5: seq<RomanEntry>, f6: seq<RomanEntry>, f7: seq<RomanEntry>, f8: seq<RomanEntry>, f9: seq<RomanEntry>, f10: seq<RomanEntry>)
    requires f0 == [] && f1 == [] && f3 == [] && f4 == [] && f5 == [] && f7 == [] && f9 == [] && f10 == []
    ensures f0 + f1 + f2 + f3 + f4 + f5 + f6 + f7 + f8 + f9 + f10 == f2 + f6 + f8
  {
  }

  /** Of eleven pieces joined, only the third, seventh and ninth can hold rows starting with `p`. */
  lemma FilterKeepsThirdSeventhNinth(r0: seq<RomanEntry>, r1: seq<RomanEntry>, r2: seq<RomanEntry>, r3: seq<RomanEntry>, r4: seq<RomanEntry>, r5: seq<RomanEntry>, r6: seq<RomanEntry>, r7: seq<RomanEntry>, r8: seq<RomanEntry>, r9: seq<RomanEntry>, r10: seq<RomanEntry>, p: string)
    requires NoneStartWith(r0, p) && NoneStartWith(r1, p) && NoneStartWith(r3, p) && NoneStartWith(r4, p) && NoneStartWith(r5, p) && NoneStartWith(r7, p) && NoneStartWith(r9, p) && NoneStartWith(r10, p)
    ensures FilterByPrefix(r0 + r1 + r2 + r3 + r4 + r5 + r6 + r7 + r8 + r9 + r10, p) == FilterByPrefix(r2, p) + FilterByPrefix(r6, p) + FilterByPrefix(r8, p)
  {
    FilterSplit(r0, r1, r2, r3, r4, r5, r6, r7, r8, r9, r10, p);
    FilterNone(r0, p);
    FilterNone(r1, p);
    FilterNone(r3, p);
    FilterNone(r4, p);
    FilterNone(r5, p);
    FilterNone(r7, p);
    FilterNone(r9, p);
    FilterNone(r10, p);
    JoinThirdSeventhNinth(FilterByPrefix(r0, p), FilterByPrefix(r1, p), FilterByPrefix(r2, p), FilterByPrefix(r3, p), FilterByPrefix(r4, p), FilterByPrefix(r5, p), FilterByPrefix(r6, p), FilterByPrefix(r7, p), FilterByPrefix(r8, p), FilterByPrefix(r9, p), FilterByPrefix(r10, p));
  }

  /** The first piece gives `ch`, so the search of all eleven stops there. */
  lemma FirstPieceGives(r0: seq<RomanEntry>, r1: seq<RomanEntry>, r2: seq<RomanEntry>, r3: seq<RomanEntry>, r4: seq<RomanEntry>, r5: seq<RomanEntry>, r6: seq<RomanEntry>, r7: seq<RomanEntry>, r8: seq<RomanEntry>, r9: seq<RomanEntry>, r10: seq<RomanEntry>, ch: char)
    requires FindByOutput(r0, ch).Some?
    ensures FindByOutput(r0 + r1 + r2 + r3 + r4 + r5 + r6 + r7 + r8 + r9 + r10, ch) == FindByOutput(r0, ch)
  {
    FindOutputSplit(r0, r1, r2, r3, r4, r5, r6, r7, r8, r9, r10, ch);
  }

  /** No row of the first piece gives `ch` and the second does, so the search of all eleven stops there. */
  lemma SecondPieceGives(r0: seq<RomanEntry>, r1: seq<RomanEntry>, r2: seq<RomanEntry>, r3: seq<RomanEntry>, r4: seq<RomanEntry>, r5: seq<RomanEntry>, r6: seq<RomanEntry>, r7: seq<RomanEntry>, r8: seq<RomanEntry>, r9: seq<RomanEntry>, r10: seq<RomanEntry>, ins: set<char>, outs: set<char>, ch: char)
    requires RowsShaped(r0, ins, outs) && ch !in outs
    requires FindByOutput(r1, ch).Some?
    ensures FindByOutput(r0 + r1 + r2 + r3 + r4 + r5 + r6 + r7 + r8 + r9 + r10, ch) == FindByOutput(r1, ch)
  {
    FindByOutputByHead(r0, ins, outs, ch);
    FindOutputSplit(r0, r1, r2, r3, r4, r5, r6, r7, r8, r9, r10, ch);
  }

  /** No row of the first eight pieces gives `ch` and the ninth does, so the search stops there. */
  lemma NinthPieceGives(r0: seq<RomanEntry>, r1: seq<RomanEntry>, r2: seq<RomanEntry>, r3: seq<RomanEntry>, r4: seq<RomanEntry>, r5: seq<RomanEntry>, r6: seq<RomanEntry>, r7: seq<RomanEntry>, r8: seq<RomanEntry>, r9: seq<RomanEntry>, r10: seq<RomanEntry>, ins: set<char>, outs: set<char>, ch: char)
    requires RowsShaped(r0 + r1 + r2 + r3 + r4 + r5 + r6 + r7, ins, outs) && ch !in outs
    requires FindByOutput(r8, ch).Some?
    ensures FindByOutput(r0 + r1 + r2 + r3 + r4 + r5 + r6 + r7 + r8 + r9 + r10, ch) == FindByOutput(r8, ch)
  {
    FindByOutputByHead(r0 + r1 + r2 + r3 + r4 + r5 + r6 + r7, ins, outs, ch);
    FindOutputSplitTwo(r0 + r1 + r2 + r3 + r4 + r5 + r6 + r7, r8, ch);
    FindOutputSplitTwo(r0 + r1 + r2 + r3 + r4 + r5 + r6 + r7 + r8, r9, ch);
    FindOutputSplitTwo(r0 + r1 + r2 + r3 + r4 + r5 + r6 + r7 + r8 + r9, r10, ch);
  }

  /** Of three pieces, one row of the first matches and nothing else does. */
  lemma PicksOneOfThree(t: seq<RomanEntry>, a: seq<RomanEntry>, b: seq<RomanEntry>, c: seq<RomanEntry>, p: string, k: nat)
    requires t == FilterByPrefix(a, p) + FilterByPrefix(b, p) + FilterByPrefix(c, p)
    requires OnlyMatchAt(a, p, k) && NoneStartWith(b, p) && NoneStartWith(c, p)
    ensures t == [a[k]]
  {
    FilterOne(a, p, k);
    FilterNone(b, p);
    FilterNone(c, p);
  }

  /** Of three pieces, one row of the first and one of the second match and nothing else does. */
  lemma PicksTwoOfThree(t: seq<RomanEntry>, a: seq<RomanEntry>, b: seq<RomanEntry>, c: seq<RomanEntry>, p: string, k: nat, m: nat)
    requires t == FilterByPrefix(a, p) + FilterByPrefix(b, p) + FilterByPrefix(c, p)
    requires OnlyMatchAt(a, p, k) && OnlyMatchAt(b, p, m) && NoneStartWith(c, p)
    ensures t == [a[k], b[m]]
  {
    FilterOne(a, p, k);
    FilterOne(b, p, m);
    FilterNone(c, p);
  }

  // ---------------------------------------------------------------------------
  // The table's own lookups, narrowed to the pieces that can match
  // ---------------------------------------------------------------------------

  lemma Seion1Skips(p: string)
    requires |p| > 0 && p[0] !in Seion1Inputs
    ensures NoneStartWith(Seion1, p)
  {
    Seion1Shape();
  }

  lemma Seion2Skips(p: string)
    requires |p| > 0 && p[0] !in Seion2Inputs
    ensures NoneStartWith(Seion2, p)
  {
    Seion2Shape();
  }

  lemma DakuonSkips(p: string)
    requires |p| > 0 && p[0] !in DakuonInputs
    ensures NoneStartWith(Dakuon, p)
  {
    DakuonShape();
  }

  lemma HandakuonSkips(p: string)
    requires |p| > 0 && p[0] !in HandakuonInputs
    ensures NoneStartWith(Handakuon, p)
  {
    HandakuonShape();
  }

  lemma Youon1Skips(p: string)
    requires |p| > 0 && p[0] !in Youon1Inputs
    ensures NoneStartWith(Youon1, p)
  {
    Youon1Shape();
  }

  lemma Youon2Skips(p: string)
    requires |p| > 0 && p[0] !in Youon2Inputs
    ensures NoneStartWith(Youon2, p)
  {
    Youon2Shape();
  }

  lemma DakuonYouonSkips(p: string)
    requires |p| > 0 && p[0] !in DakuonYouonInputs
    ensures NoneStartWith(DakuonYouon, p)
  {
    DakuonYouonShape();
  }

  lemma HandakuonYouonSkips(p: string)
    requires |p| > 0 && p[0] !in HandakuonYouonInputs
    ensures NoneStartWith(HandakuonYouon, p)
  {
    HandakuonYouonShape();
  }

  lemma DigitsSkips(p: string)
    requires |p| > 0 && p[0] !in DigitsInputs
    ensures NoneStartWith(Digits, p)
  {
    DigitsShape();
  }

  lemma SymbolsSkips(p: string)
    requires |p| > 0 && p[0] !in SymbolsInputs
    ensures NoneStartWith(Symbols, p)
  {
    SymbolsShape();
  }

  lemma SkipsForSTC(p: string)
    requires |p| > 0 && (p[0] == 's' || p[0] == 't' || p[0] == 'c')
    ensures NoneStartWith(Seion2, p)
    ensures NoneStartWith(Dakuon, p)
    ensures NoneStartWith(Handakuon, p)
    ensures NoneStartWith(Youon2, p)
    ensures NoneStartWith(DakuonYouon, p)
    ensures NoneStartWith(HandakuonYouon, p)
    ensures NoneStartWith(Digits, p)
    ensures NoneStartWith(Symbols, p)
  {
    Seion2Skips(p);
    DakuonSkips(p);
    HandakuonSkips(p);
    Youon2Skips(p);
    DakuonYouonSkips(p);
    HandakuonYouonSkips(p);
    DigitsSkips(p);
    SymbolsSkips(p);
  }

  /** Inputs starting with s, t or c occur only among the basic syllables, the contracted syllables きゃ to ちょ and the doubled consonants. */
  lemma PrefixSearchSTC(p: string)
    requires |p| > 0 && (p[0] == 's' || p[0] == 't' || p[0] == 'c')
    ensures SearchEntriesByPrefix(p) == FilterByPrefix(Seion1, p) + FilterByPrefix(Youon1, p) + FilterByPrefix(Sokuon, p)
  {
    SkipsForSTC(p);
    FilterKeepsFirstFifthNinth(Seion1, Seion2, Dakuon, Handakuon, Youon1, Youon2, DakuonYouon, HandakuonYouon, Sokuon, Digits, Symbols, p);
  }

  lemma SkipsForJ(p: string)
    requires |p| > 0 && (p[0] == 'j')
    ensures NoneStartWith(Seion1, p)
    ensures NoneStartWith(Seion2, p)
    ensures NoneStartWith(Handakuon, p)
    ensures NoneStartWith(Youon1, p)
    ensures NoneStartWith(Youon2, p)
    ensures NoneStartWith(HandakuonYouon, p)
    ensures NoneStartWith(Digits, p)
    ensures NoneStartWith(Symbols, p)
  {
    Seion1Skips(p);
    Seion2Skips(p);
    HandakuonSkips(p);
    Youon1Skips(p);
    Youon2Skips(p);
    HandakuonYouonSkips(p);
    DigitsSkips(p);
    SymbolsSkips(p);
  }

  /** Inputs starting with j occur only among the voiced syllables, the voiced contracted syllables and the doubled consonants. */
  lemma PrefixSearchJ(p: string)
    requires |p| > 0 && (p[0] == 'j')
    ensures SearchEntriesByPrefix(p) == FilterByPrefix(Dakuon, p) + FilterByPrefix(DakuonYouon, p) + FilterByPrefix(Sokuon, p)
  {
    SkipsForJ(p);
    FilterKeepsThirdSeventhNinth(Seion1, Seion2, Dakuon, Handakuon, Youon1, Youon2, DakuonYouon, HandakuonYouon, Sokuon, Digits, Symbols, p);
  }

  // ---------------------------------------------------------------------------
  // The syllables the typing checker treats specially
  // ---------------------------------------------------------------------------

  const SiRow := RomanEntry("si", "し", None)
  const ShiRow := RomanEntry("shi", "し", None)
  const ChiRow := RomanEntry("chi", "ち", None)
  const JiRow := RomanEntry("ji", "じ", None)
  const TuRow := RomanEntry("tu", "つ", None)
  const TsuRow := RomanEntry("tsu", "つ", None)

  /** Every doubled consonant doubles its letter, so a prefix whose first two letters differ matches none. */
  lemma SokuonSkips(p: string)
    requires |p| >= 2 && p[0] != p[1]
    ensures NoneStartWith(Sokuon, p)
  {
  }

  lemma SiPieces(p: string)
    requires |p| == 2 && p[0] == 's' && p[1] == 'i'
    ensures OnlyMatchAt(Seion1, p, 11) && Seion1[11] == SiRow
    ensures NoneStartWith(Youon1, p)
  {
  }

  lemma PrefixOfSi(t: seq<RomanEntry>, p: string)
    requires |p| == 2 && p[0] == 's' && p[1] == 'i' && t == SearchEntriesByPrefix(p)
    ensures t == [SiRow]
  {
    PrefixSearchSTC(p);
    SokuonSkips(p);
    SiPieces(p);
    PicksOneOfThree(t, Seion1, Youon1, Sokuon, p, 11);
  }

  lemma ShiPieces(p: string)
    requires |p| == 3 && p[0] == 's' && p[1] == 'h' && p[2] == 'i'
    ensures OnlyMatchAt(Seion1, p, 12) && Seion1[12] == ShiRow
    ensures OnlyMatchAt(Youon1, p, 7) && Youon1[7] == ShiRow
  {
  }

  lemma PrefixOfShi(t: seq<RomanEntry>, p: string)
    requires |p| == 3 && p[0] == 's' && p[1] == 'h' && p[2] == 'i' && t == SearchEntriesByPrefix(p)
    ensures t == [ShiRow, ShiRow]
  {
    PrefixSearchSTC(p);
    SokuonSkips(p);
    ShiPieces(p);
    PicksTwoOfThree(t, Seion1, Youon1, Sokuon, p, 12, 7);
  }

  lemma ChiPieces(p: string)
    requires |p| == 3 && p[0] == 'c' && p[1] == 'h' && p[2] == 'i'
    ensures OnlyMatchAt(Seion1, p, 18) && Seion1[18] == ChiRow
    ensures OnlyMatchAt(Youon1, p, 17) && Youon1[17] == ChiRow
  {
  }

  lemma PrefixOfChi(t: seq<RomanEntry>, p: string)
    requires |p| == 3 && p[0] == 'c' && p[1] == 'h' && p[2] == 'i' && t == SearchEntriesByPrefix(p)
    ensures t == [ChiRow, ChiRow]
  {
    PrefixSearchSTC(p);
    SokuonSkips(p);
    ChiPieces(p);
    PicksTwoOfThree(t, Seion1, Youon1, Sokuon, p, 18, 17);
  }

  lemma JiPieces(p: string)
    requires |p| == 2 && p[0] == 'j' && p[1] == 'i'
    ensures OnlyMatchAt(Dakuon, p, 7) && Dakuon[7] == JiRow
    ensures OnlyMatchAt(DakuonYouon, p, 8) && DakuonYouon[8] == JiRow
  {
  }

  lemma PrefixOfJi(t: seq<RomanEntry>, p: string)
    requires |p| == 2 && p[0] == 'j' && p[1] == 'i' && t == SearchEntriesByPrefix(p)
    ensures t == [JiRow, JiRow]
  {
    PrefixSearchJ(p);
    SokuonSkips(p);
    JiPieces(p);
    PicksTwoOfThree(t, Dakuon, DakuonYouon, Sokuon, p, 7, 8);
  }

  lemma TsPieces(p: string)
    requires |p| == 2 && p[0] == 't' && p[1] == 's'
    ensures OnlyMatchAt(Seion1, p, 20) && Seion1[20] == TsuRow
    ensures NoneStartWith(Youon1, p)
  {
  }

  lemma PrefixOfTs(t: seq<RomanEntry>, p: string)
    requires |p| == 2 && p[0] == 't' && p[1] == 's' && t == SearchEntriesByPrefix(p)
    ensures t == [TsuRow]
  {
    PrefixSearchSTC(p);
    SokuonSkips(p);
    TsPieces(p);
    PicksOneOfThree(t, Seion1, Youon1, Sokuon, p, 20);
  }

  lemma TuPieces(p: string)
    requires |p| == 2 && p[0] == 't' && p[1] == 'u'
    ensures OnlyMatchAt(Seion1, p, 19) && Seion1[19] == TuRow
    ensures NoneStartWith(Youon1, p)
  {
  }

  lemma PrefixOfTu(t: seq<RomanEntry>, p: string)
    requires |p| == 2 && p[0] == 't' && p[1] == 'u' && t == SearchEntriesByPrefix(p)
    ensures t == [TuRow]
  {
    PrefixSearchSTC(p);
    SokuonSkips(p);
    TuPieces(p);
    PicksOneOfThree(t, Seion1, Youon1, Sokuon, p, 19);
  }

  /** Two rows at `i < j` whose inputs start with `p` make the filter keep at least two rows, `rows[i]` among them. */
  lemma FilterTwo(rows: seq<RomanEntry>, p: string, i: nat, j: nat)
    requires i < j < |rows| && p <= rows[i].input && p <= rows[j].input
    ensures |FilterByPrefix(rows, p)| >= 2 && rows[i] in FilterByPrefix(rows, p)
  {
    var front, back := rows[..j], rows[j..];
    assert rows == front + back;
    FilterByPrefixAppend(front, back, p);
    StartsWithIsPrefix(rows[i].input, p);
    StartsWithIsPrefix(rows[j].input, p);
    assert front[i] == rows[i] && back[0] == rows[j];
    FilterByPrefixMembers(front, p);
    FilterByPrefixMembers(back, p);
  }

  /** "s" begins "si" and "shi" among others, and "si" is one of them. */
  lemma PrefixOfS(p: string)
    requires |p| == 1 && p[0] == 's'
    ensures |SearchEntriesByPrefix(p)| >= 2 && SiRow in SearchEntriesByPrefix(p)
  {
    PrefixSearchSTC(p);
    FilterTwo(Seion1, p, 11, 12);
  }

  /** "sh" begins "shi" and "shu" of the contracted syllables, among others. */
  lemma PrefixOfSh(p: string)
    requires |p| == 2 && p[0] == 's' && p[1] == 'h'
    ensures |SearchEntriesByPrefix(p)| >= 2 && ShiRow in SearchEntriesByPrefix(p)
  {
    PrefixSearchSTC(p);
    FilterTwo(Youon1, p, 7, 9);
    var a, b, c := FilterByPrefix(Seion1, p), FilterByPrefix(Youon1, p), FilterByPrefix(Sokuon, p);
    assert ShiRow in a + b + c;
  }

  // ---------------------------------------------------------------------------
  // The answers, as the typing checker sees them
  // ---------------------------------------------------------------------------

  /** "si" has one row, so typing it converts at once. */
  lemma SiLookups()
    ensures SearchEntriesByPrefix("si") == [SiRow]
    ensures SearchEntry("si") == Some(SiRow)
  {
    PrefixOfSi(SearchEntriesByPrefix("si"), "si");
    ExactMatchIsPrefixMatch("si");
  }

  /** "shi" is listed twice; the prefix search returns both rows and the exact search the earlier. */
  lemma ShiLookups()
    ensures SearchEntriesByPrefix("shi") == [ShiRow, ShiRow]
    ensures SearchEntry("shi") == Some(ShiRow)
  {
    PrefixOfShi(SearchEntriesByPrefix("shi"), "shi");
    ExactMatchIsPrefixMatch("shi");
  }

  lemma ChiLookups()
    ensures SearchEntriesByPrefix("chi") == [ChiRow, ChiRow]
    ensures SearchEntry("chi") == Some(ChiRow)
  {
    PrefixOfChi(SearchEntriesByPrefix("chi"), "chi");
    ExactMatchIsPrefixMatch("chi");
  }

  lemma JiLookups()
    ensures SearchEntriesByPrefix("ji") == [JiRow, JiRow]
    ensures SearchEntry("ji") == Some(JiRow)
  {
    PrefixOfJi(SearchEntriesByPrefix("ji"), "ji");
    ExactMatchIsPrefixMatch("ji");
  }

  /** "ts" is only the start of "tsu": one row has it as a prefix and none is typed as "ts". */
  lemma TsLookups()
    ensures SearchEntriesByPrefix("ts") == [TsuRow]
    ensures SearchEntry("ts") == None
  {
    PrefixOfTs(SearchEntriesByPrefix("ts"), "ts");
    ExactMatchIsPrefixMatch("ts");
  }

  lemma TuLookups()
    ensures SearchEntriesByPrefix("tu") == [TuRow]
    ensures SearchEntry("tu") == Some(TuRow)
  {
    PrefixOfTu(SearchEntriesByPrefix("tu"), "tu");
    ExactMatchIsPrefixMatch("tu");
  }

  // ---------------------------------------------------------------------------
  // Which romaji each kana turns into
  // ---------------------------------------------------------------------------

  /** A character outside each of several sets is outside their union. */
  lemma OutsideUnionEleven(ch: char, s0: set<char>, s1: set<char>, s2: set<char>, s3: set<char>, s4: set<char>, s5: set<char>, s6: set<char>, s7: set<char>, s8: set<char>, s9: set<char>, s10: set<char>)
    requires ch !in s0 && ch !in s1 && ch !in s2 && ch !in s3 && ch !in s4 && ch !in s5 && ch !in s6 && ch !in s7 && ch !in s8 && ch !in s9 && ch !in s10
    ensures ch !in s0 + s1 + s2 + s3 + s4 + s5 + s6 + s7 + s8 + s9 + s10
  {
  }

  lemma OutsideUnionEight(ch: char, s0: set<char>, s1: set<char>, s2: set<char>, s3: set<char>, s4: set<char>, s5: set<char>, s6: set<char>, s7: set<char>)
    requires ch !in s0 && ch !in s1 && ch !in s2 && ch !in s3 && ch !in s4 && ch !in s5 && ch !in s6 && ch !in s7
    ensures ch !in s0 + s1 + s2 + s3 + s4 + s5 + s6 + s7
  {
  }

  /** A character that no row's output starts with is copied unchanged, as ゃ, a Latin letter or a space is. */
  lemma CharInputOutsideTable(ch: char)
    requires ch !in TableOutputs
    ensures CharInput(ch) == [ch]
  {
    TableShaped();
    FindByOutputByHead(Table, TableInputs, TableOutputs, ch);
  }

  /** Every character of `s` is at least `lo`. */
  ghost predicate AllFrom(s: set<char>, lo: char) {
    forall c :: c in s ==> lo <= c
  }

  /** The outputs of the basic syllables start at or above U+3001, the ideographic comma. */
  lemma SeionOutputsFromComma()
    ensures AllFrom(Seion1Outputs, '、') && AllFrom(Seion2Outputs, '、')
  {
  }

  /** So do those of the voiced and semi-voiced syllables. */
  lemma DakuonOutputsFromComma()
    ensures AllFrom(DakuonOutputs, '、') && AllFrom(HandakuonOutputs, '、')
  {
  }

  /** So do those of the contracted syllables. */
  lemma YouonOutputsFromComma()
    ensures AllFrom(Youon1Outputs, '、') && AllFrom(Youon2Outputs, '、')
    ensures AllFrom(DakuonYouonOutputs, '、') && AllFrom(HandakuonYouonOutputs, '、')
  {
  }

  /** And so do those of the doubled consonants, the full-width digits and the punctuation marks. */
  lemma SymbolOutputsFromComma()
    ensures AllFrom(SokuonOutputs, '、') && AllFrom(DigitsOutputs, '、') && AllFrom(SymbolsOutputs, '、')
  {
  }

  lemma AllFromUnionEleven(lo: char, s0: set<char>, s1: set<char>, s2: set<char>, s3: set<char>, s4: set<char>, s5: set<char>, s6: set<char>, s7: set<char>, s8: set<char>, s9: set<char>, s10: set<char>)
    requires AllFrom(s0, lo) && AllFrom(s1, lo) && AllFrom(s2, lo) && AllFrom(s3, lo) && AllFrom(s4, lo) && AllFrom(s5, lo) && AllFrom(s6, lo) && AllFrom(s7, lo) && AllFrom(s8, lo) && AllFrom(s9, lo) && AllFrom(s10, lo)
    ensures AllFrom(s0 + s1 + s2 + s3 + s4 + s5 + s6 + s7 + s8 + s9 + s10, lo)
  {
  }

  /** A character below U+3001, such as a Latin letter, a digit or a space, is not the start of any output. */
  lemma BelowCommaOutsideTable(ch: char)
    requires ch < '、'
    ensures ch !in TableOutputs
  {
    SeionOutputsFromComma();
    DakuonOutputsFromComma();
    YouonOutputsFromComma();
    SymbolOutputsFromComma();
    AllFromUnionEleven('、', Seion1Outputs, Seion2Outputs, DakuonOutputs, HandakuonOutputs, Youon1Outputs, Youon2Outputs, DakuonYouonOutputs, HandakuonYouonOutputs, SokuonOutputs, DigitsOutputs, SymbolsOutputs);
  }

  /** ゃ starts no output of the plain syllables. */
  lemma SmallYaOutsideSyllables(ch: char)
    requires ch == 'ゃ'
    ensures ch !in Seion1Outputs && ch !in Seion2Outputs && ch !in DakuonOutputs && ch !in HandakuonOutputs
  {
  }

  /** Nor of the contracted syllables, the doubled consonants, the digits or the punctuation marks. */
  lemma SmallYaOutsideOthers(ch: char)
    requires ch == 'ゃ'
    ensures ch !in Youon1Outputs && ch !in Youon2Outputs && ch !in DakuonYouonOutputs && ch !in HandakuonYouonOutputs
    ensures ch !in SokuonOutputs && ch !in DigitsOutputs && ch !in SymbolsOutputs
  {
  }

  lemma SmallYaOutsideTable(ch: char)
    requires ch == 'ゃ'
    ensures ch !in TableOutputs
  {
    SmallYaOutsideSyllables(ch);
    SmallYaOutsideOthers(ch);
    OutsideUnionEleven(ch, Seion1Outputs, Seion2Outputs, DakuonOutputs, HandakuonOutputs, Youon1Outputs, Youon2Outputs, DakuonYouonOutputs, HandakuonYouonOutputs, SokuonOutputs, DigitsOutputs, SymbolsOutputs);
  }

  /** ゃ is only ever the second character of an output, so it is copied unchanged. */
  lemma CharInputOfSmallYa(ch: char)
    requires ch == 'ゃ'
    ensures CharInput(ch) == [ch]
  {
    SmallYaOutsideTable(ch);
    CharInputOutsideTable(ch);
  }

  /** A character below U+3001, a Latin letter, an ASCII digit or a space among them, is copied unchanged. */
  lemma CharInputBelowComma(ch: char)
    requires ch < '、'
    ensures CharInput(ch) == [ch]
  {
    BelowCommaOutsideTable(ch);
    CharInputOutsideTable(ch);
  }

  lemma FindShi(ch: char)
    requires ch == 'し'
    ensures FindByOutput(Table, ch) == Some(SiRow)
  {
    FindByOutputAt(Seion1, ch, 11);
    FirstPieceGives(Seion1, Seion2, Dakuon, Handakuon, Youon1, Youon2, DakuonYouon, HandakuonYouon, Sokuon, Digits, Symbols, ch);
  }

  lemma FindTsu(ch: char)
    requires ch == 'つ'
    ensures FindByOutput(Table, ch) == Some(TuRow)
  {
    FindByOutputAt(Seion1, ch, 19);
    FirstPieceGives(Seion1, Seion2, Dakuon, Handakuon, Youon1, Youon2, DakuonYouon, HandakuonYouon, Sokuon, Digits, Symbols, ch);
  }

  lemma NNotInSeion1(ch: char)
    requires ch == 'ん'
    ensures ch !in Seion1Outputs
  {
  }

  lemma NInSeion2(ch: char)
    requires ch == 'ん'
    ensures FindByOutput(Seion2, ch) == Some(RomanEntry("n", "ん", None))
  {
    FindByOutputAt(Seion2, ch, 26);
  }

  lemma FindN(ch: char)
    requires ch == 'ん'
    ensures FindByOutput(Table, ch) == Some(RomanEntry("n", "ん", None))
  {
    Seion1Shape();
    NNotInSeion1(ch);
    NInSeion2(ch);
    SecondPieceGives(Seion1, Seion2, Dakuon, Handakuon, Youon1, Youon2, DakuonYouon, HandakuonYouon, Sokuon, Digits, Symbols, Seion1Inputs, Seion1Outputs, ch);
  }

  /** No piece before the doubled consonants gives っ. */
  lemma SmallTsuNotBefore(ch: char)
    requires ch == 'っ'
    ensures ch !in Seion1Outputs + Seion2Outputs + DakuonOutputs + HandakuonOutputs + Youon1Outputs + Youon2Outputs + DakuonYouonOutputs + HandakuonYouonOutputs
  {
    OutsideUnionEight(ch, Seion1Outputs, Seion2Outputs, DakuonOutputs, HandakuonOutputs, Youon1Outputs, Youon2Outputs, DakuonYouonOutputs, HandakuonYouonOutputs);
  }

  lemma SmallTsuInSokuon(ch: char)
    requires ch == 'っ'
    ensures FindByOutput(Sokuon, ch) == Some(RomanEntry("kk", "っ", Some("k")))
  {
    FindByOutputAt(Sokuon, ch, 0);
  }

  lemma FindSmallTsu(ch: char)
    requires ch == 'っ'
    ensures FindByOutput(Table, ch) == Some(RomanEntry("kk", "っ", Some("k")))
  {
    BeforeSokuonShaped();
    SmallTsuNotBefore(ch);
    SmallTsuInSokuon(ch);
    NinthPieceGives(Seion1, Seion2, Dakuon, Handakuon, Youon1, Youon2, DakuonYouon, HandakuonYouon, Sokuon, Digits, Symbols,
                    Seion1Inputs + Seion2Inputs + DakuonInputs + HandakuonInputs + Youon1Inputs + Youon2Inputs + DakuonYouonInputs + HandakuonYouonInputs,
                    Seion1Outputs + Seion2Outputs + DakuonOutputs + HandakuonOutputs + Youon1Outputs + Youon2Outputs + DakuonYouonOutputs + HandakuonYouonOutputs,
                    ch);
  }

  /** し becomes "si", the input of its first row, though "shi" gives it too. */
  lemma CharInputOfShi(ch: char)
    requires ch == 'し'
    ensures CharInput(ch) == "si"
  {
    FindShi(ch);
  }

  /** つ becomes "tu", the input of its first row, though "tsu" gives it too. */
  lemma CharInputOfTsu(ch: char)
    requires ch == 'つ'
    ensures CharInput(ch) == "tu"
  {
    FindTsu(ch);
  }

  lemma CharInputOfN(ch: char)
    requires ch == 'ん'
    ensures CharInput(ch) == "n"
  {
    FindN(ch);
  }

  /** っ becomes "kk", the first doubled consonant. */
  lemma CharInputOfSmallTsu(ch: char)
    requires ch == 'っ'
    ensures CharInput(ch) == "kk"
  {
    FindSmallTsu(ch);
  }

  /** Every character turns into at least one letter. */
  lemma CharInputNotEmpty(ch: char)
    ensures |CharInput(ch)| >= 1
  {
    TableWellFormed();
    FindByOutputSpec(Table, ch);
  }

  /** The expected romaji is at least as long as the word. */
  lemma {:induction false} ExpectedInputCoversWord(w: string)
    ensures |ExpectedInput(w)| >= |w|
  {
    if w != [] {
      ExpectedInputCoversWord(w[..|w| - 1]);
      CharInputNotEmpty(w[|w| - 1]);
    }
  }
}
