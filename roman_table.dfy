/**
 * The romaji-to-kana conversion table and the lookups made on it
 * (src/utils/romanTable.ts).  The table is kept in its declaration order,
 * duplicates included: "shi", "chi" and "ji" each appear twice.
 */
module RomanTable {
  import opened Options
  import opened JsString

  /**
   * One row of the table: typing `input` produces the kana `output`; a row
   * for a doubled consonant also names the letter that stays pending.
   */
  datatype RomanEntry = RomanEntry(input: string, output: string, nextInput: Option<string>)

  /** The pending text a row leaves behind: `entry.nextInput ? entry.nextInput : ''`. */
  function CarryOver(e: RomanEntry): string {
    match e.nextInput
    case Some(n) => n
    case None => ""
  }

  // ---------------------------------------------------------------------------
  // The table, transcribed row for row.  It is declared in pieces that follow
  // the source's section comments (the two long sections split at a blank
  // line), and Table joins them in order.
  // ---------------------------------------------------------------------------

  /** Lines 10-35 of src/utils/romanTable.ts: the basic syllables あ to と. */
  const Seion1: seq<RomanEntry> := [
    RomanEntry("a", "あ", None),
    RomanEntry("i", "い", None),
    RomanEntry("u", "う", None),
    RomanEntry("e", "え", None),
    RomanEntry("o", "お", None),
    RomanEntry("ka", "か", None),
    RomanEntry("ki", "き", None),
    RomanEntry("ku", "く", None),
    RomanEntry("ke", "け", None),
    RomanEntry("ko", "こ", None),
    RomanEntry("sa", "さ", None),
    RomanEntry("si", "し", None),
    RomanEntry("shi", "し", None),
    RomanEntry("su", "す", None),
    RomanEntry("se", "せ", None),
    RomanEntry("so", "そ", None),
    RomanEntry("ta", "た", None),
    RomanEntry("ti", "ち", None),
    RomanEntry("chi", "ち", None),
    RomanEntry("tu", "つ", None),
    RomanEntry("tsu", "つ", None),
    RomanEntry("te", "て", None),
    RomanEntry("to", "と", None)
  ]

  /** Lines 37-68 of src/utils/romanTable.ts: the basic syllables な to ん. */
  const Seion2: seq<RomanEntry> := [
    RomanEntry("na", "な", None),
    RomanEntry("ni", "に", None),
    RomanEntry("nu", "ぬ", None),
    RomanEntry("ne", "ね", None),
    RomanEntry("no", "の", None),
    RomanEntry("ha", "は", None),
    RomanEntry("hi", "ひ", None),
    RomanEntry("hu", "ふ", None),
    RomanEntry("fu", "ふ", None),
    RomanEntry("he", "へ", None),
    RomanEntry("ho", "ほ", None),
    RomanEntry("ma", "ま", None),
    RomanEntry("mi", "み", None),
    RomanEntry("mu", "む", None),
    RomanEntry("me", "め", None),
    RomanEntry("mo", "も", None),
    RomanEntry("ya", "や", None),
    RomanEntry("yu", "ゆ", None),
    RomanEntry("yo", "よ", None),
    RomanEntry("ra", "ら", None),
    RomanEntry("ri", "り", None),
    RomanEntry("ru", "る", None),
    RomanEntry("re", "れ", None),
    RomanEntry("ro", "ろ", None),
    RomanEntry("wa", "わ", None),
    RomanEntry("wo", "を", None),
    RomanEntry("n", "ん", None)
  ]

  /** Lines 71-94 of src/utils/romanTable.ts: the voiced syllables. */
  const Dakuon: seq<RomanEntry> := [
    RomanEntry("ga", "が", None),
    RomanEntry("gi", "ぎ", None),
    RomanEntry("gu", "ぐ", None),
    RomanEntry("ge", "げ", None),
    RomanEntry("go", "ご", None),
    RomanEntry("za", "ざ", None),
    RomanEntry("zi", "じ", None),
    RomanEntry("ji", "じ", None),
    RomanEntry("zu", "ず", None),
    RomanEntry("ze", "ぜ", None),
    RomanEntry("zo", "ぞ", None),
    RomanEntry("da", "だ", None),
    RomanEntry("di", "ぢ", None),
    RomanEntry("du", "づ", None),
    RomanEntry("de", "で", None),
    RomanEntry("do", "ど", None),
    RomanEntry("ba", "ば", None),
    RomanEntry("bi", "び", None),
    RomanEntry("bu", "ぶ", None),
    RomanEntry("be", "べ", None),
    RomanEntry("bo", "ぼ", None)
  ]

  /** Lines 97-101 of src/utils/romanTable.ts: the semi-voiced syllables. */
  const Handakuon: seq<RomanEntry> := [
    RomanEntry("pa", "ぱ", None),
    RomanEntry("pi", "ぴ", None),
    RomanEntry("pu", "ぷ", None),
    RomanEntry("pe", "ぺ", None),
    RomanEntry("po", "ぽ", None)
  ]

  /** Lines 104-130 of src/utils/romanTable.ts: the contracted syllables きゃ to ちょ. */
  const Youon1: seq<RomanEntry> := [
    RomanEntry("kya", "きゃ", None),
    RomanEntry("kyi", "きぃ", None),
    RomanEntry("kyu", "きゅ", None),
    RomanEntry("kye", "きぇ", None),
    RomanEntry("kyo", "きょ", None),
    RomanEntry("sha", "しゃ", None),
    RomanEntry("sya", "しゃ", None),
    RomanEntry("shi", "し", None),
    RomanEntry("syi", "しぃ", None),
    RomanEntry("shu", "しゅ", None),
    RomanEntry("syu", "しゅ", None),
    RomanEntry("she", "しぇ", None),
    RomanEntry("sye", "しぇ", None),
    RomanEntry("sho", "しょ", None),
    RomanEntry("syo", "しょ", None),
    RomanEntry("cha", "ちゃ", None),
    RomanEntry("tya", "ちゃ", None),
    RomanEntry("chi", "ち", None),
    RomanEntry("tyi", "ちぃ", None),
    RomanEntry("chu", "ちゅ", None),
    RomanEntry("tyu", "ちゅ", None),
    RomanEntry("che", "ちぇ", None),
    RomanEntry("tye", "ちぇ", None),
    RomanEntry("cho", "ちょ", None),
    RomanEntry("tyo", "ちょ", None)
  ]

  /** Lines 132-154 of src/utils/romanTable.ts: the contracted syllables にゃ to りょ. */
  const Youon2: seq<RomanEntry> := [
    RomanEntry("nya", "にゃ", None),
    RomanEntry("nyi", "にぃ", None),
    RomanEntry("nyu", "にゅ", None),
    RomanEntry("nye", "にぇ", None),
    RomanEntry("nyo", "にょ", None),
    RomanEntry("hya", "ひゃ", None),
    RomanEntry("hyi", "ひぃ", None),
    RomanEntry("hyu", "ひゅ", None),
    RomanEntry("hye", "ひぇ", None),
    RomanEntry("hyo", "ひょ", None),
    RomanEntry("mya", "みゃ", None),
    RomanEntry("myi", "みぃ", None),
    RomanEntry("myu", "みゅ", None),
    RomanEntry("mye", "みぇ", None),
    RomanEntry("myo", "みょ", None),
    RomanEntry("rya", "りゃ", None),
    RomanEntry("ryi", "りぃ", None),
    RomanEntry("ryu", "りゅ", None),
    RomanEntry("rye", "りぇ", None),
    RomanEntry("ryo", "りょ", None)
  ]

  /** Lines 157-183 of src/utils/romanTable.ts: the voiced contracted syllables. */
  const DakuonYouon: seq<RomanEntry> := [
    RomanEntry("gya", "ぎゃ", None),
    RomanEntry("gyi", "ぎぃ", None),
    RomanEntry("gyu", "ぎゅ", None),
    RomanEntry("gye", "ぎぇ", None),
    RomanEntry("gyo", "ぎょ", None),
    RomanEntry("ja", "じゃ", None),
    RomanEntry("jya", "じゃ", None),
    RomanEntry("zya", "じゃ", None),
    RomanEntry("ji", "じ", None),
    RomanEntry("jyi", "じぃ", None),
    RomanEntry("zyi", "じぃ", None),
    RomanEntry("ju", "じゅ", None),
    RomanEntry("jyu", "じゅ", None),
    RomanEntry("zyu", "じゅ", None),
    RomanEntry("je", "じぇ", None),
    RomanEntry("jye", "じぇ", None),
    RomanEntry("zye", "じぇ", None),
    RomanEntry("jo", "じょ", None),
    RomanEntry("jyo", "じょ", None),
    RomanEntry("zyo", "じょ", None),
    RomanEntry("bya", "びゃ", None),
    RomanEntry("byi", "びぃ", None),
    RomanEntry("byu", "びゅ", None),
    RomanEntry("bye", "びぇ", None),
    RomanEntry("byo", "びょ", None)
  ]

  /** Lines 186-190 of src/utils/romanTable.ts: the semi-voiced contracted syllables. */
  const HandakuonYouon: seq<RomanEntry> := [
    RomanEntry("pya", "ぴゃ", None),
    RomanEntry("pyi", "ぴぃ", None),
    RomanEntry("pyu", "ぴゅ", None),
    RomanEntry("pye", "ぴぇ", None),
    RomanEntry("pyo", "ぴょ", None)
  ]

  /** Lines 193-208 of src/utils/romanTable.ts: the doubled consonants that give a small っ. */
  const Sokuon: seq<RomanEntry> := [
    RomanEntry("kk", "っ", Some("k")),
    RomanEntry("ss", "っ", Some("s")),
    RomanEntry("tt", "っ", Some("t")),
    RomanEntry("pp", "っ", Some("p")),
    RomanEntry("cc", "っ", Some("c")),
    RomanEntry("gg", "っ", Some("g")),
    RomanEntry("zz", "っ", Some("z")),
    RomanEntry("jj", "っ", Some("j")),
    RomanEntry("dd", "っ", Some("d")),
    RomanEntry("bb", "っ", Some("b")),
    RomanEntry("ff", "っ", Some("f")),
    RomanEntry("hh", "っ", Some("h")),
    RomanEntry("mm", "っ", Some("m")),
    RomanEntry("rr", "っ", Some("r")),
    RomanEntry("ww", "っ", Some("w")),
    RomanEntry("yy", "っ", Some("y"))
  ]

  /** Lines 211-220 of src/utils/romanTable.ts: full-width digits. */
  const Digits: seq<RomanEntry> := [
    RomanEntry("1", "１", None),
    RomanEntry("2", "２", None),
    RomanEntry("3", "３", None),
    RomanEntry("4", "４", None),
    RomanEntry("5", "５", None),
    RomanEntry("6", "６", None),
    RomanEntry("7", "７", None),
    RomanEntry("8", "８", None),
    RomanEntry("9", "９", None),
    RomanEntry("0", "０", None)
  ]

  /** Lines 223-227 of src/utils/romanTable.ts: punctuation. */
  const Symbols: seq<RomanEntry> := [
    RomanEntry("-", "ー", None),
    RomanEntry(".", "。", None),
    RomanEntry(",", "、", None),
    RomanEntry("?", "？", None),
    RomanEntry("!", "！", None)
  ]

  /** `romanTable`: 182 rows in declaration order. */
  const Table: seq<RomanEntry> :=
    Seion1 + Seion2 + Dakuon + Handakuon + Youon1 + Youon2 + DakuonYouon
    + HandakuonYouon + Sokuon + Digits + Symbols

  /**
   * A row types at least one letter and gives at least one kana; a row with
   * a pending letter is a doubled consonant that gives a small っ and keeps
   * that consonant pending.
   */
  predicate WellFormedEntry(e: RomanEntry) {
    |e.input| > 0 && |e.output| > 0 &&
    (e.nextInput.Some? ==>
       e.output == "っ" && |e.input| == 2 && e.input[0] == e.input[1] && e.nextInput.value == [e.input[0]])
  }

  // ---------------------------------------------------------------------------
  // The lookups, over any list of rows; the table's own are below
  // ---------------------------------------------------------------------------

  /** `rows.find(entry => entry.input === s)`. */
  function FindByInput(rows: seq<RomanEntry>, s: string): Option<RomanEntry> {
    if rows == [] then None
    else if rows[0].input == s then Some(rows[0])
    else FindByInput(rows[1..], s)
  }

  /** The search finds the first row typed as `s`, and finds nothing only when no row is. */
  lemma {:induction false} FindByInputSpec(rows: seq<RomanEntry>, s: string)
    ensures FindByInput(rows, s).None? <==> forall i :: 0 <= i < |rows| ==> rows[i].input != s
    ensures FindByInput(rows, s).Some? ==>
              exists i :: 0 <= i < |rows| && rows[i] == FindByInput(rows, s).value && rows[i].input == s
                          && forall j :: 0 <= j < i ==> rows[j].input != s
  {
    if rows != [] && rows[0].input != s {
      FindByInputSpec(rows[1..], s);
      assert forall k :: 1 <= k < |rows| ==> rows[k] == rows[1..][k - 1];
      if FindByInput(rows, s).Some? {
        var i :| 0 <= i < |rows[1..]| && rows[1..][i] == FindByInput(rows, s).value && rows[1..][i].input == s
                 && forall j :: 0 <= j < i ==> rows[1..][j].input != s;
        assert rows[i + 1] == rows[1..][i];
      }
    }
  }

  /** `rows.find(e => e.output === ch)` for a one-character string `ch`. */
  function FindByOutput(rows: seq<RomanEntry>, ch: char): Option<RomanEntry> {
    if rows == [] then None
    else if rows[0].output == [ch] then Some(rows[0])
    else FindByOutput(rows[1..], ch)
  }

  /** The search finds the first row giving exactly `ch`, and finds nothing only when no row does. */
  lemma {:induction false} FindByOutputSpec(rows: seq<RomanEntry>, ch: char)
    ensures FindByOutput(rows, ch).None? <==> forall i :: 0 <= i < |rows| ==> rows[i].output != [ch]
    ensures FindByOutput(rows, ch).Some? ==>
              exists i :: 0 <= i < |rows| && rows[i] == FindByOutput(rows, ch).value && rows[i].output == [ch]
                          && forall j :: 0 <= j < i ==> rows[j].output != [ch]
  {
    if rows != [] && rows[0].output != [ch] {
      FindByOutputSpec(rows[1..], ch);
      assert forall k :: 1 <= k < |rows| ==> rows[k] == rows[1..][k - 1];
      if FindByOutput(rows, ch).Some? {
        var i :| 0 <= i < |rows[1..]| && rows[1..][i] == FindByOutput(rows, ch).value && rows[1..][i].output == [ch]
                 && forall j :: 0 <= j < i ==> rows[1..][j].output != [ch];
        assert rows[i + 1] == rows[1..][i];
      }
    }
  }

  /**
   * `rows.filter(entry => entry.input.startsWith(p))`: the rows whose input
   * starts with `p`, and only those.
   */
  function FilterByPrefix(rows: seq<RomanEntry>, p: string): (r: seq<RomanEntry>)
    ensures |r| <= |rows|
  {
    if rows == [] then []
    else (if StartsWith(rows[0].input, p) then [rows[0]] else []) + FilterByPrefix(rows[1..], p)
  }

  /** The filter keeps the rows that match and only those. */
  lemma {:induction false} FilterByPrefixMembers(rows: seq<RomanEntry>, p: string)
    ensures forall e :: e in FilterByPrefix(rows, p) ==> e in rows && StartsWith(e.input, p)
    ensures forall i :: 0 <= i < |rows| && StartsWith(rows[i].input, p) ==> rows[i] in FilterByPrefix(rows, p)
  {
    if rows != [] {
      FilterByPrefixMembers(rows[1..], p);
      assert forall i :: 1 <= i < |rows| ==> rows[i] == rows[1..][i - 1];
    }
  }

  /** Filtering keeps every matching row as often as it occurs and drops all others. */
  lemma {:induction false} FilterByPrefixCounts(rows: seq<RomanEntry>, p: string, e: RomanEntry)
    ensures multiset(FilterByPrefix(rows, p))[e] == if StartsWith(e.input, p) then multiset(rows)[e] else 0
  {
    if rows != [] {
      FilterByPrefixCounts(rows[1..], p, e);
      assert rows == [rows[0]] + rows[1..];
    }
  }

  /** Filtering keeps the table order: it distributes over concatenation. */
  lemma {:induction false} FilterByPrefixAppend(a: seq<RomanEntry>, b: seq<RomanEntry>, p: string)
    ensures FilterByPrefix(a + b, p) == FilterByPrefix(a, p) + FilterByPrefix(b, p)
  {
    if a != [] {
      FilterByPrefixAppend(a[1..], b, p);
      assert (a + b)[1..] == a[1..] + b;
    } else {
      assert a + b == b;
    }
  }

  /** A first match in `a` is the first match in `a + b`; otherwise the search goes on into `b`. */
  lemma {:induction false} FindByInputAppend(a: seq<RomanEntry>, b: seq<RomanEntry>, s: string)
    ensures FindByInput(a + b, s) == if FindByInput(a, s).Some? then FindByInput(a, s) else FindByInput(b, s)
  {
    if a != [] {
      FindByInputAppend(a[1..], b, s);
      assert (a + b)[1..] == a[1..] + b;
    } else {
      assert a + b == b;
    }
  }

  lemma {:induction false} FindByOutputAppend(a: seq<RomanEntry>, b: seq<RomanEntry>, ch: char)
    ensures FindByOutput(a + b, ch) == if FindByOutput(a, ch).Some? then FindByOutput(a, ch) else FindByOutput(b, ch)
  {
    if a != [] {
      FindByOutputAppend(a[1..], b, ch);
      assert (a + b)[1..] == a[1..] + b;
    } else {
      assert a + b == b;
    }
  }

  // ---------------------------------------------------------------------------
  // searchEntry, searchEntriesByPrefix
  // ---------------------------------------------------------------------------

  /** `searchEntry(input)`: the first row of the table whose input is `input`, if any. */
  function SearchEntry(input: string): (r: Option<RomanEntry>)
    ensures r.None? <==> forall i :: 0 <= i < |Table| ==> Table[i].input != input
    ensures r.Some? ==> exists i :: 0 <= i < |Table| && Table[i] == r.value && r.value.input == input
                                    && forall j :: 0 <= j < i ==> Table[j].input != input
  {
    FindByInputSpec(Table, input);
    FindByInput(Table, input)
  }

  /** `searchEntriesByPrefix(prefix)`: the rows whose input starts with `prefix`, in table order. */
  function SearchEntriesByPrefix(prefix: string): seq<RomanEntry> {
    FilterByPrefix(Table, prefix)
  }

  lemma SearchEntriesByPrefixMembers(prefix: string)
    ensures forall e :: e in SearchEntriesByPrefix(prefix) <==> e in Table && StartsWith(e.input, prefix)
  {
    FilterByPrefixMembers(Table, prefix);
  }

  /**
   * An exact match is always among the prefix matches, so the prefix list is
   * then not empty; and there is an exact match exactly when some prefix
   * match is typed as `s` itself.
   */
  lemma ExactMatchIsPrefixMatch(s: string)
    ensures SearchEntry(s).Some? ==> SearchEntry(s).value in SearchEntriesByPrefix(s)
    ensures SearchEntry(s).Some? ==> |SearchEntriesByPrefix(s)| >= 1
    ensures SearchEntry(s).Some? <==> exists e :: e in SearchEntriesByPrefix(s) && e.input == s
  {
    SearchEntriesByPrefixMembers(s);
    if SearchEntry(s).Some? {
      var e := SearchEntry(s).value;
      StartsWithIsPrefix(e.input, s);
    }
  }

  // ---------------------------------------------------------------------------
  // createExpectedInput
  // ---------------------------------------------------------------------------

  /**
   * What createExpectedInput appends for one character of the word: the
   * input of the first row whose whole output is that character, or the
   * character itself when no row gives it on its own.  Like the other
   * lookups it is stated over any list of rows; `CharInput` is the table's.
   */
  function CharInputIn(rows: seq<RomanEntry>, ch: char): string {
    match FindByOutput(rows, ch)
    case Some(e) => e.input
    case None => [ch]
  }

  function CharInput(ch: char): string {
    CharInputIn(Table, ch)
  }

  /** A character no row gives is copied; otherwise the first row giving it decides. */
  lemma CharInputSpec(rows: seq<RomanEntry>, ch: char)
    ensures (forall i :: 0 <= i < |rows| ==> rows[i].output != [ch]) ==> CharInputIn(rows, ch) == [ch]
    ensures forall i :: (0 <= i < |rows| && rows[i].output == [ch]
                         && forall j :: 0 <= j < i ==> rows[j].output != [ch]) ==> CharInputIn(rows, ch) == rows[i].input
  {
    FindByOutputSpec(rows, ch);
  }

  /** The romaji createExpectedInput builds for `word`: each character converted on its own, in order. */
  function ExpectedInputIn(rows: seq<RomanEntry>, word: string): string {
    if word == [] then [] else ExpectedInputIn(rows, word[..|word| - 1]) + CharInputIn(rows, word[|word| - 1])
  }

  /** Converting one more character appends its conversion. */
  lemma ExpectedInputSnoc(rows: seq<RomanEntry>, w: string, ch: char)
    ensures ExpectedInputIn(rows, w + [ch]) == ExpectedInputIn(rows, w) + CharInputIn(rows, ch)
  {
    assert (w + [ch])[..|w|] == w;
  }

  function ExpectedInput(word: string): string {
    ExpectedInputIn(Table, word)
  }

  /** `createExpectedInput(word)`: the loop of the source, appending to an accumulator. */
  method CreateExpectedInput(rows: seq<RomanEntry>, word: string) returns (result: string)
    ensures result == ExpectedInputIn(rows, word)
  {
    result := "";
    for i := 0 to |word|
      invariant result == ExpectedInputIn(rows, word[..i])
    {
      var ch := word[i];
      var entry := FindByOutput(rows, ch);
      if entry.Some? {
        result := result + entry.value.input;
      } else {
        result := result + [ch];
      }
      assert word[..i + 1][..i] == word[..i];
    }
    assert word[..|word|] == word;
  }

  lemma ExpectedInputEmpty(rows: seq<RomanEntry>)
    ensures ExpectedInputIn(rows, "") == ""
  {
  }

  /** The conversion is a per-character map: it distributes over concatenation. */
  lemma {:induction false} ExpectedInputAppend(rows: seq<RomanEntry>, a: string, b: string)
    ensures ExpectedInputIn(rows, a + b) == ExpectedInputIn(rows, a) + ExpectedInputIn(rows, b)
    decreases |b|
  {
    if b == [] {
      assert a + b == a;
    } else {
      var b', c := b[..|b| - 1], b[|b| - 1];
      assert b == b' + [c];
      assert a + b == (a + b') + [c];
      ExpectedInputAppend(rows, a, b');
      ExpectedInputSnoc(rows, a + b', c);
      ExpectedInputSnoc(rows, b', c);
    }
  }
}
