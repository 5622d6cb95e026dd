/**
 * The tag extractor the database worker uses instead of an XML parser
 * (src/backend/worker/seed.ts, `parseXmlInWorker`).
 *
 * The regular expression `/<T>(.*?)<\/T>/s` matches literally: with the
 * dot matching line breaks, its leftmost match opens at the first `<T>`
 * and closes at the first `</T>` after it, and the global form used for
 * `<Word>` resumes searching right after each closing tag.
 */
module Seed {
  import opened Options
  import opened JsString
  import opened XmlParser

  const NameOpen := "<Name>"
  const NameClose := "</Name>"
  const WordOpen := "<Word>"
  const WordClose := "</Word>"
  const DisplayOpen := "<Display>"
  const DisplayClose := "</Display>"
  const CharactersOpen := "<Characters>"
  const CharactersClose := "</Characters>"
  const UnknownTopic := "Unknown Topic"

  /** Where a match lies: the index of its opening tag and of its closing tag. */
  datatype Span = Span(open: nat, close: nat)

  // ---------------------------------------------------------------------------
  // One lazy match
  // ---------------------------------------------------------------------------

  /**
   * `sp` is the leftmost match at or after `from`: an opening tag there with
   * none before it, and the first closing tag after the opening one.
   */
  predicate IsFirstMatch(s: string, open: string, close: string, from: nat, sp: Span) {
    from <= sp.open && OccursAt(s, open, sp.open) &&
    (forall j :: from <= j < sp.open ==> !OccursAt(s, open, j)) &&
    sp.open + |open| <= sp.close && OccursAt(s, close, sp.close) &&
    (forall j :: sp.open + |open| <= j < sp.close ==> !OccursAt(s, close, j))
  }

  /** No opening tag at or after `from` has a closing tag after it. */
  ghost predicate NoMatch(s: string, open: string, close: string, from: nat) {
    forall a, b :: from <= a && a + |open| <= b && OccursAt(s, open, a) ==> !OccursAt(s, close, b)
  }

  /** `s.slice(from).match(/open(.*?)close/s)`, as positions in `s`. */
  function FindMatch(s: string, open: string, close: string, from: nat): Option<Span> {
    match IndexOf(s, open, from)
    case None => None
    case Some(a) =>
      match IndexOf(s, close, a + |open|)
      case None => None
      case Some(b) => Some(Span(a, b))
  }

  /** The search finds the leftmost match, and finds nothing exactly when there is none. */
  lemma FindMatchSpec(s: string, open: string, close: string, from: nat)
    ensures var r := FindMatch(s, open, close, from);
            (r.Some? ==> IsFirstMatch(s, open, close, from, r.value)) &&
            (r.None? <==> NoMatch(s, open, close, from))
  {
    IndexOfSpec(s, open, from);
    var a := IndexOf(s, open, from);
    if a.Some? {
      IndexOfSpec(s, close, a.value + |open|);
    }
  }

  /** There is only one leftmost match. */
  lemma FirstMatchUnique(s: string, open: string, close: string, from: nat, sp1: Span, sp2: Span)
    requires IsFirstMatch(s, open, close, from, sp1) && IsFirstMatch(s, open, close, from, sp2)
    ensures sp1 == sp2
  {
  }

  /** The captured group of a match: the text between its tags. */
  function Captured(s: string, open: string, sp: Span): string
    requires sp.open + |open| <= sp.close <= |s|
  {
    s[sp.open + |open|..sp.close]
  }

  /** `s.match(/open(.*?)close/s)?.[1]`: the text of the first element, if there is one. */
  function FirstElement(s: string, open: string, close: string): Option<string> {
    FindMatchSpec(s, open, close, 0);
    match FindMatch(s, open, close, 0)
    case None => None
    case Some(sp) => Some(Captured(s, open, sp))
  }

  /** The first element's text is the text between the tags of the leftmost match. */
  lemma FirstElementSpec(s: string, open: string, close: string)
    ensures FirstElement(s, open, close).None? <==> NoMatch(s, open, close, 0)
    ensures forall sp :: IsFirstMatch(s, open, close, 0, sp) ==>
              FirstElement(s, open, close) == Some(s[sp.open + |open|..sp.close])
  {
    var r := FindMatch(s, open, close, 0);
    FindMatchSpec(s, open, close, 0);
    forall sp | IsFirstMatch(s, open, close, 0, sp)
      ensures FirstElement(s, open, close) == Some(s[sp.open + |open|..sp.close])
    {
      assert r.Some? by {
        assert OccursAt(s, open, sp.open) && OccursAt(s, close, sp.close);
      }
      FirstMatchUnique(s, open, close, 0, r.value, sp);
    }
  }

  // ---------------------------------------------------------------------------
  // matchAll with the global flag
  // ---------------------------------------------------------------------------

  /**
   * The matches of `/open(.*?)close/gs` from `from` on: each is the leftmost
   * match from where the previous one ended, and after the last there is
   * no match.
   */
  ghost predicate Chained(s: string, open: string, close: string, from: nat, spans: seq<Span>)
    decreases |spans|
  {
    if spans == [] then NoMatch(s, open, close, from)
    else IsFirstMatch(s, open, close, from, spans[0]) &&
         Chained(s, open, close, spans[0].close + |close|, spans[1..])
  }

  /** `Array.from(s.matchAll(/open(.*?)close/gs))` from `from`, as positions. */
  function MatchAll(s: string, open: string, close: string, from: nat): (r: seq<Span>)
    requires |close| > 0
    ensures Chained(s, open, close, from, r)
    decreases |s| - from
  {
    FindMatchSpec(s, open, close, from);
    match FindMatch(s, open, close, from)
    case None => []
    case Some(sp) =>
      var rest := MatchAll(s, open, close, sp.close + |close|);
      assert ([sp] + rest)[1..] == rest;
      [sp] + rest
  }

  /** The chain of matches is determined: `matchAll` has only one possible answer. */
  lemma {:induction false} ChainedUnique(s: string, open: string, close: string, from: nat,
                                         a: seq<Span>, b: seq<Span>)
    requires Chained(s, open, close, from, a) && Chained(s, open, close, from, b)
    ensures a == b
    decreases |a|
  {
    if a != [] && b != [] {
      FirstMatchUnique(s, open, close, from, a[0], b[0]);
      ChainedUnique(s, open, close, a[0].close + |close|, a[1..], b[1..]);
      assert a == [a[0]] + a[1..] && b == [b[0]] + b[1..];
    } else if a != [] {
      assert false;
    } else if b != [] {
      assert false;
    }
  }

  /**
   * The matches lie left to right without overlapping: each one starts at
   * or after `from`, and after the closing tag of the one before it.
   */
  lemma {:induction false} ChainedInOrder(s: string, open: string, close: string, from: nat, spans: seq<Span>)
    requires Chained(s, open, close, from, spans)
    ensures forall k :: 0 <= k < |spans| ==> from <= spans[k].open
    ensures forall k :: 0 <= k < |spans| ==> spans[k].open + |open| <= spans[k].close
    ensures forall k :: 0 <= k < |spans| - 1 ==> spans[k].close + |close| <= spans[k + 1].open
    decreases |spans|
  {
    if spans != [] {
      var rest := spans[1..];
      ChainedInOrder(s, open, close, spans[0].close + |close|, rest);
      assert forall k :: 1 <= k < |spans| ==> spans[k] == rest[k - 1];
    }
  }

  /**
   * The captured text of every match of the global search.  The `else ""`
   * is never taken (every span of `MatchAll` has its tags inside `s`, as
   * `BlocksAreCaptures` shows); it only keeps the slice well defined here.
   */
  function Blocks(s: string): seq<string> {
    var spans := MatchAll(s, WordOpen, WordClose, 0);
    seq(|spans|, k requires 0 <= k < |spans| =>
          if spans[k].open + |WordOpen| <= spans[k].close <= |s| then Captured(s, WordOpen, spans[k]) else "")
  }

  /** Each block is the text between a `<Word>` and the first `</Word>` after it. */
  lemma BlocksAreCaptures(s: string)
    ensures var spans := MatchAll(s, WordOpen, WordClose, 0);
            |Blocks(s)| == |spans| &&
            forall k :: 0 <= k < |spans| ==>
              spans[k].open + |WordOpen| <= spans[k].close && spans[k].close + |WordClose| <= |s| &&
              Blocks(s)[k] == s[spans[k].open + |WordOpen|..spans[k].close] &&
              !(exists j :: spans[k].open + |WordOpen| <= j < spans[k].close && OccursAt(s, WordClose, j))
  {
    var spans := MatchAll(s, WordOpen, WordClose, 0);
    ChainedInOrder(s, WordOpen, WordClose, 0, spans);
    ChainedMatches(s, WordOpen, WordClose, 0, spans);
  }

  /** Every member of a chain is a match: its tags are where it says, with no closing tag between. */
  lemma {:induction false} ChainedMatches(s: string, open: string, close: string, from: nat, spans: seq<Span>)
    requires Chained(s, open, close, from, spans)
    ensures forall k :: 0 <= k < |spans| ==>
              OccursAt(s, open, spans[k].open) && OccursAt(s, close, spans[k].close) &&
              forall j :: spans[k].open + |open| <= j < spans[k].close ==> !OccursAt(s, close, j)
    decreases |spans|
  {
    if spans != [] {
      var rest := spans[1..];
      ChainedMatches(s, open, close, spans[0].close + |close|, rest);
      assert forall k :: 1 <= k < |spans| ==> spans[k] == rest[k - 1];
    }
  }

  // ---------------------------------------------------------------------------
  // parseXmlInWorker
  // ---------------------------------------------------------------------------

  /** What `parseXmlInWorker` returns. */
  datatype WorkerTopic = WorkerTopic(name: string, words: seq<ETypingWord>)

  /** The topic name: the trimmed text of the first `<Name>` element, or "Unknown Topic". */
  function NameOf(xml: string): string {
    match FirstElement(xml, NameOpen, NameClose)
    case None => UnknownTopic
    case Some(text) => Trim(text)
  }

  /** The word a block gives: only one with both a display and a reading gives one, trimmed. */
  function WordOf(block: string): Option<ETypingWord> {
    var display := FirstElement(block, DisplayOpen, DisplayClose);
    var characters := FirstElement(block, CharactersOpen, CharactersClose);
    if display.Some? && characters.Some? then Some(ETypingWord(Trim(display.value), Trim(characters.value)))
    else None
  }

  /** The words the blocks give, in their order. */
  function WordsOf(blocks: seq<string>): seq<ETypingWord> {
    if blocks == [] then [] else WordsOf(blocks[..|blocks| - 1]) + WordList(WordOf(blocks[|blocks| - 1]))
  }

  /** The word a block gives, as a list of none or one. */
  function WordList(w: Option<ETypingWord>): seq<ETypingWord> {
    if w.Some? then [w.value] else []
  }

  lemma WordsOfPrefix(blocks: seq<string>, i: nat)
    requires i < |blocks|
    ensures WordsOf(blocks[..i + 1]) == WordsOf(blocks[..i]) + WordList(WordOf(blocks[i]))
  {
    assert blocks[..i + 1][..i] == blocks[..i];
  }

  /** `parseXmlInWorker(xmlContent)`, without its log lines. */
  method ParseXmlInWorker(xmlContent: string) returns (r: WorkerTopic)
    ensures r.name == NameOf(xmlContent)
    ensures r.words == WordsOf(Blocks(xmlContent))
  {
    var nameMatch := FirstElement(xmlContent, NameOpen, NameClose);
    var name := if nameMatch.Some? then Trim(nameMatch.value) else UnknownTopic;
    var wordMatches := Blocks(xmlContent);
    var words: seq<ETypingWord> := [];
    for i := 0 to |wordMatches|
      invariant words == WordsOf(wordMatches[..i])
    {
      var wordContent := wordMatches[i];
      var displayMatch := FirstElement(wordContent, DisplayOpen, DisplayClose);
      var charactersMatch := FirstElement(wordContent, CharactersOpen, CharactersClose);
      if displayMatch.Some? && charactersMatch.Some? {
        words := words + [ETypingWord(Trim(displayMatch.value), Trim(charactersMatch.value))];
      }
      WordsOfPrefix(wordMatches, i);
    }
    assert wordMatches[..|wordMatches|] == wordMatches;
    r := WorkerTopic(name, words);
  }

  // ---------------------------------------------------------------------------
  // What the extractor promises
  // ---------------------------------------------------------------------------

  /**
   * The name is "Unknown Topic" when no `<Name>` is followed by a `</Name>`,
   * and otherwise the trimmed text of the leftmost such element.
   */
  lemma NameOfSpec(xml: string)
    ensures NoMatch(xml, NameOpen, NameClose, 0) ==> NameOf(xml) == UnknownTopic
    ensures forall sp :: IsFirstMatch(xml, NameOpen, NameClose, 0, sp) ==>
              NameOf(xml) == Trim(xml[sp.open + |NameOpen|..sp.close])
  {
    FirstElementSpec(xml, NameOpen, NameClose);
  }

  /** A block gives a word exactly when it has both elements, and the word is their trimmed text. */
  lemma WordOfSpec(block: string)
    ensures WordOf(block).Some? <==>
              !NoMatch(block, DisplayOpen, DisplayClose, 0) && !NoMatch(block, CharactersOpen, CharactersClose, 0)
    ensures forall d, c :: IsFirstMatch(block, DisplayOpen, DisplayClose, 0, d) &&
                           IsFirstMatch(block, CharactersOpen, CharactersClose, 0, c) ==>
              WordOf(block) == Some(ETypingWord(Trim(block[d.open + |DisplayOpen|..d.close]),
                                                Trim(block[c.open + |CharactersOpen|..c.close])))
  {
    FirstElementSpec(block, DisplayOpen, DisplayClose);
    FirstElementSpec(block, CharactersOpen, CharactersClose);
  }

  /** One more block adds its word, if it gives one, at the end. */
  lemma WordsOfSnoc(blocks: seq<string>, block: string)
    ensures WordsOf(blocks + [block]) == WordsOf(blocks) + WordList(WordOf(block))
  {
    assert (blocks + [block])[..|blocks|] == blocks;
  }

  /** The words of consecutive runs of blocks follow one another: document order is kept. */
  lemma {:induction false} WordsOfAppend(a: seq<string>, b: seq<string>)
    ensures WordsOf(a + b) == WordsOf(a) + WordsOf(b)
    decreases |b|
  {
    if b == [] {
      assert a + b == a;
    } else {
      var b', x := b[..|b| - 1], b[|b| - 1];
      assert b == b' + [x];
      assert a + b == (a + b') + [x];
      WordsOfAppend(a, b');
      WordsOfSnoc(a + b', x);
      WordsOfSnoc(b', x);
    }
  }

  /** One block gives its word or nothing. */
  lemma WordsOfOne(block: string)
    ensures WordsOf([block]) == if WordOf(block).Some? then [WordOf(block).value] else []
  {
    assert [block][..0] == [];
  }

  /** Blocks without both elements are dropped, so there are never more words than blocks. */
  lemma {:induction false} WordsOfAtMostBlocks(blocks: seq<string>)
    ensures |WordsOf(blocks)| <= |blocks|
    decreases |blocks|
  {
    if blocks != [] {
      WordsOfAtMostBlocks(blocks[..|blocks| - 1]);
    }
  }
}
