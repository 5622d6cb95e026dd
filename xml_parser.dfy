/**
 * The conversion of a parsed e-typing topic into the application's records
 * (src/utils/xmlParser.ts, `convertETypingTopicToAppData`), with the record
 * types of src/types/index.ts.
 */
module XmlParser {

  /** One word of an e-typing file: what is shown, and the kana to type. */
  datatype ETypingWord = ETypingWord(display: string, characters: string)

  /** A parsed e-typing file. */
  datatype ETypingTopic = ETypingTopic(name: string, author: string, signature: string, memo: string,
                                       words: seq<ETypingWord>)

  datatype Topic = Topic(id: int, name: string)

  datatype Word = Word(id: int, topicId: int, text: string, reading: string)

  /** The pair `{ topic, words }` the conversion returns. */
  datatype AppData = AppData(topic: Topic, words: seq<Word>)

  /** The id given to the word at `index` of topic `topicId`. */
  function WordId(topicId: int, index: nat): int {
    topicId * 1000 + index + 1
  }

  /**
   * `convertETypingTopicToAppData(eTypingTopic, topicId)`: the topic keeps
   * its name under the given id, and each word becomes a record of that
   * topic, numbered from its position.
   */
  function ConvertETypingTopicToAppData(e: ETypingTopic, topicId: int): (r: AppData)
    ensures |r.words| == |e.words|
  {
    AppData(Topic(topicId, e.name),
            seq(|e.words|, i requires 0 <= i < |e.words| =>
                  Word(WordId(topicId, i), topicId, e.words[i].display, e.words[i].characters)))
  }

  /**
   * The topic is the given id with the file's name, and every word keeps
   * its display text and reading in place, tagged with the topic.
   */
  lemma ConvertKeepsWords(e: ETypingTopic, topicId: int)
    ensures ConvertETypingTopicToAppData(e, topicId).topic.id == topicId
    ensures ConvertETypingTopicToAppData(e, topicId).topic.name == e.name
    ensures forall i :: 0 <= i < |e.words| ==>
              var w := ConvertETypingTopicToAppData(e, topicId).words[i];
              w.id == topicId * 1000 + i + 1 && w.topicId == topicId &&
              w.text == e.words[i].display && w.reading == e.words[i].characters
  {
  }

  /** Word ids strictly increase with the position, and so never repeat within a topic. */
  lemma WordIdsIncrease(e: ETypingTopic, topicId: int)
    ensures var ws := ConvertETypingTopicToAppData(e, topicId).words;
            forall i, j :: 0 <= i < j < |ws| ==> ws[i].id < ws[j].id
    ensures var ws := ConvertETypingTopicToAppData(e, topicId).words;
            forall i, j :: 0 <= i < |ws| && 0 <= j < |ws| && i != j ==> ws[i].id != ws[j].id
  {
  }

  /** The topic an id was issued for, when no topic has more than 1000 words. */
  function TopicOfId(id: int): int {
    (id - 1) / 1000
  }

  /** The position an id was issued for, when no topic has more than 1000 words. */
  function IndexOfId(id: int): int {
    (id - 1) % 1000
  }

  /**
   * With at most 1000 words, an id tells its topic and position back,
   * whatever the sign of the topic id.
   */
  lemma WordIdDecodes(topicId: int, index: nat)
    requires index < 1000
    ensures TopicOfId(WordId(topicId, index)) == topicId
    ensures IndexOfId(WordId(topicId, index)) == index
  {
    assert WordId(topicId, index) - 1 == topicId * 1000 + index;
  }

  /** Two different topics of at most 1000 words each never share a word id. */
  lemma IdsDisjointAcrossTopics(e1: ETypingTopic, t1: int, e2: ETypingTopic, t2: int)
    requires |e1.words| <= 1000 && |e2.words| <= 1000 && t1 != t2
    ensures var w1 := ConvertETypingTopicToAppData(e1, t1).words;
            var w2 := ConvertETypingTopicToAppData(e2, t2).words;
            forall i, j :: 0 <= i < |w1| && 0 <= j < |w2| ==> w1[i].id != w2[j].id
  {
    var w1 := ConvertETypingTopicToAppData(e1, t1).words;
    var w2 := ConvertETypingTopicToAppData(e2, t2).words;
    forall i, j | 0 <= i < |w1| && 0 <= j < |w2|
      ensures w1[i].id != w2[j].id
    {
      WordIdDecodes(t1, i);
      WordIdDecodes(t2, j);
    }
  }

  /**
   * The scheme relies on that bound: the 1001st word of topic `t` gets the
   * id of the first word of topic `t + 1`.
   */
  lemma IdsCollideBeyondThousand(e1: ETypingTopic, t: int, e2: ETypingTopic)
    requires |e1.words| > 1000 && |e2.words| > 0
    ensures ConvertETypingTopicToAppData(e1, t).words[1000].id ==
            ConvertETypingTopicToAppData(e2, t + 1).words[0].id
  {
  }
}
