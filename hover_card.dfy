/** `components/HoverCard.jsx`: the pop-up card for one word of the HSK list. */
module HoverCardComponent {
  import opened Text
  import opened Hsk

  /** The separator of the definitions, as the characters stored in the source file
      (U+00EF U+00BC U+203A U+0020: the bytes of a full-width semicolon read back in a
      Western code page). */
  const DefinitionSeparator := "\U{00EF}\U{00BC}\U{203A} "

  /** `entries.find((e) => e.word === word)`, as the index of the first match. */
  function FindFirst(entries: seq<HskEntry>, word: string): (k: Option<nat>)
    ensures k.Some? ==> k.value < |entries| && entries[k.value].word == Str(word)
    ensures k.Some? ==> forall j :: 0 <= j < k.value ==> entries[j].word != Str(word)
    ensures k.None? ==> forall j :: 0 <= j < |entries| ==> entries[j].word != Str(word)
  {
    if entries == [] then None
    else if entries[0].word == Str(word) then Some(0)
    else match FindFirst(entries[1..], word)
      case None => None
      case Some(k) => Some(k + 1)
  }

  /** `items.join(sep)`. */
  function Join(items: seq<string>, sep: string): (r: string)
    ensures items == [] ==> r == ""
    ensures |items| == 1 ==> r == items[0]
  {
    if items == [] then ""
    else if |items| == 1 then items[0]
    else items[0] + sep + Join(items[1..], sep)
  }

  /** Joining one more item appends the separator and that item. */
  lemma {:induction false} JoinSnoc(items: seq<string>, x: string, sep: string)
    requires items != []
    ensures Join(items + [x], sep) == Join(items, sep) + sep + x
  {
    if |items| > 1 {
      assert (items + [x])[1..] == items[1..] + [x];
      JoinSnoc(items[1..], x, sep);
    }
  }

  /** The definitions line: an array is joined with the separator; anything else is
      shown as is (an absent value shows nothing). */
  function DefinitionsText(v: Value): (t: string)
    ensures v.Strings? ==> t == Join(v.items, DefinitionSeparator)
    ensures v.Str? ==> t == v.s
    ensures v.Undefined? ==> t == ""
  {
    match v
    case Strings(items) => Join(items, DefinitionSeparator)
    case Str(s) => s
    case Undefined => ""
  }

  /** What the card shows. */
  datatype View = View(word: Value, pinyin: Value, playControl: bool, definitions: string,
                       sentence: Option<(Value, Value)>, levelBadge: Option<int>)

  /** The rendered card for `word`, or nothing when no entry matches. */
  function Render(entries: seq<HskEntry>, word: string): (v: Option<View>)
    ensures v.None? <==> FindFirst(entries, word).None?
    ensures v.Some? ==> var e := entries[FindFirst(entries, word).value];
      && v.value.word == e.word && v.value.pinyin == e.pinyin
      && (v.value.playControl <==> Truthy(e.audioSrc))
      && v.value.definitions == DefinitionsText(e.definitions)
      && (v.value.sentence.Some? <==> Truthy(e.sentence))
      && (v.value.sentence.Some? ==> v.value.sentence.value == (e.sentence, e.sentenceTranslation))
      && (v.value.levelBadge.Some? <==> e.level != 0)
      && (v.value.levelBadge.Some? ==> v.value.levelBadge.value == e.level)
  {
    match FindFirst(entries, word)
    case None => None
    case Some(k) =>
      var e := entries[k];
      Some(View(e.word, e.pinyin, Truthy(e.audioSrc), DefinitionsText(e.definitions),
                if Truthy(e.sentence) then Some((e.sentence, e.sentenceTranslation)) else None,
                if e.level != 0 then Some(e.level) else None))
  }

  /** On the HSK data set every card that is shown carries its level badge, since every
      entry has a level from 1 to 6. */
  lemma HskCardsShowLevel(files: seq<seq<RawEntry>>, word: string)
    requires |files| == 6
    ensures var v := Render(GetHsk(files), word);
      v.Some? ==> v.value.levelBadge.Some? && 1 <= v.value.levelBadge.value <= 6
  {
  }
}
