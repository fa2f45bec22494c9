/** `lib/getHsk.ts`: the HSK 1–6 word list, read from six JSON files and normalised into
    one array. The files' contents are inputs here. */
module Hsk {

  /** A JSON field as `transform` sees it: absent, a string, or an array of strings.
      Arrays are truthy in JavaScript even when empty; strings only when non-empty. */
  datatype Value = Undefined | Str(s: string) | Strings(items: seq<string>)

  predicate Truthy(v: Value)
  {
    match v
    case Undefined => false
    case Str(s) => s != ""
    case Strings(_) => true
  }

  /** `a || b`. */
  function Or(a: Value, b: Value): (r: Value)
    ensures Truthy(a) ==> r == a
    ensures !Truthy(a) ==> r == b
  {
    if Truthy(a) then a else b
  }

  /** A record of a data file, with every field `transform` reads. */
  datatype RawEntry = RawEntry(hanzi: Value, word: Value, pinyin: Value, translations: Value,
                               definitions: Value, sentence: Value, sentenceTranslation: Value,
                               audioSrc: Value)

  /** An `HskEntry`. */
  datatype HskEntry = HskEntry(word: Value, pinyin: Value, definitions: Value, sentence: Value,
                               sentenceTranslation: Value, level: int, audioSrc: Value)

  /** The callback of `transform`'s `map`, with its `||` fallbacks. */
  function TransformEntry(e: RawEntry, level: int): (h: HskEntry)
    ensures h.word == (if Truthy(e.hanzi) then e.hanzi else e.word)
    ensures h.definitions ==
      (if Truthy(e.translations) then e.translations
       else if Truthy(e.definitions) then e.definitions
       else Strings([]))
    ensures h.sentence == (if Truthy(e.sentence) then e.sentence else Str(""))
    ensures h.sentenceTranslation == (if Truthy(e.sentenceTranslation) then e.sentenceTranslation else Str(""))
    ensures h.pinyin == e.pinyin && h.audioSrc == e.audioSrc && h.level == level
    // the defaults make the three fallback fields always present
    ensures h.definitions != Undefined && h.sentence != Undefined && h.sentenceTranslation != Undefined
  {
    HskEntry(Or(e.hanzi, e.word), e.pinyin, Or(e.translations, Or(e.definitions, Strings([]))),
             Or(e.sentence, Str("")), Or(e.sentenceTranslation, Str("")), level, e.audioSrc)
  }

  /** `transform(raw, level)`: one entry per record, in the same order, all at `level`. */
  function Transform(raw: seq<RawEntry>, level: int): (r: seq<HskEntry>)
    ensures |r| == |raw|
    ensures forall i :: 0 <= i < |raw| ==> r[i] == TransformEntry(raw[i], level)
    ensures forall i :: 0 <= i < |r| ==> r[i].level == level
  {
    if raw == [] then [] else [TransformEntry(raw[0], level)] + Transform(raw[1..], level)
  }

  /** Transforming a concatenation is concatenating the transforms. */
  lemma {:induction false} TransformAppend(a: seq<RawEntry>, b: seq<RawEntry>, level: int)
    ensures Transform(a + b, level) == Transform(a, level) + Transform(b, level)
  {
    if a != [] {
      assert (a + b)[1..] == a[1..] + b;
      TransformAppend(a[1..], b, level);
    }
  }

  /** Total number of records in a list of files. */
  function Total(files: seq<seq<RawEntry>>): nat
  {
    if files == [] then 0 else |files[0]| + Total(files[1..])
  }

  /** The files from `first` on, transformed with consecutive levels and spread in
      order. Levels never decrease along the result and stay within the files' range. */
  function Spread(files: seq<seq<RawEntry>>, first: int): (r: seq<HskEntry>)
    ensures |r| == Total(files)
    ensures forall i :: 0 <= i < |r| ==> first <= r[i].level < first + |files|
    ensures forall i, j :: 0 <= i < j < |r| ==> r[i].level <= r[j].level
  {
    if files == [] then []
    else
      var head := Transform(files[0], first);
      var tail := Spread(files[1..], first + 1);
      assert forall i :: 0 <= i < |head| ==> head[i].level == first;
      head + tail
  }

  /** `getHsk()`: the module-level `allEntries` array, built once from the six level
      files, levels 1 to 6 in order. */
  function GetHsk(files: seq<seq<RawEntry>>): (r: seq<HskEntry>)
    requires |files| == 6
    ensures |r| == Total(files)
    ensures forall i :: 0 <= i < |r| ==> 1 <= r[i].level <= 6
    ensures forall i, j :: 0 <= i < j < |r| ==> r[i].level <= r[j].level
  {
    Spread(files, 1)
  }

  /** The first file's records come first, as level 1 entries, in their own order. */
  lemma GetHskStartsWithLevelOne(files: seq<seq<RawEntry>>)
    requires |files| == 6
    ensures GetHsk(files)[..|files[0]|] == Transform(files[0], 1)
  {
  }

  /** One file off the front of the spread. */
  lemma SpreadStep(files: seq<seq<RawEntry>>, k: nat)
    requires k < |files|
    ensures Spread(files[k..], k + 1) == Transform(files[k], k + 1) + Spread(files[k + 1..], k + 2)
  {
    assert files[k..][1..] == files[k + 1..];
  }

  /** Unfolding six steps of a right-nested concatenation gives the flat one. */
  lemma Unfold6<T>(s0: seq<T>, s1: seq<T>, s2: seq<T>, s3: seq<T>, s4: seq<T>, s5: seq<T>,
                   t0: seq<T>, t1: seq<T>, t2: seq<T>, t3: seq<T>, t4: seq<T>, t5: seq<T>)
    requires s0 == t0 + s1 && s1 == t1 + s2 && s2 == t2 + s3 && s3 == t3 + s4 && s4 == t4 + s5 && s5 == t5
    ensures s0 == t0 + t1 + t2 + t3 + t4 + t5
  {
  }

  /** The whole list: the six files in order, the k-th transformed with level k. */
  lemma GetHskIsSixLevels(files: seq<seq<RawEntry>>)
    requires |files| == 6
    ensures GetHsk(files) == Transform(files[0], 1) + Transform(files[1], 2) + Transform(files[2], 3)
                           + Transform(files[3], 4) + Transform(files[4], 5) + Transform(files[5], 6)
  {
    assert files[0..] == files;
    SpreadStep(files, 0);
    SpreadStep(files, 1);
    SpreadStep(files, 2);
    SpreadStep(files, 3);
    SpreadStep(files, 4);
    SpreadStep(files, 5);
    assert Spread(files[6..], 7) == [];
    assert Transform(files[5], 6) + [] == Transform(files[5], 6);
    Unfold6(Spread(files[0..], 1), Spread(files[1..], 2), Spread(files[2..], 3), Spread(files[3..], 4),
            Spread(files[4..], 5), Spread(files[5..], 6),
            Transform(files[0], 1), Transform(files[1], 2), Transform(files[2], 3), Transform(files[3], 4),
            Transform(files[4], 5), Transform(files[5], 6));
  }
}
