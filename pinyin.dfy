/**
 * The character-to-pinyin romanisation used to check a child's spoken answer: each
 * character found in a fixed table of 28 syllables is replaced by its toneless pinyin,
 * every other character is kept.
 */
module Pinyin {
  import opened Wrappers

  /** The romanisation table, in the order of the object literal that defines it. */
  const Entries: seq<(char, string)> := [
    ('啊', "a"), ('哦', "o"), ('额', "e"), ('一', "yi"), ('五', "wu"),
    ('爸', "ba"), ('怕', "pa"), ('妈', "ma"), ('发', "fa"),
    ('大', "da"), ('他', "ta"), ('那', "na"), ('拉', "la"),
    ('嘎', "ga"), ('卡', "ka"), ('哈', "ha"),
    ('家', "jia"), ('恰', "qia"), ('下', "xia"),
    ('炸', "zha"), ('查', "cha"), ('沙', "sha"), ('日', "ri"),
    ('杂', "za"), ('擦', "ca"), ('撒', "sa"),
    ('呀', "ya"), ('哇', "wa")
  ]

  /** A lower-case ASCII letter. */
  predicate IsLowerLetter(c: char)
  {
    'a' <= c <= 'z'
  }

  /** A toneless syllable: a non-empty run of lower-case letters. */
  predicate IsSyllable(s: string)
  {
    |s| > 0 && forall i :: 0 <= i < |s| ==> IsLowerLetter(s[i])
  }

  /** The property lookup `pinyinMap[char]`: the syllable entered for `c`, if any. */
  function Lookup(entries: seq<(char, string)>, c: char): Option<string>
  {
    if entries == [] then None
    else if entries[0].0 == c then Some(entries[0].1)
    else Lookup(entries[1..], c)
  }

  /** The table has an entry for `c`. */
  predicate InTable(c: char)
  {
    Lookup(Entries, c).Some?
  }

  /** A lookup finds `c` exactly when some entry has key `c`, and returns that entry's syllable. */
  lemma {:induction false} LookupFindsEntry(entries: seq<(char, string)>, c: char)
    ensures Lookup(entries, c).Some? <==> exists k :: 0 <= k < |entries| && entries[k].0 == c
    ensures Lookup(entries, c).Some? ==> exists k :: 0 <= k < |entries| && entries[k] == (c, Lookup(entries, c).value)
  {
    if entries != [] && entries[0].0 != c {
      LookupFindsEntry(entries[1..], c);
      if exists k :: 0 <= k < |entries| && entries[k].0 == c {
        var k :| 0 <= k < |entries| && entries[k].0 == c;
        assert entries[1..][k - 1].0 == c;
      }
      if Lookup(entries, c).Some? {
        var k :| 0 <= k < |entries[1..]| && entries[1..][k] == (c, Lookup(entries, c).value);
        assert entries[k + 1] == (c, Lookup(entries, c).value);
      }
    } else if entries != [] {
      assert entries[0] == (c, Lookup(entries, c).value);
    }
  }

  /** Every entry maps a CJK ideograph (code point at least U+4E00) to a syllable. */
  lemma EntriesShape()
    ensures forall k :: 0 <= k < |Entries| ==> '一' <= Entries[k].0 && IsSyllable(Entries[k].1)
  {
  }

  /**
   * Only CJK ideographs have a romanisation, and each romanisation is a syllable; in
   * particular no romanisation contains a character of the table.
   */
  lemma TableShape(c: char)
    ensures InTable(c) ==> '一' <= c && IsSyllable(Lookup(Entries, c).value)
    ensures IsLowerLetter(c) ==> !InTable(c)
  {
    LookupFindsEntry(Entries, c);
    EntriesShape();
  }

  /** One character's romanisation (`pinyinMap[char] || char`): its table entry, or the character itself. */
  function Romanize(c: char): (s: string)
    ensures |s| >= 1
    ensures InTable(c) ==> s == Lookup(Entries, c).value
    ensures !InTable(c) ==> s == [c]
  {
    TableShape(c);
    match Lookup(Entries, c)
    case Some(syllable) => syllable
    case None => [c]
  }

  /** `textToPinyin`: split into characters, romanise each, join with no separator. */
  function TextToPinyin(text: string): (r: string)
    ensures |r| >= |text|
    ensures text == [] ==> r == []
  {
    if text == [] then [] else Romanize(text[0]) + TextToPinyin(text[1..])
  }

  /** The conversion works character by character: it distributes over concatenation. */
  lemma {:induction false} TextToPinyinAppend(a: string, b: string)
    ensures TextToPinyin(a + b) == TextToPinyin(a) + TextToPinyin(b)
  {
    if a == [] {
      assert a + b == b;
    } else {
      assert (a + b)[1..] == a[1..] + b;
      TextToPinyinAppend(a[1..], b);
    }
  }

  /** Text with no character from the table comes back unchanged. */
  lemma {:induction false} TextToPinyinPassThrough(text: string)
    requires forall i :: 0 <= i < |text| ==> !InTable(text[i])
    ensures TextToPinyin(text) == text
  {
    if text != [] {
      TextToPinyinPassThrough(text[1..]);
    }
  }

  /** A text made only of table characters becomes the concatenation of their syllables. */
  lemma {:induction false} TextToPinyinSyllables(text: string)
    requires forall i :: 0 <= i < |text| ==> InTable(text[i])
    ensures TextToPinyin(text) == Syllables(text)
  {
    if text != [] {
      TextToPinyinSyllables(text[1..]);
    }
  }

  /** The table syllables of a text made of table characters, joined. */
  function Syllables(text: string): string
    requires forall i :: 0 <= i < |text| ==> InTable(text[i])
  {
    if text == [] then [] else assert InTable(text[0]); Lookup(Entries, text[0]).value + Syllables(text[1..])
  }

  /** No character of a result is a table key. */
  lemma {:induction false} NoTableKeysInOutput(text: string)
    ensures forall i :: 0 <= i < |TextToPinyin(text)| ==> !InTable(TextToPinyin(text)[i])
  {
    if text != [] {
      NoTableKeysInOutput(text[1..]);
      TableShape(text[0]);
      var head := Romanize(text[0]);
      forall i | 0 <= i < |head|
        ensures !InTable(head[i])
      {
        TableShape(head[i]);
      }
    }
  }

  /** Romanising is idempotent: converting an already converted text changes nothing. */
  lemma TextToPinyinIdempotent(text: string)
    ensures TextToPinyin(TextToPinyin(text)) == TextToPinyin(text)
  {
    NoTableKeysInOutput(text);
    TextToPinyinPassThrough(TextToPinyin(text));
  }
}
