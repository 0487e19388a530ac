/**
 * The training engine's character tokenizer. The vocabulary is the sorted
 * list of the distinct characters of the training text; one extra index,
 * equal to the vocabulary length, is the BOS token that marks document
 * boundaries.
 */
module CharTokenizers {
  /** Strictly increasing, hence also free of duplicates. */
  predicate StrictlySorted(s: seq<char>)
  {
    forall i, j :: 0 <= i < j < |s| ==> s[i] < s[j]
  }

  /** `c` placed into a strictly sorted list that lacks it. */
  function Insert(s: seq<char>, c: char): (r: seq<char>)
    requires StrictlySorted(s) && c !in s
    ensures StrictlySorted(r) && |r| == |s| + 1
    ensures forall x :: x in r <==> x in s || x == c
    decreases |s|
  {
    if s == [] || c < s[0] then [c] + s
    else
      var rest := Insert(s[1..], c);
      var r := [s[0]] + rest;
      forall i, j | 0 <= i < j < |r| ensures r[i] < r[j] {
        assert r[j] == rest[j - 1] && rest[j - 1] in rest;
        if i > 0 {
          assert r[i] == rest[i - 1];
        }
      }
      r
  }

  /** Two strictly sorted lists with the same elements are the same list:
      the vocabulary is determined by the set of characters alone. */
  lemma {:induction false} SortedUnique(a: seq<char>, b: seq<char>)
    requires StrictlySorted(a) && StrictlySorted(b)
    requires forall x :: x in a <==> x in b
    ensures a == b
    decreases |a|
  {
    if a == [] || b == [] {
      FirstIn(a);
      FirstIn(b);
    } else {
      assert a[0] in b && b[0] in a;
      assert a[0] == b[0];
      assert a == [a[0]] + a[1..] && b == [b[0]] + b[1..];
      forall x ensures x in a[1..] <==> x in b[1..] {
        if x in a[1..] {
          var i :| 1 <= i < |a| && a[i] == x;
          assert a[0] < x && x in b;
        }
        if x in b[1..] {
          var i :| 1 <= i < |b| && b[i] == x;
          assert b[0] < x && x in a;
        }
      }
      SortedUnique(a[1..], b[1..]);
      assert a == [a[0]] + a[1..] && b == [b[0]] + b[1..];
    }
  }

  lemma FirstIn(s: seq<char>)
    ensures s != [] ==> s[0] in s
  {
  }

  /** `[...new Set(text)].sort()`: the distinct characters of the text in
      ascending order. */
  method SortedDistinct(text: string) returns (chars: seq<char>)
    ensures StrictlySorted(chars)
    ensures forall x :: x in chars <==> x in text
  {
    chars := [];
    for k := 0 to |text|
      invariant StrictlySorted(chars)
      invariant forall x :: x in chars <==> x in text[..k]
    {
      assert text[..k + 1] == text[..k] + [text[k]];
      if text[k] !in chars {
        chars := Insert(chars, text[k]);
      }
    }
    assert text[..|text|] == text;
  }

  class CharTokenizer {
    /** `charToIdx` */
    const charToIdx: map<char, nat>
    /** `idxToChar`: the vocabulary */
    const idxToChar: seq<char>
    const bosToken: nat

    /** The vocabulary is sorted, BOS is the index after it, and the two
        lookups are inverse to each other. */
    ghost predicate Valid()
    {
      && StrictlySorted(idxToChar)
      && bosToken == |idxToChar|
      && (forall x :: x in charToIdx <==> x in idxToChar)
      && (forall i :: 0 <= i < |idxToChar| ==> charToIdx[idxToChar[i]] == i)
    }

    /** `new CharTokenizer(text)`: the vocabulary is exactly the characters
        of the text, sorted, and charToIdx is its inverse. */
    constructor (text: string)
      ensures Valid()
      ensures forall x :: x in idxToChar <==> x in text
    {
      var chars := SortedDistinct(text);
      var index: map<char, nat> := map[];
      for i := 0 to |chars|
        invariant forall x :: x in index <==> x in chars[..i]
        invariant forall j :: 0 <= j < i ==> chars[j] in index && index[chars[j]] == j
      {
        assert chars[..i + 1] == chars[..i] + [chars[i]];
        index := index[chars[i] := i];
      }
      assert chars[..|chars|] == chars;
      idxToChar := chars;
      charToIdx := index;
      bosToken := |chars|;
    }

    /** An index that charToIdx gives is below BOS and names its character. */
    lemma IndexOf(x: char)
      requires Valid() && x in charToIdx
      ensures charToIdx[x] < bosToken && idxToChar[charToIdx[x]] == x
    {
      var i :| 0 <= i < |idxToChar| && idxToChar[i] == x;
      assert charToIdx[idxToChar[i]] == i;
    }

    /** `vocabSize`: the characters and the BOS token. */
    function VocabSize(): (n: nat)
      requires Valid()
      ensures n == bosToken + 1
    {
      |idxToChar| + 1
    }

    /** The indices of the in-vocabulary characters of s, in order. */
    function Encoding(s: string): seq<nat>
      decreases |s|
    {
      if s == [] then []
      else
        var last := s[|s| - 1];
        Encoding(s[..|s| - 1]) + (if last in charToIdx then [charToIdx[last]] else [])
    }

    /** The in-vocabulary characters of s, in order. */
    function Known(s: string): string
      decreases |s|
    {
      if s == [] then ""
      else
        var last := s[|s| - 1];
        Known(s[..|s| - 1]) + (if last in idxToChar then [last] else "")
    }

    /** `encode(text)`: one pass over the text, pushing the index of every
        character that has one. */
    method Encode(text: string) returns (tokens: seq<nat>)
      ensures tokens == Encoding(text)
    {
      tokens := [];
      for k := 0 to |text|
        invariant tokens == Encoding(text[..k])
      {
        assert text[..k + 1][..k] == text[..k];
        if text[k] in charToIdx {
          tokens := tokens + [charToIdx[text[k]]];
        }
      }
      assert text[..|text|] == text;
    }

    /** Every encoded index is a vocabulary index (below BOS), and encoding
        never lengthens the text. */
    lemma {:induction false} EncodingBounds(s: string)
      requires Valid()
      ensures |Encoding(s)| <= |s|
      ensures forall t :: t in Encoding(s) ==> t < bosToken
      decreases |s|
    {
      if s != [] {
        var last := s[|s| - 1];
        EncodingBounds(s[..|s| - 1]);
        if last in charToIdx {
          IndexOf(last);
        }
      }
    }

    /** `decode(indices)`: indices of the vocabulary become their
        characters; BOS and every other index are dropped (an index outside
        the array reads `undefined`, which joins as ''). */
    function Decode(indices: seq<int>): (s: string)
      ensures |s| <= |indices|
      ensures forall x :: x in s ==> x in idxToChar
      decreases |indices|
    {
      if indices == [] then ""
      else
        var i := indices[|indices| - 1];
        Decode(indices[..|indices| - 1]) + (if 0 <= i < |idxToChar| then [idxToChar[i]] else "")
    }

    /** Decoding distributes over concatenation. */
    lemma {:induction false} DecodeAppend(a: seq<int>, b: seq<int>)
      ensures Decode(a + b) == Decode(a) + Decode(b)
      decreases |b|
    {
      if b != [] {
        var b' := b[..|b| - 1];
        assert (a + b)[..|a + b| - 1] == a + b';
        DecodeAppend(a, b');
      } else {
        assert a + b == a;
      }
    }

    /** decode(encode(s)) is s without its out-of-vocabulary characters. */
    lemma {:induction false} DecodeEncoding(s: string)
      requires Valid()
      ensures Decode(Encoding(s)) == Known(s)
      decreases |s|
    {
      if s != [] {
        var front, last := s[..|s| - 1], s[|s| - 1];
        DecodeEncoding(front);
        if last in charToIdx {
          IndexOf(last);
          DecodeAppend(Encoding(front), [charToIdx[last]]);
          assert [charToIdx[last]][..0] == [];
        } else {
          assert Encoding(s) == Encoding(front);
        }
      }
    }

    /** A text made of vocabulary characters, such as the one the tokenizer
        was built from, loses nothing: every character is encoded and
        decoding gives the text back. */
    lemma {:induction false} EncodingOfVocabulary(s: string)
      requires Valid()
      requires forall x :: x in s ==> x in idxToChar
      ensures |Encoding(s)| == |s| && Known(s) == s
      ensures Decode(Encoding(s)) == s
      decreases |s|
    {
      if s != [] {
        EncodingOfVocabulary(s[..|s| - 1]);
        assert s[..|s| - 1] + [s[|s| - 1]] == s;
      }
      DecodeEncoding(s);
    }

    /** `encodeDoc(text)`: the encoding between two BOS tokens. */
    method EncodeDoc(text: string) returns (doc: seq<nat>)
      ensures doc == [bosToken] + Encoding(text) + [bosToken]
      ensures |doc| >= 2 && doc[0] == bosToken && doc[|doc| - 1] == bosToken
    {
      var tokens := Encode(text);
      doc := [bosToken] + tokens + [bosToken];
    }

    /** The BOS tokens of a document decode to nothing, so a document
        decodes to the known characters of its text. */
    lemma DecodeDocument(s: string)
      requires Valid()
      ensures Decode([bosToken] + Encoding(s) + [bosToken]) == Known(s)
    {
      DecodeAppend([bosToken], Encoding(s));
      DecodeAppend([bosToken] + Encoding(s), [bosToken]);
      assert [bosToken][..0] == [];
      DecodeEncoding(s);
    }
  }
}
