/**
 * The inference visualizer's tokenizer, built from the `chars` list of an
 * exported model config (entries are strings; the BOS entry is ''). Lookups
 * in the source's plain objects are modelled as maps: a missing key reads
 * `undefined`.
 */
module VisualizerTokenizer {

  class Tokenizer {
    const chars: seq<string>
    /** `stoi`: an entry's last index in chars */
    const stoi: map<string, nat>
    /** `itos`: index to entry */
    const itos: map<nat, string>

    /** stoi sends every entry to the last index holding it; itos is chars
        read as a map. */
    ghost predicate Valid()
    {
      && (forall k :: k in stoi <==> k in chars)
      && (forall k :: k in stoi ==> LastIndexOf(chars, k, stoi[k], |chars|))
      && (forall i: nat :: i in itos <==> i < |chars|)
      && (forall i :: 0 <= i < |chars| ==> itos[i] == chars[i])
    }

    /** `new Tokenizer(chars)`: the forEach filling stoi and itos. */
    constructor (chars: seq<string>)
      ensures this.chars == chars && Valid()
    {
      var s: map<string, nat> := map[];
      var t: map<nat, string> := map[];
      for i := 0 to |chars|
        invariant forall k :: k in s <==> k in chars[..i]
        invariant forall k :: k in s ==> LastIndexOf(chars, k, s[k], i)
        invariant forall j: nat :: j in t <==> j < i
        invariant forall j :: 0 <= j < i ==> t[j] == chars[j]
      {
        assert chars[..i + 1] == chars[..i] + [chars[i]];
        s := s[chars[i] := i];
        t := t[i := chars[i]];
      }
      assert chars[..|chars|] == chars;
      this.chars := chars;
      stoi := s;
      itos := t;
    }

    /** `text.split('')`: one string per character (a UTF-16 code unit
        in JavaScript). `stoi[c] || 0`: the index of the character, 0 when
        it has none. */
    function IdOf(c: char): nat
    {
      if [c] in stoi then stoi[[c]] else 0
    }

    /** `encode(text)`: one id per character, unknown characters as 0. */
    function Encode(text: string): (ids: seq<nat>)
      ensures |ids| == |text|
      ensures forall i :: 0 <= i < |text| ==> ids[i] == IdOf(text[i])
    {
      seq(|text|, i requires 0 <= i < |text| => IdOf(text[i]))
    }

    /** Every id encode gives is an index of chars, whenever chars is not
        empty. */
    lemma EncodeInRange(text: string)
      requires Valid() && |chars| > 0
      ensures forall id :: id in Encode(text) ==> id < |chars|
    {
      forall id | id in Encode(text) ensures id < |chars| {
        var i :| 0 <= i < |text| && Encode(text)[i] == id;
        if [text[i]] in stoi {
          assert LastIndexOf(chars, [text[i]], stoi[[text[i]]], |chars|);
        }
      }
    }

    /** A known character is encoded to an index that holds it. */
    lemma IdOfKnown(c: char)
      requires Valid() && [c] in chars
      ensures IdOf(c) < |chars| && chars[IdOf(c)] == [c]
    {
      assert LastIndexOf(chars, [c], stoi[[c]], |chars|);
    }

    /** `itos[i] || ''`: the entry at i, '' when there is none. */
    function EntryOf(id: int): string
    {
      if id >= 0 && id in itos then itos[id] else ""
    }

    /** `decode(ids)`: the entries of the ids, joined. */
    function Decode(ids: seq<int>): string
      decreases |ids|
    {
      if ids == [] then "" else Decode(ids[..|ids| - 1]) + EntryOf(ids[|ids| - 1])
    }

    /** Ids outside chars decode to nothing. */
    lemma EntryOutside(id: int)
      requires Valid() && (id < 0 || id >= |chars|)
      ensures EntryOf(id) == ""
    {
    }

    /** decode(encode(s)) == s for a text whose every character is itself
        an entry of chars (duplicates included: stoi keeps the last one,
        which holds the same character). */
    lemma {:induction false} DecodeEncode(s: string)
      requires Valid()
      requires forall i :: 0 <= i < |s| ==> [s[i]] in chars
      ensures Decode(Encode(s)) == s
      decreases |s|
    {
      if s != [] {
        var front := s[..|s| - 1];
        var c := s[|s| - 1];
        DecodeEncode(front);
        IdOfKnown(c);
        assert Encode(s)[..|s| - 1] == Encode(front);
        assert EntryOf(IdOf(c)) == [c];
        assert front + [c] == s;
      }
    }
  }

  /** i (below n) holds k, and no later index below n does. */
  ghost predicate LastIndexOf(chars: seq<string>, k: string, i: nat, n: nat)
  {
    i < n <= |chars| && chars[i] == k && forall j :: i < j < n ==> chars[j] != k
  }
}
