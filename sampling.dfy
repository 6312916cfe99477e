/** Turning a buffer of 32-bit random words into characters of a charset:
    each word picks the character at (word mod charset length). */
module Sampling {

  /** One element of a `Uint32Array`. */
  newtype uint32 = x: int | 0 <= x < 0x1_0000_0000

  /** The charset index a random word selects. */
  function CharIndex(charset: string, word: uint32): (k: nat)
    requires |charset| > 0
    ensures k < |charset|
    ensures word as int < |charset| ==> k == word as int
  {
    word as int % |charset|
  }

  /** The string the mapping loop produces from `words`, one character per
      word, appended in buffer order. */
  function Render(charset: string, words: seq<uint32>): (result: string)
    requires |charset| > 0
    ensures |result| == |words|
  {
    if words == [] then ""
    else Render(charset, words[..|words| - 1]) + [charset[CharIndex(charset, words[|words| - 1])]]
  }

  /** Position `i` of the output is decided by word `i` alone. */
  lemma {:induction false} RenderAt(charset: string, words: seq<uint32>, i: nat)
    requires |charset| > 0 && i < |words|
    ensures Render(charset, words)[i] == charset[words[i] as int % |charset|]
  {
    if i < |words| - 1 {
      RenderAt(charset, words[..|words| - 1], i);
    }
  }

  /** Every output character is a member of the charset. */
  lemma {:induction false} RenderInCharset(charset: string, words: seq<uint32>)
    requires |charset| > 0
    ensures forall c | c in Render(charset, words) :: c in charset
  {
    var r := Render(charset, words);
    forall c | c in r ensures c in charset {
      var i :| 0 <= i < |r| && r[i] == c;
      RenderAt(charset, words, i);
    }
  }

  /** Rendering two buffers one after the other is rendering their
      concatenation: no position depends on any other word. */
  lemma {:induction false} RenderAppend(charset: string, front: seq<uint32>, back: seq<uint32>)
    requires |charset| > 0
    ensures Render(charset, front + back) == Render(charset, front) + Render(charset, back)
  {
    if back == [] {
      assert front + back == front;
    } else {
      var last := |back| - 1;
      assert (front + back)[..|front + back| - 1] == front + back[..last];
      RenderAppend(charset, front, back[..last]);
    }
  }

  /** The mapping loop: `result += charset[randomValues[i] % charsetLength]`
      for each word of the buffer. */
  method MapWords(charset: string, randomValues: array<uint32>) returns (result: string)
    requires |charset| > 0
    ensures result == Render(charset, randomValues[..])
  {
    result := "";
    var charsetLength := |charset|;
    for i := 0 to randomValues.Length
      invariant result == Render(charset, randomValues[..i])
    {
      assert randomValues[..i + 1][..i] == randomValues[..i];
      result := result + [charset[randomValues[i] as int % charsetLength]];
    }
    assert randomValues[..randomValues.Length] == randomValues[..];
  }
}
