/**
 * The bucket-hashing part of `generateEmbedding` (server/server.js, backend/server.js):
 * the lower-cased text is split on whitespace runs, and character `j` of word `i` adds
 * `1 / (i + 1)` to slot `(code * (i + 1) * (j + 1)) % 384` of a 384-slot vector. The
 * final scaling to unit length is not part of this model.
 */
module Embedder {
  import opened Strings

  const Dimension := 384

  type Vector = v: seq<real> | |v| == Dimension witness seq(Dimension, _ => 0.0)

  function Zeros(): (v: Vector)
    ensures forall b :: 0 <= b < Dimension ==> v[b] == 0.0
  {
    seq(Dimension, _ => 0.0)
  }

  /** The slot that character `c`, at position `j` of word `i`, increments. */
  function Bucket(c: char, i: nat, j: nat): (b: nat)
    ensures b < Dimension
  {
    ((c as int) * (i + 1) * (j + 1)) % Dimension
  }

  /** What every character of word `i` adds to its slot. */
  function Share(i: nat): (w: real)
    ensures w > 0.0
  {
    1.0 / ((i + 1) as real)
  }

  /** `text.toLowerCase().split(/\s+/)`. */
  function Words(text: string): (words: seq<string>)
    ensures |words| >= 1
  {
    Split(ToLower(text))
  }

  function Bump(v: Vector, b: nat, w: real): (r: Vector)
    requires b < Dimension
    ensures r[b] == v[b] + w
    ensures forall c :: 0 <= c < Dimension && c != b ==> r[c] == v[c]
  {
    v[b := v[b] + w]
  }

  /** The vector after all of words `0 .. n-1`. */
  function AfterWords(words: seq<string>, n: nat): Vector
    requires n <= |words|
    decreases n, 0
  {
    if n == 0 then Zeros() else AfterChars(words, n - 1, |words[n - 1]|)
  }

  /** The vector after words `0 .. i-1` and the first `m` characters of word `i`. */
  function AfterChars(words: seq<string>, i: nat, m: nat): Vector
    requires i < |words| && m <= |words[i]|
    decreases i, 1, m
  {
    if m == 0 then AfterWords(words, i)
    else Bump(AfterChars(words, i, m - 1), Bucket(words[i][m - 1], i, m - 1), Share(i))
  }

  /** The vector `generateEmbedding(text)` scales to unit length. */
  function Accumulator(text: string): Vector {
    var words := Words(text);
    AfterWords(words, |words|)
  }

  /** The nested loops of `generateEmbedding`, on a 384-slot array. */
  method BucketEmbedding(text: string) returns (v: seq<real>)
    ensures |v| == Dimension
    ensures v == Accumulator(text)
  {
    var words := Words(text);
    var embedding := new real[Dimension](_ => 0.0);
    var i := 0;
    while i < |words|
      invariant 0 <= i <= |words|
      invariant embedding[..] == AfterWords(words, i)
    {
      AddWord(embedding, words, i);
      i := i + 1;
    }
    v := embedding[..];
  }

  /** One turn of the outer loop: every character of word `i` bumps its slot. */
  method AddWord(embedding: array<real>, words: seq<string>, i: nat)
    requires i < |words| && embedding[..] == AfterWords(words, i)
    modifies embedding
    ensures embedding[..] == AfterWords(words, i + 1)
  {
    var word := words[i];
    var j := 0;
    while j < |word|
      invariant 0 <= j <= |word|
      invariant embedding[..] == AfterChars(words, i, j)
    {
      var index := Bucket(word[j], i, j);
      embedding[index] := embedding[index] + Share(i);
      j := j + 1;
    }
  }

  /** How many of the first `m` characters of `word`, as word `i`, land in slot `b`. */
  function Hits(word: string, i: nat, m: nat, b: nat): (h: nat)
    requires m <= |word|
    ensures h <= m
  {
    if m == 0 then 0
    else Hits(word, i, m - 1, b) + (if Bucket(word[m - 1], i, m - 1) == b then 1 else 0)
  }

  /** `h` copies of `w` added together. */
  function Scaled(h: nat, w: real): real {
    if h == 0 then 0.0 else Scaled(h - 1, w) + w
  }

  lemma {:induction false} ScaledIs(h: nat, w: real)
    ensures Scaled(h, w) == (h as real) * w
  {
    if h > 0 {
      ScaledIs(h - 1, w);
      assert (h as real) * w == ((h - 1) as real) * w + w;
    }
  }

  /** Independent of the loop order: slot `b` sums, over words `0 .. n-1`, hits times share (`Scaled(h, w) == h * w` by `ScaledIs`). */
  function Weight(words: seq<string>, n: nat, b: nat): real
    requires n <= |words|
  {
    if n == 0 then 0.0
    else Weight(words, n - 1, b) + Scaled(Hits(words[n - 1], n - 1, |words[n - 1]|, b), Share(n - 1))
  }

  lemma {:induction false} AfterCharsSlot(words: seq<string>, i: nat, m: nat, b: nat)
    requires i < |words| && m <= |words[i]| && b < Dimension
    ensures AfterChars(words, i, m)[b] == AfterWords(words, i)[b] + Scaled(Hits(words[i], i, m, b), Share(i))
    decreases m
  {
    if m > 0 {
      AfterCharsSlot(words, i, m - 1, b);
    }
  }

  /** Each slot of the accumulated vector is the closed-form weighted hit count. */
  lemma {:induction false} AfterWordsSlot(words: seq<string>, n: nat, b: nat)
    requires n <= |words| && b < Dimension
    ensures AfterWords(words, n)[b] == Weight(words, n, b)
    decreases n
  {
    if n > 0 {
      AfterWordsSlot(words, n - 1, b);
      AfterCharsSlot(words, n - 1, |words[n - 1]|, b);
    }
  }

  /** Slot `b` of the accumulator, in closed form. */
  lemma AccumulatorSlot(text: string, b: nat)
    requires b < Dimension
    ensures Accumulator(text)[b] == Weight(Words(text), |Words(text)|, b)
  {
    AfterWordsSlot(Words(text), |Words(text)|, b);
  }

  /** Words with no characters add nothing. */
  lemma {:induction false} EmptyWordsAddNothing(words: seq<string>, n: nat)
    requires n <= |words|
    requires forall k :: 0 <= k < |words| ==> words[k] == ""
    ensures AfterWords(words, n) == Zeros()
    decreases n
  {
    if n > 0 {
      EmptyWordsAddNothing(words, n - 1);
    }
  }

  /** Empty or all-whitespace text gives the zero vector. */
  lemma BlankTextIsZero(text: string)
    requires AllSpace(text)
    ensures Accumulator(text) == Zeros()
  {
    ToLowerKeepsSpace(text);
    SplitAllSpace(ToLower(text));
    EmptyWordsAddNothing(Words(text), |Words(text)|);
  }

  /** Leading whitespace produces an empty word 0, so the first real word is weighted 1/2. */
  lemma LeadingSpaceEmptyFirstWord(text: string)
    requires text != [] && IsSpace(text[0])
    ensures Words(text)[0] == ""
  {
    ToLowerKeepsSpace(text[..1]);
    assert ToLower(text)[..1] == ToLower(text[..1]);
    SplitLeadingSpace(ToLower(text));
  }
}
