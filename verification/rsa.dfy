/**
 * The session-cipher seeding of package `server` (`SeedISAAC` in
 * pkg/server/rsa.go): the words the four-word client seed is expanded to
 * before it seeds the two ISAAC streams. The ISAAC generator itself is not
 * part of this model; a stream is represented by the words it is seeded with.
 */
module Isaac {
  /** Number of words an ISAAC stream is seeded with, and the offset added for the encoding stream. */
  const SeedWords: int := 256
  const EncoderOffset: bv32 := 50

  /** The seeds of the two streams `SeedISAAC` returns. */
  datatype IsaacSeed = IsaacSeed(encoder: seq<bv32>, decoder: seq<bv32>)

  /** The four words each pass of the expansion loop appends: words 2 and 3, then words 0 and 1. */
  function Block(seed: seq<bv32>): (b: seq<bv32>)
    requires |seed| >= 4
    ensures |b| == 4 && b[..2] == seed[2..4] && b[2..] == seed[..2]
  {
    [seed[2], seed[3], seed[0], seed[1]]
  }

  /** `seed` after `blocks` passes of the expansion loop. */
  function Expansion(seed: seq<bv32>, blocks: nat): seq<bv32>
    requires |seed| >= 4
  {
    if blocks == 0 then seed else Expansion(seed, blocks - 1) + Block(seed)
  }

  /** The expansion keeps the seed in front and is followed by `blocks` copies of `Block(seed)`. */
  lemma {:induction false} ExpansionLayout(seed: seq<bv32>, blocks: nat)
    requires |seed| >= 4
    ensures |Expansion(seed, blocks)| == |seed| + 4 * blocks
    ensures Expansion(seed, blocks)[..|seed|] == seed
    ensures forall p :: |seed| <= p < |seed| + 4 * blocks ==> Expansion(seed, blocks)[p] == Block(seed)[(p - |seed|) % 4]
  {
    if blocks > 0 {
      ExpansionLayout(seed, blocks - 1);
      var e := Expansion(seed, blocks - 1);
      assert Expansion(seed, blocks) == e + Block(seed);
      assert Expansion(seed, blocks)[..|seed|] == e[..|seed|];
      forall p | |e| <= p < |e| + 4
        ensures Expansion(seed, blocks)[p] == Block(seed)[(p - |seed|) % 4]
      {
        BlockOffset(blocks - 1, p - |e|);
      }
    }
  }

  /** Position `t` of block `q` lies `t` words into a block. */
  lemma BlockOffset(q: nat, t: int)
    requires 0 <= t < 4
    ensures (4 * q + t) % 4 == t
  {
  }

  /**
   * For the four-word seed the client sends, the 63 passes give 256 words:
   * the seed, then for every later block k, words 2, 3, 0 and 1 of the seed.
   */
  lemma ExpandedWords(seed: seq<bv32>)
    requires |seed| == 4
    ensures |Expansion(seed, 63)| == SeedWords
    ensures Expansion(seed, 63)[..4] == seed
    ensures forall k :: 1 <= k < 64 ==>
      && Expansion(seed, 63)[4 * k] == seed[2] && Expansion(seed, 63)[4 * k + 1] == seed[3]
      && Expansion(seed, 63)[4 * k + 2] == seed[0] && Expansion(seed, 63)[4 * k + 3] == seed[1]
  {
    ExpansionLayout(seed, 63);
    var e := Expansion(seed, 63);
    forall k | 1 <= k < 64
      ensures e[4 * k] == seed[2] && e[4 * k + 1] == seed[3] && e[4 * k + 2] == seed[0] && e[4 * k + 3] == seed[1]
    {
      BlockOffset(k - 1, 0);
      BlockOffset(k - 1, 1);
      BlockOffset(k - 1, 2);
      BlockOffset(k - 1, 3);
    }
  }

  /**
   * The append loop of `SeedISAAC`: `i` runs over 4, 8, ..., 252, so the test
   * `i % 2 == 0` always holds and the other branch is never taken.
   */
  method ExpandSeed(seed: seq<bv32>) returns (words: seq<bv32>)
    requires |seed| >= 4
    ensures words == Expansion(seed, 63) && |words| == |seed| + 252
  {
    words := seed;
    var i := 4;
    ghost var blocks := 0;
    while i < 256
      invariant i == 4 + 4 * blocks && i <= 256
      invariant words == Expansion(seed, blocks)
    {
      ExpansionLayout(seed, blocks);
      if i % 2 == 0 {
        words := words + words[2..4];
        words := words + words[..2];
      } else {
        assert false;
      }
      i, blocks := i + 4, blocks + 1;
    }
    ExpansionLayout(seed, blocks);
  }

  /** The loop adding 50 to each of the first 256 words, in place. */
  method AddOffset(words: seq<bv32>) returns (shifted: seq<bv32>)
    requires |words| >= SeedWords
    ensures shifted == Shifted(words)
  {
    shifted := words;
    for j := 0 to 256
      invariant |shifted| == |words|
      invariant forall k :: 0 <= k < |shifted| ==> shifted[k] == if k < j then words[k] + EncoderOffset else words[k]
    {
      shifted := shifted[j := shifted[j] + EncoderOffset];
    }
  }

  /** The encoding stream's seed: the first 256 words each raised by 50, wrapping at 2^32. */
  function Shifted(words: seq<bv32>): (r: seq<bv32>)
    ensures |r| == |words|
    ensures forall i :: 0 <= i < |r| ==> r[i] == if i < SeedWords then words[i] + EncoderOffset else words[i]
  {
    seq(|words|, i requires 0 <= i < |words| => if i < SeedWords then words[i] + EncoderOffset else words[i])
  }

  /** Lowering the first 256 words by 50 recovers the decoding stream's seed from the encoding stream's. */
  function Unshifted(words: seq<bv32>): (r: seq<bv32>)
    ensures |r| == |words|
    ensures forall i :: 0 <= i < |r| ==> r[i] == if i < SeedWords then words[i] - EncoderOffset else words[i]
  {
    seq(|words|, i requires 0 <= i < |words| => if i < SeedWords then words[i] - EncoderOffset else words[i])
  }

  /** The two stream seeds determine each other: the offset is undone exactly, even across the wrap. */
  lemma ShiftRoundTrip(words: seq<bv32>)
    ensures Unshifted(Shifted(words)) == words
    ensures Shifted(Unshifted(words)) == words
  {
    var up, down := Shifted(words), Unshifted(words);
    assert forall i :: 0 <= i < |words| ==> Unshifted(up)[i] == words[i];
    assert forall i :: 0 <= i < |words| ==> Shifted(down)[i] == words[i];
  }

  /** The two streams never share a seed: every seeded word differs by the offset. */
  lemma StreamsDiffer(words: seq<bv32>)
    requires |words| >= SeedWords
    ensures forall i :: 0 <= i < SeedWords ==> Shifted(words)[i] != words[i]
  {
  }
}
