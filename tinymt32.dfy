/** The Tiny Mersenne Twister (TinyMT32) of Saito and Matsumoto: a pseudo-random
    generator whose internal state is four 32-bit status words (127 significant bits)
    plus three fixed parameters mat1, mat2 and tmat.

    All arithmetic of the generator is on unsigned 32-bit words, which `bv32`
    models exactly: `+` and `*` wrap modulo 2^32, shifts drop the bits pushed out.

    This module defines every operation on values: the transition and tempering on
    a `Status`, the seeding rounds on the four words as a sequence (the seeding loop
    indexes the array by a computed position). The class in module
    `TinymtGenerator` updates an array in place and is proved against these
    definitions. */
module Tinymt32 {

  // The shift amounts TINYMT32_SH0 = 1, TINYMT32_SH1 = 10 and TINYMT32_SH8 = 8, the
  // seeding loop's shift 30 and its multiplier 1812433253 are written as literals in
  // the word functions below: the verifier reasons far better about a shift or a
  // product by a literal than by a named constant.

  /** Only the low 31 bits of status word 0 take part in a transition. */
  const MASK: bv32 := 0x7fff_ffff
  /** The seeding loop runs its mixing rounds for i = 1 .. MIN_LOOP - 1. */
  const MIN_LOOP: nat := 8
  /** Number of state transitions run at the end of seeding. */
  const PRE_LOOP: nat := 8

  /** The four status words of a generator. */
  datatype Status = Status(s0: bv32, s1: bv32, s2: bv32, s3: bv32)

  /** The same four words in array order, as the seeding loop addresses them. */
  type Words = w: seq<bv32> | |w| == 4 witness [0, 0, 0, 0]

  function StatusOf(w: Words): (s: Status)
    ensures s.s0 == w[0] && s.s1 == w[1] && s.s2 == w[2] && s.s3 == w[3]
  {
    Status(w[0], w[1], w[2], w[3])
  }

  /** A state that is zero in its 127 significant bits; the transition keeps it zero forever. */
  predicate Degenerate(s: Status)
  {
    s.s0 & MASK == 0 && s.s1 == 0 && s.s2 == 0 && s.s3 == 0
  }

  /** The state period certification puts in place of a degenerate one: the
      characters 'T', 'I', 'N', 'Y'. */
  const TINY: Status := Status(84, 73, 78, 89)

  /** Period certification: a degenerate state is replaced by TINY, any other
      state is kept. */
  function Certified(s: Status): (r: Status)
    ensures !Degenerate(r)
    ensures Degenerate(s) ==> r == TINY
    ensures !Degenerate(s) ==> r == s
  {
    if Degenerate(s) then TINY else s
  }

  // ---------------------------------------------------------------------------
  // Word-level pieces of the transition, of tempering and of seeding.

  /** The C expression `-((int)(b & 1))` converted back to an unsigned word:
      all ones when b is odd, zero otherwise. */
  function LowBitMask(b: bv32): (r: bv32)
    ensures r == if b & 1 == 1 then 0xffff_ffff else 0
  {
    -(b & 1)
  }

  /** `w ^ (-((int)(b & 1)) & mat)`: w, with mat xored in when b is odd. */
  function Flip(w: bv32, b: bv32, mat: bv32): bv32
  {
    w ^ (LowBitMask(b) & mat)
  }

  lemma FlipOdd(w: bv32, b: bv32, mat: bv32)
    requires b & 1 == 1
    ensures Flip(w, b, mat) == w ^ mat
  {
  }

  lemma FlipEven(w: bv32, b: bv32, mat: bv32)
    requires b & 1 == 0
    ensures Flip(w, b, mat) == w
  {
  }

  /** Flip xors mat into w exactly when b is odd. */
  lemma FlipSelects(w: bv32, b: bv32, mat: bv32)
    ensures Flip(w, b, mat) == (if b & 1 == 1 then w ^ mat else w)
  {
    if b & 1 == 1 {
      FlipOdd(w, b, mat);
    } else {
      FlipEven(w, b, mat);
    }
  }

  /** The intermediate word x of a transition. */
  function MixWord(s0: bv32, s1: bv32, s2: bv32): bv32
  {
    var m := (s0 & MASK) ^ s1 ^ s2;
    m ^ (m << 1)
  }

  /** The intermediate word y of a transition, which becomes the new word 3. */
  function FeedbackWord(s3: bv32, x: bv32): bv32
  {
    s3 ^ (s3 >> 1) ^ x
  }

  /** The new word 2 before mat2 is applied. */
  function Spread(x: bv32, y: bv32): bv32
  {
    x ^ (y << 10)
  }

  /** The tempering word t1 = word 0 + (word 2 >> 8), modulo 2^32. */
  function TemperSum(s0: bv32, s2: bv32): bv32
  {
    s0 + (s2 >> 8)
  }

  /** The term seeding round i xors into its target word, where p is the word
      before the target. */
  function MixTerm(i: bv32, p: bv32): bv32
  {
    i + 1812433253 * (p ^ (p >> 30))
  }

  // ---------------------------------------------------------------------------
  // The operations on values.

  /** The linear state transition of the generator: the register shifts down by one
      word, word 3 becomes y = s3 ^ (s3 >> 1) ^ x with x = m ^ (m << 1) and
      m = (s0 & MASK) ^ s1 ^ s2, word 2 becomes x ^ (y << 10), and mat1 and mat2
      are xored into words 1 and 2 exactly when y is odd. */
  function Successor(s: Status, mat1: bv32, mat2: bv32): (r: Status)
    ensures r.s0 == s.s1
    ensures r.s3 == FeedbackWord(s.s3, MixWord(s.s0, s.s1, s.s2))
    ensures
      var x := MixWord(s.s0, s.s1, s.s2);
      var y := FeedbackWord(s.s3, x);
      && r.s1 == (if y & 1 == 1 then s.s2 ^ mat1 else s.s2)
      && r.s2 == (if y & 1 == 1 then Spread(x, y) ^ mat2 else Spread(x, y))
  {
    var x := MixWord(s.s0, s.s1, s.s2);
    var y := FeedbackWord(s.s3, x);
    FlipSelects(s.s2, y, mat1);
    FlipSelects(Spread(x, y), y, mat2);
    Status(s.s1, Flip(s.s2, y, mat1), Flip(Spread(x, y), y, mat2), y)
  }

  /** The tempering output function (the default, additive variant): word 3 xored
      with t1 = word 0 + (word 2 >> 8), taken modulo 2^32, and with tmat exactly
      when t1 is odd. */
  function Tempered(s: Status, tmat: bv32): (r: bv32)
    ensures
      var t1 := TemperSum(s.s0, s.s2);
      r == if t1 & 1 == 1 then s.s3 ^ t1 ^ tmat else s.s3 ^ t1
  {
    var t1 := TemperSum(s.s0, s.s2);
    FlipSelects(s.s3 ^ t1, t1, tmat);
    Flip(s.s3 ^ t1, t1, tmat)
  }

  /** The state after n transitions. */
  function Steps(s: Status, mat1: bv32, mat2: bv32, n: nat): Status
    decreases n
  {
    if n == 0 then s else Successor(Steps(s, mat1, mat2, n - 1), mat1, mat2)
  }

  /** One 32-bit output: a transition, then tempering of the new state. */
  function Draw(s: Status, mat1: bv32, mat2: bv32, tmat: bv32): bv32
  {
    Tempered(Successor(s, mat1, mat2), tmat)
  }

  /** The k-th output (from 1) of a generator started in state s. */
  function Output(s: Status, mat1: bv32, mat2: bv32, tmat: bv32, k: nat): bv32
    requires k >= 1
  {
    Tempered(Steps(s, mat1, mat2, k), tmat)
  }

  /** Transitions compose: n transitions followed by m more are n + m transitions. */
  lemma {:induction false} StepsAdd(s: Status, mat1: bv32, mat2: bv32, n: nat, m: nat)
    ensures Steps(Steps(s, mat1, mat2, n), mat1, mat2, m) == Steps(s, mat1, mat2, n + m)
    decreases m
  {
    if m > 0 {
      StepsAdd(s, mat1, mat2, n, m - 1);
    }
  }

  /** Drawing one output from state s leaves the state Successor(s), and the outputs
      drawn from there are the later outputs of s: drawing is a stream. */
  lemma OutputShift(s: Status, mat1: bv32, mat2: bv32, tmat: bv32, k: nat)
    requires k >= 1
    ensures Output(s, mat1, mat2, tmat, 1) == Draw(s, mat1, mat2, tmat)
    ensures Output(Successor(s, mat1, mat2), mat1, mat2, tmat, k) == Output(s, mat1, mat2, tmat, k + 1)
  {
    StepsAdd(s, mat1, mat2, 1, k);
  }

  // ---------------------------------------------------------------------------
  // Seeding.

  /** The words seeding starts from: the seed and the three parameters. */
  function Loaded(seed: bv32, mat1: bv32, mat2: bv32, tmat: bv32): Words
  {
    [seed, mat1, mat2, tmat]
  }

  /** Seeding round i xors MixTerm(i, word (i - 1) & 3) into word i & 3; for the
      non-negative loop counter `i & 3` is `i % 4`. The other three words are
      untouched. */
  function MixRound(w: Words, i: nat): (r: Words)
    requires 1 <= i < MIN_LOOP
    ensures forall k :: 0 <= k < 4 && k != i % 4 ==> r[k] == w[k]
  {
    w[i % 4 := w[i % 4] ^ MixTerm(i as bv32, w[(i - 1) % 4])]
  }

  /** The link between words updated one at a time and MixRound: a sequence equal
      to w but for word i % 4, which holds the round's new value v, is MixRound(w, i). */
  lemma MixRoundUpdate(w: Words, i: nat, v: bv32, t: seq<bv32>)
    requires 1 <= i < MIN_LOOP
    requires v == w[i % 4] ^ MixTerm(i as bv32, w[(i - 1) % 4])
    requires t == w[i % 4 := v]
    ensures t == MixRound(w, i)
  {
  }

  /** Four words read back one by one are the loaded words. */
  lemma LoadedWords(t: seq<bv32>, seed: bv32, mat1: bv32, mat2: bv32, tmat: bv32)
    requires |t| == 4 && t[0] == seed && t[1] == mat1 && t[2] == mat2 && t[3] == tmat
    ensures t == Loaded(seed, mat1, mat2, tmat)
  {
  }

  /** The words after seeding rounds 1 .. n. */
  function Mixed(w: Words, n: nat): Words
    requires n < MIN_LOOP
    decreases n
  {
    if n == 0 then w else MixRound(Mixed(w, n - 1), n)
  }

  /** The state seeding leaves: load, mix, certify, then PRE_LOOP transitions. */
  function InitStatus(seed: bv32, mat1: bv32, mat2: bv32, tmat: bv32): Status
  {
    Steps(Certified(StatusOf(Mixed(Loaded(seed, mat1, mat2, tmat), MIN_LOOP - 1))), mat1, mat2, PRE_LOOP)
  }

  /** Seeding as four stages: whatever passes through load, mixing, certification
      and PRE_LOOP transitions in turn ends in InitStatus. */
  lemma InitStages(seed: bv32, mat1: bv32, mat2: bv32, tmat: bv32,
                   loaded: Words, mixed: Words, certified: Status, final: Status)
    requires loaded == Loaded(seed, mat1, mat2, tmat)
    requires mixed == Mixed(loaded, MIN_LOOP - 1)
    requires certified == Certified(StatusOf(mixed))
    requires final == Steps(certified, mat1, mat2, PRE_LOOP)
    ensures final == InitStatus(seed, mat1, mat2, tmat)
  {
  }

  // ---------------------------------------------------------------------------
  // A state is degenerate exactly when its successor is.

  lemma MixWordOfZero(s0: bv32, s1: bv32, s2: bv32)
    requires s0 & MASK == 0 && s1 == 0 && s2 == 0
    ensures MixWord(s0, s1, s2) == 0
  {
  }

  lemma FeedbackWordOfZero(s3: bv32, x: bv32)
    requires s3 == 0 && x == 0
    ensures FeedbackWord(s3, x) == 0
  {
  }

  lemma SpreadOfZero(x: bv32, y: bv32)
    requires y == 0
    ensures Spread(x, y) == x
  {
  }

  /** m ^ (m << 1) is zero only for m zero: bit k of m equals bit k - 1, and bit 0 is zero. */
  lemma XorShl1Zero(m: bv32)
    requires m ^ (m << 1) == 0
    ensures m == 0
  {
  }

  lemma MixWordZero(s0: bv32, s1: bv32, s2: bv32)
    requires MixWord(s0, s1, s2) == 0
    ensures (s0 & MASK) ^ s1 ^ s2 == 0
  {
    XorShl1Zero((s0 & MASK) ^ s1 ^ s2);
  }

  /** s3 ^ (s3 >> 1) is zero only for s3 zero. */
  lemma FeedbackWordZero(s3: bv32, x: bv32)
    requires FeedbackWord(s3, x) == 0 && x == 0
    ensures s3 == 0
  {
  }

  /** A word equal to the low 31 bits of another, whose own low 31 bits are zero, is zero. */
  lemma MaskedEqualsHigh(a: bv32, b: bv32)
    requires (a & MASK) ^ b == 0 && b & MASK == 0
    ensures a & MASK == 0 && b == 0
  {
  }

  /** The transition maps degenerate states to degenerate states and no others. */
  lemma SuccessorDegenerate(s: Status, mat1: bv32, mat2: bv32)
    ensures Degenerate(Successor(s, mat1, mat2)) <==> Degenerate(s)
  {
    var x := MixWord(s.s0, s.s1, s.s2);
    var y := FeedbackWord(s.s3, x);
    var r := Successor(s, mat1, mat2);
    if Degenerate(s) {
      MixWordOfZero(s.s0, s.s1, s.s2);
      FeedbackWordOfZero(s.s3, x);
      SpreadOfZero(x, y);
    }
    if Degenerate(r) {
      SpreadOfZero(x, y);
      MixWordZero(s.s0, s.s1, s.s2);
      FeedbackWordZero(s.s3, x);
      MaskedEqualsHigh(s.s0, s.s1);
    }
  }

  /** No number of transitions leads a non-degenerate state into a degenerate one. */
  lemma {:induction false} StepsNonDegenerate(s: Status, mat1: bv32, mat2: bv32, n: nat)
    requires !Degenerate(s)
    ensures !Degenerate(Steps(s, mat1, mat2, n))
    decreases n
  {
    if n > 0 {
      StepsNonDegenerate(s, mat1, mat2, n - 1);
      SuccessorDegenerate(Steps(s, mat1, mat2, n - 1), mat1, mat2);
    }
  }

  /** Whatever the seed and parameters, seeding never leaves a degenerate state. */
  lemma InitNonDegenerate(seed: bv32, mat1: bv32, mat2: bv32, tmat: bv32)
    ensures !Degenerate(InitStatus(seed, mat1, mat2, tmat))
  {
    StepsNonDegenerate(Certified(StatusOf(Mixed(Loaded(seed, mat1, mat2, tmat), MIN_LOOP - 1))), mat1, mat2, PRE_LOOP);
  }
}
