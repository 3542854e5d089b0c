/** The generator record `tinymt32_t` of TinyMT32: four status words in an array,
    updated in place, and the three parameters mat1, mat2 and tmat, which no
    routine writes. Every routine is proved against the value-level definitions of
    module `Tinymt32`. */
module TinymtGenerator {
  import opened Tinymt32

  /** The seeding loop, rounds 1 .. MIN_LOOP - 1 over the four words: round i xors
      i + 1812433253 * (p ^ (p >> 30)) into word `i & 3`, where p is word
      `(i - 1) & 3`. */
  method MixWords(loaded: Words) returns (w: Words)
    ensures w == Mixed(loaded, MIN_LOOP - 1)
  {
    w := loaded;
    var i := 1;
    while i < MIN_LOOP
      invariant 1 <= i <= MIN_LOOP
      invariant w == Mixed(loaded, i - 1)
    {
      var v := w[i % 4] ^ MixTerm(i as bv32, w[(i - 1) % 4]);
      MixRoundUpdate(w, i, v, w[i % 4 := v]);
      w := w[i % 4 := v];
      i := i + 1;
    }
  }

  class Generator {
    var status: array<bv32>
    var mat1: bv32
    var mat2: bv32
    var tmat: bv32

    ghost predicate Valid()
      reads this
    {
      status.Length == 4
    }

    /** The status words as a value. */
    ghost function State(): Status
      reads this, status
      requires Valid()
    {
      Status(status[0], status[1], status[2], status[3])
    }

    /** A record with every word zero, as `memset` leaves it. */
    constructor Zeroed()
      ensures Valid() && fresh(status)
      ensures State() == Status(0, 0, 0, 0)
      ensures mat1 == 0 && mat2 == 0 && tmat == 0
    {
      status := new bv32[4] [0, 0, 0, 0];
      mat1, mat2, tmat := 0, 0, 0;
    }

    /** Replaces a degenerate state by 'T', 'I', 'N', 'Y' and leaves any other alone. */
    method PeriodCertification()
      requires Valid()
      modifies status
      ensures Valid() && unchanged(this)
      ensures State() == Certified(old(State()))
    {
      if status[0] & MASK == 0 && status[1] == 0 && status[2] == 0 && status[3] == 0 {
        status[0] := 84;  // 'T'
        status[1] := 73;  // 'I'
        status[2] := 78;  // 'N'
        status[3] := 89;  // 'Y'
      }
    }

    /** One transition of the state. */
    method NextState()
      requires Valid()
      modifies status
      ensures Valid() && unchanged(this)
      ensures State() == Successor(old(State()), mat1, mat2)
    {
      var s0, s1, s2, s3 := status[0], status[1], status[2], status[3];
      var x := MixWord(s0, s1, s2);
      var y := FeedbackWord(s3, x);
      status[0] := s1;
      status[1] := Flip(s2, y, mat1);
      status[2] := Flip(Spread(x, y), y, mat2);
      status[3] := y;
    }

    /** The tempered output of the current state; changes nothing. */
    method Temper() returns (r: bv32)
      requires Valid()
      ensures r == Tempered(State(), tmat)
    {
      var s0, s1, s2, s3 := status[0], status[1], status[2], status[3];
      r := Tempered(Status(s0, s1, s2, s3), tmat);
    }

    /** A transition, then the tempered output of the new state. */
    method GenerateUint32() returns (r: bv32)
      requires Valid()
      modifies status
      ensures Valid() && unchanged(this)
      ensures State() == Successor(old(State()), mat1, mat2)
      ensures r == Draw(old(State()), mat1, mat2, tmat)
      ensures !Degenerate(old(State())) ==> !Degenerate(State())
    {
      NextState();
      r := Temper();
      SuccessorDegenerate(old(State()), mat1, mat2);
    }

    /** n transitions in a row. */
    method NextStates(n: nat)
      requires Valid()
      modifies status
      ensures Valid() && unchanged(this)
      ensures State() == Steps(old(State()), mat1, mat2, n)
    {
      ghost var start := State();
      var k := 0;
      while k < n
        invariant 0 <= k <= n
        invariant State() == Steps(start, mat1, mat2, k)
      {
        NextState();
        k := k + 1;
      }
    }

    /** Seeds the generator from `seed` and the parameters: load, mix, certify and
        run PRE_LOOP transitions. The words the record held before play no part in
        the result, and the result is never degenerate. */
    method Init(seed: bv32)
      requires Valid()
      modifies status
      ensures Valid() && unchanged(this)
      ensures State() == InitStatus(seed, mat1, mat2, tmat)
      ensures !Degenerate(State())
    {
      status[0] := seed;
      status[1] := mat1;
      status[2] := mat2;
      status[3] := tmat;
      var loaded: Words := status[..];
      LoadedWords(loaded, seed, mat1, mat2, tmat);
      var mixed := MixWords(loaded);
      status[0], status[1], status[2], status[3] := mixed[0], mixed[1], mixed[2], mixed[3];
      assert State() == StatusOf(mixed);
      PeriodCertification();
      ghost var certified := State();
      NextStates(PRE_LOOP);
      InitStages(seed, mat1, mat2, tmat, loaded, mixed, certified, State());
      InitNonDegenerate(seed, mat1, mat2, tmat);
    }
  }
}
