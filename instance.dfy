/** The use of TinyMT32 in the decoder's main program: for every instance file a
    fresh record is zeroed, given the fixed parameters, seeded, and its first
    output cut down to one byte, the coefficient. */
module Instance {
  import opened Tinymt32
  import opened TinymtGenerator

  /** The parameters the program fixes for every generator. */
  const MAT1: bv32 := 0x8f70_11ee
  const MAT2: bv32 := 0xfc78_ff1f
  const TMAT: bv32 := 0x3793_fdff

  /** The seed the program uses in place of one read from the instance file. */
  const SKELETON_SEED: bv32 := 42

  /** The first output of a generator seeded with `seed` under the fixed parameters. */
  function FirstDraw(seed: bv32): bv32
  {
    Draw(InitStatus(seed, MAT1, MAT2, TMAT), MAT1, MAT2, TMAT)
  }

  /** The conversion of a 32-bit word to `uint8_t`: the value modulo 256. */
  function LowByte(d: bv32): (c: bv8)
    ensures c as bv32 == d % 256
  {
    (d & 0xff) as bv8
  }

  /** The coefficient drawn for an instance file seeded with `seed`. */
  function CoefficientOf(seed: bv32): (c: bv8)
    ensures c as bv32 == FirstDraw(seed) % 256
  {
    LowByte(FirstDraw(seed))
  }

  /** The state after seeding with 1, round by round and transition by transition. */
  lemma InitStatusOne()
    ensures InitStatus(1, MAT1, MAT2, TMAT) == Status(0x0cca24d8, 0x11ba5ad5, 0xf2dad045, 0xd95dd7b2)
  {
    var w := Loaded(1, MAT1, MAT2, TMAT);
    assert Mixed(w, 1) == [0x00000001, 0xe3779888, 0xfc78ff1f, 0x3793fdff];
    assert Mixed(w, 2) == [0x00000001, 0xe3779888, 0x72e66ec6, 0x3793fdff];
    assert Mixed(w, 3) == [0x00000001, 0xe3779888, 0x72e66ec6, 0x9630ce79];
    assert Mixed(w, 4) == [0xe91e498a, 0xe3779888, 0x72e66ec6, 0x9630ce79];
    assert Mixed(w, 5) == [0xe91e498a, 0x1e7bcc9a, 0x72e66ec6, 0x9630ce79];
    assert Mixed(w, 6) == [0xe91e498a, 0x1e7bcc9a, 0xa56a4c0e, 0x9630ce79];
    assert Mixed(w, 7) == [0xe91e498a, 0x1e7bcc9a, 0xa56a4c0e, 0xdfc6a2ba];
    var c := Certified(StatusOf(Mixed(w, MIN_LOOP - 1)));
    assert c == Status(0xe91e498a, 0x1e7bcc9a, 0xa56a4c0e, 0xdfc6a2ba);
    assert Steps(c, MAT1, MAT2, 1) == Status(0x1e7bcc9a, 0x2a1a5de0, 0x5ccbb03d, 0xc635a8c5);
    assert Steps(c, MAT1, MAT2, 2) == Status(0x2a1a5de0, 0x5ccbb03d, 0xfd83dbc9, 0x1cd11f6e);
    assert Steps(c, MAT1, MAT2, 3) == Status(0x5ccbb03d, 0x72f3ca27, 0x5ea53123, 0x8f4fcae5);
    assert Steps(c, MAT1, MAT2, 4) == Status(0x72f3ca27, 0x5ea53123, 0xae6cad4b, 0x594ff2dc);
    assert Steps(c, MAT1, MAT2, 5) == Status(0x5ea53123, 0x211cbca5, 0xe1f389ce, 0xf3a6f163);
    assert Steps(c, MAT1, MAT2, 6) == Status(0x211cbca5, 0xe1f389ce, 0x0cca24d8, 0x28ab850a);
    assert Steps(c, MAT1, MAT2, 7) == Status(0xe1f389ce, 0x0cca24d8, 0x11ba5ad5, 0x6891755a);
    assert Steps(c, MAT1, MAT2, 8) == Status(0x0cca24d8, 0x11ba5ad5, 0xf2dad045, 0xd95dd7b2);
  }

  /** The first three outputs from the state seeding with 1 leads to: 2545341989,
      981918433 and 3715302833. */
  lemma OutputsOfSeededOne()
    ensures Draw(Status(0x0cca24d8, 0x11ba5ad5, 0xf2dad045, 0xd95dd7b2), MAT1, MAT2, TMAT) == 2545341989
    ensures Output(Status(0x0cca24d8, 0x11ba5ad5, 0xf2dad045, 0xd95dd7b2), MAT1, MAT2, TMAT, 2) == 981918433
    ensures Output(Status(0x0cca24d8, 0x11ba5ad5, 0xf2dad045, 0xd95dd7b2), MAT1, MAT2, TMAT, 3) == 3715302833
  {
    var s := Status(0x0cca24d8, 0x11ba5ad5, 0xf2dad045, 0xd95dd7b2);
    assert Steps(s, MAT1, MAT2, 1) == Status(0x11ba5ad5, 0x7daac1ab, 0xffbdc1c7, 0x850cceb3);
    assert Steps(s, MAT1, MAT2, 2) == Status(0x7daac1ab, 0x70cdd029, 0xbd9794d4, 0x737d4621);
    assert Steps(s, MAT1, MAT2, 3) == Status(0x70cdd029, 0x32e7853a, 0x64c25ce5, 0x9bd26acb);
  }

  /** The first output for seed 1 is the first check value published with the
      reference implementation of TinyMT32 for these parameters; with
      `InitStatusOne` and `OutputsOfSeededOne` so are the next two. */
  lemma ReferenceOutputs()
    ensures FirstDraw(1) == 2545341989
  {
    InitStatusOne();
    OutputsOfSeededOne();
  }

  /** The state after seeding with the placeholder seed. */
  lemma InitStatusSkeleton()
    ensures InitStatus(42, MAT1, MAT2, TMAT) == Status(0x66bd04e0, 0x74139044, 0xaff210be, 0x68f4518e)
  {
    var w := Loaded(42, MAT1, MAT2, TMAT);
    assert Mixed(w, 1) == [0x0000002a, 0x364c9b7d, 0xfc78ff1f, 0x3793fdff];
    assert Mixed(w, 2) == [0x0000002a, 0x364c9b7d, 0x9ba2c24c, 0x3793fdff];
    assert Mixed(w, 3) == [0x0000002a, 0x364c9b7d, 0x9ba2c24c, 0x8ec79b36];
    assert Mixed(w, 4) == [0x553b0fa2, 0x364c9b7d, 0x9ba2c24c, 0x8ec79b36];
    assert Mixed(w, 5) == [0x553b0fa2, 0x5b6cfd29, 0x9ba2c24c, 0x8ec79b36];
    assert Mixed(w, 6) == [0x553b0fa2, 0x5b6cfd29, 0xaa308a82, 0x8ec79b36];
    assert Mixed(w, 7) == [0x553b0fa2, 0x5b6cfd29, 0xaa308a82, 0x6602bfb1];
    var c := Certified(StatusOf(Mixed(w, MIN_LOOP - 1)));
    assert c == Status(0x553b0fa2, 0x5b6cfd29, 0xaa308a82, 0x6602bfb1);
    assert Steps(c, MAT1, MAT2, 1) == Status(0x5b6cfd29, 0xaa308a82, 0x4508401b, 0xb9aa6872);
    assert Steps(c, MAT1, MAT2, 2) == Status(0xaa308a82, 0xca7851f5, 0x2c96cbcf, 0x3983049b);
    assert Steps(c, MAT1, MAT2, 3) == Status(0xca7851f5, 0x2c96cbcf, 0xd7be49c8, 0x7020b71e);
    assert Steps(c, MAT1, MAT2, 4) == Status(0x2c96cbcf, 0x58ce5826, 0x29eb9709, 0x9bc19887);
    assert Steps(c, MAT1, MAT2, 5) == Status(0x58ce5826, 0x29eb9709, 0x37b29d20, 0x30f459e4);
    assert Steps(c, MAT1, MAT2, 6) == Status(0x29eb9709, 0xb8c28cce, 0xe9cd150e, 0xe3378307);
    assert Steps(c, MAT1, MAT2, 7) == Status(0xb8c28cce, 0x66bd04e0, 0x74139044, 0x1b8051df);
    assert Steps(c, MAT1, MAT2, 8) == Status(0x66bd04e0, 0x74139044, 0xaff210be, 0x68f4518e);
  }

  /** The coefficient the program draws with its placeholder seed: the first output
      is 3630158251 and its low byte 171. */
  lemma SkeletonCoefficient()
    ensures FirstDraw(SKELETON_SEED) == 3630158251
    ensures CoefficientOf(SKELETON_SEED) == 171
  {
    InitStatusSkeleton();
    assert Successor(InitStatus(42, MAT1, MAT2, TMAT), MAT1, MAT2) == Status(0x74139044, 0x20820150, 0x9448ef31, 0x9b6bf567);
  }

  /** The output a generator with the fixed parameters draws right after seeding
      is `FirstDraw(seed)`. */
  lemma FirstDrawOf(seed: bv32, mat1: bv32, mat2: bv32, tmat: bv32, seeded: Status, r: bv32)
    requires mat1 == MAT1 && mat2 == MAT2 && tmat == TMAT
    requires seeded == InitStatus(seed, mat1, mat2, tmat)
    requires r == Draw(seeded, mat1, mat2, tmat)
    ensures r == FirstDraw(seed)
  {
  }

  /** One instance file: zero a record, set the parameters, seed it and keep the low
      byte of its first output. */
  method Coefficient(seed: bv32) returns (coef: bv8)
    ensures coef == CoefficientOf(seed)
  {
    var prng := new Generator.Zeroed();
    prng.mat1 := MAT1;
    prng.mat2 := MAT2;
    prng.tmat := TMAT;
    prng.Init(seed);
    ghost var seeded := prng.State();
    var r := prng.GenerateUint32();
    FirstDrawOf(seed, prng.mat1, prng.mat2, prng.tmat, seeded, r);
    coef := LowByte(r);
  }

  /** Appending the next file's coefficient keeps the list in step with the seeds. */
  lemma CoefficientsExtend(seeds: seq<bv32>, coefs: seq<bv8>, coef: bv8)
    requires |coefs| < |seeds|
    requires forall k :: 0 <= k < |coefs| ==> coefs[k] == CoefficientOf(seeds[k])
    requires coef == CoefficientOf(seeds[|coefs|])
    ensures forall k :: 0 <= k < |coefs| + 1 ==> (coefs + [coef])[k] == CoefficientOf(seeds[k])
  {
  }

  /** The loop over the instance files, one seed per file, each with a generator
      of its own: no file's coefficient depends on the files before it. */
  method InstanceCoefficients(seeds: seq<bv32>) returns (coefs: seq<bv8>)
    ensures |coefs| == |seeds|
    ensures forall k :: 0 <= k < |seeds| ==> coefs[k] == CoefficientOf(seeds[k])
  {
    coefs := [];
    var n := 0;
    while n < |seeds|
      invariant 0 <= n <= |seeds|
      invariant |coefs| == n
      invariant forall k :: 0 <= k < n ==> coefs[k] == CoefficientOf(seeds[k])
    {
      var coef := Coefficient(seeds[n]);
      CoefficientsExtend(seeds, coefs, coef);
      coefs := coefs + [coef];
      n := n + 1;
    }
  }
}
