# TinyMT32 coefficient generator, modelled in Dafny

The decoder program draws its coefficients from the Tiny Mersenne Twister, TinyMT32, by
Saito and Matsumoto. The generator record `tinymt32_t` holds four 32-bit status words
and three parameters: `mat1`, `mat2` and `tmat`. The header does four things:
- It seeds the record: it loads the seed and the parameters, runs seven mixing rounds,
  certifies the period and runs eight transitions.
- It advances the state by a linear shift-register transition.
- It tempers the state into a 32-bit output.
- It combines a transition and a tempering into `tinymt32_generate_uint32`.

For every instance file, the main program zeroes a fresh record and sets the three fixed
parameters. It then seeds the record and keeps the low byte of the first output as the
coefficient.

The project has three modules:

- `Tinymt32` (`tinymt32.dfy`) holds every operation written on values:
  - the datatype `Status` of the four words;
  - the transition `Successor`;
  - the output function `Tempered`;
  - the seeding stages `Loaded`, `MixRound`/`Mixed` and `Certified`;
  - `InitStatus`.

  It also holds the lemmas about them. Their main result is that a degenerate state
  (all 127 significant bits zero) is reached only from a degenerate state. Certification
  rules that state out, so every seeded state stays non-degenerate forever.
- `TinymtGenerator` (`generator.dfy`) holds the class `Generator`. Its `status` array is
  updated in place by methods mirroring the C routines. Each method is proved against
  the value definitions and leaves the three parameters unchanged.
- `Instance` (`instance.dfy`) models the coefficient setup of `main.c`, with concrete
  values worked out for two seeds:
  - For seed 1, the first three outputs are 2545341989, 981918433 and 3715302833. These
    are the check values published with the TinyMT32 reference implementation for these
    parameters.
  - For the program's placeholder seed 42, the first output is 3630158251, and its low
    byte, the coefficient, is 171.

All words are `bv32`, so additions and multiplications wrap modulo 2^32 exactly as C's
`uint32_t` does. The C expression `-((int)(y & 1))` is converted back to `uint32_t`, and is
modelled as the `bv32` negation of `y & 1`: all ones when `y` is odd, zero otherwise.

## Model

| member | source | states |
|---|---|---|
| Tinymt32.Certified | headers/tinymt32.h:66-79 | The result is never degenerate. A degenerate state (low 31 bits of word 0 and words 1-3 all zero) becomes 'T','I','N','Y' = 84,73,78,89. Any other state is returned unchanged. |
| Tinymt32.FlipSelects | headers/tinymt32.h:98-99 | Xoring with `-(b & 1) & mat` xors `mat` in exactly when `b` is odd, and leaves the word alone when `b` is even. |
| Tinymt32.Successor | headers/tinymt32.h:86-100 | One transition. Word 0 takes word 1. Word 3 takes y, where y = s3 ^ (s3 >> 1) ^ x and x = m ^ (m << 1) with m = (s0 & 0x7fffffff) ^ s1 ^ s2. Word 1 takes s2 ^ mat1 when y is odd and s2 otherwise. Word 2 takes x ^ (y << 10), with mat2 xored in exactly when y is odd. |
| Tinymt32.Tempered | headers/tinymt32.h:108-121 | The output is s3 ^ t1 ^ tmat when t1 = s0 + (s2 >> 8) (mod 2^32) is odd, and s3 ^ t1 when it is even. |
| Tinymt32.StepsAdd | headers/tinymt32.h:150-153 | Running n transitions and then m more equals running n + m transitions. |
| Tinymt32.OutputShift | headers/tinymt32.h:128-131 | The first output of a state is one transition, then tempering. The k-th output after one transition is the (k+1)-th output of the original state. |
| Tinymt32.MixRound | headers/tinymt32.h:145-148 | A seeding round i changes only word `i & 3`. |
| Tinymt32.MixWordZero | headers/tinymt32.h:91-92 | The mixed word x is zero only if the masked word 0 xored with words 1 and 2 is zero: `m ^ (m << 1)` is zero only for m zero. |
| Tinymt32.SuccessorDegenerate | headers/tinymt32.h:62-100 | A transition leads to a degenerate state if and only if it starts from one. |
| Tinymt32.StepsNonDegenerate | headers/tinymt32.h:150-153 | Any number of transitions from a non-degenerate state gives a non-degenerate state. |
| Tinymt32.InitNonDegenerate | headers/tinymt32.h:139-154 | A seeded state is never degenerate, for every seed and every parameter set. |
| TinymtGenerator.MixWords | headers/tinymt32.h:145-148 | The seeding loop over rounds 1 to MIN_LOOP - 1 = 7 yields `Mixed(loaded, 7)`. |
| TinymtGenerator.Generator.Zeroed | main.c:146-147 | A fresh record with all status words and parameters zero, as `memset` leaves it. |
| TinymtGenerator.Generator.PeriodCertification | headers/tinymt32.h:66-78 | The array afterwards holds `Certified` of its old contents. The parameters are untouched. |
| TinymtGenerator.Generator.NextState | headers/tinymt32.h:85-100 | The array afterwards holds `Successor` of its old contents under the record's mat1 and mat2. The parameters are untouched. |
| TinymtGenerator.Generator.Temper | headers/tinymt32.h:108-121 | Returns `Tempered` of the current state under the record's tmat, and changes nothing. |
| TinymtGenerator.Generator.GenerateUint32 | headers/tinymt32.h:128-131 | The new state is the successor, and the result is the tempered successor (`Draw`) of the old state. A non-degenerate state stays non-degenerate. The parameters are untouched. |
| TinymtGenerator.Generator.NextStates | headers/tinymt32.h:150-153 | n calls of `NextState` leave `Steps(old state, mat1, mat2, n)`. |
| TinymtGenerator.Generator.Init | headers/tinymt32.h:139-154 | The array afterwards holds `InitStatus(seed, mat1, mat2, tmat)`, whatever it held before, and that state is not degenerate. The parameters are untouched. |
| Instance.LowByte | main.c:157 | The `(uint8_t)` conversion yields the word modulo 256. |
| Instance.CoefficientOf | main.c:144-157 | The coefficient for a seed is the first output of a generator seeded under the fixed parameters, modulo 256. |
| Instance.InitStatusOne | headers/tinymt32.h:139-154 | Seeding with 1 under mat1 = 0x8f7011ee, mat2 = 0xfc78ff1f, tmat = 0x3793fdff leads to the state (0x0cca24d8, 0x11ba5ad5, 0xf2dad045, 0xd95dd7b2). |
| Instance.OutputsOfSeededOne | headers/tinymt32.h:128-131 | From that state the first three outputs are 2545341989, 981918433 and 3715302833. |
| Instance.ReferenceOutputs | headers/tinymt32.h:128-154 | The first output after seeding with 1 is 2545341989. |
| Instance.InitStatusSkeleton | main.c:144-152 | Seeding with the placeholder seed 42 under the fixed parameters leads to the state (0x66bd04e0, 0x74139044, 0xaff210be, 0x68f4518e). |
| Instance.SkeletonCoefficient | main.c:144-157 | With seed 42 the first output is 3630158251, and the coefficient is 171. |
| Instance.Coefficient | main.c:144-157 | Zeroes a fresh record and sets mat1 = 0x8f7011ee, mat2 = 0xfc78ff1f and tmat = 0x3793fdff. It then seeds the record and keeps the low byte of its first output. The result is `CoefficientOf(seed)`. |
| Instance.InstanceCoefficients | main.c:110-165 | One coefficient per instance file, and the k-th is `CoefficientOf(seeds[k])`. Each file gets a generator of its own, so no coefficient depends on an earlier file. |

## Left out

- The `LINEARITY_CHECK` variant of tempering (headers/tinymt32.h:111-113), which xors
  instead of adding, is a compile-time test option. Only the default additive variant
  is modelled.
- `TINYMT32_MUL` and `TINYMT32_MEXP` are unused by the routines modelled. The claim that
  the period is 2^127 - 1 is not proved, because it is a property of the parameter set
  and not of the code. Only the invariant that certification establishes is proved: the
  state is never degenerate.
- TinymtGenerator.Generator.NextState stores each status word once, with the mat1/mat2
  correction folded in. The C code stores words 1 and 2 a second time, and no state
  between those stores is observable. The order of the stores is not modelled.
- TinymtGenerator.Generator.Init runs the seeding rounds on a copy of the four words,
  in `MixWords`, and writes the copy back before certification. The C code updates the
  array in place. The value written back is the same.
- TinymtGenerator.Generator.Temper reads the four words and applies `Tempered`. It does
  not keep C's two intermediate locals.
- Instance.Coefficient takes the seed as a parameter. The program uses the placeholder
  seed 42, marked in the source as a stand-in for the seed read from the instance file; `SkeletonCoefficient`
  covers that case.
- The rest of `main.c` is not part of this model: argument parsing and usage text,
  opening, reading and closing directories and files, error handling with `goto`, the
  verbose `printf` of the coefficient, and the output stream. Instance.InstanceCoefficients
  takes the sequence of per-file seeds in place of the directory walk.
- headers/portable_semaphore.h (threads and semaphores) is not part of this model.
- headers/system.h is not part of this model. It declares only prototypes, with no bodies:
  GF(256) vector addition, scaled addition and division, Gaussian elimination, `gen_coef`,
  and an empty `system_t`. The shown code holds no decoding engine and no field polynomial,
  so modelling those would mean making up behaviour.
