/** The generators of an input stream in `inputs.c`: how a seed becomes a state
    and a state the next one, in 64-bit arithmetic. */
module Streams {
  import opened Powers

  type Word = bv64

  const WARMUP: nat := 20

  datatype Stream = Stream(a: Word, b: Word, c: Word, counter: Word)

  // ---- What the code computes ----

  function Fold30(x: Word): Word { x ^ (x >> 30) }
  function Fold27(x: Word): Word { x ^ (x >> 27) }
  function Fold31(x: Word): Word { x ^ (x >> 31) }
  function Fold11(x: Word): Word { x ^ (x >> 11) }
  function TimesA(x: Word): Word { x * 0xbf58_476d_1ce4_e5b9 }
  function TimesB(x: Word): Word { x * 0x94d0_49bb_1331_11eb }
  function Times9(x: Word): Word { x + (x << 3) }
  function Turn24(x: Word): Word { (x << 24) | (x >> 40) }

  /** The output of splitmix64 for the state it has just advanced to. */
  function Mix(state: Word): Word {
    Fold31(TimesB(Fold27(TimesA(Fold30(state)))))
  }

  /** next64's new state; Plus adds the value drawn. */
  function Next(s: Stream): Stream {
    Stream(Fold11(s.b), Times9(s.c), Plus(Turn24(s.c), s.a, s.b, s.counter), Up(s.counter))
  }

  function After(s: Stream, n: nat): Stream {
    if n == 0 then s else Next(After(s, n - 1))
  }

  /** splitmix64's step. */
  function Advance(state: Word): Word { state + 0x9e37_79b9_7f4a_7c15 }

  /** The splitmix64 state after i outputs. */
  function Advanced(seed: Word, i: nat): Word {
    if i == 0 then seed else Advance(Advanced(seed, i - 1))
  }

  /** The four words that splitmix64 gives for a seed. */
  function Expanded(seed: Word): Stream {
    Stream(Mix(Advanced(seed, 1)), Mix(Advanced(seed, 2)), Mix(Advanced(seed, 3)), Mix(Advanced(seed, 4)))
  }

  function Seeded(seed: Word): Stream { After(Expanded(seed), WARMUP) }

  // ---- What the steps are ----

  /** The third word turns by 24 bits: bit i comes from 24 below it. */
  lemma TurnedBit(x: Word, i: Word)
    requires i < 64
    ensures Turn24(x) & (1 << i) != 0 <==> x & (1 << ((i + 40) % 64)) != 0
  {
  }

  /** As a number: 2^24 times the word, and what that loses at the top, which
      is its quotient by 2^40. */
  function Turned(x: Word): Word { x * 0x100_0000 + x / 0x100_0000_0000 }

  lemma TurnedNumber(x: Word)
    ensures Turn24(x) == Turned(x)
  {
  }

  // The stream of seed 0, after 0, 5, 10, 15 and 20 draws.

  const STREAM_0 := Stream(0xe220_a839_7b1d_cdaf, 0x6e78_9e6a_a1b9_65f4, 0x06c4_5d18_8009_454f, 0xf88b_b8a8_724c_81ec)
  const STREAM_5 := Stream(0x00b4_2b98_3c10_4e38, 0xc51b_5a83_20ee_081d, 0x410d_5e1f_f395_e78f, 0xf88b_b8a8_724c_81f1)
  const STREAM_10 := Stream(0xefb3_0690_9e74_9253, 0xd62e_6cc2_62e9_6ccf, 0xee10_d61d_20e6_7884, 0xf88b_b8a8_724c_81f6)
  const STREAM_15 := Stream(0x5cf4_e252_7ec2_fef0, 0xfc57_0c3a_c6cb_7f46, 0x799c_21d6_ac0d_3bb5, 0xf88b_b8a8_724c_81fb)
  const STREAM_20 := Stream(0x1560_a078_1106_d4eb, 0x70ee_cef7_b6b2_ea40, 0x0347_071c_3076_4212, 0xf88b_b8a8_724c_8200)

  lemma From0()
    ensures After(STREAM_0, 5) == STREAM_5
  {
  }

  lemma From5()
    ensures After(STREAM_5, 5) == STREAM_10
  {
  }

  lemma From10()
    ensures After(STREAM_10, 5) == STREAM_15
  {
  }

  lemma From15()
    ensures After(STREAM_15, 5) == STREAM_20
  {
  }

  lemma WordsOfZero()
    ensures Expanded(0) == STREAM_0
  {
  }

  /** The seed 0: what splitmix64 gives for it, and the state after the
      warm-up. */
  lemma SeedOfZero()
    ensures Expanded(0) == Stream(0xe220_a839_7b1d_cdaf, 0x6e78_9e6a_a1b9_65f4, 0x06c4_5d18_8009_454f, 0xf88b_b8a8_724c_81ec)
    ensures Seeded(0) == Stream(0x1560_a078_1106_d4eb, 0x70ee_cef7_b6b2_ea40, 0x0347_071c_3076_4212, 0xf88b_b8a8_724c_8200)
  {
    hide After, Expanded;
    WordsOfZero();
    From0();
    From5();
    From10();
    From15();
    AfterSum(STREAM_0, 5, 5);
    AfterSum(STREAM_0, 10, 5);
    AfterSum(STREAM_0, 15, 5);
  }

  // ---- Both are bijections ----

  function Unfold30(y: Word): Word { y ^ (y >> 30) ^ (y >> 60) }
  function Unfold27(y: Word): Word { y ^ (y >> 27) ^ (y >> 54) }
  function Unfold31(y: Word): Word { y ^ (y >> 31) ^ (y >> 62) }
  function Unfold11(y: Word): Word { y ^ (y >> 11) ^ (y >> 22) ^ (y >> 33) ^ (y >> 44) ^ (y >> 55) }
  function OverA(x: Word): Word { x * 0x96de_1b17_3f11_9089 }
  function OverB(x: Word): Word { x * 0x3196_42b2_d24d_8ec3 }
  function Over9(x: Word): Word { x * 0x8e38_e38e_38e3_8e39 }

  // Each step has an inverse: a folded word unfolds, and multiplying by an odd
  // constant is undone by its inverse modulo 2^64.

  lemma Unfolds(x: Word)
    ensures Unfold30(x ^ (x >> 30)) == x && Unfold27(x ^ (x >> 27)) == x && Unfold31(x ^ (x >> 31)) == x
    ensures Unfold11(x ^ (x >> 11)) == x
  {
  }

  lemma Refolds(x: Word)
    ensures Fold30(x ^ (x >> 30) ^ (x >> 60)) == x && Fold27(x ^ (x >> 27) ^ (x >> 54)) == x
    ensures Fold31(x ^ (x >> 31) ^ (x >> 62)) == x
    ensures Fold11(x ^ (x >> 11) ^ (x >> 22) ^ (x >> 33) ^ (x >> 44) ^ (x >> 55)) == x
  {
  }

  lemma Divides(x: Word)
    ensures OverA(x * 0xbf58_476d_1ce4_e5b9) == x && OverB(x * 0x94d0_49bb_1331_11eb) == x
  {
  }

  lemma Remultiplies(x: Word)
    ensures TimesA(x * 0x96de_1b17_3f11_9089) == x && TimesB(x * 0x3196_42b2_d24d_8ec3) == x
  {
  }

  function Nonuple(x: Word): Word { x * 9 }

  lemma Nines(x: Word)
    ensures Over9(x * 9) == x && Nonuple(x * 0x8e38_e38e_38e3_8e39) == x
  {
  }

  lemma TimesNine(x: Word)
    ensures Times9(x) == Nonuple(x)
  {
  }

  lemma Times9Undone(x: Word)
    ensures Over9(Times9(x)) == x
  {
    hide Over9, Times9;
    TimesNine(x);
    Nines(x);
  }

  lemma Times9Redone(x: Word)
    ensures Times9(Over9(x)) == x
  {
    hide Times9, Nonuple;
    TimesNine(Over9(x));
    Nines(x);
  }

  lemma Undone(x: Word)
    ensures Unfold30(Fold30(x)) == Unfold27(Fold27(x)) == Unfold31(Fold31(x)) == Unfold11(Fold11(x)) == x
    ensures OverA(TimesA(x)) == OverB(TimesB(x)) == Over9(Times9(x)) == x
  {
    hide Unfold30, Unfold27, Unfold31, Unfold11, OverA, OverB, Over9, Times9;
    Unfolds(x);
    Divides(x);
    Times9Undone(x);
  }

  lemma Redone(x: Word)
    ensures Fold30(Unfold30(x)) == Fold27(Unfold27(x)) == Fold31(Unfold31(x)) == Fold11(Unfold11(x)) == x
    ensures TimesA(OverA(x)) == TimesB(OverB(x)) == Times9(Over9(x)) == x
  {
    hide Fold30, Fold27, Fold31, Fold11, TimesA, TimesB, Times9, Over9;
    Refolds(x);
    Remultiplies(x);
    Times9Redone(x);
  }

  function Unmix(output: Word): Word {
    Unfold30(OverA(Unfold27(OverB(Unfold31(output)))))
  }

  /** splitmix64's output function is a bijection of 64-bit words. */
  lemma MixIsABijection(x: Word)
    ensures Unmix(Mix(x)) == x && Mix(Unmix(x)) == x
  {
    hide Fold30, Fold27, Fold31, TimesA, TimesB, Unfold30, Unfold27, Unfold31, OverA, OverB;
    Undone(x);
    Undone(Fold30(x));
    Undone(TimesA(Fold30(x)));
    Undone(Fold27(TimesA(Fold30(x))));
    Undone(TimesB(Fold27(TimesA(Fold30(x)))));
    Redone(x);
    Redone(Unfold31(x));
    Redone(OverB(Unfold31(x)));
    Redone(Unfold27(OverB(Unfold31(x))));
    Redone(OverA(Unfold27(OverB(Unfold31(x)))));
  }

  function Minus(sum: Word, t: Word, b: Word, counter: Word): Word { sum - t - b - counter }
  function Plus(t: Word, a: Word, b: Word, counter: Word): Word { t + (a + b + counter) }
  function Up(x: Word): Word { x + 1 }
  function Down(x: Word): Word { x - 1 }

  lemma SumsUndone(t: Word, a: Word, b: Word, counter: Word)
    ensures Minus(Plus(t, a, b, counter), t, b, counter) == a && Down(Up(a)) == a
  {
  }

  lemma SumsRedone(t: Word, a: Word, b: Word, counter: Word)
    ensures Plus(t, Minus(a, t, b, counter), b, counter) == a && Up(Down(a)) == a
  {
  }

  /** The state before next64. */
  function Previous(s: Stream): Stream {
    var b := Unfold11(s.a);
    var c := Over9(s.b);
    Stream(Minus(s.c, Turn24(c), b, Down(s.counter)), b, c, Down(s.counter))
  }

  /** next64's update of the 256-bit state is a bijection. */
  lemma NextIsABijection(s: Stream)
    ensures Previous(Next(s)) == s && Next(Previous(s)) == s
  {
    hide Fold11, Unfold11, Times9, Over9, Turn24, Plus, Minus, Up, Down;
    Undone(s.b);
    Undone(s.c);
    Redone(s.a);
    Redone(s.b);
    SumsUndone(Turn24(s.c), s.a, s.b, s.counter);
    SumsUndone(0, s.counter, 0, 0);
    SumsRedone(Turn24(Over9(s.b)), s.c, Unfold11(s.a), Down(s.counter));
    SumsRedone(0, s.counter, 0, 0);
  }

  lemma {:induction false} AfterIsInjective(s: Stream, t: Stream, n: nat)
    requires After(s, n) == After(t, n)
    ensures s == t
  {
    if n > 0 {
      hide Next, Previous;
      NextIsABijection(After(s, n - 1));
      NextIsABijection(After(t, n - 1));
      AfterIsInjective(s, t, n - 1);
    }
  }

  function Retreat(state: Word): Word { state - 0x9e37_79b9_7f4a_7c15 }

  lemma AdvanceUndone(x: Word)
    ensures Retreat(Advance(x)) == x
  {
  }

  /** Different seeds give different streams. */
  lemma SeedingIsInjective(seed: Word, other: Word)
    requires Seeded(seed) == Seeded(other)
    ensures seed == other
  {
    hide Mix, Unmix, After, Advance, Retreat;
    AfterIsInjective(Expanded(seed), Expanded(other), WARMUP);
    assert Advanced(seed, 1) == Advance(Advanced(seed, 0)) && Advanced(other, 1) == Advance(Advanced(other, 0));
    MixIsABijection(Advance(seed));
    MixIsABijection(Advance(other));
    AdvanceUndone(seed);
    AdvanceUndone(other);
  }

  // ---- No state comes back early ----

  function Add(x: Word, y: Word): Word { x + y }
  function Twice(x: Word): Word { x + x }
  function Times(x: Word, y: Word): Word { x * y }
  predicate Odd(x: Word) { x & 1 == 1 }

  /** The number n as a 64-bit word. */
  function Tally(n: nat): Word {
    if n == 0 then 0 else Up(Tally(n - 1))
  }

  function PowerWord(i: nat): Word { if i == 0 then 1 else Twice(PowerWord(i - 1)) }

  lemma AddUp(x: Word, y: Word)
    ensures Add(x, Up(y)) == Up(Add(x, y)) && Add(x, x) == Twice(x) && Add(x, 0) == x
  {
  }

  lemma OddUp(x: Word)
    ensures Odd(Up(Twice(x)))
  {
  }

  lemma TimesSums(x: Word, y: Word)
    ensures Times(x, y + y) == x * y + x * y && Times(x + x, y) == x * y + x * y
    ensures Twice(0) == 0 && Times(x, 0) == 0
    ensures Odd(x) ==> Times(x, 0x8000_0000_0000_0000) != 0
  {
  }

  lemma TimesTwice(x: Word, y: Word)
    ensures Times(x, Twice(y)) == Twice(Times(x, y)) == Times(Twice(x), y)
    ensures Twice(0) == 0 && Times(x, 0) == 0
  {
  }

  lemma {:induction false} WordPowerSum(i: nat, j: nat)
    ensures PowerWord(i + j) == Times(PowerWord(i), PowerWord(j))
  {
    hide Times, Twice;
    Ones(PowerWord(i));
    if j > 0 {
      WordPowerSum(i, j - 1);
      TimesTwice(PowerWord(i), PowerWord(j - 1));
    }
  }

  lemma Ones(x: Word)
    ensures Times(x, 1) == x
  {
  }

  lemma PowerWords()
    ensures PowerWord(63) == 0x8000_0000_0000_0000 && PowerWord(64) == 0
  {
    assert PowerWord(1) == 2;
    WordPowerSum(1, 1);
    WordPowerSum(2, 2);
    WordPowerSum(4, 4);
    WordPowerSum(8, 8);
    WordPowerSum(16, 16);
    WordPowerSum(32, 32);
    assert PowerWord(64) == 0;
    WordPowerSum(32, 16);
    WordPowerSum(48, 8);
    WordPowerSum(56, 4);
    WordPowerSum(60, 2);
    WordPowerSum(62, 1);
  }

  lemma {:induction false} TallySum(m: nat, n: nat)
    ensures Tally(m + n) == Add(Tally(m), Tally(n))
  {
    hide Add, Up, Twice;
    AddUp(Tally(m), 0);
    if n > 0 {
      TallySum(m, n - 1);
      AddUp(Tally(m), Tally(n - 1));
    }
  }

  lemma {:induction false} ZeroStays(x: Word, i: nat, j: nat)
    requires i <= j && Times(x, PowerWord(i)) == 0
    ensures Times(x, PowerWord(j)) == 0
  {
    hide Times, Twice;
    if i < j {
      ZeroStays(x, i, j - 1);
      TimesTwice(x, PowerWord(j - 1));
    }
  }

  lemma OddIsNotZero(x: Word, i: nat)
    requires Odd(x) && i < 64
    ensures Times(x, PowerWord(i)) != 0
  {
    hide Times, Odd, Twice;
    if Times(x, PowerWord(i)) == 0 {
      ZeroStays(x, i, 63);
      PowerWords();
      TimesSums(x, 0);
    }
  }

  /** The low 64 - i bits of a tally are zero just when they are in the number. */
  lemma {:induction false} TallyBits(k: nat, i: nat)
    requires i <= 64
    ensures Times(Tally(k), PowerWord(i)) == 0 <==> k % Power(64 - i) == 0
    decreases 64 - i
  {
    hide Times, Twice, Up, Odd, Add;
    if i == 64 {
      PowerWords();
      TimesTwice(Tally(k), 0);
    } else {
      var j := k / 2;
      TallySum(j, j);
      AddUp(Tally(j), 0);
      var p := Power(63 - i);
      if k == j + j {
        TimesTwice(Tally(j), PowerWord(i));
        TallyBits(j, i + 1);
        DoubledRemainder(j, p);
      } else {
        OddUp(Tally(j));
        OddIsNotZero(Tally(k), i);
        OddRemainder(k, p);
      }
    }
  }

  lemma {:induction false} CounterCounts(s: Stream, n: nat)
    ensures After(s, n).counter == Add(s.counter, Tally(n))
  {
    hide Add, Up, Twice, Fold11, Times9, Plus, Turn24;
    AddUp(s.counter, 0);
    if n > 0 {
      CounterCounts(s, n - 1);
      AddUp(s.counter, Tally(n - 1));
    }
  }

  lemma ZeroTimes()
    ensures Times(0, 1) == 0
  {
  }

  lemma AddsNothing(x: Word, z: Word)
    requires Add(x, z) == x
    ensures z == 0
  {
  }

  lemma {:induction false} AfterSum(s: Stream, m: nat, n: nat)
    ensures After(s, m + n) == After(After(s, m), n)
  {
    if n > 0 { AfterSum(s, m, n - 1); }
  }

  /** A stream is in the same state after m and after n draws only if m and n
      differ by a multiple of 2^64: no state comes back within 2^64 draws. */
  lemma NoEarlyRepeat(s: Stream, m: nat, n: nat)
    requires m <= n && After(s, m) == After(s, n)
    ensures (n - m) % PERIOD == 0
  {
    hide Add, After, Times, Twice, Next;
    AfterSum(s, n - m, m);
    AfterIsInjective(s, After(s, n - m), m);
    CounterCounts(s, n - m);
    AddsNothing(s.counter, Tally(n - m));
    ZeroTimes();
    TallyBits(n - m, 0);
    PowerIsPeriod();
  }
}
