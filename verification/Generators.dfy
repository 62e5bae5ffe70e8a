/** A slot's generator: the four words that `inputs.c` seeds and steps in place. */
module Generators {
  import opened Streams

  class Generator {
    const words: array<Word>

    ghost predicate Valid() { words.Length == 4 }

    ghost function State(): Stream
      requires Valid()
      reads words
    {
      Stream(words[0], words[1], words[2], words[3])
    }

    constructor ()
      ensures Valid() && fresh(words)
    {
      words := new Word[4];
    }

    /** next64 */
    method Next64() returns (value: Word)
      requires Valid()
      modifies words
      ensures State() == Next(old(State())) && value == Value(old(words[0]), old(words[1]), old(words[3]))
      ensures words[2] == Sum(Turned(old(words[2])), value)
    {
      hide Fold11, Times9, Turn24, Plus, Up, Value, Sum, Turned;
      ghost var s := State();
      value := Value(words[0], words[1], words[3]);
      words[3] := Up(words[3]);
      words[0] := Fold11(words[1]);
      words[1] := Times9(words[2]);
      words[2] := Sum(Turn24(words[2]), value);
      NewWord(Turn24(s.c), s.a, s.b, s.counter);
      TurnedNumber(s.c);
    }

    /** cpy_input_seed, as far as the generator goes. */
    method Seed(seed: Word)
      requires Valid()
      modifies words
      ensures State() == Seeded(seed)
    {
      hide Mix, Next, After, Advance;
      var state := seed;
      var i := 0;
      while i < 4
        invariant 0 <= i <= 4 && state == Advanced(seed, i)
        invariant forall j :: 0 <= j < i ==> words[j] == Mix(Advanced(seed, j + 1))
      {
        state := Advance(state);
        words[i] := Mix(state);
        i := i + 1;
      }
      assert State() == Expanded(seed);
      var k := 0;
      assert After(State(), 0) == State() by { AfterNone(State()); }
      while k < WARMUP
        invariant 0 <= k <= WARMUP && State() == After(Expanded(seed), k)
      {
        var _ := Next64();
        AfterOne(Expanded(seed), k);
        k := k + 1;
      }
    }
  }

  function Value(a: Word, b: Word, counter: Word): Word { a + b + counter }

  function Sum(x: Word, y: Word): Word { x + y }

  lemma SumInline(t: Word, a: Word, b: Word, counter: Word)
    ensures Sum(t, a + b + counter) == Plus(t, a, b, counter)
  {
  }

  lemma NewWord(t: Word, a: Word, b: Word, counter: Word)
    ensures Sum(t, Value(a, b, counter)) == Plus(t, a, b, counter)
  {
    hide Sum, Plus;
    SumInline(t, a, b, counter);
  }

  lemma AfterNone(s: Stream)
    ensures After(s, 0) == s
  {
  }

  lemma AfterOne(s: Stream, k: nat)
    ensures After(s, k + 1) == Next(After(s, k))
  {
  }
}
