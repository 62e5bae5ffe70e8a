/** Where a request stands in the queue, and the key of each of its waits. */
module WaitKeys {

  const KEY_TAG: nat := 0x8000_0000_0000_0000
  const EPISODE_MAX: nat := 0xF_FFFF
  const EPISODES: nat := 0x10_0000
  const SEQ_MASK: nat := 0x7FF_FFFF_FFFF

  /** `number` is 0 until the first wait. */
  datatype Place = Place(number: nat, time: real, episode: nat)

  const Unplaced := Place(0, 0.0, 0)

  /** The thread's next request number: 43 bits, never 0. */
  function NextSeq(requestSeq: nat): nat {
    var n := (requestSeq + 1) % (SEQ_MASK + 1);
    if n == 0 then 1 else n
  }

  /** A sequence number and entry time on the first wait, a fresh episode on
      each later one. Also returns the thread's request counter. */
  function NextPlace(pl: Place, requestSeq: nat, now: real): (Place, nat) {
    if pl.number == 0 then (Place(NextSeq(requestSeq), now, 0), NextSeq(requestSeq))
    else if pl.episode < EPISODE_MAX then (pl.(episode := pl.episode + 1), requestSeq)
    else (pl, requestSeq)
  }

  function WaitKey(pl: Place): nat {
    KEY_TAG + pl.number * EPISODES + pl.episode
  }

  ghost predicate PlaceOk(pl: Place) {
    1 <= pl.number <= SEQ_MASK && pl.episode <= EPISODE_MAX
  }

  /** Every placed wait stays in the 43-bit and 20-bit ranges whatever the
      counter held, and its key is a 64-bit word with the top bit set. */
  lemma NextPlaceInRange(pl: Place, requestSeq: nat, now: real)
    requires pl.number == 0 || PlaceOk(pl)
    ensures PlaceOk(NextPlace(pl, requestSeq, now).0)
    ensures var next := NextPlace(pl, requestSeq, now).0;
      && 1 <= next.number < 0x800_0000_0000 && next.episode < 0x10_0000
      && WaitKey(next) == 0x8000_0000_0000_0000 + 0x10_0000 * next.number + next.episode < 0x1_0000_0000_0000_0000
  {
  }

  /** The number of the k-th request after the counter stood at requestSeq. */
  function NumberAfter(requestSeq: nat, k: nat, now: real): nat {
    if k == 0 then requestSeq else NextPlace(Unplaced, NumberAfter(requestSeq, k - 1, now), now).1
  }

  lemma NextInTurn(n: nat)
    requires n <= SEQ_MASK
    ensures NextSeq(n) == n % SEQ_MASK + 1
  {
  }

  lemma OneMore(a: nat)
    ensures (a % SEQ_MASK + 1) % SEQ_MASK == (a + 1) % SEQ_MASK
  {
  }

  /** Requests are numbered 1 to 2^43 - 1 in turn, over and over, and each
      first wait has the new number, the present time and episode 0. */
  lemma {:induction false} NumbersGoRound(requestSeq: nat, k: nat, now: real)
    requires requestSeq <= 0x7FF_FFFF_FFFF && k > 0
    ensures var n := (requestSeq + k - 1) % 0x7FF_FFFF_FFFF + 1;
      && NumberAfter(requestSeq, k, now) == n
      && NextPlace(Unplaced, NumberAfter(requestSeq, k - 1, now), now) == (Place(n, now, 0), n)
    decreases k
  {
    hide NextSeq;
    if k > 1 {
      NumbersGoRound(requestSeq, k - 1, now);
      OneMore(requestSeq + k - 2);
    }
    NextInTurn(NumberAfter(requestSeq, k - 1, now));
  }

  /** A later wait of a request has a later key, exactly while episodes are left. */
  lemma FreshUnlessSaturated(pl: Place, requestSeq: nat, now: real)
    requires PlaceOk(pl)
    ensures WaitKey(NextPlace(pl, requestSeq, now).0) >= WaitKey(pl)
    ensures WaitKey(NextPlace(pl, requestSeq, now).0) != WaitKey(pl) <==> pl.episode < 0xF_FFFF
  {
  }

  /** Keys order as (sequence, episode), and so distinct pairs have distinct keys. */
  lemma KeyOrder(a: Place, b: Place)
    requires PlaceOk(a) && PlaceOk(b)
    ensures WaitKey(a) < WaitKey(b) <==> a.number < b.number || (a.number == b.number && a.episode < b.episode)
    ensures WaitKey(a) == WaitKey(b) <==> a.number == b.number && a.episode == b.episode
  {
  }

  /** The key as the code builds it, by shifting and or-ing 64-bit words. */
  function KeyWord(seqWord: bv64, episode: bv64): bv64 {
    0x8000_0000_0000_0000 | (seqWord << 20) | episode
  }

  /** Within the bounds the fields do not overlap: the or is a sum, both
      fields can be read back, and the top bit is set. */
  lemma KeyWordFields(seqWord: bv64, episode: bv64)
    requires seqWord <= 0x7FF_FFFF_FFFF && episode <= 0xF_FFFF
    ensures KeyWord(seqWord, episode) == 0x8000_0000_0000_0000 + (seqWord << 20) + episode
    ensures (KeyWord(seqWord, episode) >> 20) & 0x7FF_FFFF_FFFF == seqWord
    ensures KeyWord(seqWord, episode) & 0xF_FFFF == episode
    ensures KeyWord(seqWord, episode) >= 0x8000_0000_0000_0000
  {
  }
}
