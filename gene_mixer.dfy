/** Gene science: how a child's traits are derived from its parents' genes and a
    hashed random value. The hashed value is consumed from its low end, slot 0 first:
    a slot whose parent traits form an ascendable pair {2k, 2k+1} first takes a 3-bit
    draw, and draws 0 and 1 ascend the slot to trait 4 + k; a slot that does not
    ascend takes one selection bit, 0 choosing the first parent's trait and 1 the
    second's. */
module GeneMixer {
  import opened Outcomes
  import opened GeneCodec

  /** A 3-bit ascension draw. */
  type Draw = d: nat | d < 8

  /** Number of draw values that ascend a matching pair (0 and 1 out of 0..7). */
  const EvolvingRange: nat := 2
  /** The trait that pair {0, 1} ascends to; pair {2k, 2k+1} ascends to AscendBase + k. */
  const AscendBase: nat := 4

  /** `t1` and `t2` are the two members of one pair {2k, 2k+1} with k below
      `pairCount`, the number of pairs the gene science knows how to ascend. */
  predicate IsAscendPair(t1: Trait, t2: Trait, pairCount: nat)
  {
    t1 / 2 == t2 / 2 && t1 != t2 && t1 / 2 < pairCount
  }

  /** ascend(trait1, trait2, rand): the ascended trait, or 0 for "no ascension". */
  function Ascend(t1: Trait, t2: Trait, draw: Draw, pairCount: nat): Trait
  {
    if IsAscendPair(t1, t2, pairCount) && draw < EvolvingRange then AscendBase + t1 / 2 else 0
  }

  /** Range of ascend: the result is 0 ("no ascension") or 4 + k for the pair index k that
      both parent traits share, with k below `pairCount`. */
  lemma AscendRange(t1: Trait, t2: Trait, draw: Draw, pairCount: nat)
    ensures var r := Ascend(t1, t2, draw, pairCount);
      r == 0 || (AscendBase <= r < AscendBase + pairCount && r - AscendBase == t1 / 2 == t2 / 2)
  {
  }

  /** Pair law: the pair {2k, 2k+1}, in either order, ascends to 4 + k exactly for the
      draws in the evolving range, and yields 0 for every other draw. */
  lemma AscendPairLaw(k: nat, draw: Draw, pairCount: nat)
    requires k < pairCount && 2 * k + 1 < FieldSize
    ensures Ascend(2 * k, 2 * k + 1, draw, pairCount) == Ascend(2 * k + 1, 2 * k, draw, pairCount)
    ensures Ascend(2 * k, 2 * k + 1, draw, pairCount) == (if draw < EvolvingRange then AscendBase + k else 0)
  {
  }

  /** Mismatch law, stated contrapositively: whenever ascend yields a trait, the two
      parent traits are exactly the pair {2k, 2k+1} for some k below `pairCount`, and
      the draw lies in the evolving range; so a non-matching pair yields 0 for every draw. */
  lemma AscendOnlyFromPairs(t1: Trait, t2: Trait, draw: Draw, pairCount: nat)
    ensures Ascend(t1, t2, draw, pairCount) != 0 ==>
      var k := t1 / 2;
      k < pairCount && {t1, t2} == {2 * k, 2 * k + 1} && draw < EvolvingRange
  {
  }

  /** The unit-test values of ascend, for any gene science that ascends at least the
      pairs {0,1}, {2,3} and {4,5}. */
  lemma AscendTestVectors(pairCount: nat)
    requires pairCount >= 3
    ensures Ascend(0, 1, 1, pairCount) == 4
    ensures Ascend(2, 3, 1, pairCount) == 5
    ensures Ascend(4, 5, 1, pairCount) == 6
    ensures Ascend(0, 1, 3, pairCount) == 0
    ensures Ascend(2, 3, 5, pairCount) == 0
    ensures Ascend(4, 5, 7, pairCount) == 0
    ensures Ascend(0, 2, 3, pairCount) == 0
    ensures Ascend(1, 2, 1, pairCount) == 0
    ensures Ascend(4, 0, 5, pairCount) == 0
  {
  }

  /** The trait the selection bit picks: bit 0 takes the first parent's trait. */
  function Select(bit: nat, t1: Trait, t2: Trait): Trait
  {
    if bit % 2 == 0 then t1 else t2
  }

  /** One slot: the child's trait and the hashed value left after the bits the slot used. */
  function MixSlot(bits: nat, t1: Trait, t2: Trait, pairCount: nat): (Trait, nat)
  {
    if IsAscendPair(t1, t2, pairCount) then
      var ascended := Ascend(t1, t2, bits % 8, pairCount);
      if ascended != 0 then (ascended, bits / 8)
      else (Select(bits / 8, t1, t2), bits / 16)
    else (Select(bits, t1, t2), bits / 2)
  }

  /** The child traits for parent traits `s1`, `s2` and the hashed value `bits`, slot 0 first. */
  function MixTraits(bits: nat, s1: seq<Trait>, s2: seq<Trait>, pairCount: nat): (child: seq<Trait>)
    requires |s1| == |s2|
    ensures |child| == |s1|
    decreases |s1|
  {
    if s1 == [] then []
    else
      var (t, rest) := MixSlot(bits, s1[0], s2[0], pairCount);
      [t] + MixTraits(rest, s1[1..], s2[1..], pairCount)
  }

  /** Each child trait is the first parent's trait, the second parent's trait, or the
      ascension of an ascendable pair of parent traits at that slot. */
  lemma {:induction false} MixInherits(bits: nat, s1: seq<Trait>, s2: seq<Trait>, pairCount: nat, i: nat)
    requires |s1| == |s2| && i < |s1|
    ensures var child := MixTraits(bits, s1, s2, pairCount);
      child[i] == s1[i] || child[i] == s2[i]
      || (IsAscendPair(s1[i], s2[i], pairCount) && child[i] == AscendBase + s1[i] / 2)
    decreases |s1|
  {
    var (t, rest) := MixSlot(bits, s1[0], s2[0], pairCount);
    if i > 0 {
      MixInherits(rest, s1[1..], s2[1..], pairCount, i - 1);
    }
  }

  /** Parents that agree on every slot pass their traits on unchanged. */
  lemma {:induction false} MixIdentical(bits: nat, s: seq<Trait>, pairCount: nat)
    ensures MixTraits(bits, s, s, pairCount) == s
    decreases |s|
  {
    if s != [] {
      var (t, rest) := MixSlot(bits, s[0], s[0], pairCount);
      MixIdentical(rest, s[1..], pairCount);
    }
  }

  /** At a slot without an ascendable pair the child inherits one parent's trait. */
  lemma MixWithoutPairInherits(bits: nat, s1: seq<Trait>, s2: seq<Trait>, pairCount: nat, i: nat)
    requires |s1| == |s2| && i < |s1|
    requires !IsAscendPair(s1[i], s2[i], pairCount)
    ensures MixTraits(bits, s1, s2, pairCount)[i] in {s1[i], s2[i]}
  {
    MixInherits(bits, s1, s2, pairCount, i);
  }

  /** The genes of the child: the mixed traits of the parents' decoded genes, encoded. */
  function MixedGenes(hashed: nat, genes1: nat, genes2: nat, pairCount: nat): nat
  {
    Pack(MixTraits(hashed, Unpack(genes1), Unpack(genes2), pairCount))
  }

  /** One slot of the mix, unfolded. */
  lemma MixStep(bits: nat, s1: seq<Trait>, s2: seq<Trait>, pairCount: nat, t: Trait, rest: nat)
    requires |s1| == |s2| > 0
    requires MixSlot(bits, s1[0], s2[0], pairCount) == (t, rest)
    ensures MixTraits(bits, s1, s2, pairCount) == [t] + MixTraits(rest, s1[1..], s2[1..], pairCount)
  {
  }

  /** Slot i of the mix, unfolded on the suffixes from slot i. */
  lemma MixStepAt(bits: nat, s1: seq<Trait>, s2: seq<Trait>, pairCount: nat, i: nat, t: Trait, rest: nat)
    requires |s1| == |s2| && i < |s1|
    requires MixSlot(bits, s1[i], s2[i], pairCount) == (t, rest)
    ensures MixTraits(bits, s1[i..], s2[i..], pairCount) == [t] + MixTraits(rest, s1[i + 1..], s2[i + 1..], pairCount)
  {
    assert s1[i..][1..] == s1[i + 1..] && s2[i..][1..] == s2[i + 1..];
    MixStep(bits, s1[i..], s2[i..], pairCount, t, rest);
  }

  /** The child genes of two encoded trait sequences decode to the mixed traits. */
  lemma MixedGenesDecode(hashed: nat, s1: seq<Trait>, s2: seq<Trait>, pairCount: nat)
    requires |s1| == TraitCount && |s2| == TraitCount
    ensures Unpack(MixedGenes(hashed, Pack(s1), Pack(s2), pairCount)) == MixTraits(hashed, s1, s2, pairCount)
  {
    UnpackPack(s1);
    UnpackPack(s2);
    UnpackPack(MixTraits(hashed, s1, s2, pairCount));
  }

  /** Dividing a hashed value whose low part is known by a power of two. */
  lemma ShiftLow(bits: nat, d: nat, x: nat, low: nat)
    requires d == 2 || d == 8 || d == 16
    requires bits == d * x + low
    ensures bits % d == low % d && bits / d == x + low / d
  {
    var q, r := low / d, low % d;
    assert low == d * q + r;
    assert bits == d * (x + q) + r;
  }

  /** The quotients and remainders a slot takes of a hashed value bits == 16 * x + low. */
  lemma SlotArith(bits: nat, x: nat, low: nat)
    requires bits == 16 * x + low
    ensures bits % 2 == low % 2 && bits / 2 == 8 * x + low / 2
    ensures bits % 8 == low % 8 && bits / 8 == 2 * x + low / 8
    ensures (bits / 8) % 2 == (low / 8) % 2 && bits / 16 == x + low / 16
  {
    ShiftLow(bits, 2, 8 * x, low);
    ShiftLow(bits, 8, 2 * x, low);
    ShiftLow(bits, 16, x, low);
    ShiftLow(bits / 8, 2, x, low / 8);
  }

  lemma HalfArith(bits: nat, x: nat, low: nat)
    requires bits == 2 * x + low
    ensures bits % 2 == low % 2 && bits / 2 == x + low / 2
  {
    ShiftLow(bits, 2, x, low);
  }

  /** The slots of worked example 1, one by one, for hashed values ending in 104137. */
  lemma Example1Slots(high: nat, pairCount: nat)
    requires pairCount >= 3
    ensures MixSlot(high * 1048576 + 104137, 0, 1, pairCount) == (4, high * 131072 + 13017)
    ensures MixSlot(high * 131072 + 13017, 3, 2, pairCount) == (5, high * 16384 + 1627)
    ensures MixSlot(high * 16384 + 1627, 1, 0, pairCount) == (0, high * 1024 + 101)
    ensures MixSlot(high * 1024 + 101, 2, 2, pairCount) == (2, high * 512 + 50)
    ensures MixSlot(high * 512 + 50, 3, 2, pairCount) == (3, high * 32 + 3)
    ensures MixSlot(high * 32 + 3, 2, 3, pairCount) == (2, high * 2 + 0)
    ensures MixSlot(high * 2 + 0, 1, 3, pairCount) == (1, high)
  {
    SlotArith(high * 1048576 + 104137, high * 65536, 104137);
    SlotArith(high * 131072 + 13017, high * 8192, 13017);
    SlotArith(high * 16384 + 1627, high * 1024, 1627);
    SlotArith(high * 1024 + 101, high * 64, 101);
    SlotArith(high * 512 + 50, high * 32, 50);
    SlotArith(high * 32 + 3, high * 2, 3);
    HalfArith(high * 2 + 0, high, 0);
  }

  lemma Example1Chain(h: seq<nat>, pairCount: nat)
    requires |h| == 8
    requires MixSlot(h[0], 0, 1, pairCount) == (4, h[1])
    requires MixSlot(h[1], 3, 2, pairCount) == (5, h[2])
    requires MixSlot(h[2], 1, 0, pairCount) == (0, h[3])
    requires MixSlot(h[3], 2, 2, pairCount) == (2, h[4])
    requires MixSlot(h[4], 3, 2, pairCount) == (3, h[5])
    requires MixSlot(h[5], 2, 3, pairCount) == (2, h[6])
    requires MixSlot(h[6], 1, 3, pairCount) == (1, h[7])
    ensures MixTraits(h[0], [0, 3, 1, 2, 3, 2, 1], [1, 2, 0, 2, 2, 3, 3], pairCount) == [4, 5, 0, 2, 3, 2, 1]
  {
    MixStep(h[6], [1], [3], pairCount, 1, h[7]);
    assert MixTraits(h[6], [1], [3], pairCount) == [1];
    MixStep(h[5], [2, 1], [3, 3], pairCount, 2, h[6]);
    assert MixTraits(h[5], [2, 1], [3, 3], pairCount) == [2, 1];
    MixStep(h[4], [3, 2, 1], [2, 3, 3], pairCount, 3, h[5]);
    assert MixTraits(h[4], [3, 2, 1], [2, 3, 3], pairCount) == [3, 2, 1];
    MixStep(h[3], [2, 3, 2, 1], [2, 2, 3, 3], pairCount, 2, h[4]);
    assert MixTraits(h[3], [2, 3, 2, 1], [2, 2, 3, 3], pairCount) == [2, 3, 2, 1];
    MixStep(h[2], [1, 2, 3, 2, 1], [0, 2, 2, 3, 3], pairCount, 0, h[3]);
    assert MixTraits(h[2], [1, 2, 3, 2, 1], [0, 2, 2, 3, 3], pairCount) == [0, 2, 3, 2, 1];
    MixStep(h[1], [3, 1, 2, 3, 2, 1], [2, 0, 2, 2, 3, 3], pairCount, 5, h[2]);
    assert MixTraits(h[1], [3, 1, 2, 3, 2, 1], [2, 0, 2, 2, 3, 3], pairCount) == [5, 0, 2, 3, 2, 1];
    MixStep(h[0], [0, 3, 1, 2, 3, 2, 1], [1, 2, 0, 2, 2, 3, 3], pairCount, 4, h[1]);
    assert MixTraits(h[0], [0, 3, 1, 2, 3, 2, 1], [1, 2, 0, 2, 2, 3, 3], pairCount) == [4, 5, 0, 2, 3, 2, 1];
  }

  /** First worked example: parents [0,3,1,2,3,2,1] and [1,2,0,2,2,3,3]. The slots use the low
      20 bits of the hashed value, ...0 0011 0010 1 1011 001 001 (104137), and give [4,5,0,2,3,2,1]. */
  lemma MixWorkedExample1(hashed: nat, pairCount: nat)
    requires pairCount >= 3
    requires hashed % 0x10_0000 == 104137
    ensures Unpack(MixedGenes(hashed, Pack([0, 3, 1, 2, 3, 2, 1]), Pack([1, 2, 0, 2, 2, 3, 3]), pairCount)) == [4, 5, 0, 2, 3, 2, 1]
  {
    var high := hashed / 1048576;
    assert hashed == high * 1048576 + 104137;
    Example1Slots(high, pairCount);
    Example1Chain([high * 1048576 + 104137, high * 131072 + 13017, high * 16384 + 1627, high * 1024 + 101, high * 512 + 50, high * 32 + 3, high * 2 + 0, high], pairCount);
    MixedGenesDecode(hashed, [0, 3, 1, 2, 3, 2, 1], [1, 2, 0, 2, 2, 3, 3], pairCount);
  }

  /** The slots of worked example 2, one by one, for hashed values ending in 5809888. */
  lemma Example2Slots(high: nat, pairCount: nat)
    requires pairCount >= 3
    ensures MixSlot(high * 8388608 + 5809888, 4, 5, pairCount) == (6, high * 1048576 + 726236)
    ensures MixSlot(high * 1048576 + 726236, 5, 4, pairCount) == (4, high * 65536 + 45389)
    ensures MixSlot(high * 65536 + 45389, 1, 0, pairCount) == (0, high * 4096 + 2836)
    ensures MixSlot(high * 4096 + 2836, 4, 5, pairCount) == (4, high * 256 + 177)
    ensures MixSlot(high * 256 + 177, 3, 2, pairCount) == (5, high * 32 + 22)
    ensures MixSlot(high * 32 + 22, 2, 3, pairCount) == (2, high * 2 + 1)
    ensures MixSlot(high * 2 + 1, 1, 3, pairCount) == (3, high)
  {
    SlotArith(high * 8388608 + 5809888, high * 524288, 5809888);
    SlotArith(high * 1048576 + 726236, high * 65536, 726236);
    SlotArith(high * 65536 + 45389, high * 4096, 45389);
    SlotArith(high * 4096 + 2836, high * 256, 2836);
    SlotArith(high * 256 + 177, high * 16, 177);
    SlotArith(high * 32 + 22, high * 2, 22);
    HalfArith(high * 2 + 1, high, 1);
  }

  lemma Example2Chain(h: seq<nat>, pairCount: nat)
    requires |h| == 8
    requires MixSlot(h[0], 4, 5, pairCount) == (6, h[1])
    requires MixSlot(h[1], 5, 4, pairCount) == (4, h[2])
    requires MixSlot(h[2], 1, 0, pairCount) == (0, h[3])
    requires MixSlot(h[3], 4, 5, pairCount) == (4, h[4])
    requires MixSlot(h[4], 3, 2, pairCount) == (5, h[5])
    requires MixSlot(h[5], 2, 3, pairCount) == (2, h[6])
    requires MixSlot(h[6], 1, 3, pairCount) == (3, h[7])
    ensures MixTraits(h[0], [4, 5, 1, 4, 3, 2, 1], [5, 4, 0, 5, 2, 3, 3], pairCount) == [6, 4, 0, 4, 5, 2, 3]
  {
    MixStep(h[6], [1], [3], pairCount, 3, h[7]);
    assert MixTraits(h[6], [1], [3], pairCount) == [3];
    MixStep(h[5], [2, 1], [3, 3], pairCount, 2, h[6]);
    assert MixTraits(h[5], [2, 1], [3, 3], pairCount) == [2, 3];
    MixStep(h[4], [3, 2, 1], [2, 3, 3], pairCount, 5, h[5]);
    assert MixTraits(h[4], [3, 2, 1], [2, 3, 3], pairCount) == [5, 2, 3];
    MixStep(h[3], [4, 3, 2, 1], [5, 2, 3, 3], pairCount, 4, h[4]);
    assert MixTraits(h[3], [4, 3, 2, 1], [5, 2, 3, 3], pairCount) == [4, 5, 2, 3];
    MixStep(h[2], [1, 4, 3, 2, 1], [0, 5, 2, 3, 3], pairCount, 0, h[3]);
    assert MixTraits(h[2], [1, 4, 3, 2, 1], [0, 5, 2, 3, 3], pairCount) == [0, 4, 5, 2, 3];
    MixStep(h[1], [5, 1, 4, 3, 2, 1], [4, 0, 5, 2, 3, 3], pairCount, 4, h[2]);
    assert MixTraits(h[1], [5, 1, 4, 3, 2, 1], [4, 0, 5, 2, 3, 3], pairCount) == [4, 0, 4, 5, 2, 3];
    MixStep(h[0], [4, 5, 1, 4, 3, 2, 1], [5, 4, 0, 5, 2, 3, 3], pairCount, 6, h[1]);
    assert MixTraits(h[0], [4, 5, 1, 4, 3, 2, 1], [5, 4, 0, 5, 2, 3, 3], pairCount) == [6, 4, 0, 4, 5, 2, 3];
  }

  /** Second worked example: parents [4,5,1,4,3,2,1] and [5,4,0,5,2,3,3]. The slots use the low
      23 bits of the hashed value, ...1 0110 001 0100 1101 1100 000 (5809888), and give [6,4,0,4,5,2,3]. */
  lemma MixWorkedExample2(hashed: nat, pairCount: nat)
    requires pairCount >= 3
    requires hashed % 0x80_0000 == 5809888
    ensures Unpack(MixedGenes(hashed, Pack([4, 5, 1, 4, 3, 2, 1]), Pack([5, 4, 0, 5, 2, 3, 3]), pairCount)) == [6, 4, 0, 4, 5, 2, 3]
  {
    var high := hashed / 8388608;
    assert hashed == high * 8388608 + 5809888;
    Example2Slots(high, pairCount);
    Example2Chain([high * 8388608 + 5809888, high * 1048576 + 726236, high * 65536 + 45389, high * 4096 + 2836, high * 256 + 177, high * 32 + 22, high * 2 + 1, high], pairCount);
    MixedGenesDecode(hashed, [4, 5, 1, 4, 3, 2, 1], [5, 4, 0, 5, 2, 3, 3], pairCount);
  }

  /** The body of mixGenes' loop for one slot. An ascendable pair reads a 3-bit draw:
      a draw in the evolving range ascends the pair and consumes those 3 bits; otherwise
      the bit above the draw selects a parent and 4 bits are consumed. Any other slot
      selects a parent with its lowest bit and consumes 1 bit. */
  method MixSlotStep(rand: nat, t1: Trait, t2: Trait, pairCount: nat) returns (inherited: Trait, rest: nat)
    ensures IsAscendPair(t1, t2, pairCount) && rand % 8 < EvolvingRange ==>
      inherited == AscendBase + t1 / 2 && rest == rand / 8
    ensures IsAscendPair(t1, t2, pairCount) && rand % 8 >= EvolvingRange ==>
      inherited == (if (rand / 8) % 2 == 0 then t1 else t2) && rest == rand / 16
    ensures !IsAscendPair(t1, t2, pairCount) ==>
      inherited == (if rand % 2 == 0 then t1 else t2) && rest == rand / 2
  {
    if IsAscendPair(t1, t2, pairCount) {
      var ascended := Ascend(t1, t2, rand % 8, pairCount);
      if ascended != 0 {
        inherited := ascended;
        rest := rand / 8;
      } else {
        inherited := if (rand / 8) % 2 == 0 then t1 else t2;
        rest := rand / 16;
      }
    } else {
      inherited := if rand % 2 == 0 then t1 else t2;
      rest := rand / 2;
    }
  }

  /** The three cases of one slot, as MixSlotStep states them, make up MixSlot. */
  lemma SlotCases(rand: nat, t1: Trait, t2: Trait, pairCount: nat, inherited: Trait, rest: nat)
    requires IsAscendPair(t1, t2, pairCount) && rand % 8 < EvolvingRange ==>
      inherited == AscendBase + t1 / 2 && rest == rand / 8
    requires IsAscendPair(t1, t2, pairCount) && rand % 8 >= EvolvingRange ==>
      inherited == (if (rand / 8) % 2 == 0 then t1 else t2) && rest == rand / 16
    requires !IsAscendPair(t1, t2, pairCount) ==>
      inherited == (if rand % 2 == 0 then t1 else t2) && rest == rand / 2
    ensures MixSlot(rand, t1, t2, pairCount) == (inherited, rest)
  {
  }

  /** One turn of mixGenes' loop keeps its invariant: the traits found so far followed
      by the mix of the remaining slots are the whole mix. */
  lemma LoopStep(hashed: nat, traits1: seq<Trait>, traits2: seq<Trait>, pairCount: nat,
                 traits: seq<Trait>, i: nat, rand: nat, inherited: Trait, rest: nat)
    requires |traits1| == |traits2| && i < |traits1|
    requires MixTraits(hashed, traits1, traits2, pairCount) == traits + MixTraits(rand, traits1[i..], traits2[i..], pairCount)
    requires IsAscendPair(traits1[i], traits2[i], pairCount) && rand % 8 < EvolvingRange ==>
      inherited == AscendBase + traits1[i] / 2 && rest == rand / 8
    requires IsAscendPair(traits1[i], traits2[i], pairCount) && rand % 8 >= EvolvingRange ==>
      inherited == (if (rand / 8) % 2 == 0 then traits1[i] else traits2[i]) && rest == rand / 16
    requires !IsAscendPair(traits1[i], traits2[i], pairCount) ==>
      inherited == (if rand % 2 == 0 then traits1[i] else traits2[i]) && rest == rand / 2
    ensures MixTraits(hashed, traits1, traits2, pairCount)
         == (traits + [inherited]) + MixTraits(rest, traits1[i + 1..], traits2[i + 1..], pairCount)
  {
    SlotCases(rand, traits1[i], traits2[i], pairCount, inherited, rest);
    MixStepAt(rand, traits1, traits2, pairCount, i, inherited, rest);
    assert traits + [inherited] + MixTraits(rest, traits1[i + 1..], traits2[i + 1..], pairCount)
        == traits + ([inherited] + MixTraits(rest, traits1[i + 1..], traits2[i + 1..], pairCount));
  }

  /** The loop of mixGenes over the 7 slots, slot 0 first, reading the hashed value from
      its low end. */
  method MixTraitsLoop(hashed: nat, traits1: seq<Trait>, traits2: seq<Trait>, pairCount: nat) returns (traits: seq<Trait>)
    requires |traits1| == TraitCount && |traits2| == TraitCount
    ensures traits == MixTraits(hashed, traits1, traits2, pairCount)
  {
    var rand := hashed;
    traits := [];
    var i := 0;
    while i < TraitCount
      invariant 0 <= i <= TraitCount
      invariant |traits| == i
      invariant MixTraits(hashed, traits1, traits2, pairCount) == traits + MixTraits(rand, traits1[i..], traits2[i..], pairCount)
    {
      ghost var before := rand;
      var inherited;
      inherited, rand := MixSlotStep(rand, traits1[i], traits2[i], pairCount);
      LoopStep(hashed, traits1, traits2, pairCount, traits, i, before, inherited, rand);
      traits := traits + [inherited];
      i := i + 1;
    }
  }

  /** mixGenes(genes1, genes2, random): hash (random, genes1, genes2), mix the decoded
      traits slot by slot and encode the result. */
  method MixGenes(hash: (nat, nat, nat) -> nat, random: nat, genes1: nat, genes2: nat, pairCount: nat)
    returns (child: nat)
    ensures child < Pow32(TraitCount)
    ensures Unpack(child) == MixTraits(hash(random, genes1, genes2), Unpack(genes1), Unpack(genes2), pairCount)
    ensures child == MixedGenes(hash(random, genes1, genes2), genes1, genes2, pairCount)
  {
    var traits1 := DecodeGenes(genes1);
    var traits2 := DecodeGenes(genes2);
    assert traits1 == Unpack(genes1) && traits2 == Unpack(genes2);
    var traits := MixTraitsLoop(hash(random, genes1, genes2), traits1, traits2, pairCount);
    var encoded := EncodeTraits(traits);
    child := encoded.value;
    PackUnpack(child);
  }
}
