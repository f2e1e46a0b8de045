/** The pass record and the breeding state it encodes. */
module Passes {

  /** Pass ids start at 1; 0 means "no pass" (no parent, not pregnant). */
  type PassId = nat
  /** Account addresses; 0 is the zero address. */
  type Address = nat

  const ZeroAddress: Address := 0

  /** One pass as stored in the `superPasses` mapping. */
  datatype Pass = Pass(
    genes: nat,
    birthTime: nat,
    cooldownEndTime: nat,
    matronId: PassId,
    sireId: PassId,
    siringWithId: PassId,
    cooldownIndex: nat,
    generation: nat,
    singerId: nat,
    classTier: nat)

  /** Two records of the same pass agree on everything fixed at its creation: only the
      cooldown fields and the pregnancy link may change afterwards. */
  predicate SameLineage(p: Pass, q: Pass)
  {
    p.genes == q.genes && p.birthTime == q.birthTime && p.matronId == q.matronId && p.sireId == q.sireId &&
    p.generation == q.generation && p.singerId == q.singerId && p.classTier == q.classTier
  }

  /** A freshly minted genesis pass: no parents, generation 0, no cooldown, not pregnant. */
  function Genesis(genes: nat, singerId: nat, classTier: nat, now: nat): Pass
  {
    Pass(genes, now, 0, 0, 0, 0, 0, 0, singerId, classTier)
  }

  /** The breeding state a pass is in, derived from its fields. */
  datatype Status = Available | CoolingDown | Pregnant | Exhausted

  function StatusOf(p: Pass, now: nat, maxBreedTimes: nat): Status
  {
    if p.siringWithId != 0 then Pregnant
    else if p.cooldownIndex >= maxBreedTimes then Exhausted
    else if now < p.cooldownEndTime then CoolingDown
    else Available
  }

  /** isReadyToBreed on a stored pass. */
  predicate ReadyToBreed(p: Pass, now: nat, maxBreedTimes: nat)
  {
    p.siringWithId == 0 && p.cooldownEndTime <= now && p.cooldownIndex < maxBreedTimes
  }

  /** Readiness is exactly the Available state. */
  lemma ReadyIffAvailable(p: Pass, now: nat, maxBreedTimes: nat)
    ensures ReadyToBreed(p, now, maxBreedTimes) <==> StatusOf(p, now, maxBreedTimes) == Available
  {
  }

  /** A genesis pass is ready to breed at any time, as long as the tables allow one breeding. */
  lemma GenesisReady(genes: nat, singerId: nat, classTier: nat, birth: nat, now: nat, maxBreedTimes: nat)
    requires maxBreedTimes > 0
    ensures ReadyToBreed(Genesis(genes, singerId, classTier, birth), now, maxBreedTimes)
  {
  }

  /** A pass after taking part in one breeding: its breeding count goes up, it rests for
      the cooldown of the count it had before, and a matron records the sire it carries
      (a sire passes 0, its own pregnancy link, which readiness requires to be 0). */
  function Bred(p: Pass, now: nat, cooldowns: seq<nat>, partner: PassId): Pass
    requires p.cooldownIndex < |cooldowns|
  {
    p.(cooldownIndex := p.cooldownIndex + 1,
       cooldownEndTime := now + cooldowns[p.cooldownIndex],
       siringWithId := partner)
  }

  /** A matron is pregnant after breeding and cannot breed again at any time until birth. */
  lemma MatronPregnantAfterBreeding(p: Pass, now: nat, cooldowns: seq<nat>, sireId: PassId, later: nat, maxBreedTimes: nat)
    requires p.cooldownIndex < |cooldowns| && sireId != 0
    ensures StatusOf(Bred(p, now, cooldowns, sireId), later, maxBreedTimes) == Pregnant
    ensures !ReadyToBreed(Bred(p, now, cooldowns, sireId), later, maxBreedTimes)
  {
  }

  /** A ready sire rests for exactly the cooldown of its old breeding count: it is not
      ready before the cooldown ends, ready again when it ends if it has breedings left,
      and exhausted for good after its last allowed breeding. */
  lemma SireRestsAfterBreeding(p: Pass, now: nat, cooldowns: seq<nat>, maxBreedTimes: nat, later: nat)
    requires ReadyToBreed(p, now, maxBreedTimes) && maxBreedTimes <= |cooldowns|
    ensures later < now + cooldowns[p.cooldownIndex] ==> !ReadyToBreed(Bred(p, now, cooldowns, 0), later, maxBreedTimes)
    ensures p.cooldownIndex + 1 < maxBreedTimes && now + cooldowns[p.cooldownIndex] <= later
        ==> ReadyToBreed(Bred(p, now, cooldowns, 0), later, maxBreedTimes)
    ensures p.cooldownIndex + 1 == maxBreedTimes ==> StatusOf(Bred(p, now, cooldowns, 0), later, maxBreedTimes) == Exhausted
  {
  }
}
