/** The breeding sequence of the test suite replayed on the registry: one pair bred three
    times with the default tables pays 20 BUSD and then 400, 2000 and 3200 SING, gives
    birth after each cooldown, and is then refused for the matron's breeding limit. */
module BreedingScenario {
  import opened Outcomes
  import opened Passes
  import opened FeeSchedule
  import opened SuperPassRegistry

  const Owner: Address := 2
  const Treasury: Address := 1

  /** SING the owner has paid after `round` breedings at the default fees. */
  function SingSpent(round: nat): nat
    requires round <= 3
  {
    if round == 0 then 0 else SingSpent(round - 1) + InitialSingFees()[round - 1]
  }

  /** Passes 1 and 2 belong to Owner, have bred `round` times each, carry nothing and have
      finished resting at `now`; the owner has paid the fees of `round` breedings out of `funds`. */
  ghost predicate PairState(sp: SuperPass, round: nat, now: nat, funds: nat)
    reads sp
  {
    round <= 3 &&
    sp.Valid() && sp.maxBreedTimes == 3 && sp.treasury == Treasury &&
    sp.busdFee == InitialBusdFees() && sp.singFee == InitialSingFees() &&
    |sp.passes| == 2 + round && sp.owners[0] == Owner && sp.owners[1] == Owner &&
    sp.passes[0].siringWithId == 0 && sp.passes[1].siringWithId == 0 &&
    sp.passes[0].cooldownEndTime <= now && sp.passes[1].cooldownEndTime <= now &&
    sp.passes[0].cooldownIndex == round && sp.passes[1].cooldownIndex == round &&
    Balance(sp.busdBalance, Owner) + 20 * Ether * round == funds &&
    Balance(sp.singBalance, Owner) + SingSpent(round) == funds
  }

  /** breedWith of passes 1 and 2 by their owner in round `round`: the fees of the tier
      `round` are paid and the matron carries pass 2. */
  method BreedStep(sp: SuperPass, round: nat, now: nat, funds: nat) returns (busd: nat, sing: nat)
    requires round < 3 && PairState(sp, round, now, funds) && funds >= 5600 * Ether
    modifies sp
    ensures sp.Valid() && sp.maxBreedTimes == 3 && sp.treasury == Treasury
    ensures sp.busdFee == InitialBusdFees() && sp.singFee == InitialSingFees()
    ensures sp.cooldowns == old(sp.cooldowns) && sp.owners == old(sp.owners)
    ensures |sp.passes| == 2 + round
    ensures sp.passes[0].siringWithId == 2 && sp.passes[1].siringWithId == 0
    ensures sp.passes[0].cooldownEndTime == now + sp.cooldowns[round]
    ensures sp.passes[1].cooldownEndTime == now + sp.cooldowns[round]
    ensures sp.passes[0].cooldownIndex == round + 1 && sp.passes[1].cooldownIndex == round + 1
    ensures Balance(sp.busdBalance, Owner) + 20 * Ether * (round + 1) == funds
    ensures Balance(sp.singBalance, Owner) + SingSpent(round + 1) == funds
    ensures busd == 20 * Ether && sing == InitialSingFees()[round]
  {
    var busdBefore := Balance(sp.busdBalance, Owner);
    var singBefore := Balance(sp.singBalance, Owner);
    var bred := sp.BreedWith(Owner, 1, 2, false, now);
    assert bred.Ok?;
    busd := busdBefore - Balance(sp.busdBalance, Owner);
    sing := singBefore - Balance(sp.singBalance, Owner);
  }

  /** One breedWith of passes 1 and 2 followed by giveBirth once the matron has rested. */
  method BreedingRound(sp: SuperPass, round: nat, now: nat, funds: nat) returns (busd: nat, sing: nat, child: PassId, later: nat)
    requires round < 3 && PairState(sp, round, now, funds) && funds >= 5600 * Ether
    modifies sp
    ensures PairState(sp, round + 1, later, funds)
    ensures busd == 20 * Ether && sing == InitialSingFees()[round] && child == 3 + round
  {
    busd, sing := BreedStep(sp, round, now, funds);
    later := now + sp.cooldowns[round];
    var born := sp.GiveBirth(1, round, 1, false, later);
    assert born.Ok?;
    child := born.value;
    assert sp.passes[0] == sp.passes[..2 + round][0];
    assert sp.passes[1] == sp.passes[..2 + round][1];
  }

  /** A fresh registry with the default tables in which Owner holds passes 1 and 2 and
      `funds` of each token. */
  method FreshPair(secondCooldown: nat, thirdCooldown: nat, growth: nat -> Tier,
                   hash: (nat, nat, nat) -> nat, ascendablePairs: nat, genes1: nat, genes2: nat, funds: nat)
    returns (sp: SuperPass)
    ensures fresh(sp) && PairState(sp, 0, 0, funds)
  {
    sp := new SuperPass("uri", 10, 11, Treasury, 12, secondCooldown, thirdCooldown, growth,
                        hash, ascendablePairs, map[Owner := funds], map[Owner := funds]);
    var m := sp.MintSingle(true, false, 1, genes1, 1, Owner, 0);
    var s := sp.MintSingle(true, false, 2, genes2, 1, Owner, 0);
  }

  /** After three breedings a fourth breedWith of the pair is refused: the matron has
      reached the breeding limit. */
  method FourthBreeding(sp: SuperPass, now: nat, funds: nat) returns (r: Result<()>)
    requires PairState(sp, 3, now, funds)
    modifies sp
    ensures r == Err(MatronBreedingLimit)
  {
    r := sp.BreedWith(Owner, 1, 2, false, now);
  }

  method ThreeBreedings(secondCooldown: nat, thirdCooldown: nat, growth: nat -> Tier,
                        hash: (nat, nat, nat) -> nat, ascendablePairs: nat, genes1: nat, genes2: nat)
    returns (busdPaid: seq<nat>, singPaid: seq<nat>, children: seq<PassId>, fourth: Result<()>)
    ensures busdPaid == [20 * Ether, 20 * Ether, 20 * Ether]
    ensures singPaid == [400 * Ether, 2000 * Ether, 3200 * Ether]
    ensures children == [3, 4, 5]
    ensures fourth == Err(MatronBreedingLimit)
  {
    var funds := 10000 * Ether;
    var sp := FreshPair(secondCooldown, thirdCooldown, growth, hash, ascendablePairs, genes1, genes2, funds);

    var busd1, sing1, child1, now1 := BreedingRound(sp, 0, 0, funds);
    var busd2, sing2, child2, now2 := BreedingRound(sp, 1, now1, funds);
    var busd3, sing3, child3, now3 := BreedingRound(sp, 2, now2, funds);
    busdPaid, singPaid, children := [busd1, busd2, busd3], [sing1, sing2, sing3], [child1, child2, child3];
    fourth := FourthBreeding(sp, now3, funds);
  }
}
