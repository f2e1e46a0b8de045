/** The administrator's table resizing of the test suite replayed on the registry: the
    tables cut from 3 to 2 tiers and grown to 4 take the growth defaults at tiers 2 and
    3, not the entries the cut dropped. */
module AdminScenario {
  import opened FeeSchedule
  import opened SuperPassRegistry

  /** updateMaxBreedTimes(2) then updateMaxBreedTimes(4) on a fresh registry whose growth
      defaults are 30 BUSD, 10000 SING, 5 days at tier 2 and 40 BUSD, 10000 SING, 7 days
      at tier 3. */
  method ShrinkThenGrowTables(secondCooldown: nat, thirdCooldown: nat, growth: nat -> Tier,
                              hash: (nat, nat, nat) -> nat, ascendablePairs: nat)
    returns (busd: seq<nat>, sing: seq<nat>, cooldowns: seq<nat>, maxBreedTimes: nat)
    requires growth(2) == Tier(30 * Ether, 10000 * Ether, 5 * Day)
    requires growth(3) == Tier(40 * Ether, 10000 * Ether, 7 * Day)
    ensures maxBreedTimes == 4
    ensures busd == [20 * Ether, 20 * Ether, 30 * Ether, 40 * Ether]
    ensures sing == [400 * Ether, 2000 * Ether, 10000 * Ether, 10000 * Ether]
    ensures cooldowns == [Day, secondCooldown, 5 * Day, 7 * Day]
  {
    var sp := new SuperPass("uri", 10, 11, 1, 12, secondCooldown, thirdCooldown, growth,
                            hash, ascendablePairs, map[], map[]);
    var shrunk := sp.UpdateMaxBreedTimes(true, 2);
    var grown := sp.UpdateMaxBreedTimes(true, 4);
    busd, sing, cooldowns, maxBreedTimes := sp.busdFee, sp.singFee, sp.cooldowns, sp.maxBreedTimes;
  }
}
