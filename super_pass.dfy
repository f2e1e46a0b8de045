/** The SuperPass registry: minting, readiness, siring approval, breeding, birth, and
    the administrator's tables and settings. Roles and the pause switch are inputs
    (`callerIsAdmin`, `callerIsMinter`, `paused`); the block time is `now`. */
module SuperPassRegistry {
  import opened Outcomes
  import opened Passes
  import opened Family
  import opened FeeSchedule
  import opened GeneCodec
  import opened GeneMixer

  const Day: nat := 86400
  const Ether: nat := 1_000_000_000_000_000_000

  /** At most this many passes come from mintSingle. */
  const Gen0Cap: nat := 300
  /** Launchpad passes cycle through this many singers. */
  const SingerCount: nat := 3
  /** Every launchpad pass has this class. */
  const LaunchpadClass: nat := 1
  const InitialMaxBreedTimes: nat := 3
  /** Multiplier of the flat drop-rate key; the classes are 0, 1 and 2. */
  const MaxClassIndex: nat := 2

  /** The key under which the drop rate of the class pair (a, b) is stored. */
  function DropRateKey(a: nat, b: nat): nat
  {
    a * MaxClassIndex + b
  }

  /** The key identifies the pair only while the second class is below MaxClassIndex;
      with the top class 2 as second class, (0, 2) and (1, 0) share key 2. */
  lemma DropRateKeyInjectivity(a: nat, b: nat, c: nat, d: nat)
    ensures b < MaxClassIndex && d < MaxClassIndex ==> (DropRateKey(a, b) == DropRateKey(c, d) <==> a == c && b == d)
    ensures DropRateKey(0, 2) == DropRateKey(1, 0)
  {
  }

  /** The passes a launchpad batch mints after `start` existing passes: genesis passes of
      class LaunchpadClass whose singer cycles with the id (`(id - 1) % SingerCount`). */
  function LaunchpadPasses(start: nat, genes: seq<nat>, now: nat): seq<Pass>
  {
    seq(|genes|, i requires 0 <= i < |genes| => Genesis(genes[i], (start + i) % SingerCount, LaunchpadClass, now))
  }

  /** Two batches in a row mint the same passes as one batch of both gene lists: the
      singer cycle continues across batches. */
  lemma LaunchpadBatchesCompose(start: nat, genes1: seq<nat>, genes2: seq<nat>, now: nat)
    ensures LaunchpadPasses(start, genes1, now) + LaunchpadPasses(start + |genes1|, genes2, now)
         == LaunchpadPasses(start, genes1 + genes2, now)
  {
    var left := LaunchpadPasses(start, genes1, now) + LaunchpadPasses(start + |genes1|, genes2, now);
    var whole := LaunchpadPasses(start, genes1 + genes2, now);
    assert |left| == |whole|;
    forall i | 0 <= i < |whole|
      ensures left[i] == whole[i]
    {
      if i >= |genes1| {
        assert (start + |genes1|) + (i - |genes1|) == start + i;
      }
    }
  }

  /** The child a gestating matron delivers. */
  function Offspring(matronId: PassId, matron: Pass, sire: Pass, genes: nat, classTier: nat, now: nat): Pass
  {
    var generation := if matron.generation >= sire.generation then matron.generation else sire.generation;
    Pass(genes, now, 0, matronId, matron.siringWithId, 0, 0, generation + 1, matron.singerId, classTier)
  }

  /** Delivering a child clears the matron's pregnancy and appends the child; every
      existing pass keeps its lineage. */
  lemma BirthKeepsLineage(ps: seq<Pass>, k: nat, child: Pass)
    requires k < |ps|
    ensures var qs := ps[k := ps[k].(siringWithId := 0)] + [child];
      |qs| == |ps| + 1 && qs[..|ps|] == ps[k := ps[k].(siringWithId := 0)] && qs[|ps|] == child &&
      forall i :: 0 <= i < |ps| ==> SameLineage(qs[i], ps[i])
  {
    var qs := ps[k := ps[k].(siringWithId := 0)] + [child];
    assert qs[..|ps|] == ps[k := ps[k].(siringWithId := 0)];
  }

  /** Default tables: 20 BUSD for each tier, SING 400, 2000 and 3200, a one-day first cooldown. */
  function InitialBusdFees(): seq<nat> { [20 * Ether, 20 * Ether, 20 * Ether] }
  function InitialSingFees(): seq<nat> { [400 * Ether, 2000 * Ether, 3200 * Ether] }

  class SuperPass {
    /** The pass with id k is passes[k - 1] and belongs to owners[k - 1]. */
    var passes: seq<Pass>
    var owners: seq<Address>
    var sireAllowedToAddress: map<PassId, Address>

    var busdFee: seq<nat>
    var singFee: seq<nat>
    var cooldowns: seq<nat>
    var maxBreedTimes: nat

    var treasury: Address
    var randomService: Address
    var busdToken: Address
    var singToken: Address
    var launchpad: Address
    var baseURI: string
    var sameClassProb: map<nat, nat>
    var diffClassProb: map<nat, nat>
    var launchpadMaxSupply: nat
    var launchpadSupply: nat
    var gen0Supply: nat

    /** BUSD and SING balances of the accounts. */
    var busdBalance: map<Address, nat>
    var singBalance: map<Address, nat>

    /** The entry for tier i that growing the tables appends. */
    const growth: nat -> Tier
    /** keccak256 over (random, genes1, genes2), as used by the gene mixer. */
    const hash: (nat, nat, nat) -> nat
    /** The number of trait pairs that can ascend. */
    const ascendablePairs: nat

    ghost predicate Valid()
      reads this
    {
      |owners| == |passes| &&
      |busdFee| == maxBreedTimes && |singFee| == maxBreedTimes && |cooldowns| == maxBreedTimes &&
      gen0Supply <= Gen0Cap &&
      AllLinked(passes)
    }

    predicate Exists(id: PassId)
      reads this
    {
      1 <= id <= |passes|
    }

    predicate SireApproved(sireId: PassId, caller: Address)
      reads this
    {
      sireId in sireAllowedToAddress && sireAllowedToAddress[sireId] == caller
    }

    /** init(name, symbol, baseURI, busd, sing, treasury, randomService); the token name and
        symbol are not modelled, the constants of the mixer and the tables come in as parameters. */
    constructor (baseURI: string, busdToken: Address, singToken: Address, treasury: Address, randomService: Address,
                 secondCooldown: nat, thirdCooldown: nat, growth: nat -> Tier,
                 hash: (nat, nat, nat) -> nat, ascendablePairs: nat,
                 busdBalance: map<Address, nat>, singBalance: map<Address, nat>)
      ensures Valid()
      ensures passes == [] && owners == [] && sireAllowedToAddress == map[]
      ensures maxBreedTimes == InitialMaxBreedTimes
      ensures busdFee == InitialBusdFees() && singFee == InitialSingFees()
      ensures cooldowns == [Day, secondCooldown, thirdCooldown]
      ensures this.treasury == treasury && this.randomService == randomService
      ensures this.busdToken == busdToken && this.singToken == singToken && this.baseURI == baseURI
      ensures launchpad == ZeroAddress && launchpadMaxSupply == 0 && launchpadSupply == 0 && gen0Supply == 0
      ensures sameClassProb == map[] && diffClassProb == map[]
      ensures this.busdBalance == busdBalance && this.singBalance == singBalance
      ensures this.growth == growth && this.hash == hash && this.ascendablePairs == ascendablePairs
    {
      passes := [];
      owners := [];
      sireAllowedToAddress := map[];
      maxBreedTimes := InitialMaxBreedTimes;
      busdFee := InitialBusdFees();
      singFee := InitialSingFees();
      cooldowns := [Day, secondCooldown, thirdCooldown];
      this.treasury := treasury;
      this.randomService := randomService;
      this.busdToken := busdToken;
      this.singToken := singToken;
      this.baseURI := baseURI;
      launchpad := ZeroAddress;
      sameClassProb := map[];
      diffClassProb := map[];
      launchpadMaxSupply := 0;
      launchpadSupply := 0;
      gen0Supply := 0;
      this.busdBalance := busdBalance;
      this.singBalance := singBalance;
      this.growth := growth;
      this.hash := hash;
      this.ascendablePairs := ascendablePairs;
    }

    /** isReadyToBreed(id): id 0 and unminted ids revert; otherwise the pass is ready
        exactly when it is neither pregnant, nor cooling down, nor out of breedings. */
    function IsReadyToBreed(id: PassId, now: nat): (r: Result<bool>)
      reads this
      ensures id == 0 ==> r == Err(InvalidId)
      ensures id > |passes| ==> r == Err(NonexistentPass)
      ensures Exists(id) ==> r.Ok? && (r.value <==> StatusOf(passes[id - 1], now, maxBreedTimes) == Available)
    {
      if id == 0 then Err(InvalidId)
      else if id > |passes| then Err(NonexistentPass)
      else
        ReadyIffAvailable(passes[id - 1], now, maxBreedTimes);
        Ok(ReadyToBreed(passes[id - 1], now, maxBreedTimes))
    }

    /** The conditions under which breedWith succeeds, stated without their order. */
    predicate BreedAllowed(caller: Address, matronId: PassId, sireId: PassId, paused: bool, now: nat)
      reads this
      requires Valid()
    {
      !paused && Exists(matronId) && Exists(sireId) && matronId != sireId &&
      owners[matronId - 1] == caller &&
      (owners[sireId - 1] == caller || SireApproved(sireId, caller)) &&
      ReadyToBreed(passes[matronId - 1], now, maxBreedTimes) &&
      ReadyToBreed(passes[sireId - 1], now, maxBreedTimes) &&
      busdFee[passes[matronId - 1].cooldownIndex] <= Balance(busdBalance, caller) &&
      singFee[passes[matronId - 1].cooldownIndex] <= Balance(singBalance, caller)
    }

    /** The ownership and pairing checks of breedWith: both passes exist, the caller owns
        the matron, the two differ, and the caller owns the sire or is approved for it. */
    predicate MayPair(caller: Address, matronId: PassId, sireId: PassId)
      reads this
      requires Valid()
    {
      Exists(matronId) && owners[matronId - 1] == caller && matronId != sireId &&
      Exists(sireId) && (owners[sireId - 1] == caller || SireApproved(sireId, caller))
    }

    /** The first check of breedWith that fails, in the contract's order; None when the
        breeding goes ahead. */
    function BreedRejection(caller: Address, matronId: PassId, sireId: PassId, paused: bool, now: nat): (r: Option<Error>)
      reads this
      requires Valid()
      ensures r.None? <==> BreedAllowed(caller, matronId, sireId, paused, now)
      ensures r == Some(Paused) <==> paused
      ensures !paused && Exists(matronId) && owners[matronId - 1] == caller && matronId == sireId
          ==> r == Some(InvalidMatingPair)
      ensures !paused && Exists(matronId) && owners[matronId - 1] != caller ==> r == Some(NotMatronOwner)
      ensures !paused && MayPair(caller, matronId, sireId) && passes[matronId - 1].cooldownIndex >= maxBreedTimes
          ==> r == Some(MatronBreedingLimit)
      ensures !paused && MayPair(caller, matronId, sireId) && passes[matronId - 1].cooldownIndex < maxBreedTimes
              && passes[sireId - 1].cooldownIndex >= maxBreedTimes
          ==> r == Some(SireBreedingLimit)
    {
      if paused then Some(Paused)
      else if !Exists(matronId) then Some(NonexistentPass)
      else if owners[matronId - 1] != caller then Some(NotMatronOwner)
      else if matronId == sireId then Some(InvalidMatingPair)
      else if !Exists(sireId) then Some(NonexistentPass)
      else if owners[sireId - 1] != caller && !SireApproved(sireId, caller) then Some(SireNotApproved)
      else
        var matron := passes[matronId - 1];
        var sire := passes[sireId - 1];
        if matron.cooldownIndex >= maxBreedTimes then Some(MatronBreedingLimit)
        else if sire.cooldownIndex >= maxBreedTimes then Some(SireBreedingLimit)
        else if !ReadyToBreed(matron, now, maxBreedTimes) then Some(MatronNotReady)
        else if !ReadyToBreed(sire, now, maxBreedTimes) then Some(SireNotReady)
        else if Balance(busdBalance, caller) < busdFee[matron.cooldownIndex] then Some(InsufficientBusd)
        else if Balance(singBalance, caller) < singFee[matron.cooldownIndex] then Some(InsufficientSing)
        else None
    }

    /** approveSiring(sireId, to): the sire's owner lets `to` use it as a sire once. */
    method ApproveSiring(caller: Address, sireId: PassId, to: Address, paused: bool) returns (r: Result<()>)
      requires Valid()
      modifies this`sireAllowedToAddress
      ensures Valid()
      ensures paused ==> r == Err(Paused)
      ensures !paused && !Exists(sireId) ==> r == Err(NonexistentPass)
      ensures !paused && Exists(sireId) && owners[sireId - 1] != caller ==> r == Err(NotSireOwner)
      ensures r.Ok? <==> !paused && Exists(sireId) && owners[sireId - 1] == caller
      ensures r.Ok? ==> sireAllowedToAddress == old(sireAllowedToAddress)[sireId := to]
      ensures r.Err? ==> sireAllowedToAddress == old(sireAllowedToAddress)
    {
      if paused {
        return Err(Paused);
      }
      if !Exists(sireId) {
        return Err(NonexistentPass);
      }
      if owners[sireId - 1] != caller {
        return Err(NotSireOwner);
      }
      sireAllowedToAddress := sireAllowedToAddress[sireId := to];
      r := Ok(());
    }

    /** breedWith(matronId, sireId): on success both passes take one breeding and rest
        for the cooldown of their old breeding count, the matron carries the sire, the
        sire's approval is used up, and the matron's tier fees go from the caller to the
        treasury. */
    method BreedWith(caller: Address, matronId: PassId, sireId: PassId, paused: bool, now: nat) returns (r: Result<()>)
      requires Valid()
      modifies this`passes, this`sireAllowedToAddress, this`busdBalance, this`singBalance
      ensures Valid()
      ensures r.Ok? <==> old(BreedAllowed(caller, matronId, sireId, paused, now))
      ensures r.Err? ==> Some(r.error) == old(BreedRejection(caller, matronId, sireId, paused, now))
      ensures r.Err? ==> passes == old(passes) && sireAllowedToAddress == old(sireAllowedToAddress)
      ensures r.Err? ==> busdBalance == old(busdBalance) && singBalance == old(singBalance)
      ensures r.Ok? ==>
        var tier := old(passes[matronId - 1].cooldownIndex);
        passes == old(passes)[matronId - 1 := Bred(old(passes[matronId - 1]), now, cooldowns, sireId)]
                             [sireId - 1 := Bred(old(passes[sireId - 1]), now, cooldowns, 0)] &&
        sireAllowedToAddress == old(sireAllowedToAddress) - {sireId} &&
        busdBalance == Transfer(old(busdBalance), caller, treasury, busdFee[tier]) &&
        singBalance == Transfer(old(singBalance), caller, treasury, singFee[tier])
      ensures r.Ok? ==> StatusOf(passes[matronId - 1], now, maxBreedTimes) == Pregnant
      ensures r.Ok? ==> passes[matronId - 1].cooldownEndTime >= old(passes[matronId - 1].cooldownEndTime)
      ensures r.Ok? ==> passes[sireId - 1].cooldownEndTime >= old(passes[sireId - 1].cooldownEndTime)
      ensures |passes| == old(|passes|)
      ensures forall i :: 0 <= i < |passes| ==> SameLineage(passes[i], old(passes[i]))
    {
      var rejection := BreedRejection(caller, matronId, sireId, paused, now);
      if rejection.Some? {
        return Err(rejection.value);
      }
      var matron := passes[matronId - 1];
      var sire := passes[sireId - 1];
      var tier := matron.cooldownIndex;
      busdBalance := Transfer(busdBalance, caller, treasury, busdFee[tier]);
      singBalance := Transfer(singBalance, caller, treasury, singFee[tier]);
      LinkedUpdate(passes, matronId - 1, Bred(matron, now, cooldowns, sireId));
      passes := passes[matronId - 1 := Bred(matron, now, cooldowns, sireId)];
      LinkedUpdate(passes, sireId - 1, Bred(sire, now, cooldowns, 0));
      passes := passes[sireId - 1 := Bred(sire, now, cooldowns, 0)];
      sireAllowedToAddress := sireAllowedToAddress - {sireId};
      MatronPregnantAfterBreeding(matron, now, cooldowns, sireId, now, maxBreedTimes);
      r := Ok(());
    }

    /** The first reason giveBirth(matronId) reverts, checked in the contract's order, or
        None when the birth may go ahead. */
    function BirthRejection(matronId: PassId, paused: bool, now: nat): (r: Option<Error>)
      reads this
      requires Valid()
      ensures r.None? <==> !paused && Exists(matronId) && passes[matronId - 1].siringWithId != 0
                           && passes[matronId - 1].cooldownEndTime <= now
      ensures r == Some(Paused) <==> paused
      ensures !paused && matronId == 0 ==> r == Some(InvalidId)
      ensures !paused && matronId > |passes| ==> r == Some(NonexistentPass)
      ensures !paused && Exists(matronId) && passes[matronId - 1].siringWithId == 0 ==> r == Some(NotPregnant)
      ensures !paused && Exists(matronId) && passes[matronId - 1].siringWithId != 0 && now < passes[matronId - 1].cooldownEndTime
          ==> r == Some(NotReadyToBirth)
    {
      if paused then Some(Paused)
      else if matronId == 0 then Some(InvalidId)
      else if matronId > |passes| then Some(NonexistentPass)
      else if passes[matronId - 1].siringWithId == 0 then Some(NotPregnant)
      else if now < passes[matronId - 1].cooldownEndTime then Some(NotReadyToBirth)
      else None
    }

    /** giveBirth(matronId): once the matron's cooldown is over, the child of the matron
        and the sire she carries is minted to the matron's owner with the mixed genes,
        and the matron is no longer pregnant. */
    method GiveBirth(matronId: PassId, random: nat, childClass: nat, paused: bool, now: nat) returns (r: Result<PassId>)
      requires Valid()
      modifies this`passes, this`owners
      ensures Valid()
      ensures r.Ok? <==> old(BirthRejection(matronId, paused, now)).None?
      ensures r.Err? ==> Some(r.error) == old(BirthRejection(matronId, paused, now))
      ensures r.Err? ==> passes == old(passes) && owners == old(owners)
      ensures |passes| >= old(|passes|)
      ensures forall i :: 0 <= i < old(|passes|) ==> SameLineage(passes[i], old(passes[i]))
      ensures r.Ok? ==> 1 <= old(passes[matronId - 1].siringWithId) <= old(|passes|)
      ensures r.Ok? ==>
        var matron := old(passes[matronId - 1]);
        var sire := old(passes[matron.siringWithId - 1]);
        r.value == |passes| == old(|passes|) + 1 &&
        owners == old(owners) + [old(owners[matronId - 1])] &&
        passes[..old(|passes|)] == old(passes)[matronId - 1 := matron.(siringWithId := 0)] &&
        passes[r.value - 1] == Offspring(matronId, matron, sire, passes[r.value - 1].genes, childClass, now) &&
        passes[r.value - 1].genes == MixedGenes(hash(random, matron.genes, sire.genes), matron.genes, sire.genes, ascendablePairs) &&
        Unpack(passes[r.value - 1].genes)
          == MixTraits(hash(random, matron.genes, sire.genes), Unpack(matron.genes), Unpack(sire.genes), ascendablePairs)
    {
      var rejection := BirthRejection(matronId, paused, now);
      if rejection.Some? {
        return Err(rejection.value);
      }
      var matron := passes[matronId - 1];
      assert WellLinked(passes, matronId - 1);
      var sire := passes[matron.siringWithId - 1];
      var genes := MixGenes(hash, random, matron.genes, sire.genes, ascendablePairs);
      var childId := Deliver(matronId, genes, childClass, now);
      assert passes[childId - 1] == Offspring(matronId, matron, sire, genes, childClass, now);
      r := Ok(childId);
    }

    /** The effect of a successful giveBirth: the matron's pregnancy ends and her child,
        with the given genes, is minted to her owner. */
    method Deliver(matronId: PassId, genes: nat, childClass: nat, now: nat) returns (childId: PassId)
      requires Valid() && Exists(matronId)
      requires 0 < passes[matronId - 1].siringWithId <= |passes|
      modifies this`passes, this`owners
      ensures Valid()
      ensures childId == |passes| == old(|passes|) + 1
      ensures owners == old(owners) + [old(owners[matronId - 1])]
      ensures passes[..old(|passes|)] == old(passes)[matronId - 1 := old(passes[matronId - 1]).(siringWithId := 0)]
      ensures passes[childId - 1]
           == Offspring(matronId, old(passes[matronId - 1]), old(passes[passes[matronId - 1].siringWithId - 1]), genes, childClass, now)
      ensures forall i :: 0 <= i < old(|passes|) ==> SameLineage(passes[i], old(passes[i]))
    {
      var matron := passes[matronId - 1];
      assert WellLinked(passes, matronId - 1);
      var child := Offspring(matronId, matron, passes[matron.siringWithId - 1], genes, childClass, now);
      var delivered := passes[matronId - 1 := matron.(siringWithId := 0)];
      LinkedUpdate(passes, matronId - 1, matron.(siringWithId := 0));
      LinkedAppend(delivered, child);
      BirthKeepsLineage(passes, matronId - 1, child);
      passes := delivered + [child];
      owners := owners + [owners[matronId - 1]];
      childId := |passes|;
    }

    /** mintSingle(singerId, genes, rarity, to): a minter mints one genesis pass, at most
        Gen0Cap of them in all. */
    method MintSingle(callerIsMinter: bool, paused: bool, singerId: nat, genes: nat, rarity: nat, to: Address, now: nat)
      returns (r: Result<PassId>)
      requires Valid()
      modifies this`passes, this`owners, this`gen0Supply
      ensures Valid()
      ensures !callerIsMinter ==> r == Err(MissingMinterRole)
      ensures callerIsMinter && paused ==> r == Err(Paused)
      ensures callerIsMinter && !paused && old(gen0Supply) == Gen0Cap ==> r == Err(Gen0LimitExceeded)
      ensures r.Ok? <==> callerIsMinter && !paused && old(gen0Supply) < Gen0Cap
      ensures r.Err? ==> passes == old(passes) && owners == old(owners) && gen0Supply == old(gen0Supply)
      ensures r.Ok? ==> r.value == |passes| && passes == old(passes) + [Genesis(genes, singerId, rarity, now)]
      ensures r.Ok? ==> owners == old(owners) + [to] && gen0Supply == old(gen0Supply) + 1
    {
      if !callerIsMinter {
        return Err(MissingMinterRole);
      }
      if paused {
        return Err(Paused);
      }
      if gen0Supply >= Gen0Cap {
        return Err(Gen0LimitExceeded);
      }
      LinkedAppend(passes, Genesis(genes, singerId, rarity, now));
      passes := passes + [Genesis(genes, singerId, rarity, now)];
      owners := owners + [to];
      gen0Supply := gen0Supply + 1;
      r := Ok(|passes|);
    }

    /** mintTo(to, amount), called by the launchpad: mints one genesis pass per entry of
        `genes` to `to`, within the launchpad's supply cap. */
    method MintTo(caller: Address, callerIsMinter: bool, paused: bool, to: Address, genes: seq<nat>, now: nat)
      returns (r: Result<()>)
      requires Valid()
      modifies this`passes, this`owners, this`launchpadSupply
      ensures Valid()
      ensures caller != launchpad ==> r == Err(LaunchpadUnauthorized)
      ensures caller == launchpad && !callerIsMinter ==> r == Err(MissingMinterRole)
      ensures caller == launchpad && callerIsMinter && paused ==> r == Err(Paused)
      ensures r.Ok? <==> caller == launchpad && callerIsMinter && !paused
                         && old(launchpadSupply) + |genes| <= launchpadMaxSupply
      ensures r.Err? ==> passes == old(passes) && owners == old(owners) && launchpadSupply == old(launchpadSupply)
      ensures r.Ok? ==> passes == old(passes) + LaunchpadPasses(old(|passes|), genes, now)
      ensures r.Ok? ==> owners == old(owners) + seq(|genes|, _ => to)
      ensures r.Ok? ==> launchpadSupply == old(launchpadSupply) + |genes|
    {
      if caller != launchpad {
        return Err(LaunchpadUnauthorized);
      }
      if !callerIsMinter {
        return Err(MissingMinterRole);
      }
      if paused {
        return Err(Paused);
      }
      if launchpadSupply + |genes| > launchpadMaxSupply {
        return Err(LaunchpadExceedsMaxSupply);
      }
      var i := 0;
      while i < |genes|
        invariant 0 <= i <= |genes|
        invariant Valid()
        invariant passes == old(passes) + LaunchpadPasses(old(|passes|), genes[..i], now)
        invariant owners == old(owners) + seq(i, _ => to)
        invariant launchpadSupply == old(launchpadSupply) + i
      {
        var pass := Genesis(genes[i], |passes| % SingerCount, LaunchpadClass, now);
        LaunchpadBatchesCompose(old(|passes|), genes[..i], [genes[i]], now);
        assert genes[..i] + [genes[i]] == genes[..i + 1];
        LinkedAppend(passes, pass);
        passes := passes + [pass];
        owners := owners + [to];
        launchpadSupply := launchpadSupply + 1;
        i := i + 1;
      }
      assert genes[..i] == genes;
      r := Ok(());
    }

    /** updateMaxBreedTimes(n): the three tables are cut or grown to n entries; grown
        entries take the growth defaults. */
    method UpdateMaxBreedTimes(callerIsAdmin: bool, n: nat) returns (r: Result<()>)
      requires Valid()
      modifies this`maxBreedTimes, this`busdFee, this`singFee, this`cooldowns
      ensures Valid()
      ensures r.Ok? <==> callerIsAdmin
      ensures r.Err? ==> r.error == MissingAdminRole && maxBreedTimes == old(maxBreedTimes)
      ensures r.Err? ==> busdFee == old(busdFee) && singFee == old(singFee) && cooldowns == old(cooldowns)
      ensures r.Ok? ==> maxBreedTimes == n
      ensures r.Ok? ==> busdFee == Resized(old(busdFee), n, i => growth(i).busdFee)
      ensures r.Ok? ==> singFee == Resized(old(singFee), n, i => growth(i).singFee)
      ensures r.Ok? ==> cooldowns == Resized(old(cooldowns), n, i => growth(i).cooldown)
    {
      if !callerIsAdmin {
        return Err(MissingAdminRole);
      }
      busdFee := ResizeTable(busdFee, n, i => growth(i).busdFee);
      singFee := ResizeTable(singFee, n, i => growth(i).singFee);
      cooldowns := ResizeTable(cooldowns, n, i => growth(i).cooldown);
      maxBreedTimes := n;
      r := Ok(());
    }

    /** updateBreedingFees(idx, busd, sing): sets the fees of one existing tier. */
    method UpdateBreedingFees(callerIsAdmin: bool, idx: nat, busd: nat, sing: nat) returns (r: Result<()>)
      requires Valid()
      modifies this`busdFee, this`singFee
      ensures Valid()
      ensures !callerIsAdmin ==> r == Err(MissingAdminRole)
      ensures callerIsAdmin && idx >= maxBreedTimes ==> r == Err(FeeIndexOutOfBounds)
      ensures r.Ok? <==> callerIsAdmin && idx < maxBreedTimes
      ensures r.Err? ==> busdFee == old(busdFee) && singFee == old(singFee)
      ensures r.Ok? ==> busdFee == old(busdFee)[idx := busd] && singFee == old(singFee)[idx := sing]
    {
      if !callerIsAdmin {
        return Err(MissingAdminRole);
      }
      if idx >= maxBreedTimes {
        return Err(FeeIndexOutOfBounds);
      }
      busdFee := busdFee[idx := busd];
      singFee := singFee[idx := sing];
      r := Ok(());
    }

    /** updateCooldowns(idx, duration): sets the cooldown of one existing tier. */
    method UpdateCooldowns(callerIsAdmin: bool, idx: nat, duration: nat) returns (r: Result<()>)
      requires Valid()
      modifies this`cooldowns
      ensures Valid()
      ensures !callerIsAdmin ==> r == Err(MissingAdminRole)
      ensures callerIsAdmin && idx >= maxBreedTimes ==> r == Err(CooldownIndexOutOfBounds)
      ensures r.Ok? <==> callerIsAdmin && idx < maxBreedTimes
      ensures r.Err? ==> cooldowns == old(cooldowns)
      ensures r.Ok? ==> cooldowns == old(cooldowns)[idx := duration]
    {
      if !callerIsAdmin {
        return Err(MissingAdminRole);
      }
      if idx >= maxBreedTimes {
        return Err(CooldownIndexOutOfBounds);
      }
      cooldowns := cooldowns[idx := duration];
      r := Ok(());
    }

    /** updateTreasury(addr): a new, non-zero treasury. */
    method UpdateTreasury(callerIsAdmin: bool, addr: Address) returns (r: Result<()>)
      modifies this`treasury
      ensures !callerIsAdmin ==> r == Err(MissingAdminRole)
      ensures callerIsAdmin && addr == ZeroAddress ==> r == Err(SetZeroAddress)
      ensures callerIsAdmin && addr != ZeroAddress && addr == old(treasury) ==> r == Err(AddressSetAlready)
      ensures r.Ok? <==> callerIsAdmin && addr != ZeroAddress && addr != old(treasury)
      ensures treasury == if r.Ok? then addr else old(treasury)
    {
      if !callerIsAdmin {
        return Err(MissingAdminRole);
      }
      if addr == ZeroAddress {
        return Err(SetZeroAddress);
      }
      if addr == treasury {
        return Err(AddressSetAlready);
      }
      treasury := addr;
      r := Ok(());
    }

    /** updateRandomService(addr): a new, non-zero random service. */
    method UpdateRandomService(callerIsAdmin: bool, addr: Address) returns (r: Result<()>)
      modifies this`randomService
      ensures !callerIsAdmin ==> r == Err(MissingAdminRole)
      ensures callerIsAdmin && addr == ZeroAddress ==> r == Err(SetZeroAddress)
      ensures callerIsAdmin && addr != ZeroAddress && addr == old(randomService) ==> r == Err(AddressSetAlready)
      ensures r.Ok? <==> callerIsAdmin && addr != ZeroAddress && addr != old(randomService)
      ensures randomService == if r.Ok? then addr else old(randomService)
    {
      if !callerIsAdmin {
        return Err(MissingAdminRole);
      }
      if addr == ZeroAddress {
        return Err(SetZeroAddress);
      }
      if addr == randomService {
        return Err(AddressSetAlready);
      }
      randomService := addr;
      r := Ok(());
    }

    /** updateFeeTokenAddrs(busd, sing): both token addresses, neither zero; setting the
        current addresses again is allowed. */
    method UpdateFeeTokenAddrs(callerIsAdmin: bool, busd: Address, sing: Address) returns (r: Result<()>)
      modifies this`busdToken, this`singToken
      ensures !callerIsAdmin ==> r == Err(MissingAdminRole)
      ensures callerIsAdmin && (busd == ZeroAddress || sing == ZeroAddress) ==> r == Err(SetZeroAddress)
      ensures r.Ok? <==> callerIsAdmin && busd != ZeroAddress && sing != ZeroAddress
      ensures r.Ok? ==> busdToken == busd && singToken == sing
      ensures r.Err? ==> busdToken == old(busdToken) && singToken == old(singToken)
    {
      if !callerIsAdmin {
        return Err(MissingAdminRole);
      }
      if busd == ZeroAddress || sing == ZeroAddress {
        return Err(SetZeroAddress);
      }
      busdToken := busd;
      singToken := sing;
      r := Ok(());
    }

    /** updateBaseURI(uri): a non-empty metadata base URI. */
    method UpdateBaseURI(callerIsAdmin: bool, uri: string) returns (r: Result<()>)
      modifies this`baseURI
      ensures !callerIsAdmin ==> r == Err(MissingAdminRole)
      ensures callerIsAdmin && uri == "" ==> r == Err(EmptyUri)
      ensures r.Ok? <==> callerIsAdmin && uri != ""
      ensures baseURI == if r.Ok? then uri else old(baseURI)
    {
      if !callerIsAdmin {
        return Err(MissingAdminRole);
      }
      if uri == "" {
        return Err(EmptyUri);
      }
      baseURI := uri;
      r := Ok(());
    }

    /** updateMaxLaunchpadSupply(n). */
    method UpdateMaxLaunchpadSupply(callerIsAdmin: bool, n: nat) returns (r: Result<()>)
      modifies this`launchpadMaxSupply
      ensures r.Ok? <==> callerIsAdmin
      ensures r.Err? ==> r.error == MissingAdminRole
      ensures launchpadMaxSupply == if r.Ok? then n else old(launchpadMaxSupply)
    {
      if !callerIsAdmin {
        return Err(MissingAdminRole);
      }
      launchpadMaxSupply := n;
      r := Ok(());
    }

    /** updateLaunchpad(addr). */
    method UpdateLaunchpad(callerIsAdmin: bool, addr: Address) returns (r: Result<()>)
      modifies this`launchpad
      ensures r.Ok? <==> callerIsAdmin
      ensures r.Err? ==> r.error == MissingAdminRole
      ensures launchpad == if r.Ok? then addr else old(launchpad)
    {
      if !callerIsAdmin {
        return Err(MissingAdminRole);
      }
      launchpad := addr;
      r := Ok(());
    }

    /** updateSamePVal(parentClass, childClass, rate): the drop rate of `childClass` for
        two parents of class `parentClass`. */
    method UpdateSamePVal(callerIsAdmin: bool, parentClass: nat, childClass: nat, rate: nat) returns (r: Result<()>)
      modifies this`sameClassProb
      ensures r.Ok? <==> callerIsAdmin
      ensures r.Err? ==> r.error == MissingAdminRole
      ensures sameClassProb == if r.Ok? then old(sameClassProb)[DropRateKey(parentClass, childClass) := rate]
                               else old(sameClassProb)
    {
      if !callerIsAdmin {
        return Err(MissingAdminRole);
      }
      sameClassProb := sameClassProb[DropRateKey(parentClass, childClass) := rate];
      r := Ok(());
    }

    /** updateDiffPVal(matronClass, sireClass, rate): the drop rate for parents of two
        different classes. */
    method UpdateDiffPVal(callerIsAdmin: bool, matronClass: nat, sireClass: nat, rate: nat) returns (r: Result<()>)
      modifies this`diffClassProb
      ensures r.Ok? <==> callerIsAdmin
      ensures r.Err? ==> r.error == MissingAdminRole
      ensures diffClassProb == if r.Ok? then old(diffClassProb)[DropRateKey(matronClass, sireClass) := rate]
                               else old(diffClassProb)
    {
      if !callerIsAdmin {
        return Err(MissingAdminRole);
      }
      diffClassProb := diffClassProb[DropRateKey(matronClass, sireClass) := rate];
      r := Ok(());
    }
  }
}
