# SuperPass breeding model

This project models the SuperPass collectible and proves properties of the model. A
SuperPass is a pass that carries seven 5-bit traits packed into one integer (its *genes*).
Two passes can be bred for a fee: the matron becomes pregnant and, once her cooldown
is over, gives birth to a child. The child's genes mix the parents' genes, and a
matching pair of traits can *ascend* to a higher trait.

The repository's behaviour is known here through its test suite, and the model follows
what those tests assert. It has these parts:

- `GeneCodec` (gene_codec.dfy) packs traits into genes and back. Trait 0 is the least
  significant field. `DecodeGenes` is the loop of the test helper that reads the 5-bit
  fields. `EncodeTraits` is the documented encode: it packs seven traits the way the
  test helper does, but rejects a wrong trait count or a trait of 32 or more. Both are
  proved against `Pack` and `Unpack`, and the two are proved inverse to each other.
- `GeneMixer` (gene_mixer.dfy) models `ascend` and `mixGenes`:
  - `MixGenes` hashes the random value with both parents' genes. It then walks slots
    0 to 6, taking bits from the low end of the hash.
  - A slot whose traits form a pair {2k, 2k+1} with k below the pair count takes a
    3-bit draw. Draws 0 and 1 ascend the slot to trait 4 + k.
  - Any other slot, and a pair whose draw failed, takes one selection bit: 0 keeps the
    first parent's trait, 1 the second parent's.
  - Both worked examples of the test suite are proved for every hash with the same low
    bits.
- `Passes` (passes.dfy) is the pass record. It derives a breeding status (available,
  cooling down, pregnant, exhausted) from the fields and records the effect of one
  breeding on a pass.
- `Family` (family.dfy) is the well-formedness of the stored pass list:
  - parent links point to older passes;
  - pregnancy links point to existing passes;
  - a child's generation is above both parents'.
- `FeeSchedule` (fee_schedule.dfy) holds the fee and cooldown tables, their resizing,
  and the BUSD and SING ledgers the fees move on.
- `SuperPassRegistry` (super_pass.dfy) holds the `SuperPass` class: minting, readiness,
  siring approval, breeding, birth, the launchpad batch mint, and the administrator's
  tables and settings. Each operation returns `Ok` or the error the contract reverts
  with, and a failed call changes nothing.
- `BreedingScenario` (breeding_scenario.dfy) replays the test suite's breeding sequence
  on the class. The pair pays 400, 2000 and 3200 SING and is then refused for the
  matron's breeding limit.
- `AdminScenario` (admin_scenario.dfy) replays the test suite's table resizing: the tables
  are cut from 3 tiers to 2 and grown to 4, and the new tiers take the growth defaults.

The caller's roles and the pause switch are inputs of each operation (`callerIsAdmin`,
`callerIsMinter`, `paused`), as is the block time `now`. The keccak hash is the class
constant `hash`. The random value of the random service is an input of `GiveBirth`.

The contract's documented behaviour and its test suite disagree on one point, and the
model follows the tests. The documentation says that after a breeding the cooldown is
looked up with the *new* breeding count. Given tables of exactly `maxBreedTimes`
entries, the tests are consistent only with the *old* one: the third breeding with
three tiers succeeds (test/Breeding.test.ts:542-580), but the new count 3 would index
past a three-entry table. The constructor sets the first cooldown to one day, so under
the old-count reading the first breeding rests both passes for one day, as
test/Breeding.test.ts:341-362 records.

Each pass rests for the entry of its own pre-breeding count. The fee tier is the
matron's pre-breeding count, as both sources agree.

## Model

| member | source | states |
|---|---|---|
| GeneCodec.EncodeTraits | test/GeneSicence.test.ts:6-10 | Succeeds exactly when given 7 traits each below 32, otherwise fails with WrongTraitCount or TraitTooWide; the genes fit in 35 bits and decode back to the given traits |
| GeneCodec.DecodeGenes | test/GeneSicence.test.ts:12-20 | Returns 7 traits, trait i being the 5-bit field i of the genes; for genes below 2^35 the traits pack back to the same genes |
| GeneCodec.PackBound | test/GeneSicence.test.ts:6-10 | Packed traits fit in 5 bits per trait |
| GeneCodec.FieldOfPack | test/GeneSicence.test.ts:12-20 | Field i of packed traits is trait i |
| GeneCodec.UnpackPack | test/GeneSicence.test.ts:44-54 | Decoding encoded traits gives the traits back, for every list of 7 traits |
| GeneCodec.PackUnpack | test/GeneSicence.test.ts:44-54 | Encoding decoded genes gives the genes back, for every 35-bit genes value |
| GeneCodec.PackInjective | test/GeneSicence.test.ts:36-42 | Different trait lists never encode to the same genes |
| GeneMixer.AscendRange | test/GeneSicence.test.ts:57-124 | The result of ascend is either 0 or 4 + k, where k is below the pair count and both parent traits lie in pair k |
| GeneMixer.AscendPairLaw | test/GeneSicence.test.ts:57-101 | The pair {2k, 2k+1} ascends to 4 + k in either order exactly when the draw is 0 or 1, and gives 0 otherwise |
| GeneMixer.AscendOnlyFromPairs | test/GeneSicence.test.ts:103-124 | A non-zero ascension comes only from a pair {2k, 2k+1} with k below the pair count and a draw below 2 |
| GeneMixer.AscendTestVectors | test/GeneSicence.test.ts:57-124 | The nine ascend cases of the tests: (0,1), (2,3), (4,5) give 4, 5, 6 with draw 1; draws 3, 5, 7 give 0; the mismatched pairs give 0 |
| GeneMixer.MixInherits | test/GeneSicence.test.ts:127-183 | Each child trait is the first parent's, the second parent's, or the ascension of that slot's pair |
| GeneMixer.MixWithoutPairInherits | test/GeneSicence.test.ts:127-183 | A slot whose traits are not an ascendable pair always takes one parent's trait |
| GeneMixer.MixIdentical | test/GeneSicence.test.ts:127-183 | Mixing a trait list with itself gives it back unchanged, whatever the hash |
| GeneMixer.MixedGenesDecode | test/GeneSicence.test.ts:127-183 | The mixed genes of two encoded trait lists decode to the slot-by-slot mix of the lists |
| GeneMixer.MixWorkedExample1 | test/GeneSicence.test.ts:128-155 | Parents [0,3,1,2,3,2,1] and [1,2,0,2,2,3,3] with a hash whose low 20 bits are 104137 give the child [4,5,0,2,3,2,1] |
| GeneMixer.MixWorkedExample2 | test/GeneSicence.test.ts:157-183 | Parents [4,5,1,4,3,2,1] and [5,4,0,5,2,3,3] with a hash whose low 23 bits are 5809888 give the child [6,4,0,4,5,2,3] |
| GeneMixer.MixGenes | test/GeneSicence.test.ts:127-183 | The loop over the 7 slots returns 35-bit genes that decode to the mix of the parents' decoded traits under hash(random, genes1, genes2) |
| GeneMixer.MixSlotStep | test/GeneSicence.test.ts:57-101 | One slot of mixGenes: an ascendable pair whose 3-bit draw is 0 or 1 gives 4 + k and consumes 3 bits; a pair whose draw fails gives the parent chosen by the next bit and consumes 4 bits; any other slot gives the parent chosen by the lowest bit and consumes 1 bit |
| GeneMixer.MixTraitsLoop | test/GeneSicence.test.ts:127-183 | The loop over the 7 slots, consuming the hash from its low end, returns the slot-by-slot mix of the two trait lists |
| Passes.ReadyIffAvailable | test/Breeding.test.ts:231-306 | A pass is ready to breed exactly when it is not pregnant, not cooling down and not out of breedings |
| Passes.GenesisReady | test/Breeding.test.ts:231-240 | A freshly minted pass is ready at any time while the tables allow a breeding |
| Passes.MatronPregnantAfterBreeding | test/Breeding.test.ts:288-293 | After breeding, the matron is pregnant and not ready at any time |
| Passes.SireRestsAfterBreeding | test/Breeding.test.ts:296-306 | After breeding, the sire is not ready before its cooldown ends; it is ready again when the cooldown ends if it has breedings left, and exhausted after its last breeding |
| Family.LinkedAppend | test/Breeding.test.ts:445-471 | Appending a child whose links point to older passes keeps the whole pass list well linked |
| Family.LinkedUpdate | test/Breeding.test.ts:341-362 | Changing a pass's cooldown fields and pregnancy link (to another existing pass) keeps the list well linked |
| Family.AncestorsOlder | test/Breeding.test.ts:445-471 | In a well-linked list every ancestor of a pass, reached through any chain of matron and sire links, has a smaller id and a lower generation |
| Family.NoPassIsItsOwnAncestor | test/Breeding.test.ts:445-471 | In a well-linked list no pass is its own ancestor, so the family graph has no cycle |
| FeeSchedule.GrowKeeps | test/Admin.test.ts:228-254 | Growing a table keeps every entry and appends the default entries |
| FeeSchedule.ShrinkThenGrow | test/Admin.test.ts:228-254 | Cutting a table to m entries and growing it to n keeps the first m and refills the rest with defaults |
| FeeSchedule.ResizeTable | test/Admin.test.ts:228-254 | Resizing a table returns it truncated to n entries followed by the growth default for each new index, giving the table `Resized` describes |
| FeeSchedule.Transfer | test/Breeding.test.ts:364-434 | A fee transfer takes exactly the amount from the payer and gives it to the payee; no other balance changes |
| SuperPassRegistry.DropRateKeyInjectivity | test/Admin.test.ts:329-353 | The flat drop-rate key a*2+b identifies the class pair only while the second class is below 2; (0,2) and (1,0) share key 2 |
| SuperPassRegistry.LaunchpadBatchesCompose | test/Launchpad.test.ts:142-202 | Two launchpad batches in a row mint the same passes as one combined batch, so the singer cycle (id-1) % 3 continues across batches |
| SuperPassRegistry.SuperPass.constructor | test/Breeding.test.ts:92-112 | Starts with no passes, 3 breeding tiers, 20 BUSD per tier, SING fees 400, 2000 and 3200, a one-day first cooldown, and the given addresses |
| SuperPassRegistry.SuperPass.IsReadyToBreed | test/Breeding.test.ts:231-306 | Id 0 fails with InvalidId and unminted ids with NonexistentPass; otherwise the result is true exactly when the pass's status is Available |
| SuperPassRegistry.SuperPass.BreedRejection | test/Breeding.test.ts:310-645 | The ordered checks of breedWith find no error exactly when the unordered breeding conditions all hold. Pausing always reports Paused. A caller who does not own the matron gets NotMatronOwner, even when pairing a pass with itself; the owner pairing a pass with itself gets InvalidMatingPair. Once the pairing checks pass, an exhausted matron gets MatronBreedingLimit and otherwise an exhausted sire gets SireBreedingLimit, whatever their readiness |
| SuperPassRegistry.SuperPass.ApproveSiring | test/Breeding.test.ts:649-685 | Fails when paused, for unminted sires, and for callers not owning the sire; otherwise records `to` as the sire's approved breeder |
| SuperPassRegistry.SuperPass.BreedWith | test/Breeding.test.ts:341-434 | Succeeds exactly when the breeding conditions hold, otherwise returns the first failed check and changes nothing. On success both passes breed once and rest for the cooldown of their old count, and the matron becomes pregnant. The sire's approval is used up and the matron's tier fees move from the caller to the treasury. Lineage fields stay the same, cooldown end times never decrease, and the pass list stays well linked |
| SuperPassRegistry.SuperPass.BirthRejection | test/Breeding.test.ts:438-471 | The ordered checks of giveBirth find no error exactly when the contract is unpaused and the matron exists, is pregnant and has finished her cooldown; each failed check reports its own error (Paused, InvalidId, NonexistentPass, NotPregnant, NotReadyToBirth) |
| SuperPassRegistry.SuperPass.GiveBirth | test/Breeding.test.ts:438-471 | Fails with the first error of BirthRejection and then changes nothing: when paused, for id 0, for unminted ids, for a matron that is not pregnant, and before her cooldown ends. Otherwise it appends a child owned by the matron's owner: parents are the gestating pair, the singer is the matron's, generation is one above the elder parent, birth time is now, and the genes are exactly the mixed genes of the parents under the hash, which decode to the mix of the parents' traits. The matron is no longer pregnant |
| SuperPassRegistry.SuperPass.Deliver | test/Breeding.test.ts:445-471 | Delivering clears the matron's pregnancy link, appends the child owned by the matron's owner, keeps every existing pass's lineage, and keeps the pass list well linked |
| SuperPassRegistry.BirthKeepsLineage | test/Breeding.test.ts:445-471 | Clearing one pass's pregnancy and appending a child leaves every existing pass's lineage fields unchanged |
| SuperPassRegistry.SuperPass.MintSingle | test/Admin.test.ts:413-476 | Requires the minter role and an unpaused contract, and at most 300 such mints in all; appends a genesis pass with the given genes, singer and class, owned by `to` |
| SuperPassRegistry.SuperPass.MintTo | test/Launchpad.test.ts:111-210 | Only the configured launchpad holding the minter role may mint, within the launchpad cap; mints one genesis pass of class 1 per gene value to `to`, singer (id-1) % 3, and raises the launchpad supply by the batch size |
| SuperPassRegistry.SuperPass.UpdateMaxBreedTimes | test/Admin.test.ts:227-263 | Admin only; the three tables are resized to n entries, keeping old entries and filling new ones from the growth defaults |
| SuperPassRegistry.SuperPass.UpdateBreedingFees | test/Admin.test.ts:265-305 | Admin only; an index at or above the breeding limit fails with FeeIndexOutOfBounds; otherwise exactly that tier's two fees change |
| SuperPassRegistry.SuperPass.UpdateCooldowns | test/Admin.test.ts:307-327 | Admin only; an index at or above the breeding limit fails with CooldownIndexOutOfBounds; otherwise exactly that tier's cooldown changes |
| SuperPassRegistry.SuperPass.UpdateTreasury | test/Admin.test.ts:196-225 | Admin only; the zero address fails with SetZeroAddress and the current treasury with AddressSetAlready |
| SuperPassRegistry.SuperPass.UpdateRandomService | test/Admin.test.ts:136-165 | Admin only; the zero address fails with SetZeroAddress and the current service with AddressSetAlready |
| SuperPassRegistry.SuperPass.UpdateFeeTokenAddrs | test/Admin.test.ts:167-194 | Admin only; either address zero fails with SetZeroAddress; setting the current addresses again succeeds |
| SuperPassRegistry.SuperPass.UpdateBaseURI | test/Admin.test.ts:113-134 | Admin only; the empty URI fails with EmptyUri |
| SuperPassRegistry.SuperPass.UpdateMaxLaunchpadSupply | test/Admin.test.ts:381-395 | Admin only; sets the launchpad cap |
| SuperPassRegistry.SuperPass.UpdateLaunchpad | test/Admin.test.ts:397-411 | Admin only; sets the launchpad address |
| SuperPassRegistry.SuperPass.UpdateSamePVal | test/Admin.test.ts:330-378 | Admin only; stores the rate under key parentClass*2 + childClass and changes no other key |
| SuperPassRegistry.SuperPass.UpdateDiffPVal | test/Admin.test.ts:330-378 | Admin only; stores the rate under key matronClass*2 + sireClass and changes no other key |
| AdminScenario.ShrinkThenGrowTables | test/Admin.test.ts:228-254 | With growth defaults of 30 BUSD, 10000 SING, 5 days at tier 2 and 40 BUSD, 10000 SING, 7 days at tier 3, cutting the tables to 2 tiers and growing them to 4 gives BUSD [20,20,30,40], SING [400,2000,10000,10000] and cooldowns [1 day, second, 5 days, 7 days] |
| BreedingScenario.BreedingRound | test/Breeding.test.ts:473-540 | One breeding and birth of passes 1 and 2 pays 20 BUSD and the tier's SING fee, mints the next child, and leaves the pair ready one breeding later |
| BreedingScenario.BreedStep | test/Breeding.test.ts:364-434 | Breeding the owner's pair at round r charges 20 BUSD and the tier-r SING fee, makes the matron carry pass 2, and rests both passes for cooldown r |
| BreedingScenario.FreshPair | test/Breeding.test.ts:92-112 | A new registry with two passes minted to the owner starts with both passes ready and no fees paid |
| BreedingScenario.FourthBreeding | test/Breeding.test.ts:610-618 | After three breedings, breeding the pair again fails with MatronBreedingLimit |
| BreedingScenario.ThreeBreedings | test/Breeding.test.ts:364-619 | A pair bred three times with the default tables pays 20 BUSD each time and SING 400, 2000, 3200, yields children 3, 4 and 5, and a fourth breeding fails with MatronBreedingLimit |

## Left out

- ERC721 transfers, approvals, enumeration and `tokenURI` are not modelled. Owners are a
  list that only minting and birth extend.
- Role storage (`grantRole`, `revokeRole`) and `pause`/`unpause` are not modelled. The
  caller's roles and the pause flag are inputs of each operation.
- ERC20 allowances are not modelled. A fee transfer fails only when the balance is short.
- The keccak hash and the random service are not modelled: the hash is the class
  constant `hash`, and the random value is an input of `GiveBirth`.
- The choice of the child's class from the drop-rate tables is not modelled. The class
  is an input of `GiveBirth`.
- The number of ascendable pairs is the class constant `ascendablePairs`. The tests only
  show that pairs 0, 1 and 2 ascend.
- SuperPassRegistry.SuperPass.UpdateMaxBreedTimes: the table entries that growing
  appends (`growth`) are a parameter, because the tests pin only entries 2 and 3 (30 and
  40 BUSD, 10000 SING, 5 and 7 days). `AdminScenario.ShrinkThenGrowTables` states the
  tested tables under exactly those two entries.
- SuperPassRegistry.SuperPass.IsReadyToBreed: an id above the number of minted passes
  fails with NonexistentPass. The documented operation fails only for id 0, and would
  report the readiness of an empty record for an unminted id; no test calls it on one.
- GeneCodec.EncodeTraits: the test helper has no failure path. It lets a trait of 32 or
  more spill into the next field, ignores traits past the seventh, and fails with a
  runtime error on fewer than seven. The model rejects these inputs with TraitTooWide and
  WrongTraitCount, and proves the helper's packing for the inputs it accepts.
- The second and third initial cooldowns are constructor parameters. The tests only show
  that both are over by the time the next birth is attempted.
- The launchpad's genes are an input of `MintTo`. The tests' check that consecutive
  launchpad passes have different genes is not modelled.
- Proxy upgrades, `rescueLostSuperPass`, the deployment scripts, events and the token
  name and symbol are not modelled.
- The 256-bit bound of the contract's integers is not modelled: counters, times and
  balances are unbounded naturals, so an arithmetic overflow revert never happens.
- SuperPassRegistry.SuperPass.BreedWith: the contract's documentation allows a caller who owns
  only the sire, with the matron approved. The tests reject a caller who does not own
  the matron, and the model requires the caller to own the matron.
- SuperPassRegistry.SuperPass.BreedWith: matron and sire each rest for the cooldown of
  their own pre-breeding count. The documentation gives them one shared end time,
  which is the same thing whenever their counts are equal, as in every test.
