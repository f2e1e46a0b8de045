/** Failure reasons of the pass registry and the result types its operations return.
    Each constructor stands for one revert reason of the contracts; where the tests
    pin the message, it is given beside the constructor. */
module Outcomes {

  datatype Error =
    | Paused                      // "Pausable: paused"
    | MissingAdminRole            // "AccessControl: account ... is missing role <admin>"
    | MissingMinterRole           // "AccessControl: account ... is missing role <minter>"
    | InvalidId                   // "Id 0 is invalid"
    | NonexistentPass             // an id above the total supply
    | NotMatronOwner              // "Caller must own the matron"
    | NotSireOwner                // "Caller must own the sire"
    | InvalidMatingPair           // "Not valid mating pair"
    | SireNotApproved             // caller neither owns nor was approved for the sire
    | MatronBreedingLimit         // "Matron reached breeding limit"
    | SireBreedingLimit           // "Sire reached breeding limit"
    | MatronNotReady              // matron pregnant or cooling down
    | SireNotReady                // sire pregnant or cooling down
    | InsufficientBusd            // the ERC20 fee transfer would revert
    | InsufficientSing            // the ERC20 fee transfer would revert
    | NotPregnant                 // giveBirth on a matron that is not gestating
    | NotReadyToBirth             // "Not ready to birth: matron"
    | Gen0LimitExceeded           // "Max gen0 limit exceed: 300"
    | LaunchpadUnauthorized       // "LaunchpadNFT: unauthorized"
    | LaunchpadExceedsMaxSupply   // "LaunchpadNFT: Exceeds maxSupply"
    | FeeIndexOutOfBounds         // "Out of bounds"
    | CooldownIndexOutOfBounds    // "Idx must be < maxBreedTimes"
    | SetZeroAddress              // "Set zero address"
    | AddressSetAlready           // "Address set already"
    | EmptyUri                    // "Empty URI"
    | WrongTraitCount             // a trait list that is not 7 long
    | TraitTooWide                // a trait that does not fit its 5-bit field

  datatype Result<T> = Ok(value: T) | Err(error: Error)

  datatype Option<T> = None | Some(value: T)
}
