/** Values shared by the registry contract and the per-company ledger contract:
    account addresses, 32-byte identifiers, the revert reasons both contracts
    raise, and the result of a transaction or a view call. */
module Common {

  /** An EVM account address: a 160-bit unsigned number. */
  type Address = a: int | 0 <= a < 0x1_0000_0000_0000_0000_0000_0000_0000_0000_0000_0000

  /** `address(0)`, which every contract here refuses as a wallet, user or owner. */
  const ZeroAddress: Address := 0

  /** A `bytes32` value, such as the company id the registry derives from a registration code. */
  type Bytes32 = b: int | 0 <= b < 0x1_0000_0000_0000_0000_0000_0000_0000_0000_0000_0000_0000_0000_0000_0000_0000_0000

  /** The three roles of a ledger's access-control table. */
  datatype Role = DefaultAdmin | ProductManager | Auditor

  /** Why a transaction reverted: one case per revert string, and one per
      custom error of the ownership and access-control base contracts. */
  datatype Revert =
    // registry (the factory contract)
    | OwnableUnauthorizedAccount(account: Address)
    | OwnableInvalidOwner(owner: Address)
    | RegistrationNumberEmpty
    | CompanyNameEmpty
    | InvalidWalletAddress
    | AlreadyRegistered
    | CompanyNotRegistered
    | CompanyIsNotRegistered
    | SenderHasNoPermission
    // ledger (the supply-chain contract)
    | AccessControlUnauthorizedAccount(account: Address, neededRole: Role)
    | CallerNotProductManager
    | CallerNotAuditor
    | InvalidUserAddress
    | InvalidOwnerAddress
    | ProductIdEmpty
    | ProductRegistered
    | BatchIdEmpty
    | ProductNotActiveOrNotFound
    | ProductNotFound
    | ProductNotActive
    | ProductDoesNotExist
    | ProductAlreadyActive

  /** The revert string a `require` produces, or the name of the custom error. */
  function Reason(e: Revert): string
  {
    match e
    case OwnableUnauthorizedAccount(_) => "OwnableUnauthorizedAccount"
    case OwnableInvalidOwner(_) => "OwnableInvalidOwner"
    case RegistrationNumberEmpty => "Registration number cannot be empty"
    case CompanyNameEmpty => "Company name cannot be empty"
    case InvalidWalletAddress => "Invalid wallet address"
    case AlreadyRegistered => "Already registered"
    case CompanyNotRegistered => "Company not registered"
    case CompanyIsNotRegistered => "Company is not registered"
    case SenderHasNoPermission => "Sender does not have permission"
    case AccessControlUnauthorizedAccount(_, _) => "AccessControlUnauthorizedAccount"
    case CallerNotProductManager => "Caller is not a product manager"
    case CallerNotAuditor => "Caller is not an auditor"
    case InvalidUserAddress => "Invalid user address"
    case InvalidOwnerAddress => "Invalid owner address"
    case ProductIdEmpty => "Product ID cannot be empty"
    case ProductRegistered => "Product registed"
    case BatchIdEmpty => "Batch ID cannot be empty"
    case ProductNotActiveOrNotFound => "Product is not active or not found"
    case ProductNotFound => "Product not found"
    case ProductNotActive => "Product is not active"
    case ProductDoesNotExist => "Product does not exist"
    case ProductAlreadyActive => "Product is already active"
  }

  /** The outcome of a transaction or a view call: a value, or a revert. */
  datatype Result<T> = Ok(value: T) | Err(error: Revert)

  /** No element occurs twice. */
  predicate NoDuplicates<T(==)>(s: seq<T>)
  {
    forall i, j :: 0 <= i < j < |s| ==> s[i] != s[j]
  }
}
