/** The factory contract: an owned registry of companies, keyed by registration
    code, that deploys supply-chain ledgers for registered companies and keeps,
    per company id, the list of every ledger deployed for it. */
module Registries {
  import opened Common
  import opened Ledgers

  /** A company record; deactivation only clears the flag. */
  datatype Company = Company(registrationNumber: string, name: string, wallet: Address, isActive: bool)

  /** The registry's events (block timestamps left out). */
  datatype RegistryEvent =
    | CompanyRegistered(registrationNumber: string, name: string, owner: Address)
    | CompanyModified(registrationNumber: string, name: string, wallet: Address)
    | CompanyDeactivated(registrationNumber: string)
    | AgriSupplyChainCreated(chain: Ledger, creator: Address, name: string)
    | OwnershipTransferred(previousOwner: Address, newOwner: Address)

  class Registry {
    /** The registry's own account, which becomes an admin of every ledger it deploys. */
    const self: Address
    /** The company id of a registration code (a hash of the ABI-encoded code on chain). */
    const companyIdOf: string -> Bytes32
    /** Handed to every deployed ledger: may a product manager also update processes? */
    const managersMayAudit: bool

    var owner: Address
    var companies: map<string, Company>
    /** Every ledger deployed, per company id, oldest first. */
    var chains: map<Bytes32, seq<Ledger>>
    var events: seq<RegistryEvent>

    /** The registry's invariant. */
    ghost predicate Valid()
      reads this`owner, this`companies, this`chains
    {
      && owner != ZeroAddress
      && (forall code :: code in companies ==>
            code != "" && companies[code].registrationNumber == code &&
            companies[code].name != "" && companies[code].wallet != ZeroAddress)
      && (forall id, i :: id in chains && 0 <= i < |chains[id]| ==> chains[id][i].companyId == id)
    }

    /** Deployment: the deployer owns the registry, which starts empty. */
    constructor (deployer: Address, self: Address, companyIdOf: string -> Bytes32, managersMayAudit: bool)
      requires deployer != ZeroAddress
      ensures Valid()
      ensures this.self == self && this.companyIdOf == companyIdOf && this.managersMayAudit == managersMayAudit
      ensures owner == deployer && companies == map[] && chains == map[] && events == []
    {
      this.self := self;
      this.companyIdOf := companyIdOf;
      this.managersMayAudit := managersMayAudit;
      owner := deployer;
      companies := map[];
      chains := map[];
      events := [];
    }

    /** Is `code` a currently registered company? */
    predicate IsRegistered(code: string)
      reads this`companies
    {
      code in companies && companies[code].isActive
    }

    /** `owner()`. */
    function Owner(): (a: Address)
      reads this`owner
    {
      owner
    }

    /** `getCompanyIdfromTaxcode`. */
    function GetCompanyIdFromTaxcode(code: string): (id: Bytes32)
    {
      companyIdOf(code)
    }

    /** The input checks shared by registration and modification, in the order they run. */
    static function ValidateCompany(code: string, name: string, wallet: Address): (r: Result<()>)
      ensures r.Ok? <==> code != "" && name != "" && wallet != ZeroAddress
      ensures code == "" ==> r == Err(RegistrationNumberEmpty)
      ensures code != "" && name == "" ==> r == Err(CompanyNameEmpty)
      ensures code != "" && name != "" && wallet == ZeroAddress ==> r == Err(InvalidWalletAddress)
    {
      if code == "" then Err(RegistrationNumberEmpty)
      else if name == "" then Err(CompanyNameEmpty)
      else if wallet == ZeroAddress then Err(InvalidWalletAddress)
      else Ok(())
    }

    /** `registerCompany`: owner only; a code not currently registered (a deactivated
        code may be registered again, replacing its record). */
    method RegisterCompany(caller: Address, code: string, name: string, wallet: Address) returns (r: Result<()>)
      requires Valid()
      modifies this`companies, this`events
      ensures Valid()
      ensures caller != owner ==> r == Err(OwnableUnauthorizedAccount(caller))
      ensures caller == owner && ValidateCompany(code, name, wallet).Err? ==> r == ValidateCompany(code, name, wallet)
      ensures caller == owner && ValidateCompany(code, name, wallet).Ok? && old(IsRegistered(code)) ==> r == Err(AlreadyRegistered)
      ensures r.Ok? <==> caller == owner && ValidateCompany(code, name, wallet).Ok? && !old(IsRegistered(code))
      ensures r.Err? ==> unchanged(this)
      ensures r.Ok? ==> companies == old(companies)[code := Company(code, name, wallet, true)]
      ensures r.Ok? ==> events == old(events) + [CompanyRegistered(code, name, wallet)]
    {
      if caller != owner {
        return Err(OwnableUnauthorizedAccount(caller));
      }
      var valid := ValidateCompany(code, name, wallet);
      if valid.Err? {
        return valid;
      }
      if IsRegistered(code) {
        return Err(AlreadyRegistered);
      }
      companies := companies[code := Company(code, name, wallet, true)];
      events := events + [CompanyRegistered(code, name, wallet)];
      r := Ok(());
    }

    /** `modifyCompany`: owner only; replaces the name and wallet of a registered company. */
    method ModifyCompany(caller: Address, code: string, name: string, wallet: Address) returns (r: Result<()>)
      requires Valid()
      modifies this`companies, this`events
      ensures Valid()
      ensures caller != owner ==> r == Err(OwnableUnauthorizedAccount(caller))
      ensures caller == owner && ValidateCompany(code, name, wallet).Err? ==> r == ValidateCompany(code, name, wallet)
      ensures caller == owner && ValidateCompany(code, name, wallet).Ok? && !old(IsRegistered(code)) ==> r == Err(CompanyNotRegistered)
      ensures r.Ok? <==> caller == owner && ValidateCompany(code, name, wallet).Ok? && old(IsRegistered(code))
      ensures r.Err? ==> unchanged(this)
      ensures r.Ok? ==> companies == old(companies)[code := Company(code, name, wallet, true)]
      ensures r.Ok? ==> events == old(events) + [CompanyModified(code, name, wallet)]
    {
      if caller != owner {
        return Err(OwnableUnauthorizedAccount(caller));
      }
      var valid := ValidateCompany(code, name, wallet);
      if valid.Err? {
        return valid;
      }
      if !IsRegistered(code) {
        return Err(CompanyNotRegistered);
      }
      companies := companies[code := companies[code].(name := name, wallet := wallet)];
      events := events + [CompanyModified(code, name, wallet)];
      r := Ok(());
    }

    /** `deactiveCompany`: owner only; a registered company stops being registered.
        Its ledgers stay deployed and listed. */
    method DeactiveCompany(caller: Address, code: string) returns (r: Result<()>)
      requires Valid()
      modifies this`companies, this`events
      ensures Valid()
      ensures caller != owner ==> r == Err(OwnableUnauthorizedAccount(caller))
      ensures caller == owner && !old(IsRegistered(code)) ==> r == Err(CompanyNotRegistered)
      ensures r.Ok? <==> caller == owner && old(IsRegistered(code))
      ensures r.Err? ==> unchanged(this)
      ensures r.Ok? ==> companies == old(companies)[code := old(companies[code]).(isActive := false)]
      ensures r.Ok? ==> events == old(events) + [CompanyDeactivated(code)]
    {
      if caller != owner {
        return Err(OwnableUnauthorizedAccount(caller));
      }
      if !IsRegistered(code) {
        return Err(CompanyNotRegistered);
      }
      companies := companies[code := companies[code].(isActive := false)];
      events := events + [CompanyDeactivated(code)];
      r := Ok(());
    }

    /** Who may deploy a ledger for `code`: the registry owner, or the wallet on the code's record. */
    predicate MayCreateChain(caller: Address, code: string)
      reads this`owner, this`companies
    {
      caller == owner || (code in companies && caller == companies[code].wallet)
    }

    /** The ledgers listed under a company id (none before the first deployment). */
    function ChainsOf(id: Bytes32): seq<Ledger>
      reads this`chains
    {
      if id in chains then chains[id] else []
    }

    /** `createSupplyChain`: the permission check runs before the registration check;
        a new ledger for the company is deployed and appended to its list, and the
        event names the caller as creator. */
    method CreateSupplyChain(caller: Address, code: string, name: string, description: string)
      returns (r: Result<Ledger>)
      requires Valid()
      modifies this`chains, this`events
      ensures Valid()
      ensures !MayCreateChain(caller, code) ==> r == Err(SenderHasNoPermission)
      ensures MayCreateChain(caller, code) && !IsRegistered(code) ==> r == Err(CompanyNotRegistered)
      ensures r.Ok? <==> MayCreateChain(caller, code) && IsRegistered(code)
      ensures r.Err? ==> unchanged(this)
      ensures r.Ok? ==> fresh(r.value) && r.value.Valid()
      ensures r.Ok? ==> r.value.companyId == companyIdOf(code) && r.value.managersMayAudit == managersMayAudit
      ensures r.Ok? ==> r.value.admins == {self, companies[code].wallet} && r.value.companyOwner == companies[code].wallet
      ensures r.Ok? ==> r.value.products == map[] && r.value.productManagers == {} && r.value.auditors == {}
      ensures r.Ok? ==> r.value.productIds == [] && r.value.batchIds == map[] && r.value.batchData == map[] && r.value.events == []
      ensures r.Ok? ==> chains == old(chains)[companyIdOf(code) := old(ChainsOf(companyIdOf(code))) + [r.value]]
      ensures r.Ok? ==> events == old(events) + [AgriSupplyChainCreated(r.value, caller, name)]
    {
      if !MayCreateChain(caller, code) {
        return Err(SenderHasNoPermission);
      }
      if !IsRegistered(code) {
        return Err(CompanyNotRegistered);
      }
      var id := companyIdOf(code);
      var chain := new Ledger(id, companies[code].wallet, self, managersMayAudit);
      chains := chains[id := ChainsOf(id) + [chain]];
      events := events + [AgriSupplyChainCreated(chain, caller, name)];
      r := Ok(chain);
    }

    /** `getCompanyInfo`: the record of a registered company. */
    function GetCompanyInfo(code: string): (r: Result<Company>)
      reads this`owner, this`companies, this`chains
      ensures r.Ok? <==> IsRegistered(code)
      ensures r.Err? ==> r.error == CompanyIsNotRegistered
      ensures r.Ok? ==> code in companies && r.value == companies[code]
      ensures Valid() && r.Ok? ==> r.value.registrationNumber == code && r.value.isActive
    {
      if IsRegistered(code) then Ok(companies[code]) else Err(CompanyIsNotRegistered)
    }

    /** `getListAgriSupplyChain`: the ledgers listed under a registered company's id. */
    function GetListAgriSupplyChain(code: string): (r: Result<seq<Ledger>>)
      reads this`owner, this`companies, this`chains
      ensures r.Ok? <==> IsRegistered(code)
      ensures r.Err? ==> r.error == CompanyNotRegistered
      ensures r.Ok? ==> r.value == ChainsOf(companyIdOf(code))
      ensures Valid() && r.Ok? ==> forall i :: 0 <= i < |r.value| ==> r.value[i].companyId == companyIdOf(code)
    {
      if IsRegistered(code) then Ok(ChainsOf(companyIdOf(code))) else Err(CompanyNotRegistered)
    }

    /** `transferOwnership`: owner only, never to the zero address. */
    method TransferOwnership(caller: Address, newOwner: Address) returns (r: Result<()>)
      requires Valid()
      modifies this`owner, this`events
      ensures Valid()
      ensures caller != old(owner) ==> r == Err(OwnableUnauthorizedAccount(caller))
      ensures caller == old(owner) && newOwner == ZeroAddress ==> r == Err(OwnableInvalidOwner(ZeroAddress))
      ensures r.Ok? <==> caller == old(owner) && newOwner != ZeroAddress
      ensures r.Err? ==> unchanged(this)
      ensures r.Ok? ==> owner == newOwner && events == old(events) + [OwnershipTransferred(caller, newOwner)]
    {
      if caller != owner {
        return Err(OwnableUnauthorizedAccount(caller));
      }
      if newOwner == ZeroAddress {
        return Err(OwnableInvalidOwner(ZeroAddress));
      }
      events := events + [OwnershipTransferred(owner, newOwner)];
      owner := newOwner;
      r := Ok(());
    }
  }
}
