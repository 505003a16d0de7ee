/** Client sessions against the two contracts, one per behaviour the contract
    test suites pin down: each deploys what it needs, runs the transactions
    in order and returns what the views then answer. Product ids, batch ids
    and field texts are parameters, so each session covers every choice of them. */
module Scenarios {
  import opened Common
  import opened Batches
  import opened Ledgers
  import opened Registries

  // Accounts used by the sessions.
  const Deployer: Address := 1
  const CompanyWallet: Address := 2
  const OtherWallet: Address := 3
  const AuditorAccount: Address := 4
  const ManagerAccount: Address := 5
  const Outsider: Address := 6
  const FactoryAccount: Address := 7

  /** A ledger as the registry deploys it for a company with wallet `CompanyWallet`,
      holding one active product. */
  method LedgerWithProduct(productId: string) returns (ledger: Ledger)
    requires productId != ""
    ensures fresh(ledger) && ledger.Valid()
    ensures ledger.admins == {FactoryAccount, CompanyWallet} && ledger.productManagers == {} && ledger.auditors == {}
    ensures ledger.HasProduct(productId) && ledger.batchIds == map[] && ledger.batchData == map[] && ledger.batchWrites == map[]
  {
    ledger := new Ledger(42, CompanyWallet, FactoryAccount, false);
    var _ := ledger.AddProduct(CompanyWallet, productId, "Test", "Description");
  }

  /** The first `i + 1` elements are the first `i` and the next one. */
  lemma TakeOneMore<T>(s: seq<T>, i: int)
    requires 0 <= i < |s|
    ensures s[..i + 1] == s[..i] + [s[i]]
  {
  }

  /** Batches written one after another, all different, are listed exactly as written. */
  method ManyBatches(productId: string, batches: seq<string>) returns (listed: Result<seq<string>>)
    requires productId != "" && NoDuplicates(batches) && "" !in batches
    ensures listed == Ok(batches)
  {
    var ledger := LedgerWithProduct(productId);
    var i := 0;
    while i < |batches|
      invariant 0 <= i <= |batches|
      invariant ledger.Valid() && ledger.HasProduct(productId) && CompanyWallet in ledger.admins
      invariant ledger.WritesOf(productId) == batches[..i]
    {
      var _ := ledger.UpdateProductProcesses(CompanyWallet, productId, batches[i], "Process");
      TakeOneMore(batches, i);
      i := i + 1;
    }
    listed := ledger.GetProductBatches(productId);
    assert batches[..i] == batches;
    DistinctWritesListedVerbatim(batches);
  }

  /** One write to a batch: its processes or its status. */
  datatype FieldWrite = ProcessesWrite(processes: string) | StatusWrite(status: string)

  /** The text of the last processes write, "" if there is none. */
  function LastProcesses(writes: seq<FieldWrite>): string
  {
    if writes == [] then ""
    else if writes[|writes| - 1].ProcessesWrite? then writes[|writes| - 1].processes
    else LastProcesses(writes[..|writes| - 1])
  }

  /** The text of the last status write, "" if there is none. */
  function LastStatus(writes: seq<FieldWrite>): string
  {
    if writes == [] then ""
    else if writes[|writes| - 1].StatusWrite? then writes[|writes| - 1].status
    else LastStatus(writes[..|writes| - 1])
  }

  /** One permitted write to a batch of an active product: the written field takes the
      new text, the other keeps its own. */
  method WriteField(ledger: Ledger, caller: Address, productId: string, batchId: string, w: FieldWrite)
    requires ledger.Valid() && ledger.HasProduct(productId) && batchId != ""
    requires w.ProcessesWrite? ==> ledger.IsAuditor(caller)
    requires w.StatusWrite? ==> ledger.IsProductManager(caller)
    modifies ledger`batchIds, ledger`batchData, ledger`batchWrites, ledger`events
    ensures ledger.Valid()
    ensures ledger.RecordOf(productId, batchId) ==
      match w
      case ProcessesWrite(processes) => old(ledger.RecordOf(productId, batchId)).(processes := processes)
      case StatusWrite(status) => old(ledger.RecordOf(productId, batchId)).(status := status)
  {
    match w {
      case ProcessesWrite(processes) =>
        var _ := ledger.UpdateProductProcesses(caller, productId, batchId, processes);
      case StatusWrite(status) =>
        var _ := ledger.UpdateProductStatus(caller, productId, batchId, status);
    }
  }

  /** Any interleaving of processes and status writes to one batch: each field reads back
      its own last write, whatever was written to the other field in between. */
  method InterleavedWrites(productId: string, batchId: string, writes: seq<FieldWrite>)
    returns (info: Result<BatchInfo>)
    requires productId != "" && batchId != ""
    ensures info == Ok(BatchInfo(productId, LastProcesses(writes), LastStatus(writes), true))
  {
    var ledger := LedgerWithProduct(productId);
    var i := 0;
    while i < |writes|
      invariant 0 <= i <= |writes|
      invariant ledger.Valid() && ledger.HasProduct(productId) && CompanyWallet in ledger.admins
      invariant ledger.RecordOf(productId, batchId) == Batch(LastProcesses(writes[..i]), LastStatus(writes[..i]))
    {
      TakeOneMore(writes, i);
      assert writes[..i + 1][..i] == writes[..i];
      WriteField(ledger, CompanyWallet, productId, batchId, writes[i]);
      i := i + 1;
    }
    assert writes[..i] == writes;
    info := ledger.GetProductByBatch(productId, batchId);
  }

  /** One batch written through both fields is listed once and keeps both fields. */
  method SameBatchBothFields(productId: string, batchId: string, processes: string, status: string)
    returns (listed: Result<seq<string>>, info: Result<BatchInfo>)
    requires productId != "" && batchId != ""
    ensures listed == Ok([batchId])
    ensures info == Ok(BatchInfo(productId, processes, status, true))
  {
    var ledger := LedgerWithProduct(productId);
    var _ := ledger.UpdateProductProcesses(CompanyWallet, productId, batchId, processes);
    var _ := ledger.UpdateProductStatus(CompanyWallet, productId, batchId, status);
    listed := ledger.GetProductBatches(productId);
    info := ledger.GetProductByBatch(productId, batchId);
  }

  /** A batch written only through its status reads back no processes; a later
      processes write keeps the status. */
  method StatusBeforeProcesses(productId: string, batchId: string, processes: string, status: string)
    returns (before: Result<BatchInfo>, after: Result<BatchInfo>)
    requires productId != "" && batchId != ""
    ensures before == Ok(BatchInfo(productId, "", status, true))
    ensures after == Ok(BatchInfo(productId, processes, status, true))
  {
    var ledger := LedgerWithProduct(productId);
    var _ := ledger.UpdateProductStatus(CompanyWallet, productId, batchId, status);
    before := ledger.GetProductByBatch(productId, batchId);
    var _ := ledger.UpdateProductProcesses(CompanyWallet, productId, batchId, processes);
    after := ledger.GetProductByBatch(productId, batchId);
  }

  /** Deactivates an active product or reactivates an inactive one, as the company's wallet. */
  method Toggle(ledger: Ledger, productId: string)
    requires ledger.Valid() && productId in ledger.products && CompanyWallet in ledger.admins
    modifies ledger`products, ledger`events
    ensures ledger.Valid() && productId in ledger.products
    ensures ledger.HasProduct(productId) == !old(ledger.HasProduct(productId))
  {
    if ledger.HasProduct(productId) {
      var _ := ledger.DeactivateProduct(CompanyWallet, productId);
    } else {
      var _ := ledger.ReactivateProduct(CompanyWallet, productId);
    }
  }

  /** Deactivating and reactivating in turn: `hasProduct` answers false, true, false, true, ... */
  method ActivationCycles(productId: string, steps: nat) returns (observed: seq<bool>)
    requires productId != ""
    ensures |observed| == steps
    ensures forall i :: 0 <= i < |observed| ==> observed[i] == (i % 2 == 1)
  {
    var ledger := LedgerWithProduct(productId);
    observed := [];
    while |observed| < steps
      invariant |observed| <= steps
      invariant ledger.Valid() && productId in ledger.products && CompanyWallet in ledger.admins
      invariant ledger.HasProduct(productId) == (|observed| % 2 == 0)
      invariant forall i :: 0 <= i < |observed| ==> observed[i] == (i % 2 == 1)
    {
      Toggle(ledger, productId);
      var now := ledger.HasProduct(productId);
      observed := observed + [now];
    }
  }

  /** The ledger of `LedgerWithProduct` with `AuditorAccount` granted the auditor role. */
  method LedgerWithAuditor(productId: string) returns (ledger: Ledger)
    requires productId != ""
    ensures fresh(ledger) && ledger.Valid()
    ensures ledger.admins == {FactoryAccount, CompanyWallet} && ledger.productManagers == {} && ledger.auditors == {AuditorAccount}
    ensures ledger.HasProduct(productId) && ledger.batchIds == map[] && ledger.batchData == map[] && ledger.batchWrites == map[]
  {
    ledger := LedgerWithProduct(productId);
    var _ := ledger.AddAuditor(CompanyWallet, AuditorAccount);
  }

  /** An account holding only the auditor role cannot add products. */
  method AuditorMayNotAddProduct(productId: string, newId: string) returns (r: Result<()>)
    requires productId != ""
    ensures r == Err(CallerNotProductManager)
  {
    var ledger := LedgerWithAuditor(productId);
    assert !ledger.IsProductManager(AuditorAccount);
    r := ledger.AddProduct(AuditorAccount, newId, "Test", "Desc");
  }

  /** An account holding only the auditor role cannot write a batch's status. */
  method AuditorMayNotUpdateStatus(productId: string, batchId: string, status: string) returns (r: Result<()>)
    requires productId != ""
    ensures r == Err(CallerNotProductManager)
  {
    var ledger := LedgerWithAuditor(productId);
    assert !ledger.IsProductManager(AuditorAccount);
    r := ledger.UpdateProductStatus(AuditorAccount, productId, batchId, status);
  }

  /** An account without roles cannot write a batch's processes. */
  method OutsiderMayNotUpdateProcesses(productId: string, batchId: string, processes: string) returns (r: Result<()>)
    requires productId != ""
    ensures r == Err(CallerNotAuditor)
  {
    var ledger := LedgerWithAuditor(productId);
    assert !ledger.IsAuditor(Outsider);
    r := ledger.UpdateProductProcesses(Outsider, productId, batchId, processes);
  }

  /** An account holding only the auditor role may write a batch's processes. */
  method AuditedBatch(productId: string, batchId: string, processes: string) returns (ledger: Ledger)
    requires productId != "" && batchId != ""
    ensures fresh(ledger) && ledger.Valid() && ledger.HasProduct(productId)
    ensures CompanyWallet in ledger.admins && !ledger.IsProductManager(AuditorAccount)
    ensures ledger.RecordOf(productId, batchId) == Batch(processes, "")
  {
    ledger := LedgerWithAuditor(productId);
    assert !ledger.IsProductManager(AuditorAccount);
    WriteField(ledger, AuditorAccount, productId, batchId, ProcessesWrite(processes));
  }

  /** The ledger of `AuditedBatch` after the auditor's role is removed again. */
  method RevokedAuditor(productId: string, batchId: string, processes: string) returns (ledger: Ledger)
    requires productId != "" && batchId != ""
    ensures fresh(ledger) && ledger.Valid() && ledger.HasProduct(productId)
    ensures CompanyWallet in ledger.admins && !ledger.IsAuditor(AuditorAccount)
    ensures ledger.RecordOf(productId, batchId) == Batch(processes, "")
  {
    ledger := AuditedBatch(productId, batchId, processes);
    var _ := ledger.RemoveAuditor(CompanyWallet, AuditorAccount);
  }

  /** Removing the auditor who wrote a batch keeps the batch, and the removed account can
      no longer write processes. */
  method RevokedAuditorRefused(productId: string, batchId: string, processes: string, again: string)
    returns (kept: Result<BatchInfo>, r: Result<()>)
    requires productId != "" && batchId != ""
    ensures kept == Ok(BatchInfo(productId, processes, "", true))
    ensures r == Err(CallerNotAuditor)
  {
    var ledger := RevokedAuditor(productId, batchId, processes);
    kept := ledger.GetProductByBatch(productId, batchId);
    r := ledger.UpdateProductProcesses(AuditorAccount, productId, batchId, again);
  }

  /** The ledger of `RevokedAuditor` with `ManagerAccount` made a product manager. */
  method HiredManager(productId: string, batchId: string, processes: string) returns (ledger: Ledger)
    requires productId != "" && batchId != ""
    ensures fresh(ledger) && ledger.Valid() && ledger.HasProduct(productId)
    ensures ledger.IsProductManager(ManagerAccount)
    ensures ledger.RecordOf(productId, batchId) == Batch(processes, "")
  {
    ledger := RevokedAuditor(productId, batchId, processes);
    var _ := ledger.AddProductManager(CompanyWallet, ManagerAccount);
  }

  /** After the role changes, a new product manager's status write keeps the processes
      the removed auditor wrote. */
  method DataSurvivesRoleChanges(productId: string, batchId: string, processes: string, status: string)
    returns (updated: Result<BatchInfo>)
    requires productId != "" && batchId != ""
    ensures updated == Ok(BatchInfo(productId, processes, status, true))
  {
    var ledger := HiredManager(productId, batchId, processes);
    var _ := ledger.UpdateProductStatus(ManagerAccount, productId, batchId, status);
    updated := ledger.GetProductByBatch(productId, batchId);
  }

  /** A product manager whose role is removed can no longer add products. */
  method RevokedManagerRefused(productId: string, newId: string) returns (r: Result<()>)
    requires productId != ""
    ensures r == Err(CallerNotProductManager)
  {
    var ledger := LedgerWithProduct(productId);
    var _ := ledger.AddProductManager(CompanyWallet, ManagerAccount);
    var _ := ledger.RemoveProductManager(CompanyWallet, ManagerAccount);
    assert !ledger.IsProductManager(ManagerAccount);
    r := ledger.AddProduct(ManagerAccount, newId, "Test", "Desc");
  }

  /** A registry owned by `Deployer`. */
  method FreshRegistry(idOf: string -> Bytes32) returns (registry: Registry)
    ensures fresh(registry) && registry.Valid()
    ensures registry.owner == Deployer && registry.companies == map[] && registry.chains == map[]
    ensures registry.companyIdOf == idOf && registry.self == FactoryAccount
  {
    registry := new Registry(Deployer, FactoryAccount, idOf, false);
  }

  /** A deactivated code can be registered again, with a new name and wallet. */
  method ReRegisterAfterDeactivation(idOf: string -> Bytes32, code: string, name: string, newName: string)
    returns (whileInactive: Result<Company>, again: Result<Company>)
    requires code != "" && name != "" && newName != ""
    ensures whileInactive == Err(CompanyIsNotRegistered)
    ensures again == Ok(Company(code, newName, OtherWallet, true))
  {
    var registry := FreshRegistry(idOf);
    var _ := registry.RegisterCompany(Deployer, code, name, CompanyWallet);
    var _ := registry.DeactiveCompany(Deployer, code);
    whileInactive := registry.GetCompanyInfo(code);
    var _ := registry.RegisterCompany(Deployer, code, newName, OtherWallet);
    again := registry.GetCompanyInfo(code);
  }

  /** Every successful creation adds one ledger: `count` creations by the company's
      wallet list `count` ledgers, all for the company's id. */
  method ChainsPerCreation(idOf: string -> Bytes32, code: string, count: nat) returns (chains: Result<seq<Ledger>>)
    requires code != ""
    ensures chains.Ok? && |chains.value| == count
    ensures forall i :: 0 <= i < count ==> chains.value[i].companyId == idOf(code)
  {
    var registry := FreshRegistry(idOf);
    var _ := registry.RegisterCompany(Deployer, code, "Test Company", CompanyWallet);
    var k := 0;
    while k < count
      invariant 0 <= k <= count
      invariant registry.Valid() && registry.IsRegistered(code) && registry.companyIdOf == idOf
      invariant registry.companies[code].wallet == CompanyWallet
      invariant |registry.ChainsOf(idOf(code))| == k
    {
      var _ := registry.CreateSupplyChain(CompanyWallet, code, "Chain", "desc");
      k := k + 1;
    }
    chains := registry.GetListAgriSupplyChain(code);
  }

  /** A registry holding two companies, `code` with wallet `CompanyWallet` and `otherCode`
      with wallet `OtherWallet`. */
  method TwoCompanies(idOf: string -> Bytes32, code: string, otherCode: string) returns (registry: Registry)
    requires code != "" && otherCode != "" && code != otherCode
    ensures fresh(registry) && registry.Valid()
    ensures registry.owner == Deployer && registry.companyIdOf == idOf
    ensures registry.companies.Keys == {code, otherCode}
    ensures registry.IsRegistered(code) && registry.companies[code].wallet == CompanyWallet
    ensures registry.IsRegistered(otherCode) && registry.companies[otherCode].wallet == OtherWallet
  {
    registry := FreshRegistry(idOf);
    var _ := registry.RegisterCompany(Deployer, code, "Test Company", CompanyWallet);
    var _ := registry.RegisterCompany(Deployer, otherCode, "Company 2", OtherWallet);
  }

  /** The permission check runs first: an outsider is refused even for an unknown code,
      one company's wallet cannot deploy for another company, and the owner can. */
  method CreatePermissionFirst(idOf: string -> Bytes32, code: string, otherCode: string, unknownCode: string)
    returns (forUnknown: Result<Ledger>, forOther: Result<Ledger>, byOwner: Result<Ledger>)
    requires code != "" && otherCode != "" && code != otherCode
    requires unknownCode != code && unknownCode != otherCode
    ensures forUnknown == Err(SenderHasNoPermission)
    ensures forOther == Err(SenderHasNoPermission)
    ensures byOwner.Ok? && byOwner.value.companyId == idOf(otherCode)
  {
    var registry := TwoCompanies(idOf, code, otherCode);
    forUnknown := registry.CreateSupplyChain(Outsider, unknownCode, "Chain", "Desc");
    forOther := registry.CreateSupplyChain(CompanyWallet, otherCode, "Malicious Chain", "Desc");
    byOwner := registry.CreateSupplyChain(Deployer, otherCode, "Owner Chain", "Desc");
  }

  /** A stranger cannot take ownership; after a transfer the old owner is refused and
      the new owner may register companies. */
  method OwnershipTransfer(idOf: string -> Bytes32, code: string, name: string)
    returns (byStranger: Result<()>, oldOwner: Result<()>, newOwner: Result<()>)
    requires code != "" && name != ""
    ensures byStranger == Err(OwnableUnauthorizedAccount(Outsider))
    ensures oldOwner == Err(OwnableUnauthorizedAccount(Deployer))
    ensures newOwner.Ok?
  {
    var registry := FreshRegistry(idOf);
    byStranger := registry.TransferOwnership(Outsider, Outsider);
    var moved := registry.TransferOwnership(Deployer, Outsider);
    assert moved.Ok? && registry.owner == Outsider && !registry.IsRegistered(code);
    oldOwner := registry.RegisterCompany(Deployer, code, name, CompanyWallet);
    newOwner := registry.RegisterCompany(Outsider, code, name, CompanyWallet);
  }
}
