/** One company's supply-chain ledger (the contract the registry deploys per
    company): a product catalogue, per-product batch records, three role sets
    and a company-owner record. Every transaction takes the calling account
    explicitly; a reverted transaction leaves the whole ledger as it was. */
module Ledgers {
  import opened Common
  import opened Batches
  import opened LedgerState

  /** A catalogue entry; deactivation keeps the name and description. */
  datatype Product = Product(name: string, description: string, isActive: bool)

  /** The two free-text fields of one batch of one product. */
  datatype Batch = Batch(processes: string, status: string)

  /** The record of a batch that no write has touched yet. */
  const NoBatch := Batch("", "")

  /** What `getProductInfo` returns. */
  datatype ProductInfo = ProductInfo(productId: string, productName: string, description: string, isActive: bool)

  /** What `getProductByBatch` returns. */
  datatype BatchInfo = BatchInfo(productId: string, processes: string, status: string, isActive: bool)

  /** The ledger's own events (block timestamps left out). */
  datatype LedgerEvent =
    | ProductAdded(productId: string, productName: string, companyId: Bytes32)
    | ProductDeactivated(productId: string)
    | UpdatedProcesses(productId: string, processes: string, batchId: string)
    | UpdatedProductStatus(productId: string, status: string, batchId: string)

  class Ledger {
    /** The id of the company the ledger was deployed for. */
    const companyId: Bytes32
    /** Whether a product manager without the auditor role may update processes. */
    const managersMayAudit: bool

    var companyOwner: Address
    var admins: set<Address>
    var productManagers: set<Address>
    var auditors: set<Address>

    var products: map<string, Product>
    /** Every product id ever added, in the order added. */
    var productIds: seq<string>
    /** Per product, its batch ids in the order they were first written. */
    var batchIds: map<string, seq<string>>
    var batchData: map<(string, string), Batch>
    /** Per product, the batch id of every accepted processes or status write, oldest first. */
    ghost var batchWrites: map<string, seq<string>>

    var events: seq<LedgerEvent>

    /** The ledger's invariant. */
    ghost predicate Valid()
      reads this`products, this`productIds, this`batchIds, this`batchWrites, this`batchData
    {
      Catalogue(products, productIds) && BatchIndex(products.Keys, batchIds, batchWrites, batchData)
    }

    /** Deployment: the deploying factory and the company wallet are admins;
        the wallet is the company owner; the catalogue is empty. */
    constructor (companyId: Bytes32, wallet: Address, factory: Address, managersMayAudit: bool)
      ensures Valid()
      ensures this.companyId == companyId && this.managersMayAudit == managersMayAudit
      ensures companyOwner == wallet
      ensures admins == {factory, wallet} && productManagers == {} && auditors == {}
      ensures products == map[] && productIds == [] && batchIds == map[] && batchData == map[]
      ensures events == []
    {
      this.companyId := companyId;
      this.managersMayAudit := managersMayAudit;
      companyOwner := wallet;
      admins := {factory, wallet};
      productManagers := {};
      auditors := {};
      products := map[];
      productIds := [];
      batchIds := map[];
      batchData := map[];
      batchWrites := map[];
      events := [];
    }

    // ---------------------------------------------------------------- roles

    /** The accounts holding `role`. */
    function Members(role: Role): set<Address>
      reads this`admins, this`productManagers, this`auditors
    {
      match role
      case DefaultAdmin => admins
      case ProductManager => productManagers
      case Auditor => auditors
    }

    /** `hasRole(role, account)`. */
    predicate HasRole(role: Role, account: Address)
      reads this`admins, this`productManagers, this`auditors
    {
      account in Members(role)
    }

    /** The product-manager gate: the role itself or admin. */
    predicate IsProductManager(account: Address)
      reads this`admins, this`productManagers
    {
      account in productManagers || account in admins
    }

    /** The auditor gate: the role itself or admin (and, if so configured, product manager). */
    predicate IsAuditor(account: Address)
      reads this`admins, this`productManagers, this`auditors
    {
      account in auditors || account in admins || (managersMayAudit && account in productManagers)
    }

    /** `grantRole`: any of the three roles, granted by an admin; granting a held role changes nothing. */
    method GrantRole(caller: Address, role: Role, account: Address) returns (r: Result<()>)
      requires Valid()
      modifies this`admins, this`productManagers, this`auditors
      ensures Valid()
      ensures r.Ok? <==> caller in old(admins)
      ensures r.Err? ==> r.error == AccessControlUnauthorizedAccount(caller, DefaultAdmin) && unchanged(this)
      ensures r.Ok? ==> Members(role) == old(Members(role)) + {account}
      ensures forall other :: other != role ==> Members(other) == old(Members(other))
    {
      if caller !in admins {
        return Err(AccessControlUnauthorizedAccount(caller, DefaultAdmin));
      }
      match role {
        case DefaultAdmin => admins := admins + {account};
        case ProductManager => productManagers := productManagers + {account};
        case Auditor => auditors := auditors + {account};
      }
      r := Ok(());
    }

    /** `addProductManager`: admin only, never the zero address. */
    method AddProductManager(caller: Address, user: Address) returns (r: Result<()>)
      requires Valid()
      modifies this`productManagers
      ensures Valid()
      ensures caller !in admins ==> r == Err(AccessControlUnauthorizedAccount(caller, DefaultAdmin))
      ensures caller in admins && user == ZeroAddress ==> r == Err(InvalidUserAddress)
      ensures r.Ok? <==> caller in admins && user != ZeroAddress
      ensures r.Err? ==> unchanged(this)
      ensures r.Ok? ==> productManagers == old(productManagers) + {user}
    {
      if caller !in admins {
        return Err(AccessControlUnauthorizedAccount(caller, DefaultAdmin));
      }
      if user == ZeroAddress {
        return Err(InvalidUserAddress);
      }
      productManagers := productManagers + {user};
      r := Ok(());
    }

    /** `removeProductManager`: admin only, never the zero address; revoking a role never held is a no-op. */
    method RemoveProductManager(caller: Address, user: Address) returns (r: Result<()>)
      requires Valid()
      modifies this`productManagers
      ensures Valid()
      ensures caller !in admins ==> r == Err(AccessControlUnauthorizedAccount(caller, DefaultAdmin))
      ensures caller in admins && user == ZeroAddress ==> r == Err(InvalidUserAddress)
      ensures r.Ok? <==> caller in admins && user != ZeroAddress
      ensures r.Err? ==> unchanged(this)
      ensures r.Ok? ==> productManagers == old(productManagers) - {user}
      ensures r.Ok? && user !in old(productManagers) ==> unchanged(this)
    {
      if caller !in admins {
        return Err(AccessControlUnauthorizedAccount(caller, DefaultAdmin));
      }
      if user == ZeroAddress {
        return Err(InvalidUserAddress);
      }
      if user in productManagers {
        productManagers := productManagers - {user};
      }
      r := Ok(());
    }

    /** `addAuditor`: admin only, never the zero address. */
    method AddAuditor(caller: Address, user: Address) returns (r: Result<()>)
      requires Valid()
      modifies this`auditors
      ensures Valid()
      ensures caller !in admins ==> r == Err(AccessControlUnauthorizedAccount(caller, DefaultAdmin))
      ensures caller in admins && user == ZeroAddress ==> r == Err(InvalidUserAddress)
      ensures r.Ok? <==> caller in admins && user != ZeroAddress
      ensures r.Err? ==> unchanged(this)
      ensures r.Ok? ==> auditors == old(auditors) + {user}
    {
      if caller !in admins {
        return Err(AccessControlUnauthorizedAccount(caller, DefaultAdmin));
      }
      if user == ZeroAddress {
        return Err(InvalidUserAddress);
      }
      auditors := auditors + {user};
      r := Ok(());
    }

    /** `removeAuditor`: admin only, never the zero address; revoking a role never held is a no-op. */
    method RemoveAuditor(caller: Address, user: Address) returns (r: Result<()>)
      requires Valid()
      modifies this`auditors
      ensures Valid()
      ensures caller !in admins ==> r == Err(AccessControlUnauthorizedAccount(caller, DefaultAdmin))
      ensures caller in admins && user == ZeroAddress ==> r == Err(InvalidUserAddress)
      ensures r.Ok? <==> caller in admins && user != ZeroAddress
      ensures r.Err? ==> unchanged(this)
      ensures r.Ok? ==> auditors == old(auditors) - {user}
      ensures r.Ok? && user !in old(auditors) ==> unchanged(this)
    {
      if caller !in admins {
        return Err(AccessControlUnauthorizedAccount(caller, DefaultAdmin));
      }
      if user == ZeroAddress {
        return Err(InvalidUserAddress);
      }
      if user in auditors {
        auditors := auditors - {user};
      }
      r := Ok(());
    }

    /** `updateCompanyOwner`: admin only, never the zero address; role grants are untouched. */
    method UpdateCompanyOwner(caller: Address, newOwner: Address) returns (r: Result<()>)
      requires Valid()
      modifies this`companyOwner
      ensures Valid()
      ensures caller !in admins ==> r == Err(AccessControlUnauthorizedAccount(caller, DefaultAdmin))
      ensures caller in admins && newOwner == ZeroAddress ==> r == Err(InvalidOwnerAddress)
      ensures r.Ok? <==> caller in admins && newOwner != ZeroAddress
      ensures r.Err? ==> unchanged(this)
      ensures r.Ok? ==> companyOwner == newOwner
    {
      if caller !in admins {
        return Err(AccessControlUnauthorizedAccount(caller, DefaultAdmin));
      }
      if newOwner == ZeroAddress {
        return Err(InvalidOwnerAddress);
      }
      companyOwner := newOwner;
      r := Ok(());
    }

    /** `getCompanyOwner`. */
    function GetCompanyOwner(): (owner: Address)
      reads this`companyOwner
    {
      companyOwner
    }

    // ------------------------------------------------------------- products

    /** `addProduct`: product manager or admin; a non-empty id never added before. */
    method AddProduct(caller: Address, productId: string, name: string, description: string) returns (r: Result<()>)
      requires Valid()
      modifies this`products, this`productIds, this`events
      ensures Valid()
      ensures !IsProductManager(caller) ==> r == Err(CallerNotProductManager)
      ensures IsProductManager(caller) && productId == "" ==> r == Err(ProductIdEmpty)
      ensures IsProductManager(caller) && productId != "" && productId in old(products) ==> r == Err(ProductRegistered)
      ensures r.Ok? <==> IsProductManager(caller) && productId != "" && productId !in old(products)
      ensures r.Err? ==> unchanged(this)
      ensures r.Ok? ==> products == old(products)[productId := Product(name, description, true)]
      ensures r.Ok? ==> productIds == old(productIds) + [productId]
      ensures r.Ok? ==> events == old(events) + [ProductAdded(productId, name, companyId)]
    {
      if !IsProductManager(caller) {
        return Err(CallerNotProductManager);
      }
      if productId == "" {
        return Err(ProductIdEmpty);
      }
      if productId in products {
        return Err(ProductRegistered);
      }
      AddKeepsCatalogue(products, productIds, productId, Product(name, description, true));
      MoreProductsKeepBatchIndex(products.Keys, products[productId := Product(name, description, true)].Keys,
        batchIds, batchWrites, batchData);
      products := products[productId := Product(name, description, true)];
      productIds := productIds + [productId];
      events := events + [ProductAdded(productId, name, companyId)];
      r := Ok(());
    }

    /** `deactivateProduct`: product manager or admin; the product keeps its data and batches. */
    method DeactivateProduct(caller: Address, productId: string) returns (r: Result<()>)
      requires Valid()
      modifies this`products, this`events
      ensures Valid()
      ensures !IsProductManager(caller) ==> r == Err(CallerNotProductManager)
      ensures IsProductManager(caller) && !old(HasProduct(productId)) ==> r == Err(ProductNotActiveOrNotFound)
      ensures r.Ok? <==> IsProductManager(caller) && old(HasProduct(productId))
      ensures r.Err? ==> unchanged(this)
      ensures r.Ok? ==> products == old(products)[productId := old(products[productId]).(isActive := false)]
      ensures r.Ok? ==> events == old(events) + [ProductDeactivated(productId)]
    {
      if !IsProductManager(caller) {
        return Err(CallerNotProductManager);
      }
      if !HasProduct(productId) {
        return Err(ProductNotActiveOrNotFound);
      }
      ChangeKeepsCatalogue(products, productIds, productId, products[productId].(isActive := false));
      products := products[productId := products[productId].(isActive := false)];
      events := events + [ProductDeactivated(productId)];
      r := Ok(());
    }

    /** `reactivateProduct`: product manager or admin; only a deactivated product, which
        comes back with its old name and description and announces itself as added. */
    method ReactivateProduct(caller: Address, productId: string) returns (r: Result<()>)
      requires Valid()
      modifies this`products, this`events
      ensures Valid()
      ensures !IsProductManager(caller) ==> r == Err(CallerNotProductManager)
      ensures IsProductManager(caller) && productId !in old(products) ==> r == Err(ProductDoesNotExist)
      ensures IsProductManager(caller) && old(HasProduct(productId)) ==> r == Err(ProductAlreadyActive)
      ensures r.Ok? <==> IsProductManager(caller) && productId in old(products) && !old(products[productId].isActive)
      ensures r.Err? ==> unchanged(this)
      ensures r.Ok? ==> products == old(products)[productId := old(products[productId]).(isActive := true)]
      ensures r.Ok? ==> events == old(events) + [ProductAdded(productId, old(products[productId].name), companyId)]
    {
      if !IsProductManager(caller) {
        return Err(CallerNotProductManager);
      }
      if productId !in products {
        return Err(ProductDoesNotExist);
      }
      if products[productId].isActive {
        return Err(ProductAlreadyActive);
      }
      var p := products[productId];
      ChangeKeepsCatalogue(products, productIds, productId, p.(isActive := true));
      products := products[productId := p.(isActive := true)];
      events := events + [ProductAdded(productId, p.name, companyId)];
      r := Ok(());
    }

    /** `hasProduct`: the product exists and is active, i.e. `getProductInfo` succeeds. */
    predicate HasProduct(productId: string)
      reads this`products
      ensures HasProduct(productId) <==> GetProductInfo(productId).Ok?
    {
      productId in products && products[productId].isActive
    }

    /** `getProductInfo`: only an active product is visible. */
    function GetProductInfo(productId: string): (r: Result<ProductInfo>)
      reads this`products
      ensures productId !in products <==> r == Err(ProductNotFound)
      ensures productId in products && !products[productId].isActive <==> r == Err(ProductNotActive)
      ensures r.Ok? ==>
        productId in products &&
        r.value == ProductInfo(productId, products[productId].name, products[productId].description, true)
    {
      if productId !in products then Err(ProductNotFound)
      else if !products[productId].isActive then Err(ProductNotActive)
      else Ok(ProductInfo(productId, products[productId].name, products[productId].description, true))
    }

    /** `getAllProductIds`: each product added, once, in the order added. */
    function GetAllProductIds(): (ids: seq<string>)
      reads this`products, this`productIds, this`batchIds, this`batchWrites, this`batchData
      ensures Valid() ==> NoDuplicates(ids) && forall p :: p in ids <==> p in products
    {
      productIds
    }

    // -------------------------------------------------------------- batches

    /** The batch list of a product (empty before its first batch write). */
    function BatchesOf(productId: string): seq<string>
      reads this`batchIds
    {
      if productId in batchIds then batchIds[productId] else []
    }

    /** The stored record of a batch (empty fields before its first write). */
    function RecordOf(productId: string, batchId: string): Batch
      reads this`batchData
    {
      if (productId, batchId) in batchData then batchData[(productId, batchId)] else NoBatch
    }

    /** The batch ids written so far for a product. */
    ghost function WritesOf(productId: string): seq<string>
      reads this`batchWrites
    {
      if productId in batchWrites then batchWrites[productId] else []
    }

    /** The shared step of both batch writes: list the batch if new, store its new
        record, emit the event. */
    method WriteBatch(productId: string, batchId: string, record: Batch, e: LedgerEvent)
      requires Valid() && HasProduct(productId) && batchId != ""
      modifies this`batchIds, this`batchData, this`batchWrites, this`events
      ensures Valid()
      ensures batchIds == old(batchIds)[productId := AddBatch(old(BatchesOf(productId)), batchId)]
      ensures batchData == old(batchData)[(productId, batchId) := record]
      ensures batchWrites == old(batchWrites)[productId := old(WritesOf(productId)) + [batchId]]
      ensures events == old(events) + [e]
    {
      var list := BatchesOf(productId);
      ghost var writes := WritesOf(productId);
      var ids := batchIds[productId := AddBatch(list, batchId)];
      var data := batchData[(productId, batchId) := record];
      ghost var log := batchWrites[productId := writes + [batchId]];
      WriteKeepsBatchIndex(products.Keys, batchIds, batchWrites, batchData, productId, batchId, record, list, writes);
      batchIds, batchWrites, batchData, events := ids, log, data, events + [e];
    }

    /** `updateProductProcesses`: auditor or admin; an active product and a non-empty batch id.
        The batch's status is kept. */
    method UpdateProductProcesses(caller: Address, productId: string, batchId: string, processes: string)
      returns (r: Result<()>)
      requires Valid()
      modifies this`batchIds, this`batchData, this`batchWrites, this`events
      ensures Valid()
      ensures !IsAuditor(caller) ==> r == Err(CallerNotAuditor)
      ensures IsAuditor(caller) && batchId == "" ==> r == Err(BatchIdEmpty)
      ensures IsAuditor(caller) && batchId != "" && !HasProduct(productId) ==> r == Err(ProductNotActiveOrNotFound)
      ensures r.Ok? <==> IsAuditor(caller) && batchId != "" && HasProduct(productId)
      ensures r.Err? ==> unchanged(this)
      ensures r.Ok? ==> batchIds == old(batchIds)[productId := AddBatch(old(BatchesOf(productId)), batchId)]
      ensures r.Ok? ==> batchData == old(batchData)[(productId, batchId) := old(RecordOf(productId, batchId)).(processes := processes)]
      ensures r.Ok? ==> batchWrites == old(batchWrites)[productId := old(WritesOf(productId)) + [batchId]]
      ensures r.Ok? ==> events == old(events) + [UpdatedProcesses(productId, processes, batchId)]
    {
      if !IsAuditor(caller) {
        return Err(CallerNotAuditor);
      }
      if batchId == "" {
        return Err(BatchIdEmpty);
      }
      if !HasProduct(productId) {
        return Err(ProductNotActiveOrNotFound);
      }
      WriteBatch(productId, batchId, RecordOf(productId, batchId).(processes := processes),
        UpdatedProcesses(productId, processes, batchId));
      r := Ok(());
    }

    /** `updateProductStatus`: product manager or admin; an active product and a non-empty
        batch id. The batch's processes are kept. */
    method UpdateProductStatus(caller: Address, productId: string, batchId: string, status: string)
      returns (r: Result<()>)
      requires Valid()
      modifies this`batchIds, this`batchData, this`batchWrites, this`events
      ensures Valid()
      ensures !IsProductManager(caller) ==> r == Err(CallerNotProductManager)
      ensures IsProductManager(caller) && batchId == "" ==> r == Err(BatchIdEmpty)
      ensures IsProductManager(caller) && batchId != "" && !HasProduct(productId) ==> r == Err(ProductNotActiveOrNotFound)
      ensures r.Ok? <==> IsProductManager(caller) && batchId != "" && HasProduct(productId)
      ensures r.Err? ==> unchanged(this)
      ensures r.Ok? ==> batchIds == old(batchIds)[productId := AddBatch(old(BatchesOf(productId)), batchId)]
      ensures r.Ok? ==> batchData == old(batchData)[(productId, batchId) := old(RecordOf(productId, batchId)).(status := status)]
      ensures r.Ok? ==> batchWrites == old(batchWrites)[productId := old(WritesOf(productId)) + [batchId]]
      ensures r.Ok? ==> events == old(events) + [UpdatedProductStatus(productId, status, batchId)]
    {
      if !IsProductManager(caller) {
        return Err(CallerNotProductManager);
      }
      if batchId == "" {
        return Err(BatchIdEmpty);
      }
      if !HasProduct(productId) {
        return Err(ProductNotActiveOrNotFound);
      }
      WriteBatch(productId, batchId, RecordOf(productId, batchId).(status := status),
        UpdatedProductStatus(productId, status, batchId));
      r := Ok(());
    }

    /** `getProductBatches`: the product's batch ids, each once, in first-write order;
        deactivated products still answer. */
    function GetProductBatches(productId: string): (r: Result<seq<string>>)
      reads this`products, this`productIds, this`batchIds, this`batchWrites, this`batchData
      ensures productId !in products <==> r == Err(ProductNotFound)
      ensures r.Ok? ==> r.value == BatchesOf(productId)
      ensures Valid() && r.Ok? ==> NoDuplicates(r.value) && r.value == FirstWriteOrder(WritesOf(productId))
      ensures Valid() && r.Ok? ==> forall b :: b in r.value <==> b in WritesOf(productId)
    {
      if productId !in products then Err(ProductNotFound)
      else
        assert Valid() ==> productId in batchIds || WritesOf(productId) == [];
        FirstWriteOrderMembers(WritesOf(productId));
        Ok(BatchesOf(productId))
    }

    /** `getProductByBatch`: the batch's two fields, each "" until first written. */
    function GetProductByBatch(productId: string, batchId: string): (r: Result<BatchInfo>)
      reads this`products, this`productIds, this`batchIds, this`batchWrites, this`batchData
      ensures productId !in products <==> r == Err(ProductNotFound)
      ensures productId in products && batchId == "" <==> r == Err(BatchIdEmpty)
      ensures r.Ok? ==>
        productId in products &&
        r.value == BatchInfo(productId, RecordOf(productId, batchId).processes, RecordOf(productId, batchId).status, products[productId].isActive)
      ensures Valid() && r.Ok? && batchId !in BatchesOf(productId) ==> r.value.processes == "" && r.value.status == ""
    {
      if productId !in products then Err(ProductNotFound)
      else if batchId == "" then Err(BatchIdEmpty)
      else
        var record := RecordOf(productId, batchId);
        Ok(BatchInfo(productId, record.processes, record.status, products[productId].isActive))
    }
  }
}
