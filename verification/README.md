# Farm traceability, arm control and dashboard helpers — a Dafny model

This project models three parts of a smart-farm system.

- **The traceability contracts.**
  - `DemoFarmTraceabilityFactory` is an owned registry of companies, keyed by registration code.
    For a registered company it deploys supply-chain ledgers, and it keeps every ledger deployed per company id.
  - `TYTFarmFactory` is one company's ledger. It holds:
    - a product catalogue;
    - per-product batch lists, in first-write order without duplicates;
    - the `(processes, status)` record of each batch;
    - three role sets (admin, product manager, auditor);
    - a company-owner field.

  The Solidity source of the two contracts is not part of this model. Their behaviour is taken from the Hardhat test suites that exercise them: the revert strings, the read-back values and the list lengths.
  Both contracts are Dafny classes (`Registries.Registry`, `Ledgers.Ledger`). Every transaction takes the calling account as a parameter and returns a `Result` whose error cases are the revert reasons (`Common.Revert`). Views are functions that read the state and cannot change it.
  Each transaction's contract covers four things:
  - its permission gate;
  - its error cases, in the order they are checked;
  - that a reverted call changes nothing;
  - the whole new state after a successful call.

  The invariants (`Ledger.Valid`, `Registry.Valid`) are preserved by every transaction. The ledger's invariant ties each batch list to a ghost log of the batch writes: the list is `FirstWriteOrder` of the log (module `Batches`, invariant parts in `LedgerState`).
  Client sessions in `Scenarios` replay what the test suites assert, with ids and texts as parameters.
- **The ESP32 arm firmware** (`main.cpp`). The model covers:
  - the four-servo table at power-on;
  - `setServoAngle`, an in-place update of an array of servos, proved against the function `AfterSetServoAngle`. It clamps the angle to the servo's limits and couples the elbow to the shoulder;
  - the output stage of `processUltrasonicSignal`.
- **Dashboard helpers** (`ui/script.js`):
  - the tree description that packs species and location into one string and is split apart again;
  - the weather, hour and distance readouts and the disease/advice tests;
  - the per-label detection tally (an accumulating loop) and the fruit filter;
  - the HTML-escaping stage of the small Markdown renderer.

## Model

| member | source | states |
|---|---|---|
| Ledgers.Ledger.constructor | Tree-Contract/test/SecurityTests.test.js:333-340 | A new ledger has the deploying factory and the company wallet as its only admins and the wallet as company owner. It has no managers, auditors, products or batches, and it satisfies the invariant. |
| Ledgers.Ledger.GrantRole | Tree-Contract/test/SecurityTests.test.js:38-41 | Only an admin may grant a role, and anyone else gets the unauthorized-account error naming the caller and the admin role with the ledger unchanged. A grant adds the account to that role's set and leaves the other two sets alone. |
| Ledgers.Ledger.AddProductManager | Tree-Contract/test/PioneFarmTraceabilityFactory.test.js:332-347 | Succeeds exactly for an admin caller and a non-zero user, and then adds the user to the managers. A non-admin gets the unauthorized-account error, and the zero address gets "Invalid user address". On error nothing changes. |
| Ledgers.Ledger.RemoveProductManager | Tree-Contract/test/EdgeCaseTests.test.js:344-366 | Same gate and zero-address check as adding. On success it removes the user from the managers, and when the user never held the role it succeeds and changes nothing. |
| Ledgers.Ledger.AddAuditor | Tree-Contract/test/PioneFarmTraceabilityFactory.test.js:349-375 | Succeeds exactly for an admin caller and a non-zero user, and then adds the user to the auditors. Otherwise it fails with the unauthorized-account error or "Invalid user address" and changes nothing. |
| Ledgers.Ledger.RemoveAuditor | Tree-Contract/test/EdgeCaseTests.test.js:362-366 | On success it removes the user from the auditors, and for a user who never held the role it succeeds and changes nothing. It has the same gate as adding, and errors change nothing. |
| Ledgers.Ledger.UpdateCompanyOwner | Tree-Contract/test/EdgeCaseTests.test.js:368-379 | An admin sets the company owner to any non-zero address. The zero address gets "Invalid owner address", and a non-admin gets the unauthorized-account error. Errors change nothing, and no role set changes. |
| Ledgers.Ledger.AddProduct | Tree-Contract/test/PioneFarmTraceabilityFactory.test.js:297-305 | A product manager or admin adds a non-empty id not catalogued before. The product is stored verbatim and active, the id is appended to the id list, and a `ProductAdded` event carries the name and the company id. The errors, in check order, are "Caller is not a product manager", "Product ID cannot be empty" and "Product registed", and each leaves the ledger unchanged. |
| Ledgers.Ledger.DeactivateProduct | Tree-Contract/test/EdgeCaseTests.test.js:183-195 | A product manager or admin deactivates an active product. Only its flag changes, so name, description and batches stay, and `ProductDeactivated` is emitted. An unknown or inactive product is refused, and errors change nothing. |
| Ledgers.Ledger.ReactivateProduct | Tree-Contract/test/EdgeCaseTests.test.js:197-218 | Succeeds exactly for a deactivated product. The old name and description come back active and a `ProductAdded` event is emitted. An unknown id gets "Product does not exist", an active one gets "Product is already active", and errors change nothing. |
| Ledgers.Ledger.HasProduct | Tree-Contract/test/PioneFarmTraceabilityFactory.test.js:531-545 | `hasProduct` holds exactly when `getProductInfo` succeeds, that is for an existing, active product. |
| Ledgers.Ledger.GetProductInfo | Tree-Contract/test/PioneFarmTraceabilityFactory.test.js:537-559 | An unknown id gets "Product not found" and a deactivated one "Product is not active", each in both directions. Otherwise it returns the stored id, name and description as active. |
| Ledgers.Ledger.GetAllProductIds | Tree-Contract/test/SecurityTests.test.js:292-307 | Under the invariant, the id list names every catalogued product once and nothing else. |
| Ledgers.Ledger.WriteBatch | Tree-Contract/test/BoundaryTests.test.js:297-313 | The step both batch writes share. The batch joins the product's list only if it is new, its record becomes the given one, one write is appended to the log, and the invariant is kept. |
| Ledgers.Ledger.UpdateProductProcesses | Tree-Contract/test/SecurityTests.test.js:54-81 | Succeeds exactly for an auditor (or admin) with a non-empty batch id on an active product. The errors are "Caller is not an auditor", "Batch ID cannot be empty" and "Product is not active or not found", and none changes anything. On success only the batch's processes change, its status is kept, the batch is listed once, and `UpdatedProcesses` carries the text. |
| Ledgers.Ledger.UpdateProductStatus | Tree-Contract/test/BoundaryTests.test.js:315-331 | Same shape for product managers or admins. Only the status changes and the processes are kept. A deactivated or unknown product gets "Product is not active or not found". |
| Ledgers.Ledger.GetProductBatches | Tree-Contract/test/BoundaryTests.test.js:333-345 | An unknown product gets "Product not found", in both directions. Otherwise the answer is duplicate-free, is exactly the batches ever written, and is in first-write order. |
| Ledgers.Ledger.GetProductByBatch | Tree-Contract/test/PioneFarmTraceabilityFactory.test.js:547-565 | An unknown product gets "Product not found", and an empty batch id gets "Batch ID cannot be empty". Otherwise it returns the stored fields, and a batch never written reads back two empty fields. |
| LedgerState.AddKeepsCatalogue | Tree-Contract/test/SecurityTests.test.js:292-307 | Appending a new non-empty id keeps the id list free of duplicates and equal, as a set, to the catalogue. |
| LedgerState.ChangeKeepsCatalogue | Tree-Contract/test/PioneFarmTraceabilityFactory.test.js:318-329 | Changing a catalogued product's entry (its active flag) keeps the catalogue and the id set. |
| LedgerState.MoreProductsKeepBatchIndex | Tree-Contract/test/PioneFarmTraceabilityFactory.test.js:431-485 | Cataloguing more products keeps the batch index consistent. |
| LedgerState.WriteKeepsBatchIndex | Tree-Contract/test/BoundaryTests.test.js:297-345 | One more write of a non-empty batch id keeps four facts. Each list is the first-write order of its log, no log holds "", a record exists exactly for each listed batch, and only catalogued products have batches. |
| LedgerState.WriteKeepsLists | Tree-Contract/test/BoundaryTests.test.js:333-345 | The written product's list grows by one `AddBatch` step and stays the first-write order of its log. The other products' lists are untouched. |
| LedgerState.WriteKeepsRecords | Tree-Contract/test/BoundaryTests.test.js:297-313 | After the write, a record exists exactly for each listed batch. |
| Batches.AddBatch | Tree-Contract/test/BoundaryTests.test.js:297-313 | After a write the batch is listed, and the list grows by one only when the batch was not listed before. |
| Batches.AddBatchMembers | Tree-Contract/test/PioneFarmTraceabilityFactory.test.js:431-485 | After a write, the listed batches are exactly the earlier ones and the written one. |
| Batches.AddBatchExtends | Tree-Contract/test/BoundaryTests.test.js:333-345 | A write never reorders the list, and it keeps a duplicate-free list duplicate-free. |
| Batches.FirstWriteOrderAppend | Tree-Contract/test/BoundaryTests.test.js:333-345 | The list of a history with one more write is the `AddBatch` step applied to the history's list. |
| Batches.FirstWriteOrderMembers | Tree-Contract/test/BoundaryTests.test.js:297-313 | The list of any history is duplicate-free, lists exactly the batches written, and is no longer than the history. |
| Batches.DistinctWritesListedVerbatim | Tree-Contract/test/BoundaryTests.test.js:179-195 | Distinct batch ids written one after another are listed exactly as written. |
| Batches.RewriteKeepsList | Tree-Contract/test/BoundaryTests.test.js:297-313 | Writing an already-listed batch again leaves the list as it was. |
| Batches.FirstIndex | Tree-Contract/test/BoundaryTests.test.js:333-345 | The position where a batch was first written holds it, and no earlier position does. |
| Batches.ListOrderIsFirstWriteOrder | Tree-Contract/test/BoundaryTests.test.js:333-345 | Of two listed batches, the one listed earlier was first written earlier. |
| Batches.FirstIndexOfPrefix | Tree-Contract/test/BoundaryTests.test.js:333-345 | Later writes never move the first-write position of a batch. |
| Registries.Registry.constructor | Tree-Contract/test/SecurityTests.test.js:9-34 | A new registry is owned by its deployer and holds no company, ledger or event. |
| Registries.Registry.ValidateCompany | Tree-Contract/test/PioneFarmTraceabilityFactory.test.js:73-124 | The input checks, in order, give "Registration number cannot be empty", "Company name cannot be empty" and "Invalid wallet address". They pass exactly when code and name are non-empty and the wallet is non-zero. |
| Registries.Registry.RegisterCompany | Tree-Contract/test/PioneFarmTraceabilityFactory.test.js:16-38 | Only the owner may register, and others get the ownable error naming the caller. After the input checks, a currently registered code gets "Already registered". Success stores the record verbatim and active, replacing a deactivated record under the same code, and emits `CompanyRegistered`. Errors change nothing. |
| Registries.Registry.ModifyCompany | Tree-Contract/test/PioneFarmTraceabilityFactory.test.js:40-46 | The owner replaces the name and wallet of a registered company. The input checks are the same as for registering, and an unregistered code gets "Company not registered". Errors change nothing. |
| Registries.Registry.DeactiveCompany | Tree-Contract/test/PioneFarmTraceabilityFactory.test.js:48-52 | The owner clears the active flag of a registered company and emits `CompanyDeactivated`. The company's ledgers stay listed, and errors change nothing. |
| Registries.Registry.CreateSupplyChain | Tree-Contract/test/SecurityTests.test.js:116-140 | The permission check runs first: only the owner or the code's wallet may create, and anyone else gets "Sender does not have permission". An unregistered code then gets "Company not registered". Success deploys a fresh valid ledger with the company's id, the registry and the wallet as admins and the wallet as owner, and no managers, auditors, products, batches or events. The ledger is appended to the id's list, and the event names the caller as creator. |
| Registries.Registry.GetCompanyInfo | Tree-Contract/test/PioneFarmTraceabilityFactory.test.js:169-179 | Succeeds exactly for a registered code and returns its record (same code, active). Otherwise it fails "Company is not registered". |
| Registries.Registry.GetListAgriSupplyChain | Tree-Contract/test/PioneFarmTraceabilityFactory.test.js:181-197 | A registered code gets the ledgers listed under its id, each deployed for that id. Otherwise it fails "Company not registered". |
| Registries.Registry.TransferOwnership | Tree-Contract/test/SecurityTests.test.js:142-160 | Only the owner may transfer, and never to the zero address (the invalid-owner error). Success moves ownership and emits the transfer event, and errors change nothing. |
| Scenarios.LedgerWithProduct | Tree-Contract/test/PioneFarmTraceabilityFactory.test.js:270-305 | A ledger deployed as the registry deploys it, with one product added by the company wallet. The product is active, the roles are exactly the two admins, and there are no batches. |
| Scenarios.ManyBatches | Tree-Contract/test/BoundaryTests.test.js:179-195 | Any number of distinct batches written in turn are listed exactly as written. |
| Scenarios.WriteField | Tree-Contract/test/BoundaryTests.test.js:224-236 | A permitted write changes the written field of the batch and keeps the other. |
| Scenarios.InterleavedWrites | Tree-Contract/test/BoundaryTests.test.js:224-236 | For any interleaving of processes and status writes to one batch, each field reads back its own last write ("" if none). |
| Scenarios.SameBatchBothFields | Tree-Contract/test/BoundaryTests.test.js:297-313 | A batch written through both fields is listed once, and both fields are kept. |
| Scenarios.StatusBeforeProcesses | Tree-Contract/test/BoundaryTests.test.js:315-331 | A status-only batch reads back empty processes, and a later processes write keeps the status. |
| Scenarios.Toggle | Tree-Contract/test/BoundaryTests.test.js:211-222 | One deactivate or reactivate by the wallet flips `hasProduct`. |
| Scenarios.ActivationCycles | Tree-Contract/test/BoundaryTests.test.js:211-222 | Alternating deactivation and reactivation makes `hasProduct` answer false, true, false, ... for any number of steps. |
| Scenarios.LedgerWithAuditor | Tree-Contract/test/PioneFarmTraceabilityFactory.test.js:349-351 | The product ledger with one account granted only the auditor role. |
| Scenarios.AuditorMayNotAddProduct | Tree-Contract/test/SecurityTests.test.js:62-64 | An auditor-only account gets "Caller is not a product manager" from `addProduct`. |
| Scenarios.AuditorMayNotUpdateStatus | Tree-Contract/test/SecurityTests.test.js:78-80 | An auditor-only account gets "Caller is not a product manager" from `updateProductStatus`. |
| Scenarios.OutsiderMayNotUpdateProcesses | Tree-Contract/test/SecurityTests.test.js:69-71 | An account with no role gets "Caller is not an auditor" from `updateProductProcesses`. |
| Scenarios.AuditedBatch | Tree-Contract/test/PioneFarmTraceabilityFactory.test.js:349-356 | An auditor-only account writes a batch's processes, and the record holds them with an empty status. |
| Scenarios.RevokedAuditor | Tree-Contract/test/PioneFarmTraceabilityFactory.test.js:358-359 | Removing the auditor takes the auditor gate away and keeps the batch record. |
| Scenarios.RevokedAuditorRefused | Tree-Contract/test/PioneFarmTraceabilityFactory.test.js:349-365 | After removal, the batch reads back as written, and the removed account gets "Caller is not an auditor". |
| Scenarios.HiredManager | Tree-Contract/test/PioneFarmTraceabilityFactory.test.js:604-626 | A manager hired after the role changes passes the manager gate, and the batch record is intact. |
| Scenarios.DataSurvivesRoleChanges | Tree-Contract/test/PioneFarmTraceabilityFactory.test.js:604-626 | Processes written by a since-removed auditor survive a later status write by a new manager. |
| Scenarios.RevokedManagerRefused | Tree-Contract/test/SecurityTests.test.js:97-104 | A product manager whose role was removed gets "Caller is not a product manager". |
| Scenarios.FreshRegistry | Tree-Contract/test/PioneFarmTraceabilityFactory.test.js:1-15 | A deployed registry is owned by the deployer and empty. |
| Scenarios.ReRegisterAfterDeactivation | Tree-Contract/test/PioneFarmTraceabilityFactory.test.js:227-236 | A deactivated code reads "Company is not registered" and can be registered again, with a new name and wallet. |
| Scenarios.ChainsPerCreation | Tree-Contract/test/PioneFarmTraceabilityFactory.test.js:215-225 | `count` creations by the wallet list exactly `count` ledgers (none for zero), all for the company's id. |
| Scenarios.TwoCompanies | Tree-Contract/test/BoundaryTests.test.js:268-279 | Two different codes, however similar, are two companies, each with its own wallet. |
| Scenarios.CreatePermissionFirst | Tree-Contract/test/SecurityTests.test.js:342-351 | An outsider is refused with the permission error even for an unknown code, and a company's wallet is refused for another company. The owner can create for either. |
| Scenarios.OwnershipTransfer | Tree-Contract/test/SecurityTests.test.js:142-160 | A stranger cannot take ownership. After a transfer the old owner is refused registration with the ownable error, and the new owner succeeds. |
| Servos.InitialArm | main.cpp:43-48 | The power-on arm is four servos at 90 degrees, on pins 13, 12, 14 and 27 (lines 9-12), each with limits [0, 180]. |
| Servos.Clamp | main.cpp:206-207 | The clamped angle lies within the limits, and an angle already inside them is kept. |
| Servos.Trunc | main.cpp:214 | The C++ conversion to `int` truncates toward zero. A non-negative value goes to the integer at or below it (its floor), and a negative value to the integer at or above it. |
| Servos.ShoulderAfterElbowTurn | main.cpp:214-217 | The coupled shoulder angle always lies in [0, 180]. |
| Servos.AfterSetServoAngle | main.cpp:203-226 | An index out of range changes nothing. Otherwise the target servo's angle becomes the clamped angle, and no servo other than the target (and, for the elbow, the shoulder) changes. |
| Servos.ElbowCoupling | main.cpp:209-221 | An elbow turn by more than 5 degrees moves the shoulder to old + 0.3 times the turn, truncated and kept in [0, 180]. A smaller turn leaves the shoulder as it was. |
| Servos.ShoulderFloorAgrees | main.cpp:214-217 | Truncation and flooring of the adjusted shoulder give the same angle once it is clamped to [0, 180]. |
| Servos.SetServoAngleKeepsArm | main.cpp:203-226 | Every command keeps an arm of four [0, 180] servos with their angles inside their limits. |
| Servos.SetServoAngle | main.cpp:203-226 | The in-place update of the servo array leaves exactly `AfterSetServoAngle` of the old array. |
| Servos.ClampDistance | main.cpp:180-181 | The working distance lies in [5, 30], a reading inside is kept, and it is below 10 exactly when the reading is. |
| Servos.JointOutput | main.cpp:189-197 | A joint output always lies in [0, 180] and equals the truncated angle when that is inside. |
| Servos.ProcessUltrasonicSignal | main.cpp:176-198 | Whatever the solver returns, base, shoulder and elbow lie in [0, 180] and are the clamped truncations of its angles for the target (0, d, 5 + d/5). The gripper is 160 exactly when the distance is below 10, otherwise 90. |
| JsStrings.IndexOf | Yolo-Training/Yolo-Training/ui/script.js:414 | `indexOf` is -1 exactly when the pattern does not occur. Otherwise the pattern occurs there and at no earlier position. |
| JsStrings.OccursInTail | Yolo-Training/Yolo-Training/ui/script.js:414 | An occurrence after the first character is an occurrence in the tail, one position earlier. |
| JsStrings.Split | Yolo-Training/Yolo-Training/ui/script.js:414 | `split` gives at least one piece, and it gives the whole string when the separator does not occur. |
| JsStrings.SplitFirst | Yolo-Training/Yolo-Training/ui/script.js:414 | When the first separator is the one right after `a`, the first piece is `a` and the rest is split on. |
| JsStrings.SplitAtFirst | Yolo-Training/Yolo-Training/ui/script.js:414 | Text with a single separator splits back into its two parts. |
| JsStrings.ReplaceFirst | Yolo-Training/Yolo-Training/ui/script.js:415-416 | `replace` with a string pattern leaves text without the pattern unchanged. |
| JsStrings.StripPrefix | Yolo-Training/Yolo-Training/ui/script.js:415-416 | Replacing a leading prefix by "" leaves the rest. |
| JsStrings.ReplaceAllCharRemoves | Yolo-Training/Yolo-Training/ui/script.js:1831 | A global replace of a character by text without it leaves none of it. |
| JsStrings.ReplaceAllCharFree | Yolo-Training/Yolo-Training/ui/script.js:1831 | A global replace leaves text without the character unchanged. |
| Descriptions.OrNA | Yolo-Training/Yolo-Training/ui/script.js:394 | `value \|\| 'N/A'` is never empty: a missing or empty field shows as N/A. |
| Descriptions.ParseDescription | Yolo-Training/Yolo-Training/ui/script.js:414-416 | Unpacking fails (reading the missing second part) exactly when the description holds no " \| ". |
| Descriptions.LatestReadingLocation | Yolo-Training/Yolo-Training/ui/script.js:572 | A tree not in the list shows "--". Otherwise the result is the parsed location, and the lookup fails exactly when parsing does. |
| Descriptions.DescribeRoundTrip | Yolo-Training/Yolo-Training/ui/script.js:394-416 | Building and then parsing a description returns the shown species and location, provided no " \| " occurs in "Loài: " + species + " \|" or in "Vị trí: " + location. |
| Descriptions.NoBarRoundTrip | Yolo-Training/Yolo-Training/ui/script.js:394-416 | Species and location without '\|' always round-trip. |
| Descriptions.BarFree | Yolo-Training/Yolo-Training/ui/script.js:414 | Text whose only '\|' is its last character holds no " \| ". |
| Descriptions.BarSpeciesIsCut | Yolo-Training/Yolo-Training/ui/script.js:394-416 | A species starting with "\| " comes back as "Loài:", so freedom from " \| " in the fields alone does not make the round trip hold. |
| Descriptions.BarSpeciesDescription | Yolo-Training/Yolo-Training/ui/script.js:394 | The description of a species starting with "\| " holds " \| " right after "Loài:". |
| Descriptions.BarSpeciesExample | Yolo-Training/Yolo-Training/ui/script.js:394-416 | The species "\| x" holds no " \| " and still does not round-trip. |
| Readouts.RainLabel | Yolo-Training/Yolo-Training/ui/script.js:1984-1991 | Each of the four rain bands gives its label and each label comes only from its band, so every reading has exactly one label. |
| Readouts.RainLabelMonotone | Yolo-Training/Yolo-Training/ui/script.js:1984-1991 | A drier reading never shows a wetter label. |
| Readouts.HourText | Yolo-Training/Yolo-Training/ui/script.js:550-553 | [6, 12) gives the morning text, [12, 18) the afternoon text and every other hour the evening text, each in both directions. |
| Readouts.WeatherText | Yolo-Training/Yolo-Training/ui/script.js:547-554 | A present, non-blank weather text other than "--" is kept as is. Otherwise the hour's text is shown. |
| Readouts.WeatherTextNeverBlank | Yolo-Training/Yolo-Training/ui/script.js:547-554 | The weather text shown is never blank. |
| Readouts.LocationStatus | Yolo-Training/Yolo-Training/ui/script.js:2002 | "Đang chăm sóc" exactly when the distance is below 10, otherwise "Vườn 1". |
| Readouts.HasDisease | Yolo-Training/Yolo-Training/ui/script.js:1423-1424 | A disease counts as shown when the fruit or leaf field is present and not "Không". That happens exactly when the health box lists a disease line (lines 1459-1464). |
| Readouts.HasAdvice | Yolo-Training/Yolo-Training/ui/script.js:1425 | Advice counts as shown when it is present and not "Không cần xử lý". The health box then holds an advice paragraph (lines 1465-1470). |
| Readouts.HealthBoxShape | Yolo-Training/Yolo-Training/ui/script.js:1437-1493 | The "healthy" badge appears exactly when neither `hasDisease` nor `hasAdvice` holds. A report is never empty, and its border is red exactly when it lists a disease. |
| Readouts.AdviceHasNoSemicolon | Yolo-Training/Yolo-Training/ui/script.js:1465-1470 | The printed advice keeps no ';', each one having become ".<br>". |
| Readouts.AdviceVerbatim | Yolo-Training/Yolo-Training/ui/script.js:1465-1470 | Advice without ';' is printed as it is. |
| Readouts.NoTreatmentStillPrinted | Yolo-Training/Yolo-Training/ui/script.js:1425-1470 | The advice paragraph is not filtered the way `hasAdvice` is. Next to a disease, the advice "Không cần xử lý" fails `hasAdvice` and is still printed. |
| Detections.FruitDetections | Yolo-Training/Yolo-Training/ui/script.js:1355-1356 | The filter keeps only fruit and keeps every fruit detection as often as it occurs, in order: a subsequence of the input. |
| Detections.AllFruitCons | Yolo-Training/Yolo-Training/ui/script.js:1355-1356 | A non-empty list is all fruit exactly when its head is fruit and its tail is all fruit. |
| Detections.FruitCountBound | Yolo-Training/Yolo-Training/ui/script.js:1666-1668 | The uploaded fruit count is at most the number of detections, and equal to it exactly when every detection is fruit. |
| Detections.TallyStep | Yolo-Training/Yolo-Training/ui/script.js:798 | One accumulator step keeps the map a tally of the labels seen so far. |
| Detections.TotalStep | Yolo-Training/Yolo-Training/ui/script.js:798 | One accumulator step adds one to the sum over the distinct labels seen so far. |
| Detections.CountLabels | Yolo-Training/Yolo-Training/ui/script.js:797-800 | The tally has an entry exactly for each label that occurs, each entry holds that label's number of occurrences, and the counts add up to the number of detections. The labels come out in first-appearance order without duplicates. |
| Detections.TotalIgnores | Yolo-Training/Yolo-Training/ui/script.js:797-800 | Changing the count of an unlisted label leaves the sum as it was. |
| Detections.TotalAppend | Yolo-Training/Yolo-Training/ui/script.js:797-800 | Listing a new label with count one adds one to the sum. |
| Detections.TotalBump | Yolo-Training/Yolo-Training/ui/script.js:797-800 | Adding one to the count of a label listed once adds one to the sum. |
| Markdown.EscapeEach | Yolo-Training/Yolo-Training/ui/script.js:1831 | Escaping each character once leaves no raw '<' or '>'. |
| Markdown.EscapeStage | Yolo-Training/Yolo-Training/ui/script.js:1826-1831 | Missing or empty text gives "". Otherwise the text goes through the three chained replaces. |
| Markdown.EscapeIsEscapeEach | Yolo-Training/Yolo-Training/ui/script.js:1831 | With '&' replaced first, the chain equals escaping each character exactly once. |
| Markdown.EscapeCons | Yolo-Training/Yolo-Training/ui/script.js:1831 | The chain treats a leading character and the rest independently. |
| Markdown.EscapeSingle | Yolo-Training/Yolo-Training/ui/script.js:1831 | The chain turns one character into its entity, or leaves it as it is. |
| Markdown.EscapeAmpersand | Yolo-Training/Yolo-Training/ui/script.js:1831 | The chain turns '&' into "&amp;" and no later replace touches it. |
| Markdown.EscapeOther | Yolo-Training/Yolo-Training/ui/script.js:1831 | The chain turns '<' and '>' into their entities and leaves other characters alone. |
| Markdown.ReplaceOne | Yolo-Training/Yolo-Training/ui/script.js:1831 | A global replace in a one-character string. |
| Markdown.ReplaceAllCharCons | Yolo-Training/Yolo-Training/ui/script.js:1831 | A global replace works on the first character and the rest separately. |
| Markdown.ReplaceAllCharAppend | Yolo-Training/Yolo-Training/ui/script.js:1831 | A global replace distributes over concatenation. |
| Markdown.EscapeLeavesNoTags | Yolo-Training/Yolo-Training/ui/script.js:1831 | The escaped text holds no raw '<' or '>', so the user's text cannot open or close a tag. |
| Markdown.UnescapeEscape | Yolo-Training/Yolo-Training/ui/script.js:1831 | Escaping loses nothing: decoding the three entities gives back the original text. |
| Markdown.UnescapeEscapeEach | Yolo-Training/Yolo-Training/ui/script.js:1831 | Decoding the per-character escaping gives back the original text. |
| Markdown.WrongOrderDoubleEscapes | Yolo-Training/Yolo-Training/ui/script.js:1831 | Replacing '<' before '&' would turn "<" into "&amp;lt;", which is why '&' comes first. |
| Markdown.ReplaceLeading | Yolo-Training/Yolo-Training/ui/script.js:1831 | Replacing a character that occurs only in front gives the replacement followed by the rest. |

## Left out

- The Solidity contracts themselves are not part of this model. Every clause is derived from the test suites, and where no test pins a behaviour the choice is listed below.
- `deactivateProduct` on an unknown or already inactive product: no test gives the revert text. The model rejects it with "Product is not active or not found", the text of the batch updates.
- `addProduct` on the id of a deactivated product: no test covers it. The model rejects it with "Product registed", because the id is still catalogued.
- Registries.Registry.CreateSupplyChain, Registries.Registry.DeactiveCompany and Registries.Registry.GetListAgriSupplyChain on a code that is not registered or was deactivated: the model answers "Company not registered", the text `modifyCompany` uses. This covers the factory owner creating a chain for such a code, the wallet of a deactivated company creating a chain (it passes the permission check, then is refused), deactivating an unknown or already deactivated code, and listing the chains of a deactivated code. The tests pin only the listing of a code that was never registered.
- `removeAuditor` with the zero address: the model refuses it with "Invalid user address", like `removeProductManager`. No test covers it.
- A caller holding only the product-manager role updating processes: a test comment says it is allowed, but no test exercises it. It is the construction parameter `managersMayAudit`, handed from the registry to every ledger.
- The order of the empty-batch-id check and the active-product check in the batch updates is not pinned by any test. The model checks the batch id first. The role check always comes first, as the tests require.
- `getProductByBatch` with an unknown product and an empty batch id: no test fixes which error wins. The model answers "Product not found", checking the product first.
- Ledger lists are keyed by company id. They are never cleared, not even by deactivation or re-registration of the code.
- The `keccak256` company id is modelled as the registry's function-valued field `companyIdOf`. It is deterministic, and nothing else about it is assumed.
- Block timestamps in events, gas limits in the long-string tests, and the events of the access-control and ownership base contracts (role granted or revoked) are not modelled.
- The `Promise.all` tests are left out, because transactions are applied one at a time.
- `Registries.Registry.Owner`, `Registries.Registry.GetCompanyIdFromTaxcode` and `Ledgers.Ledger.GetCompanyOwner` are plain getters with no contract. The owner update is stated on `UpdateCompanyOwner`.
- Read calls cannot change state because they are Dafny functions, so no member states that views leave `getAllProductIds` unchanged.
- Hardware writes to the servos (`servo.write`), the servo handle in each table entry, sensors, the pump, the speaker and the web server are I/O and are left out.
- `solveIK` (trigonometry and floating point) is a parameter of `ProcessUltrasonicSignal`. Distances and solver angles are exact reals, so float rounding is not modelled.
- Servos.ShoulderAfterElbowTurn: the C++ `int` conversion of an out-of-range `double` (undefined behaviour) is not modelled. The truncation is exact on unbounded integers.
- Servos.ArmInvariant only holds for the [0, 180] limits of the shipped table, because the coupling clamps the shoulder to [0, 180] and not to its own limits.
- The ledger's gate predicates and the servo table's invariant carry no contract of their own. They are stated through the members above.
- Detections.CountLabels: the tally is a map from label to count, while the source accumulates into a `{}` object literal. For a label that names an inherited `Object.prototype` member the source does something else, and the contract does not cover it. With "constructor", "toString" or "hasOwnProperty", `acc[d.label] || 0` reads the inherited function, so the printed count becomes that function's source text followed by "1". With "__proto__", the assignment goes to the prototype setter, which ignores a string, so `Object.entries` never lists that label.
- `Object.entries` enumeration order is modelled as first-appearance order, which is what JavaScript gives for non-numeric keys. Labels that look like array indices would be listed in numeric order first; this is not modelled.
- Of the health box only the kind of box, the red or green alarm and the lines listed are modelled. Its styles, its position above or below the fruit and the HTML around each line are left out.
- The Markdown renderer's regex stages after the escaping stage, and the DOM rendering around it, are left out.
- JavaScript strings are UTF-16 code units, while the model's strings are Unicode characters. Species, location, advice and Markdown text may hold characters outside the Basic Multilingual Plane, such as emoji. The model still agrees with JavaScript, because every pattern involved is a BMP character outside the surrogate range: '&', '<', '>', ';', " | ", the two prefixes and the `trim` whitespace set. A surrogate pair never matches one of them, so `split`, `replace`, the global replaces and `trim` act the same on code units as on characters.
- The dashboard's DOM, fetch, WebSocket, WebRTC, audio and speech code are I/O. The clock is the `hour` parameter of `WeatherText`.
- The HTTP servers, deploy scripts and the Python detection and training code are left out.
