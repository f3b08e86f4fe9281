# Magento connector core, modelled in Dafny

This project models the part of the Akeneo PIM → Magento connector that
turns catalog state into remote operations, and the checks that decide
whether a Magento endpoint is usable:

- **Association reconciliation** (`ProductAssociationProcessor`). A table maps
  local association-type codes to the four Magento slots (`up_sell`,
  `cross_sell`, `related`, `grouped`). Every remotely observed edge gets
  one *remove* call, and every associated product of a mapped association
  gets one *create* call. A fault while fetching any product's remote
  status aborts the whole batch.
- **Product create/update classification** (`ProductProcessor`). A product
  exists remotely when the remote listing holds its sku. A product that
  exists under another attribute set is refused. Every other product is
  normalised with `create` set and with its target attribute set.
- **Credential validation** (`HasValidCredentialsValidator`). A chain of
  checks runs in order: URL content, then the XML check, then the
  webservice. The first failure becomes one violation on a fixed field.
  Beside it, a boolean credential check caches its answers per key.
- **Reachability decision** (`MagentoReachableValidator`). The probe,
  content-type, client-creation and login stages end at the first failure.
  That failure gives one violation key, placed at `MagentoConfiguration`.
- **Remote writers** (`AttributeWriter`, `AttributeSetWriter`). The attribute
  writer chooses update or create, attaches the attribute to the set of
  each of its families, and registers an id only after a create. A create
  or update fault stops the whole batch. The attribute-set writer creates
  each requested set, and it absorbs every SOAP fault as "already in
  Magento".

Each source file is one Dafny module. Two modules are shared: `Common`
(Option/Result/Outcome, the summary counters and the identifier-mapping
registry) and `Catalog` (products and associations). Where the source
changes state step by step, the model is a class. Its fields are the
processor's configuration, the validator's `$valid` cache, or the
writer's counters and mapping. Its methods are proved equal to pure
specification functions (`BatchCalls`, `ProcessBatch`, `ValidateSpec`,
`AreValidSpec`, `AttachSpec`, `HandleSpec`, `WriteSpec`,
`HandleNewFamilySpec`). The lemmas state the source's promises about those
functions. Remote calls, the normaliser, `getAttributeSetId` and the
collaborators of the checks are function-typed parameters that yield a
success value or a fault. In the writers, a ghost log records the remote
calls made, in order.

### Behaviour worth knowing

- **Attribute writer, fault scope.** A create or update fault ends the
  whole batch. The item error is thrown out of the `foreach` in `write`
  (Writer/AttributeWriter.php:67-74), so the later attributes of the
  batch are not written.
- **Attribute writer, order of a create.** A create attaches first, then
  increments "Attributes created", then registers the mapping
  (Writer/AttributeWriter.php:93-104).
- **Product processor, fault scope.** A refused product ends the batch.
  The item error leaves `process`, so no output is returned for the batch
  (Processor/ProductProcessor.php:114-122).
- **Credential cache.** The cache is keyed by object hash and stores only
  a boolean. Only `areValidSoapCredentials` writes the cache. `validate`
  reads it and skips its checks only on a cached `true`
  (Validator/Constraints/HasValidCredentialsValidator.php:86-88, 118-137).
- **Client-creation faults.** The specification of the reachability
  validator asserts two client-creation messages: "failed to load external
  entity" gives `soap_url_not_valid`, and another message gives
  `undefined_exception`. The model reads this as "only that exact message
  is a bad URL, and every other message is undefined". The validator's own
  source is not part of this model (see "## Left out").

## Model

| member | source | states |
|---|---|---|
| Common.Increment | Writer/AttributeWriter.php:122 | incrementing a summary counter adds one to that counter and leaves every other counter as it was |
| Common.Lookup | Writer/AttributeWriter.php:87-88 | a mapping lookup finds an id exactly when (code, SOAP URL) is registered, and the id is the registered one |
| Common.Register | Writer/AttributeWriter.php:100-104 | after registering (code, id, SOAP URL), the lookup of that pair gives the id, every other pair reads as before, and the key set gains exactly that key |
| ProductAssociationProcessor.CodeMappingOf | Processor/ProductAssociationProcessor.php:268-289 | the mapping's keys are exactly the truthy configured codes; its values lie in {up_sell, cross_sell, related, grouped}; when slots share a code, the later slot in the order up_sell, cross_sell, related, grouped wins |
| ProductAssociationProcessor.RemoveCallsCount | Processor/ProductAssociationProcessor.php:247-262 | a product gets one remove call per remotely observed (type, linked sku) edge |
| ProductAssociationProcessor.RemoveCallsMembership | Processor/ProductAssociationProcessor.php:251-259 | a call is a remove call exactly when it carries a remote type, the product's identifier and a sku listed under that type, whatever the local associations are |
| ProductAssociationProcessor.RemoveCallsAppend | Processor/ProductAssociationProcessor.php:251-259 | the remove calls follow the remote groups in order: the calls for two runs of groups are the calls of the first run followed by those of the second |
| ProductAssociationProcessor.AssociationCreateCalls | Processor/ProductAssociationProcessor.php:221-238 | an association yields one call per associated product when its type is mapped and none otherwise; every call names the product, the mapped slot and one of the association's products |
| ProductAssociationProcessor.CreateCallsOver | Processor/ProductAssociationProcessor.php:200-212 | every create call of a product names that product and carries a slot that is a value of the mapping |
| ProductAssociationProcessor.CreateCallsMembership | Processor/ProductAssociationProcessor.php:200-238 | a call is a create call exactly when some association's type is mapped, the call's type is the mapped slot, its product is the product's identifier and its linked product is one of that association's products |
| ProductAssociationProcessor.UnmappedContributeNothing | Processor/ProductAssociationProcessor.php:225-237 | associations whose type code is not a key of the mapping yield no create call |
| ProductAssociationProcessor.NoSlotNoCreates | Processor/ProductAssociationProcessor.php:268-289 | with no slot configured, no product gets any create call |
| ProductAssociationProcessor.CreateCallsTargetSlots | Processor/ProductAssociationProcessor.php:227-234 | every create call targets one of the four Magento slots and carries the product's identifier |
| ProductAssociationProcessor.BatchCalls | Processor/ProductAssociationProcessor.php:165-192 | a failed batch names a product of the batch whose status fetch faulted, with that fault's message |
| ProductAssociationProcessor.BatchCallsSucceeds | Processor/ProductAssociationProcessor.php:171-191 | the batch yields its call lists exactly when the remote status of every product is fetched without fault |
| ProductAssociationProcessor.BatchCallsFirstFault | Processor/ProductAssociationProcessor.php:173-189 | a failed batch reports an item error with the fault message and the first product whose status fetch faulted, all earlier products having been fetched |
| ProductAssociationProcessor.BatchCallsErrPrefix | Processor/ProductAssociationProcessor.php:173-189 | once a prefix of the batch has failed, the rest of the batch changes nothing: no partial call lists come out |
| ProductAssociationProcessor.BatchCallsFlat | Processor/ProductAssociationProcessor.php:171-191 | a batch whose statuses were all fetched yields the remove lists and the create lists of its products, each concatenated in product order |
| ProductAssociationProcessor.RemoveAllAppend | Processor/ProductAssociationProcessor.php:175-180 | the remove calls of two batches back to back are the first batch's followed by the second's |
| ProductAssociationProcessor.CreateAllAppend | Processor/ProductAssociationProcessor.php:182-185 | the create calls of two batches back to back are the first batch's followed by the second's |
| ProductAssociationProcessor.BatchCallsConcat | Processor/ProductAssociationProcessor.php:171-191 | a successful batch split into two parts `xs` and `ys` gives the remove list of `xs` followed by that of `ys`, and likewise for the create list |
| ProductAssociationProcessor.BatchNoMappingNoCreates | Processor/ProductAssociationProcessor.php:182-185 | with an empty mapping, a successful batch has an empty create list |
| ProductAssociationProcessor.AssociationProcessor.SetPimUpSell | Processor/ProductAssociationProcessor.php:89-94 | sets the up-sell code and leaves the other three slots unchanged |
| ProductAssociationProcessor.AssociationProcessor.SetPimCrossSell | Processor/ProductAssociationProcessor.php:111-116 | sets the cross-sell code and leaves the other three slots unchanged |
| ProductAssociationProcessor.AssociationProcessor.SetPimRelated | Processor/ProductAssociationProcessor.php:133-138 | sets the related code and leaves the other three slots unchanged |
| ProductAssociationProcessor.AssociationProcessor.SetPimGrouped | Processor/ProductAssociationProcessor.php:155-160 | sets the grouped code and leaves the other three slots unchanged |
| ProductAssociationProcessor.AssociationProcessor.GetRemoveCallsForProduct | Processor/ProductAssociationProcessor.php:247-262 | the nested loops build exactly the remove calls of the specification (`RemoveCalls`), one per remote edge in order |
| ProductAssociationProcessor.AssociationProcessor.GetCreateCallsForAssociation | Processor/ProductAssociationProcessor.php:221-238 | an unmapped association yields no call; a mapped one yields one call per associated product, in order, typed with the mapped slot |
| ProductAssociationProcessor.AssociationProcessor.GetCreateCallsForProduct | Processor/ProductAssociationProcessor.php:200-212 | the loop over the associations builds exactly the specified create calls (`CreateCalls`) for the configured mapping |
| ProductAssociationProcessor.AssociationProcessor.Process | Processor/ProductAssociationProcessor.php:165-192 | the loop with early exit returns exactly `BatchCalls` for the configured mapping: the concatenated lists, or the first fault's item error |
| ProductProcessor.NormalizeProduct | Processor/ProductProcessor.php:146-161 | normalisation succeeds exactly when the normaliser does, with its record; a normalisation error and a SOAP fault both become an item error with the message and the product |
| ProductProcessor.ProcessItem | Processor/ProductProcessor.php:108-131 | one product's outcome: an error is an item error carrying that product; a success means its attribute set did not change remotely and the normaliser produced the record from the global context, the target set id and `create` true exactly when the product is not listed remotely; conversely, a product whose set did not change gets exactly `NormalizeProduct`'s outcome, so it is accepted exactly when the normaliser yields a record |
| ProductProcessor.ProcessItems | Processor/ProductProcessor.php:108-134 | a successful batch has one record per product; an error is an item error carrying a product of the batch |
| ProductProcessor.ProcessBatch | Processor/ProductProcessor.php:98-135 | the listing call's SOAP fault escapes exactly when that call faults, with its fault; otherwise the result is `ProcessItems` over the listed remote products, so one record per product in a successful batch |
| ProductProcessor.SetChangeRefused | Processor/ProductProcessor.php:114-122 | a product listed remotely under an attribute set other than its target is refused with the family-changed item error, before it is normalised |
| ProductProcessor.SetChangeFailsBatch | Processor/ProductProcessor.php:114-122 | one product whose attribute set changed makes the whole `process` call fail |
| ProductProcessor.ProcessItemsSucceeds | Processor/ProductProcessor.php:108-132 | processing the batch succeeds exactly when every product processes without error |
| ProductProcessor.ProcessItemsOutput | Processor/ProductProcessor.php:108-134 | a successful batch holds one normalised record per product, in input order; each product was normalised with the global context, its family's attribute-set id, and `create` true exactly when the remote listing lacks its sku |
| ProductProcessor.ProcessItemsFirstError | Processor/ProductProcessor.php:108-132 | a failed batch reports the error of its first failing product, and that error is an item error carrying a product of the batch |
| ProductProcessor.ProcessItemsErrPrefix | Processor/ProductProcessor.php:108-132 | once a prefix has failed, the later products are not processed |
| ProductProcessor.ProductProcessor.SetPimGrouped | Processor/ProductProcessor.php:58-63 | sets the grouped code and leaves the global context unchanged |
| ProductProcessor.ProductProcessor.BeforeExecute | Processor/ProductProcessor.php:88-93 | the global context becomes the parent's context with `pimGrouped` set to the configured code |
| ProductProcessor.ProductProcessor.MagentoProductExist | Processor/ProductProcessor.php:171-180 | the early-exit scan answers true exactly when some remote entry's sku is the product's identifier |
| ProductProcessor.ProductProcessor.AttributeSetChanged | Processor/ProductProcessor.php:190-201 | the scan answers true exactly when some entry with the product's sku has a set other than the target id; a true answer implies the product exists remotely |
| ProductProcessor.ProductProcessor.Process | Processor/ProductProcessor.php:98-135 | after `beforeExecute`, one listing call for the batch, then the products in order: the result is `ProcessBatch` (records, the first item error, or the listing's SOAP fault) |
| HasValidCredentialsValidator.ViolationFor | Validator/Constraints/HasValidCredentialsValidator.php:94-104 | not-reachable, invalid-SOAP-URL and invalid-XML failures attach to `wsdlUrl`; credential and SOAP-call failures attach to `soapUsername`, a SOAP-call failure with its own message; any other exception escapes |
| HasValidCredentialsValidator.CheckChain | Validator/Constraints/HasValidCredentialsValidator.php:90-104 | the checks run in the order URL content, XML, webservice; every check before the last one run passed; no violation exactly when all three pass, and then all three ran; otherwise the single outcome is that of the last check run |
| HasValidCredentialsValidator.ValidateSpec | Validator/Constraints/HasValidCredentialsValidator.php:71-107 | no check runs exactly when the value is not a Magento step or the cache holds `true` for the key, and then there is no violation; for a Magento step whose key is not cached as `true`, the violation and the checks run are those of `CheckChain` on the step's parameters |
| HasValidCredentialsValidator.AreValidSpec | Validator/Constraints/HasValidCredentialsValidator.php:116-138 | the key is cached exactly when an answer is returned, and it is cached with that answer; no other key is added, dropped or changed; an already cached key keeps the cache as it was and runs no check |
| HasValidCredentialsValidator.OtherValueUnchecked | Validator/Constraints/HasValidCredentialsValidator.php:73-75 | a value that is not a Magento step triggers no check and no violation |
| HasValidCredentialsValidator.CredentialCheckAnswer | Validator/Constraints/HasValidCredentialsValidator.php:120-134 | uncached, the answer is true exactly when the URL content and the webservice both succeed; no XML check runs; each handled exception answers false, and any other exception from the content fetch or the webservice escapes as the error; an answer is cached, and an escaping exception leaves the cache unchanged |
| HasValidCredentialsValidator.CachedAnswerIsFinal | Validator/Constraints/HasValidCredentialsValidator.php:118-137 | once a key has an answer, a later check of it returns that answer, true or false, runs no check and keeps the cache, however the endpoint behaves |
| HasValidCredentialsValidator.PositiveCheckSkipsValidate | Validator/Constraints/HasValidCredentialsValidator.php:88 | after a positive credential check, `validate` of that key runs no check and adds no violation |
| HasValidCredentialsValidator.NegativeCheckRerunsValidate | Validator/Constraints/HasValidCredentialsValidator.php:88 | after a negative credential check, `validate` of that key runs the whole chain again |
| HasValidCredentialsValidator.CredentialsValidator.Validate | Validator/Constraints/HasValidCredentialsValidator.php:71-107 | the method's violation and the checks it runs are those of `ValidateSpec`; it reads the cache and never writes it |
| HasValidCredentialsValidator.CredentialsValidator.AreValidSoapCredentials | Validator/Constraints/HasValidCredentialsValidator.php:116-138 | the answer, the new cache and the checks run are those of `AreValidSpec` on the old cache |
| MagentoReachableValidator.Reach | spec/Pim/Bundle/MagentoConnectorBundle/Validator/Constraints/MagentoReachableValidatorSpec.php:32-369 | the stages reached are a prefix of probe, content type, client creation, login; every stage before the last one reached passed; no violation exactly when all four pass; a violation sits at `MagentoConfiguration` and carries the failing stage's message |
| MagentoReachableValidator.LaterStagesGuarded | spec/Pim/Bundle/MagentoConnectorBundle/Validator/Constraints/MagentoReachableValidatorSpec.php:52-70 | the SOAP client is created exactly when the probe answered with XML, and login is attempted exactly when, in addition, client creation succeeded |
| MagentoReachableValidator.ViolationKeys | spec/Pim/Bundle/MagentoConnectorBundle/Validator/Constraints/MagentoReachableValidatorSpec.php:32-369 | a curl fault gives `url_not_reachable`; a bad response gives `soap_url_not_valid`; a non-XML response gives `xml_not_valid` with "Content type is not XML"; "failed to load external entity" at client creation gives `soap_url_not_valid`, any other creation fault `undefined_exception`; "access denied" at login gives `access_denied`, any other login fault `undefined_exception`; success gives none |
| MagentoReachableValidator.UndefinedShowsEverything | spec/Pim/Bundle/MagentoConnectorBundle/Validator/Constraints/MagentoReachableValidatorSpec.php:244-255 | an `undefined_exception` violation shows all five configuration details (SOAP username, API key, URL, HTTP login and password) |
| AttributeWriter.FailedAttaches | Writer/AttributeWriter.php:117-124 | the number of faulting attaches is at most the number of families |
| AttributeWriter.FailedAttachesNone | Writer/AttributeWriter.php:117-124 | no attach faults exactly when every family's attach succeeds, and every attach faults exactly when the count equals the number of families |
| AttributeWriter.AttachSpec | Writer/AttributeWriter.php:114-125 | attaching makes exactly one call per family and leaves the attribute mapping as it was |
| AttributeWriter.HandleSpec | Writer/AttributeWriter.php:82-106 | handling an attribute always makes at least one remote call; a create or update fault ends the handling right after that call: the update call for a two-field payload, the create call otherwise, with no attach after it and the counters and the attribute mapping as they were |
| AttributeWriter.WriteSpec | Writer/AttributeWriter.php:63-75 | a batch without error made at least one remote call per pair |
| AttributeWriter.AttachEffect | Writer/AttributeWriter.php:114-125 | the calls before the attach are kept, and then there is one call per family, in order, with the attribute's id and that family's mapped id; "Attribute already in magento" grows by the number of faults; no other counter changes (the mapping and the call count are stated by `AttachSpec`) |
| AttributeWriter.UpdatePath | Writer/AttributeWriter.php:84-91 | a payload of exactly two fields makes an update call first and no create call, and registers nothing; the handling faults exactly when the update does; a success attaches with the registered id, adds one to "Attributes updated" and none to "Attributes created" |
| AttributeWriter.CreatePath | Writer/AttributeWriter.php:92-105 | any other payload makes a create call first; the handling faults exactly when the remote create does (what a fault leaves is stated by `HandleSpec`) |
| AttributeWriter.CreateSuccess | Writer/AttributeWriter.php:93-104 | a successful create attaches the returned id to every family in order, registers it for (attribute, SOAP URL), and "Attributes created" alone of the two handled counters grows by one |
| AttributeWriter.HandleCounts | Writer/AttributeWriter.php:82-106 | an attribute handled without fault adds exactly one to updated plus created (a fault changes no counter, as `HandleSpec` states) |
| AttributeWriter.HandleAlreadyBound | Writer/AttributeWriter.php:82-125 | handling an attribute grows the "Attribute already in magento" counter by at most the number of its families |
| AttributeWriter.WriteStep | Writer/AttributeWriter.php:67-74 | after an error-free prefix, the next pair is handled and its create or update fault, if any, becomes the item error |
| AttributeWriter.WriteFault | Writer/AttributeWriter.php:67-74 | a create or update fault on the pair after an error-free prefix ends the whole batch with an item error carrying the fault message and that pair |
| AttributeWriter.WriteStopsAtFault | Writer/AttributeWriter.php:67-74 | after the first create or update fault, the later attributes of the batch are not processed |
| AttributeWriter.WriteHandledCount | Writer/AttributeWriter.php:63-75 | a batch without error handles every attribute; a failing batch carries one of its pairs, and exactly the pairs before it were handled |
| AttributeWriter.WriteRegistersOnlyCreates | Writer/AttributeWriter.php:92-105 | a batch only adds mapping keys, and each added key belongs to an item whose payload is a create |
| AttributeWriter.AttributeWriter.AddAttributeToAttributeSet | Writer/AttributeWriter.php:114-125 | the loop's counters and calls are those of `AttachSpec`; the current attribute, the family mapping and the URL are unchanged |
| AttributeWriter.AttributeWriter.HandleAttribute | Writer/AttributeWriter.php:82-106 | the counters, the mapping, the calls and the fault returned are those of `HandleSpec` for the current attribute |
| AttributeWriter.AttributeWriter.Write | Writer/AttributeWriter.php:63-75 | the state and the item error are those of `WriteSpec`; on error, the current attribute is the failing pair's attribute |
| AttributeSetWriter.Requested | Writer/AttributeSetWriter.php:73-75 | a batch requests at most one attribute set per item, one per item exactly when every item carries `create`, and a name is requested exactly when some item's `create` carries it |
| AttributeSetWriter.HandleNewFamilySpec | Writer/AttributeSetWriter.php:71-84 | an item with `create` appends its set name to the creation calls and one without appends nothing; a fault happens exactly when a requested creation faults, and then no counter and no mapping changes |
| AttributeSetWriter.WriteItemSpec | Writer/AttributeSetWriter.php:58-63 | one iteration keeps every mapping key and adds at most the key of the item's family |
| AttributeSetWriter.WriteSpec | Writer/AttributeSetWriter.php:54-64 | a batch makes at most one creation call per item and never removes a mapping key |
| AttributeSetWriter.NoRequestNoEffect | Writer/AttributeSetWriter.php:73 | an item without `create` makes no remote call, registers nothing and changes no counter |
| AttributeSetWriter.RequestEffect | Writer/AttributeSetWriter.php:54-84 | an item with `create` makes one creation call with the requested name; on success its family maps to the returned id and "Families created" alone grows by one; on a fault nothing is registered and "Family already in magento" alone grows by one |
| AttributeSetWriter.WriteComposes | Writer/AttributeSetWriter.php:57-63 | faults never stop the batch: writing a batch in two parts gives the same result as writing it at once |
| AttributeSetWriter.WriteAttemptsEvery | Writer/AttributeSetWriter.php:57-63 | the creation calls of a batch are exactly the names its items request, in order; created plus already grows by their number; no other counter moves |
| AttributeSetWriter.WriteRegistersOnlyRequests | Writer/AttributeSetWriter.php:73-82 | a batch only adds mapping keys, and each added key is the family of an item that requested a creation |
| AttributeSetWriter.AttributeSetWriter.HandleNewFamily | Writer/AttributeSetWriter.php:71-84 | the counters, the mapping, the requested names and the fault returned are those of `HandleNewFamilySpec` |
| AttributeSetWriter.AttributeSetWriter.Write | Writer/AttributeSetWriter.php:54-64 | the state after the loop, with each caught fault counted as "already", is `WriteSpec` of the old state |

## Left out

- Validator/Checks/UrlChecker.php is not part of this model. It wraps PHP's URL filter and an HTTP send, a foreign library and network I/O.
- The HTTP client's request setup (the 10-second timeouts and the curl options) is transport detail. The reachability stages are inputs, one outcome per stage.
- The source of the reachability validator itself is not part of this model. `Reach` follows the asserted cases. It classifies faults by exact equality with "failed to load external entity" and "access denied", the messages used there. The case where all four stages pass is not asserted, and the model raises no violation for it.
- The source keys the credential cache by the object hash of a freshly built parameters object. The model uses an abstract string key, passed alongside the parameters.
- `getConfigurationFields` in both processors is form metadata, not behaviour.
- The normaliser's internals and `getAttributeSetId` are unseen collaborators and appear only as function-typed inputs (`Collaborators.normalize`, `Collaborators.attributeSetId`).
- ProductProcessor.ProcessItem: the channel lookup (Processor/ProductProcessor.php:106) and the in-place unit conversion `metricConverter->convert($product, $channel)` (:129) are folded into `normalize`, which is read as acting on the converted product. The model therefore does not show that the product object changes in place, and the item error of a failed normalisation carries the product as given rather than the converted object.
- The mapping managers' persistence is not modelled; each registry is a map. `Register` overwrites an existing key, which is PHP's array behaviour. The real store's handling of a duplicate key is not visible.
- The mapping managers can return null for a code that is not registered. The model forwards `None` to the remote stub, as the code forwards null.
- The payload of the attribute writer's item error is the (attribute, payload) pair itself, not its `json_encode` text. Exception messages are opaque strings.
- PHP's loose `==` is modelled as plain equality, both for skus and set ids (Processor/ProductProcessor.php:174, 193) and in the `in_array` mapping test (Processor/ProductAssociationProcessor.php:227).
- PHP truthiness of the slot codes is modelled for strings: the empty string (standing also for null) and "0" are false.
- `parent::beforeExecute()` of the processors and the writers is not modelled. The processor receives its parent's context as a parameter. The writers receive the SOAP URL and the family mapping at construction.
- The remote association status is a sequence of (type, skus) groups rather than a PHP array keyed by type. Repeated types are therefore allowed, which is more general.
- AttributeWriter, AttributeSetWriter: the remote stubs (`Remote`, `CreateAttributeSet`) are fixed functions of their arguments, with no memory of earlier calls. Identical calls within one batch therefore get identical answers. For example, the model cannot express a second creation of the same attribute-set name failing after the first succeeded (Writer/AttributeSetWriter.php:75-83), or a repeated attach to one set id answering differently (Writer/AttributeWriter.php:114-125).
- AttributeWriter.HandleSpec: the update path reads the URL through `getSoapUrl()` (Writer/AttributeWriter.php:88), while the create path and the attach read the `soapUrl` field (:98, :118). The model takes the two to be the same value, `soapUrl`.
- Only `SoapCallException` faults are modelled from the remote calls. Any other exception type would escape every method.
- Batch orchestration and the step execution are out of scope. The summary is a map from counter name to count.
