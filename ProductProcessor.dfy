/**
 * Product create/update classification: for each product of a batch,
 * decide from the remote product listing whether the remote catalog
 * already holds it, refuse a change of attribute set on an existing
 * product, and hand the product with its context (create flag, target
 * attribute set, global context) to the normaliser.
 */
module ProductProcessor {
  import opened Common
  import opened Catalog

  /** One entry of the remote product listing: its sku and its current attribute set (`set`). */
  datatype RemoteProduct = RemoteProduct(sku: string, attributeSet: int)

  /** What `getProductsStatus(items)` yields: the remote listing, or a SOAP fault. */
  datatype RemoteListResult = RemoteList(products: seq<RemoteProduct>) | ListFault(fault: SoapFault)

  /** The context handed to the normaliser: the global context plus `attributeSetId` and `create`. */
  datatype Context = Context(global: map<string, string>, attributeSetId: int, create: bool)

  /** What the normaliser yields: a wire record, a normalisation error, or a SOAP fault. */
  datatype NormalizeResult = Normalized(item: Payload) | NormalizeFault(message: string) | NormalizeSoapFault(fault: SoapFault)

  /**
   * An error out of `process`: an item-level error carrying the product, or
   * the SOAP fault of the listing call, which `process` does not catch.
   */
  datatype ProcessError = InvalidItem(message: string, product: Product) | UncaughtSoapFault(fault: SoapFault)

  /** The collaborators `process` relies on and that this model does not see. */
  datatype Collaborators = Collaborators(
    productsStatus: seq<Product> -> RemoteListResult,  // the remote listing call
    attributeSetId: (string, Product) -> int,          // `getAttributeSetId(familyCode, product)`
    normalize: (Product, Context) -> NormalizeResult)  // the product normaliser

  const FamilyChangedMessage :=
    "The product family has changed of this product. This modification cannot be applied to magento. "
    + "In order to change the family of this product, please manualy delete this product in magento "
    + "and re-run this connector."

  /** Some remote listing entry has the product's identifier as sku. */
  predicate ExistsRemotely(p: Product, remote: seq<RemoteProduct>)
  {
    exists i :: 0 <= i < |remote| && remote[i].sku == p.identifier
  }

  /** Some remote listing entry with the product's sku is in an attribute set other than `target`. */
  predicate SetChangedRemotely(p: Product, target: int, remote: seq<RemoteProduct>)
  {
    exists i :: 0 <= i < |remote| && remote[i].sku == p.identifier && remote[i].attributeSet != target
  }

  /** The attribute set the product's family maps to. */
  function TargetSetId(p: Product, c: Collaborators): int
  {
    c.attributeSetId(p.family, p)
  }

  /** `normalizeProduct`: both kinds of normaliser failure become an item error carrying the product. */
  function NormalizeProduct(p: Product, ctx: Context, c: Collaborators): (r: Result<Payload, ProcessError>)
    ensures r.Ok? <==> c.normalize(p, ctx).Normalized?
    ensures r.Ok? ==> r.value == c.normalize(p, ctx).item
    ensures r.Err? ==> r.error.InvalidItem? && r.error.product == p
    ensures c.normalize(p, ctx).NormalizeFault? ==> r == Err(InvalidItem(c.normalize(p, ctx).message, p))
    ensures c.normalize(p, ctx).NormalizeSoapFault? ==> r == Err(InvalidItem(c.normalize(p, ctx).fault.message, p))
  {
    match c.normalize(p, ctx)
    case Normalized(item) => Ok(item)
    case NormalizeFault(message) => Err(InvalidItem(message, p))
    case NormalizeSoapFault(fault) => Err(InvalidItem(fault.message, p))
  }

  /** The context a product is normalised with. */
  function ItemContext(global: map<string, string>, p: Product, remote: seq<RemoteProduct>, c: Collaborators): Context
  {
    Context(global, TargetSetId(p, c), !ExistsRemotely(p, remote))
  }

  /** The processing of one product: refused if its attribute set changed, otherwise normalised. */
  function ProcessItem(global: map<string, string>, p: Product, remote: seq<RemoteProduct>, c: Collaborators)
    : (r: Result<Payload, ProcessError>)
    ensures r.Err? ==> r.error.InvalidItem? && r.error.product == p
    ensures r.Ok? ==>
      && !SetChangedRemotely(p, TargetSetId(p, c), remote)
      && c.normalize(p, Context(global, TargetSetId(p, c), !ExistsRemotely(p, remote))) == Normalized(r.value)
    ensures !SetChangedRemotely(p, TargetSetId(p, c), remote) ==> r == NormalizeProduct(p, ItemContext(global, p, remote, c), c)
  {
    if ExistsRemotely(p, remote) && SetChangedRemotely(p, TargetSetId(p, c), remote) then
      Err(InvalidItem(FamilyChangedMessage, p))
    else
      NormalizeProduct(p, ItemContext(global, p, remote, c), c)
  }

  /** The products of a batch processed in order; the first error ends the batch. */
  function ProcessItems(global: map<string, string>, items: seq<Product>, remote: seq<RemoteProduct>, c: Collaborators)
    : (r: Result<seq<Payload>, ProcessError>)
    ensures r.Ok? ==> |r.value| == |items|
    ensures r.Err? ==> r.error.InvalidItem? && r.error.product in items
  {
    if items == [] then Ok([])
    else
      match ProcessItems(global, items[..|items| - 1], remote, c)
      case Err(e) => Err(e)
      case Ok(done) =>
        match ProcessItem(global, items[|items| - 1], remote, c)
        case Err(e) => Err(e)
        case Ok(item) => Ok(done + [item])
  }

  /** `process` after `beforeExecute`: one listing call for the whole batch, then the products in order. */
  function ProcessBatch(global: map<string, string>, items: seq<Product>, c: Collaborators)
    : (r: Result<seq<Payload>, ProcessError>)
    ensures r.Err? && r.error.UncaughtSoapFault? <==> c.productsStatus(items).ListFault?
    ensures c.productsStatus(items).ListFault? ==> r.error.fault == c.productsStatus(items).fault
    ensures r.Ok? ==> |r.value| == |items|
    ensures c.productsStatus(items).RemoteList? ==> r == ProcessItems(global, items, c.productsStatus(items).products, c)
  {
    match c.productsStatus(items)
    case ListFault(fault) => Err(UncaughtSoapFault(fault))
    case RemoteList(remote) => ProcessItems(global, items, remote, c)
  }

  /** A product whose remote attribute set differs from its target is refused before it is normalised. */
  lemma SetChangeRefused(global: map<string, string>, p: Product, remote: seq<RemoteProduct>, c: Collaborators)
    requires SetChangedRemotely(p, TargetSetId(p, c), remote)
    ensures ProcessItem(global, p, remote, c) == Err(InvalidItem(FamilyChangedMessage, p))
  {
    var i :| 0 <= i < |remote| && remote[i].sku == p.identifier && remote[i].attributeSet != TargetSetId(p, c);
    assert ExistsRemotely(p, remote);
  }

  /** The batch succeeds exactly when every product processes without error. */
  lemma {:induction false} ProcessItemsSucceeds(global: map<string, string>, items: seq<Product>,
                                               remote: seq<RemoteProduct>, c: Collaborators)
    ensures ProcessItems(global, items, remote, c).Ok? <==>
      forall i :: 0 <= i < |items| ==> ProcessItem(global, items[i], remote, c).Ok?
  {
    if items != [] {
      var init := items[..|items| - 1];
      ProcessItemsSucceeds(global, init, remote, c);
      assert forall i :: 0 <= i < |init| ==> init[i] == items[i];
    }
  }

  /**
   * A successful batch holds one normalised record per product, in input
   * order; each product was normalised with the global context, its target
   * attribute set, and `create` set exactly when it is not listed remotely.
   */
  lemma {:induction false} ProcessItemsOutput(global: map<string, string>, items: seq<Product>,
                                             remote: seq<RemoteProduct>, c: Collaborators)
    requires ProcessItems(global, items, remote, c).Ok?
    ensures |ProcessItems(global, items, remote, c).value| == |items|
    ensures forall i :: 0 <= i < |items| ==>
      !SetChangedRemotely(items[i], TargetSetId(items[i], c), remote) &&
      c.normalize(items[i], Context(global, TargetSetId(items[i], c), !ExistsRemotely(items[i], remote)))
        == Normalized(ProcessItems(global, items, remote, c).value[i])
  {
    if items != [] {
      var init, p := items[..|items| - 1], items[|items| - 1];
      ProcessItemsOutput(global, init, remote, c);
      var out := ProcessItems(global, items, remote, c).value;
      assert out[..|init|] == ProcessItems(global, init, remote, c).value;
      forall i | 0 <= i < |items|
        ensures !SetChangedRemotely(items[i], TargetSetId(items[i], c), remote)
        ensures c.normalize(items[i], Context(global, TargetSetId(items[i], c), !ExistsRemotely(items[i], remote)))
          == Normalized(out[i])
      {
        if i < |init| {
          assert items[i] == init[i] && out[i] == out[..|init|][i];
        } else {
          assert items[i] == p;
          if SetChangedRemotely(p, TargetSetId(p, c), remote) {
            SetChangeRefused(global, p, remote, c);
          }
        }
      }
    }
  }

  /**
   * A failed batch reports the error of its first failing product, and
   * that error always carries the product.
   */
  lemma {:induction false} ProcessItemsFirstError(global: map<string, string>, items: seq<Product>,
                                                 remote: seq<RemoteProduct>, c: Collaborators)
    requires ProcessItems(global, items, remote, c).Err?
    ensures exists i ::
              && 0 <= i < |items|
              && (forall j :: 0 <= j < i ==> ProcessItem(global, items[j], remote, c).Ok?)
              && ProcessItem(global, items[i], remote, c) == Err(ProcessItems(global, items, remote, c).error)
    ensures ProcessItems(global, items, remote, c).error.InvalidItem?
    ensures ProcessItems(global, items, remote, c).error.product in items
  {
    var init := items[..|items| - 1];
    if ProcessItems(global, init, remote, c).Err? {
      ProcessItemsFirstError(global, init, remote, c);
      var i :| && 0 <= i < |init|
               && (forall j :: 0 <= j < i ==> ProcessItem(global, init[j], remote, c).Ok?)
               && ProcessItem(global, init[i], remote, c) == Err(ProcessItems(global, init, remote, c).error);
      assert forall j :: 0 <= j <= i ==> init[j] == items[j];
    } else {
      ProcessItemsSucceeds(global, init, remote, c);
      assert forall j :: 0 <= j < |init| ==> init[j] == items[j];
      assert items[|items| - 1] in items;
    }
  }

  /** A product whose attribute set changed makes the whole `process` call fail. */
  lemma SetChangeFailsBatch(global: map<string, string>, items: seq<Product>, remote: seq<RemoteProduct>,
                            c: Collaborators, k: nat)
    requires k < |items| && SetChangedRemotely(items[k], TargetSetId(items[k], c), remote)
    ensures ProcessItems(global, items, remote, c).Err?
  {
    SetChangeRefused(global, items[k], remote, c);
    ProcessItemsSucceeds(global, items, remote, c);
  }

  /** Once a prefix has failed, the rest of the batch is not processed. */
  lemma {:induction false} ProcessItemsErrPrefix(global: map<string, string>, items: seq<Product>, k: nat,
                                                remote: seq<RemoteProduct>, c: Collaborators)
    requires k <= |items|
    requires ProcessItems(global, items[..k], remote, c).Err?
    ensures ProcessItems(global, items, remote, c) == ProcessItems(global, items[..k], remote, c)
    decreases |items| - k
  {
    if k < |items| {
      var init := items[..|items| - 1];
      assert init[..k] == items[..k];
      ProcessItemsErrPrefix(global, init, k, remote, c);
    } else {
      assert items[..k] == items;
    }
  }

  class ProductProcessor {
    // The local association type configured as the remote "grouped" slot ("" when unset).
    var pimGrouped: string
    // The context shared by every product of a batch.
    var globalContext: map<string, string>

    constructor ()
      ensures pimGrouped == "" && globalContext == map[]
    {
      pimGrouped, globalContext := "", map[];
    }

    method SetPimGrouped(code: string)
      modifies this
      ensures pimGrouped == code && globalContext == old(globalContext)
    {
      pimGrouped := code;
    }

    /**
     * `beforeExecute`: the global context the parent step prepares
     * (`parentContext`) with `pimGrouped` added.
     */
    method BeforeExecute(parentContext: map<string, string>)
      modifies this
      ensures globalContext == parentContext["pimGrouped" := pimGrouped]
      ensures pimGrouped == old(pimGrouped)
    {
      globalContext := parentContext["pimGrouped" := pimGrouped];
    }

    /** `magentoProductExist`: a scan of the listing that stops at the first matching sku. */
    method MagentoProductExist(p: Product, remote: seq<RemoteProduct>) returns (found: bool)
      ensures found <==> ExistsRemotely(p, remote)
    {
      for i := 0 to |remote|
        invariant forall j :: 0 <= j < i ==> remote[j].sku != p.identifier
      {
        if remote[i].sku == p.identifier {
          return true;
        }
      }
      return false;
    }

    /** `attributeSetChanged`: a scan for a listed entry of the product whose set differs from the target. */
    method AttributeSetChanged(p: Product, remote: seq<RemoteProduct>, c: Collaborators) returns (changed: bool)
      ensures changed <==> SetChangedRemotely(p, TargetSetId(p, c), remote)
      ensures changed ==> ExistsRemotely(p, remote)
    {
      for i := 0 to |remote|
        invariant forall j :: 0 <= j < i ==> remote[j].sku != p.identifier || remote[j].attributeSet == TargetSetId(p, c)
      {
        if remote[i].sku == p.identifier && remote[i].attributeSet != c.attributeSetId(p.family, p) {
          return true;
        }
      }
      return false;
    }

    /**
     * `process`: prepare the global context, fetch the remote listing once,
     * then classify and normalise the products in order.
     */
    method Process(items: seq<Product>, parentContext: map<string, string>, c: Collaborators)
      returns (r: Result<seq<Payload>, ProcessError>)
      modifies this
      ensures globalContext == parentContext["pimGrouped" := pimGrouped]
      ensures pimGrouped == old(pimGrouped)
      ensures r == ProcessBatch(globalContext, items, c)
    {
      BeforeExecute(parentContext);
      var status := c.productsStatus(items);
      if status.ListFault? {
        return Err(UncaughtSoapFault(status.fault));
      }
      var remote := status.products;
      var processed: seq<Payload> := [];
      var i := 0;
      while i < |items|
        invariant 0 <= i <= |items|
        invariant globalContext == parentContext["pimGrouped" := pimGrouped] && pimGrouped == old(pimGrouped)
        invariant ProcessItems(globalContext, items[..i], remote, c) == Ok(processed)
      {
        var product := items[i];
        assert items[..i + 1][..i] == items[..i];
        var context := Context(globalContext, c.attributeSetId(product.family, product), false);
        var known := MagentoProductExist(product, remote);
        if known {
          var changed := AttributeSetChanged(product, remote, c);
          if changed {
            ProcessItemsErrPrefix(globalContext, items, i + 1, remote, c);
            return Err(InvalidItem(FamilyChangedMessage, product));
          }
          context := context.(create := false);
        } else {
          context := context.(create := true);
        }
        var normalized := NormalizeProduct(product, context, c);
        assert ProcessItem(globalContext, product, remote, c) == normalized;
        if normalized.Err? {
          ProcessItemsErrPrefix(globalContext, items, i + 1, remote, c);
          return Err(normalized.error);
        }
        processed := processed + [normalized.value];
        i := i + 1;
      }
      assert items[..|items|] == items;
      r := Ok(processed);
    }
  }
}
