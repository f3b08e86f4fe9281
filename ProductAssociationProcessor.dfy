/**
 * Association reconciliation: from the local association graph of a batch
 * of products and the association edges observed on the remote catalog,
 * build the list of remote `remove` calls and the list of remote `create`
 * calls. The remove list clears every observed edge; the create list
 * re-adds every local edge whose association type is mapped to one of the
 * four remote slots.
 */
module ProductAssociationProcessor {
  import opened Common
  import opened Catalog

  // The four remote association slots.
  const UpSell := "up_sell"
  const CrossSell := "cross_sell"
  const Related := "related"
  const Grouped := "grouped"

  /** PHP truthiness of a configured association-type code: unset (""), and "0" are false. */
  predicate Truthy(code: string)
  {
    code != "" && code != "0"
  }

  /** One remote association call: `{type, product, linkedProduct}`. */
  datatype AssociationCall = AssociationCall(assocType: string, product: string, linkedProduct: string)

  /** The remote status of one association type of a product: the linked skus, in remote order. */
  datatype RemoteGroup = RemoteGroup(assocType: string, skus: seq<string>)

  /** The result of `process`: the `remove` list and the `create` list. */
  datatype AssociationCalls = AssociationCalls(remove: seq<AssociationCall>, create: seq<AssociationCall>)

  /** What `getAssociationsStatus(product)` yields: the grouped remote edges, or a SOAP fault. */
  datatype StatusResult = Status(groups: seq<RemoteGroup>) | StatusFault(fault: SoapFault)

  /** An item-level error carrying the offending product. */
  datatype InvalidItem = InvalidItem(message: string, product: Product)

  // ---------------------------------------------------------------------
  // The code mapping: local association-type code -> remote slot
  // ---------------------------------------------------------------------

  /**
   * The mapping built from the four configured slots, in the order
   * up_sell, cross_sell, related, grouped; a code configured in two slots
   * ends up mapped to the later one.
   */
  function CodeMappingOf(upSell: string, crossSell: string, related: string, grouped: string): (m: map<string, string>)
    ensures forall code :: code in m <==>
      Truthy(code) && (code == upSell || code == crossSell || code == related || code == grouped)
    ensures m.Values <= {UpSell, CrossSell, Related, Grouped}
    ensures Truthy(grouped) ==> m[grouped] == Grouped
    ensures Truthy(related) && related != grouped ==> m[related] == Related
    ensures Truthy(crossSell) && crossSell != related && crossSell != grouped ==> m[crossSell] == CrossSell
    ensures Truthy(upSell) && upSell != crossSell && upSell != related && upSell != grouped ==> m[upSell] == UpSell
  {
    var m1 := if Truthy(upSell) then map[upSell := UpSell] else map[];
    var m2 := if Truthy(crossSell) then m1[crossSell := CrossSell] else m1;
    var m3 := if Truthy(related) then m2[related := Related] else m2;
    if Truthy(grouped) then m3[grouped := Grouped] else m3
  }

  // ---------------------------------------------------------------------
  // Remove calls: one per remotely observed edge
  // ---------------------------------------------------------------------

  /** The remove calls for one remote group: one per linked sku, in order. */
  function GroupRemoveCalls(product: string, g: RemoteGroup): seq<AssociationCall>
  {
    seq(|g.skus|, i requires 0 <= i < |g.skus| => AssociationCall(g.assocType, product, g.skus[i]))
  }

  /** The remove calls of a product, group after group in the order of its remote status. */
  function RemoveCalls(product: string, status: seq<RemoteGroup>): seq<AssociationCall>
  {
    if status == [] then []
    else RemoveCalls(product, status[..|status| - 1]) + GroupRemoveCalls(product, status[|status| - 1])
  }

  /** The number of remote edges in a status. */
  function EdgeCount(status: seq<RemoteGroup>): nat
  {
    if status == [] then 0 else EdgeCount(status[..|status| - 1]) + |status[|status| - 1].skus|
  }

  /** The remove list has exactly one entry per remote edge. */
  lemma {:induction false} RemoveCallsCount(product: string, status: seq<RemoteGroup>)
    ensures |RemoveCalls(product, status)| == EdgeCount(status)
  {
    if status != [] {
      RemoveCallsCount(product, status[..|status| - 1]);
    }
  }

  /**
   * A call is in the remove list exactly when it names the product and an
   * edge (type, sku) of the remote status; the local graph plays no part.
   */
  lemma {:induction false} RemoveCallsMembership(product: string, status: seq<RemoteGroup>, c: AssociationCall)
    ensures c in RemoveCalls(product, status) <==>
      c.product == product &&
      exists g :: g in status && g.assocType == c.assocType && c.linkedProduct in g.skus
  {
    if status != [] {
      var init, last := status[..|status| - 1], status[|status| - 1];
      assert status == init + [last];
      RemoveCallsMembership(product, init, c);
      if c in GroupRemoveCalls(product, last) {
        var i :| 0 <= i < |last.skus| && GroupRemoveCalls(product, last)[i] == c;
        assert c.linkedProduct == last.skus[i];
      }
      if c.product == product && c.assocType == last.assocType && c.linkedProduct in last.skus {
        var i :| 0 <= i < |last.skus| && last.skus[i] == c.linkedProduct;
        assert GroupRemoveCalls(product, last)[i] == c;
      }
    }
  }

  /** Removing over two status segments gives the two remove lists one after the other. */
  lemma {:induction false} RemoveCallsAppend(product: string, s: seq<RemoteGroup>, t: seq<RemoteGroup>)
    ensures RemoveCalls(product, s + t) == RemoveCalls(product, s) + RemoveCalls(product, t)
    decreases |t|
  {
    if t == [] {
      assert s + t == s;
    } else {
      var init, g := t[..|t| - 1], t[|t| - 1];
      RemoveCallsAppend(product, s, init);
      assert (s + t)[..|s + t| - 1] == s + init;
      calc {
        RemoveCalls(product, s + t);
        RemoveCalls(product, s + init) + GroupRemoveCalls(product, g);
        RemoveCalls(product, s) + (RemoveCalls(product, init) + GroupRemoveCalls(product, g));
      }
    }
  }

  // ---------------------------------------------------------------------
  // Create calls: one per locally associated product of a mapped type
  // ---------------------------------------------------------------------

  /** The create calls for one association: none if its type is unmapped, else one per associated product. */
  function AssociationCreateCalls(mapping: map<string, string>, product: string, a: Association): (r: seq<AssociationCall>)
    ensures |r| == if a.typeCode in mapping then |a.products| else 0
    ensures forall c :: c in r ==>
      c.product == product && a.typeCode in mapping && c.assocType == mapping[a.typeCode] && c.linkedProduct in a.products
  {
    if a.typeCode in mapping then
      seq(|a.products|, i requires 0 <= i < |a.products| => AssociationCall(mapping[a.typeCode], product, a.products[i]))
    else []
  }

  /** The create calls over a list of associations, association after association. */
  function CreateCallsOver(mapping: map<string, string>, product: string, assocs: seq<Association>): (r: seq<AssociationCall>)
    ensures forall c :: c in r ==> c.product == product && c.assocType in mapping.Values
  {
    if assocs == [] then []
    else
      CreateCallsOver(mapping, product, assocs[..|assocs| - 1])
      + AssociationCreateCalls(mapping, product, assocs[|assocs| - 1])
  }

  /** The create calls of a product. */
  function CreateCalls(mapping: map<string, string>, p: Product): seq<AssociationCall>
  {
    CreateCallsOver(mapping, p.identifier, p.associations)
  }

  /**
   * A call is in the create list exactly when it names the product, a
   * product associated with it through a mapped type, and that type's slot.
   */
  lemma {:induction false} CreateCallsMembership(mapping: map<string, string>, product: string,
                                                 assocs: seq<Association>, c: AssociationCall)
    ensures c in CreateCallsOver(mapping, product, assocs) <==>
      c.product == product &&
      exists a :: a in assocs && a.typeCode in mapping && c.assocType == mapping[a.typeCode] && c.linkedProduct in a.products
  {
    if assocs != [] {
      var init, last := assocs[..|assocs| - 1], assocs[|assocs| - 1];
      assert assocs == init + [last];
      CreateCallsMembership(mapping, product, init, c);
      var own := AssociationCreateCalls(mapping, product, last);
      if c in own {
        var i :| 0 <= i < |own| && own[i] == c;
        assert c.linkedProduct == last.products[i];
      }
      if c.product == product && last.typeCode in mapping && c.assocType == mapping[last.typeCode]
         && c.linkedProduct in last.products {
        var i :| 0 <= i < |last.products| && last.products[i] == c.linkedProduct;
        assert own[i] == c;
      }
    }
  }

  /** Associations whose types are all unmapped contribute no create call. */
  lemma {:induction false} UnmappedContributeNothing(mapping: map<string, string>, product: string, assocs: seq<Association>)
    requires forall a :: a in assocs ==> a.typeCode !in mapping
    ensures CreateCallsOver(mapping, product, assocs) == []
  {
    if assocs != [] {
      UnmappedContributeNothing(mapping, product, assocs[..|assocs| - 1]);
    }
  }

  /** With no slot configured, no product yields a create call, whatever its associations. */
  lemma NoSlotNoCreates(upSell: string, crossSell: string, related: string, grouped: string, p: Product)
    requires !Truthy(upSell) && !Truthy(crossSell) && !Truthy(related) && !Truthy(grouped)
    ensures CreateCalls(CodeMappingOf(upSell, crossSell, related, grouped), p) == []
  {
    var m := CodeMappingOf(upSell, crossSell, related, grouped);
    assert forall code :: code !in m;
    UnmappedContributeNothing(m, p.identifier, p.associations);
  }

  /** Every create call built from a slot configuration targets one of the four remote slots. */
  lemma CreateCallsTargetSlots(upSell: string, crossSell: string, related: string, grouped: string,
                               p: Product, c: AssociationCall)
    requires c in CreateCalls(CodeMappingOf(upSell, crossSell, related, grouped), p)
    ensures c.assocType in {UpSell, CrossSell, Related, Grouped}
    ensures c.product == p.identifier
  {
    var m := CodeMappingOf(upSell, crossSell, related, grouped);
    CreateCallsMembership(m, p.identifier, p.associations, c);
    var a :| a in p.associations && a.typeCode in m && c.assocType == m[a.typeCode] && c.linkedProduct in a.products;
    assert m[a.typeCode] in m.Values;
  }

  // ---------------------------------------------------------------------
  // The batch: remove and create lists over all products, all or nothing
  // ---------------------------------------------------------------------

  /**
   * The outcome of `process` over a batch: the per-product remove and
   * create lists concatenated in product order, or the error of the first
   * product whose remote status could not be fetched.
   */
  function BatchCalls(mapping: map<string, string>, items: seq<Product>, fetch: Product -> StatusResult)
    : (r: Result<AssociationCalls, InvalidItem>)
    ensures r.Err? ==>
      && r.error.product in items
      && fetch(r.error.product).StatusFault?
      && r.error.message == fetch(r.error.product).fault.message
  {
    if items == [] then Ok(AssociationCalls([], []))
    else
      var p := items[|items| - 1];
      match BatchCalls(mapping, items[..|items| - 1], fetch)
      case Err(e) => Err(e)
      case Ok(acc) =>
        match fetch(p)
        case StatusFault(f) => Err(InvalidItem(f.message, p))
        case Status(groups) =>
          Ok(AssociationCalls(acc.remove + RemoveCalls(p.identifier, groups), acc.create + CreateCalls(mapping, p)))
  }

  /** Every product of `items` had its remote status fetched without fault. */
  predicate AllFetched(items: seq<Product>, fetch: Product -> StatusResult)
  {
    forall i :: 0 <= i < |items| ==> fetch(items[i]).Status?
  }

  /** The batch succeeds exactly when no product's status fetch faults. */
  lemma {:induction false} BatchCallsSucceeds(mapping: map<string, string>, items: seq<Product>, fetch: Product -> StatusResult)
    ensures BatchCalls(mapping, items, fetch).Ok? <==> AllFetched(items, fetch)
  {
    if items != [] {
      var init := items[..|items| - 1];
      BatchCallsSucceeds(mapping, init, fetch);
      assert forall i :: 0 <= i < |init| ==> init[i] == items[i];
    }
  }

  /**
   * A failed batch reports the first product whose status fetch faulted,
   * with that fault's message, and no partial call lists.
   */
  lemma {:induction false} BatchCallsFirstFault(mapping: map<string, string>, items: seq<Product>, fetch: Product -> StatusResult)
    requires BatchCalls(mapping, items, fetch).Err?
    ensures exists i ::
              && 0 <= i < |items|
              && AllFetched(items[..i], fetch)
              && fetch(items[i]).StatusFault?
              && BatchCalls(mapping, items, fetch).error == InvalidItem(fetch(items[i]).fault.message, items[i])
  {
    var init := items[..|items| - 1];
    var last := |items| - 1;
    assert init == items[..last];
    if BatchCalls(mapping, init, fetch).Err? {
      BatchCallsFirstFault(mapping, init, fetch);
      var i :| 0 <= i < |init| && AllFetched(init[..i], fetch) && fetch(init[i]).StatusFault? &&
        BatchCalls(mapping, init, fetch).error == InvalidItem(fetch(init[i]).fault.message, init[i]);
      assert init[..i] == items[..i];
    } else {
      BatchCallsSucceeds(mapping, init, fetch);
    }
  }

  /** Once a prefix of the batch has failed, the rest of the batch changes nothing: it is not even fetched. */
  lemma {:induction false} BatchCallsErrPrefix(mapping: map<string, string>, items: seq<Product>, k: nat,
                                              fetch: Product -> StatusResult)
    requires k <= |items|
    requires BatchCalls(mapping, items[..k], fetch).Err?
    ensures BatchCalls(mapping, items, fetch) == BatchCalls(mapping, items[..k], fetch)
    decreases |items| - k
  {
    if k < |items| {
      var init := items[..|items| - 1];
      assert init[..k] == items[..k];
      BatchCallsErrPrefix(mapping, init, k, fetch);
    } else {
      assert items[..k] == items;
    }
  }

  /** A batch whose statuses were all fetched splits into two such batches. */
  lemma AllFetchedSplit(xs: seq<Product>, ys: seq<Product>, fetch: Product -> StatusResult)
    requires AllFetched(xs + ys, fetch)
    ensures AllFetched(xs, fetch) && AllFetched(ys, fetch)
  {
    forall i | 0 <= i < |xs| ensures fetch(xs[i]).Status? {
      assert xs[i] == (xs + ys)[i];
    }
    forall i | 0 <= i < |ys| ensures fetch(ys[i]).Status? {
      assert ys[i] == (xs + ys)[|xs| + i];
    }
  }

  /** The remove calls of every fetched product of `items`, product after product. */
  function RemoveAll(items: seq<Product>, fetch: Product -> StatusResult): seq<AssociationCall>
  {
    if items == [] then [] else RemoveAll(items[..|items| - 1], fetch) + RemovesOf(items[|items| - 1], fetch)
  }

  /** The remove calls of one product, given its fetched status (none when the fetch faulted). */
  function RemovesOf(p: Product, fetch: Product -> StatusResult): seq<AssociationCall>
  {
    match fetch(p)
    case Status(groups) => RemoveCalls(p.identifier, groups)
    case StatusFault(_) => []
  }

  /** The create calls of every product of `items`, product after product. */
  function CreateAll(mapping: map<string, string>, items: seq<Product>): seq<AssociationCall>
  {
    if items == [] then [] else CreateAll(mapping, items[..|items| - 1]) + CreateCalls(mapping, items[|items| - 1])
  }

  /** A batch whose statuses were all fetched yields the per-product lists concatenated in product order. */
  lemma {:induction false} BatchCallsFlat(mapping: map<string, string>, items: seq<Product>, fetch: Product -> StatusResult)
    requires AllFetched(items, fetch)
    ensures BatchCalls(mapping, items, fetch) == Ok(AssociationCalls(RemoveAll(items, fetch), CreateAll(mapping, items)))
  {
    if items != [] {
      var init := items[..|items| - 1];
      assert AllFetched(init, fetch) by {
        assert forall i :: 0 <= i < |init| ==> init[i] == items[i];
      }
      BatchCallsFlat(mapping, init, fetch);
      assert fetch(items[|items| - 1]).Status?;
    }
  }

  /** One more product appends its own remove calls. */
  lemma RemoveAllSnoc(items: seq<Product>, p: Product, fetch: Product -> StatusResult)
    ensures RemoveAll(items + [p], fetch) == RemoveAll(items, fetch) + RemovesOf(p, fetch)
  {
    assert (items + [p])[..|items|] == items;
  }

  lemma {:induction false} RemoveAllAppend(xs: seq<Product>, ys: seq<Product>, fetch: Product -> StatusResult)
    ensures RemoveAll(xs + ys, fetch) == RemoveAll(xs, fetch) + RemoveAll(ys, fetch)
    decreases |ys|
  {
    if ys == [] {
      assert xs + ys == xs;
    } else {
      var init, p := ys[..|ys| - 1], ys[|ys| - 1];
      calc {
        RemoveAll(xs + ys, fetch);
        { assert xs + ys == (xs + init) + [p]; }
        RemoveAll((xs + init) + [p], fetch);
        { RemoveAllSnoc(xs + init, p, fetch); }
        RemoveAll(xs + init, fetch) + RemovesOf(p, fetch);
        { RemoveAllAppend(xs, init, fetch); }
        RemoveAll(xs, fetch) + (RemoveAll(init, fetch) + RemovesOf(p, fetch));
        { RemoveAllSnoc(init, p, fetch); }
        RemoveAll(xs, fetch) + RemoveAll(init + [p], fetch);
        { assert init + [p] == ys; }
        RemoveAll(xs, fetch) + RemoveAll(ys, fetch);
      }
    }
  }

  lemma {:induction false} CreateAllAppend(mapping: map<string, string>, xs: seq<Product>, ys: seq<Product>)
    ensures CreateAll(mapping, xs + ys) == CreateAll(mapping, xs) + CreateAll(mapping, ys)
    decreases |ys|
  {
    if ys == [] {
      assert xs + ys == xs;
    } else {
      var init := ys[..|ys| - 1];
      assert (xs + ys)[..|xs + ys| - 1] == xs + init;
      assert (xs + ys)[|xs + ys| - 1] == ys[|ys| - 1];
      CreateAllAppend(mapping, xs, init);
    }
  }

  /**
   * A batch processed whole gives the lists of its two halves processed
   * separately, each list concatenated in product order.
   */
  lemma BatchCallsConcat(mapping: map<string, string>, xs: seq<Product>, ys: seq<Product>,
                         fetch: Product -> StatusResult)
    requires AllFetched(xs + ys, fetch)
    ensures BatchCalls(mapping, xs, fetch).Ok? && BatchCalls(mapping, ys, fetch).Ok?
    ensures BatchCalls(mapping, xs + ys, fetch) ==
      Ok(AssociationCalls(
        BatchCalls(mapping, xs, fetch).value.remove + BatchCalls(mapping, ys, fetch).value.remove,
        BatchCalls(mapping, xs, fetch).value.create + BatchCalls(mapping, ys, fetch).value.create))
  {
    AllFetchedSplit(xs, ys, fetch);
    BatchCallsFlat(mapping, xs, fetch);
    BatchCallsFlat(mapping, ys, fetch);
    BatchCallsFlat(mapping, xs + ys, fetch);
    RemoveAllAppend(xs, ys, fetch);
    CreateAllAppend(mapping, xs, ys);
  }

  /** With an empty code mapping, a successful batch has an empty create list. */
  lemma {:induction false} BatchNoMappingNoCreates(items: seq<Product>, fetch: Product -> StatusResult)
    requires BatchCalls(map[], items, fetch).Ok?
    ensures BatchCalls(map[], items, fetch).value.create == []
  {
    if items != [] {
      var p := items[|items| - 1];
      BatchNoMappingNoCreates(items[..|items| - 1], fetch);
      UnmappedContributeNothing(map[], p.identifier, p.associations);
    }
  }

  // ---------------------------------------------------------------------
  // The processor
  // ---------------------------------------------------------------------

  class AssociationProcessor {
    // The local association-type codes configured for the four remote slots ("" when unset).
    var pimUpSell: string
    var pimCrossSell: string
    var pimRelated: string
    var pimGrouped: string

    constructor ()
      ensures pimUpSell == "" && pimCrossSell == "" && pimRelated == "" && pimGrouped == ""
    {
      pimUpSell, pimCrossSell, pimRelated, pimGrouped := "", "", "", "";
    }

    method SetPimUpSell(code: string)
      modifies this
      ensures pimUpSell == code
      ensures pimCrossSell == old(pimCrossSell) && pimRelated == old(pimRelated) && pimGrouped == old(pimGrouped)
    {
      pimUpSell := code;
    }

    method SetPimCrossSell(code: string)
      modifies this
      ensures pimCrossSell == code
      ensures pimUpSell == old(pimUpSell) && pimRelated == old(pimRelated) && pimGrouped == old(pimGrouped)
    {
      pimCrossSell := code;
    }

    method SetPimRelated(code: string)
      modifies this
      ensures pimRelated == code
      ensures pimUpSell == old(pimUpSell) && pimCrossSell == old(pimCrossSell) && pimGrouped == old(pimGrouped)
    {
      pimRelated := code;
    }

    method SetPimGrouped(code: string)
      modifies this
      ensures pimGrouped == code
      ensures pimUpSell == old(pimUpSell) && pimCrossSell == old(pimCrossSell) && pimRelated == old(pimRelated)
    {
      pimGrouped := code;
    }

    /** `getAssociationCodeMapping()` over the current slot configuration. */
    function CodeMapping(): map<string, string>
      reads this
    {
      CodeMappingOf(pimUpSell, pimCrossSell, pimRelated, pimGrouped)
    }

    /** `getRemoveCallsForProduct`: one remove call per remote edge, whatever the local associations. */
    method GetRemoveCallsForProduct(product: Product, status: seq<RemoteGroup>) returns (calls: seq<AssociationCall>)
      ensures calls == RemoveCalls(product.identifier, status)
    {
      calls := [];
      for i := 0 to |status|
        invariant calls == RemoveCalls(product.identifier, status[..i])
      {
        var group := status[i];
        ghost var before := calls;
        for j := 0 to |group.skus|
          invariant calls == before + GroupRemoveCalls(product.identifier, group)[..j]
        {
          calls := calls + [AssociationCall(group.assocType, product.identifier, group.skus[j])];
        }
        assert GroupRemoveCalls(product.identifier, group)[..|group.skus|] == GroupRemoveCalls(product.identifier, group);
        assert status[..i + 1][..i] == status[..i];
      }
      assert status[..|status|] == status;
    }

    /** `getCreateCallsForAssociation`: nothing for an unmapped type, else one call per associated product. */
    method GetCreateCallsForAssociation(product: Product, a: Association) returns (calls: seq<AssociationCall>)
      ensures calls == AssociationCreateCalls(CodeMapping(), product.identifier, a)
      ensures a.typeCode !in CodeMapping() ==> calls == []
      ensures a.typeCode in CodeMapping() ==>
        |calls| == |a.products| &&
        forall i :: 0 <= i < |calls| ==>
          calls[i] == AssociationCall(CodeMapping()[a.typeCode], product.identifier, a.products[i])
    {
      calls := [];
      var mapping := CodeMapping();
      if a.typeCode in mapping {
        for j := 0 to |a.products|
          invariant |calls| == j
          invariant forall i :: 0 <= i < j ==>
            calls[i] == AssociationCall(mapping[a.typeCode], product.identifier, a.products[i])
        {
          calls := calls + [AssociationCall(mapping[a.typeCode], product.identifier, a.products[j])];
        }
      }
    }

    /** `getCreateCallsForProduct`: the create calls of every association, in order. */
    method GetCreateCallsForProduct(product: Product) returns (calls: seq<AssociationCall>)
      ensures calls == CreateCalls(CodeMapping(), product)
    {
      calls := [];
      var assocs := product.associations;
      ghost var mapping := CodeMapping();
      for i := 0 to |assocs|
        invariant calls == CreateCallsOver(mapping, product.identifier, assocs[..i])
      {
        var more := GetCreateCallsForAssociation(product, assocs[i]);
        assert assocs[..i + 1][..i] == assocs[..i];
        assert more == AssociationCreateCalls(mapping, product.identifier, assocs[i]);
        calls := calls + more;
      }
      assert assocs[..|assocs|] == assocs;
    }

    /**
     * `process`: fetch each product's remote status in turn and append its
     * remove and create calls; the first fetch fault aborts the batch.
     */
    method Process(items: seq<Product>, fetch: Product -> StatusResult) returns (r: Result<AssociationCalls, InvalidItem>)
      ensures r == BatchCalls(CodeMapping(), items, fetch)
    {
      var remove: seq<AssociationCall> := [];
      var create: seq<AssociationCall> := [];
      var i := 0;
      while i < |items|
        invariant 0 <= i <= |items|
        invariant BatchCalls(CodeMapping(), items[..i], fetch) == Ok(AssociationCalls(remove, create))
      {
        var product := items[i];
        var status := fetch(product);
        assert items[..i + 1][..i] == items[..i];
        if status.StatusFault? {
          BatchCallsErrPrefix(CodeMapping(), items, i + 1, fetch);
          return Err(InvalidItem(status.fault.message, product));
        }
        var removeCalls := GetRemoveCallsForProduct(product, status.groups);
        var createCalls := GetCreateCallsForProduct(product);
        remove := remove + removeCalls;
        create := create + createCalls;
        i := i + 1;
      }
      assert items[..|items|] == items;
      r := Ok(AssociationCalls(remove, create));
    }
  }
}
