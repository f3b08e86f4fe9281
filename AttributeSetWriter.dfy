/**
 * The attribute-set writer: every family item that asks for a creation
 * becomes one remote attribute-set creation. A success registers the new
 * remote id and counts as created; a SOAP fault counts as "already in
 * Magento" and the batch goes on with the next item.
 */
module AttributeSetWriter {
  import opened Common

  const FamiliesCreated := "Families created"
  const FamilyAlready := "Family already in magento"

  /** One item of a batch: the family code and, when the family must be created, the requested attribute-set name. */
  datatype FamilyItem = FamilyItem(family: string, create: Option<string>)

  /** How the remote catalog answers an attribute-set creation. */
  type CreateAttributeSet = string -> Result<int, SoapFault>

  /** What the writer changes: the counters, the family mapping, and the attribute-set names requested so far. */
  datatype SetWriterState = SetWriterState(summary: Summary, familyMapping: Registry, requested: seq<string>)

  datatype Step = Step(state: SetWriterState, fault: Option<SoapFault>)

  /** `handleNewFamily`: create the attribute set when the item asks for it, then register it and count it. */
  function HandleNewFamilySpec(st: SetWriterState, createSet: CreateAttributeSet, soapUrl: string, item: FamilyItem): (r: Step)
    ensures r.state.requested == st.requested + (if item.create.Some? then [item.create.value] else [])
    ensures r.fault.Some? <==> item.create.Some? && createSet(item.create.value).Err?
    ensures r.fault.Some? ==> r.state.summary == st.summary && r.state.familyMapping == st.familyMapping
  {
    match item.create
    case None => Step(st, None)
    case Some(name) =>
      var called := st.(requested := st.requested + [name]);
      match createSet(name)
      case Err(f) => Step(called, Some(f))
      case Ok(id) =>
        Step(called.(familyMapping := Register(called.familyMapping, item.family, id, soapUrl),
                     summary := Increment(called.summary, FamiliesCreated)), None)
  }

  /** One iteration of `write`: a fault of the creation is caught and counted. */
  function WriteItemSpec(st: SetWriterState, createSet: CreateAttributeSet, soapUrl: string, item: FamilyItem): (r: SetWriterState)
    ensures st.familyMapping.Keys <= r.familyMapping.Keys
    ensures r.familyMapping.Keys <= st.familyMapping.Keys + {MappingKey(item.family, soapUrl)}
  {
    var step := HandleNewFamilySpec(st, createSet, soapUrl, item);
    if step.fault.Some? then step.state.(summary := Increment(step.state.summary, FamilyAlready))
    else step.state
  }

  /** `write`: every item in order; nothing stops the batch. */
  function WriteSpec(st: SetWriterState, createSet: CreateAttributeSet, soapUrl: string, items: seq<FamilyItem>): (r: SetWriterState)
    ensures |st.requested| <= |r.requested| <= |st.requested| + |items|
    ensures st.familyMapping.Keys <= r.familyMapping.Keys
  {
    if |items| == 0 then st
    else WriteItemSpec(WriteSpec(st, createSet, soapUrl, items[..|items| - 1]), createSet, soapUrl, items[|items| - 1])
  }

  /** The attribute-set names the items ask for, in item order. */
  function Requested(items: seq<FamilyItem>): (names: seq<string>)
    ensures |names| <= |items|
    ensures |names| == |items| <==> forall k :: 0 <= k < |items| ==> items[k].create.Some?
    ensures forall name :: name in names <==> exists k :: 0 <= k < |items| && items[k].create == Some(name)
  {
    if |items| == 0 then []
    else
      var last := items[|items| - 1];
      Requested(items[..|items| - 1]) + (if last.create.Some? then [last.create.value] else [])
  }

  /** An item without a creation request calls nothing, registers nothing and counts nothing. */
  lemma NoRequestNoEffect(st: SetWriterState, createSet: CreateAttributeSet, soapUrl: string, item: FamilyItem)
    requires item.create.None?
    ensures WriteItemSpec(st, createSet, soapUrl, item) == st
  {
  }

  /**
   * An item with a creation request makes exactly one creation call with
   * its name. On success its family maps to the returned id and "Families
   * created" alone goes up by one; on a fault no mapping is registered and
   * "Family already in magento" alone goes up by one.
   */
  lemma RequestEffect(st: SetWriterState, createSet: CreateAttributeSet, soapUrl: string, item: FamilyItem)
    requires item.create.Some?
    ensures WriteItemSpec(st, createSet, soapUrl, item).requested == st.requested + [item.create.value]
    ensures createSet(item.create.value).Ok? ==>
      && WriteItemSpec(st, createSet, soapUrl, item).familyMapping ==
           Register(st.familyMapping, item.family, createSet(item.create.value).value, soapUrl)
      && Lookup(WriteItemSpec(st, createSet, soapUrl, item).familyMapping, item.family, soapUrl) ==
           Some(createSet(item.create.value).value)
      && Count(WriteItemSpec(st, createSet, soapUrl, item).summary, FamiliesCreated) == Count(st.summary, FamiliesCreated) + 1
      && Count(WriteItemSpec(st, createSet, soapUrl, item).summary, FamilyAlready) == Count(st.summary, FamilyAlready)
    ensures createSet(item.create.value).Err? ==>
      && WriteItemSpec(st, createSet, soapUrl, item).familyMapping == st.familyMapping
      && Count(WriteItemSpec(st, createSet, soapUrl, item).summary, FamilyAlready) == Count(st.summary, FamilyAlready) + 1
      && Count(WriteItemSpec(st, createSet, soapUrl, item).summary, FamiliesCreated) == Count(st.summary, FamiliesCreated)
    ensures forall name :: name != FamiliesCreated && name != FamilyAlready ==>
      Count(WriteItemSpec(st, createSet, soapUrl, item).summary, name) == Count(st.summary, name)
  {
    assert FamiliesCreated != FamilyAlready;
  }

  /** Faults never escape: writing a batch in two parts is writing it at once. */
  lemma {:induction false} WriteComposes(st: SetWriterState, createSet: CreateAttributeSet, soapUrl: string,
                                         xs: seq<FamilyItem>, ys: seq<FamilyItem>)
    ensures WriteSpec(st, createSet, soapUrl, xs + ys) ==
      WriteSpec(WriteSpec(st, createSet, soapUrl, xs), createSet, soapUrl, ys)
    decreases |ys|
  {
    if |ys| == 0 {
      assert xs + ys == xs;
    } else {
      var init, last := ys[..|ys| - 1], ys[|ys| - 1];
      calc {
        WriteSpec(st, createSet, soapUrl, xs + ys);
        { assert (xs + ys)[..|xs + ys| - 1] == xs + init; assert (xs + ys)[|xs + ys| - 1] == last; }
        WriteItemSpec(WriteSpec(st, createSet, soapUrl, xs + init), createSet, soapUrl, last);
        { WriteComposes(st, createSet, soapUrl, xs, init); }
        WriteItemSpec(WriteSpec(WriteSpec(st, createSet, soapUrl, xs), createSet, soapUrl, init), createSet, soapUrl, last);
      }
    }
  }

  /**
   * Every item is attempted: the creation calls of a batch are exactly the
   * names its items request, in order, and the created and already counts
   * together grow by their number; no other counter moves.
   */
  lemma {:induction false} WriteAttemptsEvery(st: SetWriterState, createSet: CreateAttributeSet, soapUrl: string, items: seq<FamilyItem>)
    ensures WriteSpec(st, createSet, soapUrl, items).requested == st.requested + Requested(items)
    ensures Count(WriteSpec(st, createSet, soapUrl, items).summary, FamiliesCreated) +
            Count(WriteSpec(st, createSet, soapUrl, items).summary, FamilyAlready) ==
            Count(st.summary, FamiliesCreated) + Count(st.summary, FamilyAlready) + |Requested(items)|
    ensures forall name :: name != FamiliesCreated && name != FamilyAlready ==>
      Count(WriteSpec(st, createSet, soapUrl, items).summary, name) == Count(st.summary, name)
  {
    if |items| > 0 {
      var init := items[..|items| - 1];
      var last := items[|items| - 1];
      WriteAttemptsEvery(st, createSet, soapUrl, init);
      var prev := WriteSpec(st, createSet, soapUrl, init);
      if last.create.Some? {
        RequestEffect(prev, createSet, soapUrl, last);
      } else {
        NoRequestNoEffect(prev, createSet, soapUrl, last);
      }
    }
  }

  /** Every mapping key a batch adds belongs to one of its items that requested a creation. */
  lemma {:induction false} WriteRegistersOnlyRequests(st: SetWriterState, createSet: CreateAttributeSet, soapUrl: string, items: seq<FamilyItem>)
    ensures st.familyMapping.Keys <= WriteSpec(st, createSet, soapUrl, items).familyMapping.Keys
    ensures forall key :: key in WriteSpec(st, createSet, soapUrl, items).familyMapping && key !in st.familyMapping ==>
      exists k :: (0 <= k < |items| && items[k].create.Some? && key == MappingKey(items[k].family, soapUrl))
  {
    if |items| > 0 {
      var init := items[..|items| - 1];
      var last := items[|items| - 1];
      WriteRegistersOnlyRequests(st, createSet, soapUrl, init);
      var prev := WriteSpec(st, createSet, soapUrl, init);
      var r := WriteSpec(st, createSet, soapUrl, items);
      if last.create.Some? {
        RequestEffect(prev, createSet, soapUrl, last);
      }
      forall key | key in r.familyMapping && key !in st.familyMapping
        ensures exists k :: (0 <= k < |items| && items[k].create.Some? && key == MappingKey(items[k].family, soapUrl))
      {
        if key in prev.familyMapping {
          var k :| 0 <= k < |init| && init[k].create.Some? && key == MappingKey(init[k].family, soapUrl);
          assert items[k] == init[k];
        } else {
          assert items[|items| - 1] == last;
        }
      }
    }
  }

  class AttributeSetWriter {
    var summary: Summary
    var familyMapping: Registry
    var soapUrl: string
    // The attribute-set names sent to the remote catalog, in order.
    ghost var requested: seq<string>

    constructor (familyMapping: Registry, soapUrl: string)
      ensures this.summary == map[] && this.requested == []
      ensures this.familyMapping == familyMapping && this.soapUrl == soapUrl
    {
      this.summary := map[];
      this.familyMapping := familyMapping;
      this.soapUrl := soapUrl;
      this.requested := [];
    }

    ghost function State(): SetWriterState
      reads this
    {
      SetWriterState(summary, familyMapping, requested)
    }

    /** `handleNewFamily`: a fault of the creation is returned to the caller. */
    method HandleNewFamily(item: FamilyItem, createSet: CreateAttributeSet) returns (fault: Option<SoapFault>)
      modifies this
      ensures soapUrl == old(soapUrl)
      ensures Step(State(), fault) == HandleNewFamilySpec(old(State()), createSet, soapUrl, item)
    {
      fault := None;
      if item.create.Some? {
        var name := item.create.value;
        requested := requested + [name];
        var created := createSet(name);
        if created.Err? {
          return Some(created.error);
        }
        familyMapping := Register(familyMapping, item.family, created.value, soapUrl);
        summary := Increment(summary, FamiliesCreated);
      }
    }

    /** `write`: every item in order, each creation fault counted as "already in Magento". */
    method Write(items: seq<FamilyItem>, createSet: CreateAttributeSet)
      modifies this
      ensures soapUrl == old(soapUrl)
      ensures State() == WriteSpec(old(State()), createSet, soapUrl, items)
    {
      ghost var st0 := State();
      for i := 0 to |items|
        invariant soapUrl == old(soapUrl)
        invariant State() == WriteSpec(st0, createSet, soapUrl, items[..i])
      {
        var fault := HandleNewFamily(items[i], createSet);
        if fault.Some? {
          summary := Increment(summary, FamilyAlready);
        }
        assert items[..i + 1][..i] == items[..i];
      }
      assert items[..|items|] == items;
    }
  }
}
