/**
 * The attribute writer: each (attribute, payload) pair becomes an update
 * (a payload of exactly two fields) or a create on the remote catalog,
 * followed by one attach to the attribute set of every family of the
 * attribute. A create registers the new remote id; an attach fault only
 * counts; a create or update fault stops the whole batch.
 */
module AttributeWriter {
  import opened Common

  const AttributeUpdateSize := 2
  const AttributesUpdated := "Attributes updated"
  const AttributesCreated := "Attributes created"
  const AttributeAlready := "Attribute already in magento"

  /** A local attribute: its code and the codes of the families that use it. */
  datatype Attribute = Attribute(code: string, families: seq<string>)

  /** One item of a batch: the attribute and its normalised payload. */
  datatype AttributeItem = AttributeItem(attribute: Attribute, payload: Payload)

  /** A call made on the remote catalog. */
  datatype RemoteCall =
    | UpdateAttribute(payload: Payload)
    | CreateAttribute(payload: Payload)
    | AddToAttributeSet(attributeId: Option<int>, attributeSetId: Option<int>)

  /** How the remote catalog answers each call. */
  datatype Remote = Remote(
    updateAttribute: Payload -> Outcome<SoapFault>,
    createAttribute: Payload -> Result<int, SoapFault>,
    addToAttributeSet: (Option<int>, Option<int>) -> Outcome<SoapFault>)

  /** What the writer reads but never changes: the remote, the family mapping and the endpoint URL. */
  datatype WriterEnv = WriterEnv(remote: Remote, familyMapping: Registry, soapUrl: string)

  /** What the writer changes: the counters, the attribute mapping, and the calls made so far. */
  datatype WriterState = WriterState(summary: Summary, attributeMapping: Registry, calls: seq<RemoteCall>)

  /** The state after handling one attribute, and the create or update fault that stopped it, if any. */
  datatype Step = Step(state: WriterState, fault: Option<SoapFault>)

  /** The item error raised for a failing pair. */
  datatype InvalidItem = InvalidItem(message: string, item: AttributeItem)

  datatype WriteOutcome = WriteOutcome(state: WriterState, error: Option<InvalidItem>)

  /** The attach call for one family: the remote id of the attribute and the mapped remote id of the family. */
  function AttachCall(env: WriterEnv, attributeId: Option<int>, family: string): RemoteCall
  {
    AddToAttributeSet(attributeId, Lookup(env.familyMapping, family, env.soapUrl))
  }

  predicate AttachFails(env: WriterEnv, attributeId: Option<int>, family: string)
  {
    env.remote.addToAttributeSet(attributeId, Lookup(env.familyMapping, family, env.soapUrl)).Fail?
  }

  /** How many of the families' attaches fault. */
  function FailedAttaches(env: WriterEnv, attributeId: Option<int>, families: seq<string>): (n: nat)
    ensures n <= |families|
  {
    if |families| == 0 then 0
    else FailedAttaches(env, attributeId, families[..|families| - 1])
         + (if AttachFails(env, attributeId, families[|families| - 1]) then 1 else 0)
  }

  /** No attach faults exactly when every family's attach succeeds; all fault exactly when every one fails. */
  lemma {:induction false} FailedAttachesNone(env: WriterEnv, attributeId: Option<int>, families: seq<string>)
    ensures FailedAttaches(env, attributeId, families) == 0 <==>
      forall k :: 0 <= k < |families| ==> !AttachFails(env, attributeId, families[k])
    ensures FailedAttaches(env, attributeId, families) == |families| <==>
      forall k :: 0 <= k < |families| ==> AttachFails(env, attributeId, families[k])
  {
    if |families| > 0 {
      var init := families[..|families| - 1];
      FailedAttachesNone(env, attributeId, init);
      assert forall k :: 0 <= k < |init| ==> init[k] == families[k];
    }
  }

  function AttachOne(st: WriterState, env: WriterEnv, attributeId: Option<int>, family: string): WriterState
  {
    var called := st.(calls := st.calls + [AttachCall(env, attributeId, family)]);
    if AttachFails(env, attributeId, family) then called.(summary := Increment(st.summary, AttributeAlready))
    else called
  }

  /** `addAttributeToAttributeSet`: attach to every family's set in order, counting the faults. */
  function AttachSpec(st: WriterState, env: WriterEnv, attributeId: Option<int>, families: seq<string>): (r: WriterState)
    ensures r.attributeMapping == st.attributeMapping
    ensures |r.calls| == |st.calls| + |families|
  {
    if |families| == 0 then st
    else AttachOne(AttachSpec(st, env, attributeId, families[..|families| - 1]), env, attributeId, families[|families| - 1])
  }

  /** The call `handleAttribute` makes first: an update for a two-field payload, a create otherwise. */
  function FirstCall(payload: Payload): RemoteCall
  {
    if |payload| == AttributeUpdateSize then UpdateAttribute(payload) else CreateAttribute(payload)
  }

  /** `handleAttribute`: update or create, then attach; a fault of the update or create ends it, before any attach. */
  function HandleSpec(st: WriterState, env: WriterEnv, item: AttributeItem): (r: Step)
    ensures |r.state.calls| > |st.calls|
    ensures r.fault.Some? ==> r.state == st.(calls := st.calls + [FirstCall(item.payload)])
  {
    var attribute := item.attribute;
    if |item.payload| == AttributeUpdateSize then
      var called := st.(calls := st.calls + [UpdateAttribute(item.payload)]);
      match env.remote.updateAttribute(item.payload)
      case Fail(f) => Step(called, Some(f))
      case Pass =>
        var id := Lookup(called.attributeMapping, attribute.code, env.soapUrl);
        var attached := AttachSpec(called, env, id, attribute.families);
        Step(attached.(summary := Increment(attached.summary, AttributesUpdated)), None)
    else
      var called := st.(calls := st.calls + [CreateAttribute(item.payload)]);
      match env.remote.createAttribute(item.payload)
      case Err(f) => Step(called, Some(f))
      case Ok(id) =>
        var attached := AttachSpec(called, env, Some(id), attribute.families);
        Step(attached.(summary := Increment(attached.summary, AttributesCreated),
                       attributeMapping := Register(attached.attributeMapping, attribute.code, id, env.soapUrl)), None)
  }

  /** `write`: handle the pairs in order; the first fault becomes an item error and ends the batch. */
  function WriteSpec(st: WriterState, env: WriterEnv, items: seq<AttributeItem>): (r: WriteOutcome)
    ensures r.error.None? ==> |r.state.calls| >= |st.calls| + |items|
  {
    if |items| == 0 then WriteOutcome(st, None)
    else
      var prev := WriteSpec(st, env, items[..|items| - 1]);
      if prev.error.Some? then prev
      else
        var last := items[|items| - 1];
        var step := HandleSpec(prev.state, env, last);
        WriteOutcome(step.state, if step.fault.Some? then Some(InvalidItem(step.fault.value.message, last)) else None)
  }

  /** The number of attributes the summary reports as handled. */
  function Handled(s: Summary): nat
  {
    Count(s, AttributesUpdated) + Count(s, AttributesCreated)
  }

  /**
   * Attaching makes one call per family, in order, with that family's
   * mapped id; each fault adds one to "Attribute already in magento" and
   * nothing else changes.
   */
  lemma {:induction false} AttachEffect(st: WriterState, env: WriterEnv, attributeId: Option<int>, families: seq<string>)
    ensures AttachSpec(st, env, attributeId, families).calls[..|st.calls|] == st.calls
    ensures forall k :: 0 <= k < |families| ==>
      AttachSpec(st, env, attributeId, families).calls[|st.calls| + k] == AttachCall(env, attributeId, families[k])
    ensures Count(AttachSpec(st, env, attributeId, families).summary, AttributeAlready) ==
      Count(st.summary, AttributeAlready) + FailedAttaches(env, attributeId, families)
    ensures forall name :: name != AttributeAlready ==>
      Count(AttachSpec(st, env, attributeId, families).summary, name) == Count(st.summary, name)
  {
    if |families| > 0 {
      var init := families[..|families| - 1];
      AttachEffect(st, env, attributeId, init);
      var p := AttachSpec(st, env, attributeId, init);
      var r := AttachSpec(st, env, attributeId, families);
      assert r == AttachOne(p, env, attributeId, families[|families| - 1]);
      forall k | 0 <= k < |families|
        ensures r.calls[|st.calls| + k] == AttachCall(env, attributeId, families[k])
      {
        if k < |init| {
          assert r.calls[|st.calls| + k] == p.calls[|st.calls| + k];
          assert init[k] == families[k];
        }
      }
      assert r.calls[..|st.calls|] == p.calls[..|st.calls|];
    }
  }

  /**
   * A payload of exactly two fields is an update: no create call, no new
   * mapping; the attach uses the registered id of the attribute, and a
   * success adds one to "Attributes updated" only.
   */
  lemma UpdatePath(st: WriterState, env: WriterEnv, item: AttributeItem)
    requires |item.payload| == AttributeUpdateSize
    ensures HandleSpec(st, env, item).state.calls[..|st.calls| + 1] == st.calls + [UpdateAttribute(item.payload)]
    ensures forall k :: |st.calls| <= k < |HandleSpec(st, env, item).state.calls| ==>
      !HandleSpec(st, env, item).state.calls[k].CreateAttribute?
    ensures HandleSpec(st, env, item).state.attributeMapping == st.attributeMapping
    ensures HandleSpec(st, env, item).fault.Some? <==> env.remote.updateAttribute(item.payload).Fail?
    ensures HandleSpec(st, env, item).fault.None? ==>
      && |HandleSpec(st, env, item).state.calls| == |st.calls| + 1 + |item.attribute.families|
      && (forall k :: 0 <= k < |item.attribute.families| ==>
            HandleSpec(st, env, item).state.calls[|st.calls| + 1 + k] ==
              AttachCall(env, Lookup(st.attributeMapping, item.attribute.code, env.soapUrl), item.attribute.families[k]))
      && Count(HandleSpec(st, env, item).state.summary, AttributesUpdated) == Count(st.summary, AttributesUpdated) + 1
      && Count(HandleSpec(st, env, item).state.summary, AttributesCreated) == Count(st.summary, AttributesCreated)
  {
    var called := st.(calls := st.calls + [UpdateAttribute(item.payload)]);
    var id := Lookup(st.attributeMapping, item.attribute.code, env.soapUrl);
    AttachEffect(called, env, id, item.attribute.families);
    var r := HandleSpec(st, env, item);
    if env.remote.updateAttribute(item.payload).Pass? {
      var attached := AttachSpec(called, env, id, item.attribute.families);
      assert r.state == attached.(summary := Increment(attached.summary, AttributesUpdated));
      forall k | |st.calls| <= k < |r.state.calls|
        ensures !r.state.calls[k].CreateAttribute?
      {
        if k > |st.calls| {
          assert r.state.calls[|called.calls| + (k - |called.calls|)] == AttachCall(env, id, item.attribute.families[k - |called.calls|]);
        } else {
          assert r.state.calls[..|called.calls|] == called.calls;
          assert r.state.calls[k] == called.calls[k];
        }
      }
      assert r.state.calls[..|st.calls| + 1] == called.calls;
    } else {
      assert r.state == called;
    }
  }

  /**
   * Any other payload is a create: the create call comes first, and on a
   * fault nothing is registered or counted.
   */
  lemma CreatePath(st: WriterState, env: WriterEnv, item: AttributeItem)
    requires |item.payload| != AttributeUpdateSize
    ensures HandleSpec(st, env, item).state.calls[..|st.calls| + 1] == st.calls + [CreateAttribute(item.payload)]
    ensures HandleSpec(st, env, item).fault.Some? <==> env.remote.createAttribute(item.payload).Err?
  {
    var called := st.(calls := st.calls + [CreateAttribute(item.payload)]);
    var r := HandleSpec(st, env, item);
    if env.remote.createAttribute(item.payload).Ok? {
      var id := env.remote.createAttribute(item.payload).value;
      AttachEffect(called, env, Some(id), item.attribute.families);
      assert r.state.calls[..|st.calls| + 1] == called.calls;
    } else {
      assert r.state == called;
    }
  }

  /**
   * A successful create: the returned id is what the attach uses and what
   * the mapping registers for the attribute, and "Attributes created"
   * alone of the two handled counters goes up by one.
   */
  lemma CreateSuccess(st: WriterState, env: WriterEnv, item: AttributeItem)
    requires |item.payload| != AttributeUpdateSize && env.remote.createAttribute(item.payload).Ok?
    ensures HandleSpec(st, env, item).fault.None?
    ensures
      var id := env.remote.createAttribute(item.payload).value;
      && HandleSpec(st, env, item).state.attributeMapping == Register(st.attributeMapping, item.attribute.code, id, env.soapUrl)
      && |HandleSpec(st, env, item).state.calls| == |st.calls| + 1 + |item.attribute.families|
      && (forall k :: 0 <= k < |item.attribute.families| ==>
            HandleSpec(st, env, item).state.calls[|st.calls| + 1 + k] == AttachCall(env, Some(id), item.attribute.families[k]))
      && Count(HandleSpec(st, env, item).state.summary, AttributesCreated) == Count(st.summary, AttributesCreated) + 1
      && Count(HandleSpec(st, env, item).state.summary, AttributesUpdated) == Count(st.summary, AttributesUpdated)
  {
    var called := st.(calls := st.calls + [CreateAttribute(item.payload)]);
    var id := env.remote.createAttribute(item.payload).value;
    var attached := AttachSpec(called, env, Some(id), item.attribute.families);
    AttachEffect(called, env, Some(id), item.attribute.families);
    assert HandleSpec(st, env, item).state == attached.(summary := Increment(attached.summary, AttributesCreated),
      attributeMapping := Register(attached.attributeMapping, item.attribute.code, id, env.soapUrl));
  }

  /** Handling one attribute without a fault adds exactly one to the handled count. */
  lemma HandleCounts(st: WriterState, env: WriterEnv, item: AttributeItem)
    ensures HandleSpec(st, env, item).fault.None? ==>
      Handled(HandleSpec(st, env, item).state.summary) == Handled(st.summary) + 1
  {
    if |item.payload| == AttributeUpdateSize {
      UpdatePath(st, env, item);
    } else if env.remote.createAttribute(item.payload).Ok? {
      CreateSuccess(st, env, item);
    }
  }

  /** Handling one attribute adds at most one "already" per family: only a faulting attach counts. */
  lemma HandleAlreadyBound(st: WriterState, env: WriterEnv, item: AttributeItem)
    ensures Count(HandleSpec(st, env, item).state.summary, AttributeAlready) <=
      Count(st.summary, AttributeAlready) + |item.attribute.families|
  {
    var r := HandleSpec(st, env, item);
    if |item.payload| == AttributeUpdateSize {
      var called := st.(calls := st.calls + [UpdateAttribute(item.payload)]);
      if env.remote.updateAttribute(item.payload).Pass? {
        var id := Lookup(st.attributeMapping, item.attribute.code, env.soapUrl);
        var attached := AttachSpec(called, env, id, item.attribute.families);
        AttachEffect(called, env, id, item.attribute.families);
        assert r.state.summary == Increment(attached.summary, AttributesUpdated);
      }
    } else {
      var called := st.(calls := st.calls + [CreateAttribute(item.payload)]);
      if env.remote.createAttribute(item.payload).Ok? {
        var id := env.remote.createAttribute(item.payload).value;
        var attached := AttachSpec(called, env, Some(id), item.attribute.families);
        AttachEffect(called, env, Some(id), item.attribute.families);
        assert r.state.summary == Increment(attached.summary, AttributesCreated);
      }
    }
  }

  /** Once a batch prefix has failed, the items after it change nothing. */
  lemma {:induction false} WriteStopsAtFault(st: WriterState, env: WriterEnv, xs: seq<AttributeItem>, ys: seq<AttributeItem>)
    requires WriteSpec(st, env, xs).error.Some?
    ensures WriteSpec(st, env, xs + ys) == WriteSpec(st, env, xs)
    decreases |ys|
  {
    if |ys| == 0 {
      assert xs + ys == xs;
    } else {
      var init := ys[..|ys| - 1];
      WriteStopsAtFault(st, env, xs, init);
      assert (xs + ys)[..|xs + ys| - 1] == xs + init;
    }
  }

  /** Writing one more pair after an error-free prefix handles that pair. */
  lemma WriteStep(st: WriterState, env: WriterEnv, items: seq<AttributeItem>, i: nat)
    requires i < |items| && WriteSpec(st, env, items[..i]).error.None?
    ensures WriteSpec(st, env, items[..i + 1]) ==
      var step := HandleSpec(WriteSpec(st, env, items[..i]).state, env, items[i]);
      WriteOutcome(step.state, if step.fault.Some? then Some(InvalidItem(step.fault.value.message, items[i])) else None)
  {
    assert items[..i + 1][..i] == items[..i];
  }

  /** A create or update fault on the pair after an error-free prefix is the error of the whole batch. */
  lemma WriteFault(st: WriterState, env: WriterEnv, items: seq<AttributeItem>, i: nat)
    requires i < |items| && WriteSpec(st, env, items[..i]).error.None?
    requires HandleSpec(WriteSpec(st, env, items[..i]).state, env, items[i]).fault.Some?
    ensures WriteSpec(st, env, items) ==
      var step := HandleSpec(WriteSpec(st, env, items[..i]).state, env, items[i]);
      WriteOutcome(step.state, Some(InvalidItem(step.fault.value.message, items[i])))
  {
    var head, rest := items[..i + 1], items[i + 1..];
    assert head[..i] == items[..i];
    WriteStopsAtFault(st, env, head, rest);
    assert head + rest == items;
  }

  /**
   * A batch without error handles every attribute; a failing batch carries
   * one of its items, and exactly the items before it were handled.
   */
  lemma {:induction false} WriteHandledCount(st: WriterState, env: WriterEnv, items: seq<AttributeItem>)
    ensures WriteSpec(st, env, items).error.None? ==>
      Handled(WriteSpec(st, env, items).state.summary) == Handled(st.summary) + |items|
    ensures WriteSpec(st, env, items).error.Some? ==>
      exists k :: 0 <= k < |items| && WriteSpec(st, env, items).error.value.item == items[k] &&
        Handled(WriteSpec(st, env, items).state.summary) == Handled(st.summary) + k
  {
    if |items| > 0 {
      var init := items[..|items| - 1];
      WriteHandledCount(st, env, init);
      var prev := WriteSpec(st, env, init);
      if prev.error.Some? {
        var k :| 0 <= k < |init| && prev.error.value.item == init[k] &&
          Handled(prev.state.summary) == Handled(st.summary) + k;
        assert items[k] == init[k];
      } else {
        HandleCounts(prev.state, env, items[|items| - 1]);
      }
    }
  }

  /** Every mapping key a batch adds is the key of one of its items whose payload is a create. */
  lemma {:induction false} WriteRegistersOnlyCreates(st: WriterState, env: WriterEnv, items: seq<AttributeItem>)
    ensures st.attributeMapping.Keys <= WriteSpec(st, env, items).state.attributeMapping.Keys
    ensures forall key :: key in WriteSpec(st, env, items).state.attributeMapping && key !in st.attributeMapping ==>
      exists k :: 0 <= k < |items| && |items[k].payload| != AttributeUpdateSize &&
        key == MappingKey(items[k].attribute.code, env.soapUrl)
  {
    if |items| > 0 {
      var init := items[..|items| - 1];
      WriteRegistersOnlyCreates(st, env, init);
      var prev := WriteSpec(st, env, init);
      if prev.error.None? {
        var last := items[|items| - 1];
        var r := WriteSpec(st, env, items);
        if |last.payload| == AttributeUpdateSize {
          UpdatePath(prev.state, env, last);
        } else {
          CreatePath(prev.state, env, last);
          if env.remote.createAttribute(last.payload).Ok? {
            CreateSuccess(prev.state, env, last);
          }
        }
        forall key | key in r.state.attributeMapping && key !in st.attributeMapping
          ensures exists k :: (0 <= k < |items| && |items[k].payload| != AttributeUpdateSize &&
                                key == MappingKey(items[k].attribute.code, env.soapUrl))
        {
          if key in prev.state.attributeMapping {
            var k :| 0 <= k < |init| && |init[k].payload| != AttributeUpdateSize &&
              key == MappingKey(init[k].attribute.code, env.soapUrl);
            assert items[k] == init[k];
          } else {
            assert key == MappingKey(last.attribute.code, env.soapUrl);
          }
        }
      }
    }
  }

  class AttributeWriter {
    // The attribute being written; set before each item is handled.
    var attribute: Option<Attribute>
    var summary: Summary
    var attributeMapping: Registry
    var familyMapping: Registry
    var soapUrl: string
    // The calls made on the remote catalog, in order.
    ghost var log: seq<RemoteCall>

    constructor (familyMapping: Registry, attributeMapping: Registry, soapUrl: string)
      ensures this.attribute == None && this.summary == map[] && this.log == []
      ensures this.familyMapping == familyMapping && this.attributeMapping == attributeMapping && this.soapUrl == soapUrl
    {
      this.attribute := None;
      this.summary := map[];
      this.attributeMapping := attributeMapping;
      this.familyMapping := familyMapping;
      this.soapUrl := soapUrl;
      this.log := [];
    }

    ghost function State(): WriterState
      reads this
    {
      WriterState(summary, attributeMapping, log)
    }

    function Env(remote: Remote): WriterEnv
      reads this
    {
      WriterEnv(remote, familyMapping, soapUrl)
    }

    /** `addAttributeToAttributeSet`: one attach per family of the current attribute. */
    method AddAttributeToAttributeSet(attributeId: Option<int>, remote: Remote)
      requires attribute.Some?
      modifies this
      ensures attribute == old(attribute) && familyMapping == old(familyMapping) && soapUrl == old(soapUrl)
      ensures State() == AttachSpec(old(State()), old(Env(remote)), attributeId, attribute.value.families)
    {
      var families := attribute.value.families;
      ghost var st0 := State();
      var i := 0;
      while i < |families|
        invariant 0 <= i <= |families|
        invariant attribute == old(attribute) && familyMapping == old(familyMapping) && soapUrl == old(soapUrl)
        invariant State() == AttachSpec(st0, Env(remote), attributeId, families[..i])
      {
        var setId := Lookup(familyMapping, families[i], soapUrl);
        log := log + [AddToAttributeSet(attributeId, setId)];
        var outcome := remote.addToAttributeSet(attributeId, setId);
        if outcome.Fail? {
          summary := Increment(summary, AttributeAlready);
        }
        assert families[..i + 1][..i] == families[..i];
        i := i + 1;
      }
      assert families[..|families|] == families;
    }

    /** `handleAttribute`: update or create the current attribute, then attach it. */
    method HandleAttribute(payload: Payload, remote: Remote) returns (fault: Option<SoapFault>)
      requires attribute.Some?
      modifies this
      ensures attribute == old(attribute) && familyMapping == old(familyMapping) && soapUrl == old(soapUrl)
      ensures Step(State(), fault) == HandleSpec(old(State()), old(Env(remote)), AttributeItem(attribute.value, payload))
    {
      if |payload| == AttributeUpdateSize {
        log := log + [UpdateAttribute(payload)];
        var outcome := remote.updateAttribute(payload);
        if outcome.Fail? {
          return Some(outcome.error);
        }
        var id := Lookup(attributeMapping, attribute.value.code, soapUrl);
        AddAttributeToAttributeSet(id, remote);
        summary := Increment(summary, AttributesUpdated);
      } else {
        log := log + [CreateAttribute(payload)];
        var created := remote.createAttribute(payload);
        if created.Err? {
          return Some(created.error);
        }
        AddAttributeToAttributeSet(Some(created.value), remote);
        summary := Increment(summary, AttributesCreated);
        attributeMapping := Register(attributeMapping, attribute.value.code, created.value, soapUrl);
      }
      fault := None;
    }

    /** `write`: handle each pair in order; the first create or update fault ends the batch with an item error. */
    method Write(items: seq<AttributeItem>, remote: Remote) returns (error: Option<InvalidItem>)
      modifies this
      ensures WriteOutcome(State(), error) == WriteSpec(old(State()), old(Env(remote)), items)
      ensures familyMapping == old(familyMapping) && soapUrl == old(soapUrl)
      ensures error.Some? ==> attribute == Some(error.value.item.attribute)
    {
      ghost var st0 := State();
      ghost var env := Env(remote);
      var i := 0;
      while i < |items|
        invariant 0 <= i <= |items|
        invariant familyMapping == old(familyMapping) && soapUrl == old(soapUrl)
        invariant WriteSpec(st0, env, items[..i]) == WriteOutcome(State(), None)
      {
        var item := items[i];
        ghost var before := State();
        attribute := Some(item.attribute);
        var fault := HandleAttribute(item.payload, remote);
        assert Step(State(), fault) == HandleSpec(before, env, item);
        if fault.Some? {
          WriteFault(st0, env, items, i);
          error := Some(InvalidItem(fault.value.message, item));
          return;
        }
        WriteStep(st0, env, items, i);
        i := i + 1;
      }
      assert items[..|items|] == items;
      error := None;
    }
  }
}
