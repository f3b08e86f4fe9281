/**
 * Shared vocabulary of the connector model: failure-carrying wrappers,
 * the batch summary counters and the identifier-mapping registry that
 * both remote writers consult.
 */
module Common {

  datatype Option<+T> = None | Some(value: T)

  datatype Result<+T, +E> = Ok(value: T) | Err(error: E)

  /** The outcome of a remote call that returns nothing: it passes or faults. */
  datatype Outcome<+E> = Pass | Fail(error: E)

  /** A fault raised by the remote SOAP endpoint (a `SoapCallException`). */
  datatype SoapFault = SoapFault(message: string)

  /** A wire-format record, as built by the normaliser or sent to the remote catalog. */
  type Payload = map<string, string>

  // ---------------------------------------------------------------------
  // Summary counters of a step execution (`incrementSummaryInfo`)
  // ---------------------------------------------------------------------

  type Summary = map<string, nat>

  /** The value of a counter; a counter never incremented reads as zero. */
  function Count(s: Summary, name: string): nat
  {
    if name in s then s[name] else 0
  }

  /** `incrementSummaryInfo(name)`: one more for `name`, every other counter kept. */
  function Increment(s: Summary, name: string): (r: Summary)
    ensures Count(r, name) == Count(s, name) + 1
    ensures forall other :: other != name ==> Count(r, other) == Count(s, other)
  {
    s[name := Count(s, name) + 1]
  }

  // ---------------------------------------------------------------------
  // Identifier mapping registry: (local code, endpoint) -> remote id
  // ---------------------------------------------------------------------

  /** A registry row is keyed by the local code and the SOAP URL of the endpoint. */
  datatype MappingKey = MappingKey(code: string, soapUrl: string)

  type Registry = map<MappingKey, int>

  /** `getIdFrom…(code, soapUrl)`: the registered remote id, or None when nothing is registered. */
  function Lookup(reg: Registry, code: string, soapUrl: string): (r: Option<int>)
    ensures r.Some? <==> MappingKey(code, soapUrl) in reg
    ensures r.Some? ==> r.value == reg[MappingKey(code, soapUrl)]
  {
    var key := MappingKey(code, soapUrl);
    if key in reg then Some(reg[key]) else None
  }

  /** `register…Mapping(code, id, soapUrl)`: afterwards the key reads back `id`, every other key as before. */
  function Register(reg: Registry, code: string, id: int, soapUrl: string): (r: Registry)
    ensures Lookup(r, code, soapUrl) == Some(id)
    ensures forall c, u :: (c, u) != (code, soapUrl) ==> Lookup(r, c, u) == Lookup(reg, c, u)
    ensures r.Keys == reg.Keys + {MappingKey(code, soapUrl)}
  {
    reg[MappingKey(code, soapUrl) := id]
  }
}
