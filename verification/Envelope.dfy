// Contract C3: the envelope, the unit of everything a session routes and logs.

module Options {
  datatype Option<+T> = None | Some(value: T)

  datatype Result<+T, +E> = Ok(value: T) | Err(error: E)
}

module Envelopes {
  import opened Options

  /** An envelope id. `Minted(n)` stands for the n-th id drawn from the kernel's
      id source, so two draws never collide with each other or with an id a
      client or a skill chose. `NoId` is the absent (empty) id. */
  datatype Id = NoId | External(name: string) | Minted(n: nat)

  datatype Kind =
    | Data
    | Done
    | Error
    | Status
    | Register
    | ConfirmRequest
    | ConfirmResponse
    | Cancel
    | ConfigUpdate
    | OtherKind(name: string)

  /** An operator's answer to one gate, as carried on the wire (C4 v1.3). */
  datatype ContextEntry = ContextEntry(name: string, digest: string)

  datatype Approval = Approval(
    operator: string,
    pubkey: string,
    envelope: Id,
    decision: string,
    ts: int,
    context: seq<ContextEntry>,
    sig: string)

  const APPROVE := "approve"

  datatype Json =
    | Null
    | Bool(b: bool)
    | Num(n: int)
    | Str(s: string)
    | Arr(items: seq<Json>)
    | Obj(fields: map<string, Json>)

  /** `Value` is a payload that parses as JSON and `Malformed` one that does not.
      The control payloads the kernel itself reads or writes have their own shape. */
  datatype Payload =
    | Absent
    | Malformed(raw: string)
    | Value(json: Json)
    | Answer(approve: bool, approval: Option<Approval>)
    | Question(held: Id, toRef: string, toPort: string)
    | Notice(text: string)
    | Elided

  datatype Envelope = Envelope(
    id: Id,
    cause: Id,
    node: string,
    port: string,
    seqNo: nat,
    idem: string,
    schema: string,
    kind: Kind,
    payload: Payload,
    receipt: Option<nat>,
    attest: string,
    deadline: int,
    priority: int,
    speculative: bool)

  /** The name envelopes give the client where a skill would have its own. */
  const CLIENT := "client"

  /** A graph endpoint, `ref.port`. Endpoint names exclude the separator, so the
      pair and the joined string name the same thing (see Graphs.EndpointKeyInjective). */
  datatype Endpoint = Endpoint(node: string, port: string)

  function Source(e: Envelope): Endpoint {
    Endpoint(e.node, e.port)
  }

  /** An envelope the kernel writes itself: everything not named is absent. */
  function KernelEnvelope(id: Id, cause: Id, node: string, port: string, kind: Kind,
                          schema: string, payload: Payload): Envelope
  {
    Envelope(id, cause, node, port, 0, "", schema, kind, payload, None, "", 0, 0, false)
  }

  /** What a gate answer says: a payload that does not parse says no, unsigned. */
  function DecodeAnswer(p: Payload): (bool, Option<Approval>) {
    match p
    case Answer(approve, approval) => (approve, approval)
    case _ => (false, None)
  }
}
