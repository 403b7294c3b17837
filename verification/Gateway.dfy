/** The vocabulary of the gateway: modes, errors, replies, and the operation it sends upstream. */
module Gateway {
  import opened Prelude

  datatype Mode = DirectReadOnlyDatabase | StatelessHttp | StatefulMtlsTcp | JetStreamAsync

  datatype GatewayError =
    | Unauthorized | InvalidRequest | NotConfigured | Backpressure | Timeout | Upstream | InvalidResponse

  /** JSON values stay opaque. */
  type Json = string

  datatype GatewayReply =
    | Projection(mode: Mode, data: Json)
    | Accepted(operationId: string)
    | StatusReport(data: Json)

  datatype Outcome = Replied(reply: GatewayReply) | Failed(error: GatewayError) | Cancelled

  const MAX_IN_FLIGHT_OPERATIONS: nat := 64
  const MAX_SUBJECT_BYTES: nat := 256
  const MAX_OPERATION_ID_BYTES: nat := 128
  const DEADLINE_MS: nat := 10_000

  datatype Envelope = Envelope(
    version: nat, operationId: string, subject: string, resource: string,
    deadlineUnixMs: nat, dedupeKey: Option<string>)

  /** What authorizes an operation upstream: the browser's own header, or an HMAC over the envelope.  The HMAC
      is symbolic: it is determined by its key and the envelope it covers. */
  datatype Credential = BrowserBearer(header: string) | Attestation(key: string, envelope: Envelope)

  datatype AuthenticatedOperation = AuthenticatedOperation(credential: Credential, envelope: Envelope)

  /** An identifier together with the mint it came from: the `ticket`-th call of the process counter. */
  datatype Operation = Operation(ticket: nat, now: nat, id: string)

  /** The envelope `operation_envelope` builds around a fresh identifier. */
  function EnvelopeOf(subject: string, mode: Mode, now: nat, id: string): Envelope {
    Envelope(1, id, subject, "youtube_status", now + DEADLINE_MS, if mode == JetStreamAsync then Some(id) else None)
  }

  function BearerOperation(subject: string, header: string, mode: Mode, now: nat, id: string): AuthenticatedOperation {
    AuthenticatedOperation(BrowserBearer(header), EnvelopeOf(subject, mode, now, id))
  }

  function AttestedOperation(subject: string, key: string, now: nat, id: string): AuthenticatedOperation {
    var envelope := EnvelopeOf(subject, JetStreamAsync, now, id);
    AuthenticatedOperation(Attestation(key, envelope), envelope)
  }

  function DedupeId(operationId: string): string {
    "act-operation:" + operationId
  }
}
