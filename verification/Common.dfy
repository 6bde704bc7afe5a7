/** Values shared by every part of the model: options, results, envelopes and identifiers. */
module Common {

  datatype Option<+T> = None | Some(value: T)

  datatype Result<+R, +E> = Ok(value: R) | Err(error: E)

  /** A topic or filter name; which strings are allowed is the business of module TopicFilters. */
  type Topic = string
  type TopicFilter = string

  /** A message id is opaque and totally ordered (a UUIDv7 in the program). */
  type MessageId = nat
  type PeerId = nat

  /** The `Publish` shape of an envelope: the only kind a broker routes or stores. */
  datatype Envelope = Envelope(id: MessageId, topic: Topic, payload: seq<bv8>, retain: bool)

  /** The identity access-control lists key on: the fingerprint of a client certificate, or none. */
  datatype Principal = Anonymous | Fingerprint(digest: nat)
}
