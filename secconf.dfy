/** The Secconf interface every cipher engine implements: Encode turns
    plaintext into an envelope for the recipients in a public keyring,
    Decode turns an envelope back into plaintext with the identities in a
    secret keyring.  Both may fail.  The engines themselves (pgp and age)
    are parameters of the model: only the interface is fixed. */
module Secconf {
  import opened Types
  import Keyring

  /** An engine, given by what its two operations compute from the data and
      the key material they read. */
  datatype Engine = Engine(
    encode: (Bytes, Bytes) -> Result<Bytes>,    // (plaintext, public keyring)
    decode: (Bytes, Bytes) -> Result<Bytes>)    // (envelope, secret keyring)

  /** The engines the command line can name. */
  datatype EngineKind = Pgp | Age

  /** The envelope contract of an engine for a matching pair of keyrings:
      whatever Encode produces, Decode gives back.  The model never assumes
      it; it is a hypothesis of the statements that need it. */
  ghost predicate RoundTrips(e: Engine, recipients: Bytes, identities: Bytes)
  {
    forall p :: e.encode(p, recipients).Ok? ==> e.decode(e.encode(p, recipients).value, identities) == Ok(p)
  }

  /** `engine.Decode(data, kr)`: the engine reads the key material from the
      handle's current position to its end. */
  method Decode(e: Engine, data: Bytes, kr: Keyring.Handle) returns (r: Result<Bytes>)
    requires kr.Valid() && kr.isOpen
    modifies kr`offset, kr`history
    ensures kr.Valid() && kr.offset == |kr.data|
    ensures kr.history == old(kr.history) + [old(kr.data[kr.offset..])]
    ensures r == e.decode(data, old(kr.data[kr.offset..]))
  {
    var material := kr.ReadAll();
    r := e.decode(data, material);
  }

  /** `engine.Encode(data, kr)`, reading the key material the same way. */
  method Encode(e: Engine, data: Bytes, kr: Keyring.Handle) returns (r: Result<Bytes>)
    requires kr.Valid() && kr.isOpen
    modifies kr`offset, kr`history
    ensures kr.Valid() && kr.offset == |kr.data|
    ensures kr.history == old(kr.history) + [old(kr.data[kr.offset..])]
    ensures r == e.encode(data, old(kr.data[kr.offset..]))
  {
    var material := kr.ReadAll();
    r := e.encode(data, material);
  }
}
