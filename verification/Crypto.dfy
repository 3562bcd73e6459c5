/** Ideal cryptography: hashes do not collide, and a signature tells who made it. */
module Crypto {
  import opened Wrappers

  /** The hash of a text; different texts have different hashes. */
  datatype Hash = HashOf(text: string)

  /** Keys are told apart by numbers; a certificate or request names the key it certifies. */
  type Key = nat

  /** A signed request for a certificate. */
  datatype Csr = Csr(key: Key, identities: seq<string>)

  datatype Certificate = Certificate(
    key: Key, identities: seq<string>, signer: Key, isCa: bool, forClients: bool, forServers: bool)

  predicate Verifies(c: Certificate, ca: Certificate) { c.signer == ca.key }

  function IdentityOf(agentId: string): string { "urn:wolnut:agent:" + agentId }
}
