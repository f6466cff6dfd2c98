/** The event log's hash algorithms. The digest itself is kept symbolic: a
    digest records the algorithm and the exact text it was computed over, and
    its length is fixed by the algorithm alone. This is the free
    interpretation of an uninterpreted hash function. */
module HashAlgorithms {

  datatype HashAlgorithm = Sha256 | Sha384 | Sha512

  /** Output length in bytes, as fixed by FIPS 180-4, section 1, Figure 1. */
  function DigestSize(alg: HashAlgorithm): nat {
    match alg
    case Sha256 => 32
    case Sha384 => 48
    case Sha512 => 64
  }

  /** The lower-case name the event log uses for the algorithm. */
  function Name(alg: HashAlgorithm): string {
    match alg
    case Sha256 => "sha256"
    case Sha384 => "sha384"
    case Sha512 => "sha512"
  }

  /** The digest of `preimage` under `alg`. */
  datatype Digest = Digest(alg: HashAlgorithm, preimage: string) {

    /** Length of the digest in bytes: constant per algorithm. */
    function Size(): nat {
      DigestSize(alg)
    }
  }

  /** Computes the digest of `text` under `alg`. */
  function Hash(alg: HashAlgorithm, text: string): (d: Digest)
    ensures d.Size() == DigestSize(alg)
  {
    Digest(alg, text)
  }

  /** The symbolic hash never collides: equal digests come from the same
      algorithm and the same text. */
  lemma HashInjective(a1: HashAlgorithm, t1: string, a2: HashAlgorithm, t2: string)
    ensures Hash(a1, t1) == Hash(a2, t2) <==> a1 == a2 && t1 == t2
  {
  }

  /** `n` hexadecimal zero digits. */
  function ZeroHex(n: nat): (z: string)
    ensures |z| == n
    ensures forall i :: 0 <= i < n ==> z[i] == '0'
  {
    seq(n, _ => '0')
  }
}
