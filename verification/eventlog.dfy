/** Event entries and measurement registers, the two views of one history.
    The canonical text of an entry is defined by the event-log component,
    which is not part of this model: it enters as the function `render`. */
module Eventlog {
  import opened HashAlgorithms

  type u64 = x: int | 0 <= x < 0x1_0000_0000_0000_0000

  /** One recordable occurrence. */
  datatype EventEntry = EventEntry(domain: string, operation: string, content: string)

  /** The digest extended for `e`: the chosen algorithm applied to the very
      text that is written to the log. */
  function DigestWith(e: EventEntry, alg: HashAlgorithm, render: EventEntry -> string): Digest
  {
    Hash(alg, render(e))
  }

  /** The measurement registers: each register is the ordered chain of the
      digests extended into it. A register never extended is at its reset
      value, the empty chain. */
  type Registers = map<u64, seq<Digest>>

  function Chain(regs: Registers, index: u64): seq<Digest> {
    if index in regs then regs[index] else []
  }

  /** Extends register `index` with `d`. */
  function Extend(regs: Registers, index: u64, d: Digest): (r: Registers)
    ensures Chain(r, index) == Chain(regs, index) + [d]
    ensures forall j: u64 :: j != index ==> Chain(r, j) == Chain(regs, j)
  {
    regs[index := Chain(regs, index) + [d]]
  }

  /** Extension is order-dependent: two distinct digests extended into the
      same register in opposite orders leave different registers. In this
      model that holds by construction, because a register is the free
      sequence of its digests; it says nothing about how a platform combines
      digests in hardware. */
  lemma ExtendOrderMatters(regs: Registers, index: u64, d1: Digest, d2: Digest)
    requires d1 != d2
    ensures Extend(Extend(regs, index, d1), index, d2) != Extend(Extend(regs, index, d2), index, d1)
  {
    var a := Extend(Extend(regs, index, d1), index, d2);
    var b := Extend(Extend(regs, index, d2), index, d1);
    assert Chain(a, index)[|Chain(a, index)| - 1] == d2;
    assert Chain(b, index)[|Chain(b, index)| - 1] == d1;
  }
}
