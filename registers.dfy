/**
 * The register index table of the CPU (src/Defines/Registers.h): twelve
 * general registers R0..R11, each encoded as a one-byte index.
 */
module Registers {
  import opened Numbers

  const R0: byte := 0x00
  const R1: byte := 0x01
  const R2: byte := 0x02
  const R3: byte := 0x03
  const R4: byte := 0x04
  const R5: byte := 0x05
  const R6: byte := 0x06
  const R7: byte := 0x07
  const R8: byte := 0x08
  const R9: byte := 0x09
  const R10: byte := 0x0A
  const R11: byte := 0x0B

  /** The index constants in declaration order. */
  const Indices: seq<byte> := [R0, R1, R2, R3, R4, R5, R6, R7, R8, R9, R10, R11]

  /** The name under which each register is declared, in the same order. */
  const Names: seq<string> :=
    ["R0", "R1", "R2", "R3", "R4", "R5", "R6", "R7", "R8", "R9", "R10", "R11"]

  /**
   * Register `Ri` has index `i`, so the indices are twelve different bytes,
   * all below 12; and its name is `R` followed by `i` in decimal, which makes
   * R10 and R11 the two-digit names of 0x0A and 0x0B.
   */
  lemma RegisterTable(i: nat)
    requires i < 12
    ensures |Indices| == |Names| == 12
    ensures Indices[i] == i
    ensures Names[i] == "R" + NatToDecimal(i)
  {
  }

  lemma RegisterIndicesDistinct()
    ensures forall i, j :: 0 <= i < j < |Indices| ==> Indices[i] != Indices[j]
    ensures forall i :: 0 <= i < |Indices| ==> Indices[i] < 12
  {
    forall i | 0 <= i < |Indices| ensures Indices[i] == i {
      RegisterTable(i);
    }
  }

  /** Every register name starts with `R`. */
  lemma NamesStartWithR(w: string)
    requires w in Names
    ensures |w| > 1 && w[0] == 'R'
  {
  }
}
