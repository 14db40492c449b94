/** Chunk addressing: when the density matrix is split into chunks, which chunks a
    controlled gate touches (the row and column control masks of `apply_gate`),
    and how qubit lists are renumbered for the local buffer (`apply_gate` and
    `apply_diagonal_unitary_matrix`).

    A density-matrix chunk holds local qubits 0 .. nq-1 for the row (ket) index
    and nq .. 2nq-1 for the column (bra) index. Its chunk index carries the row
    side's global bits in its low ng-nq bits and the column side's above them. */
module ChunkAddressing {
  import opened Common
  import opened Bits
  import opened Operations

  /** The name test `op.name[0] == 'c' || op.name.find("mc") == 0`. */
  predicate IsControlName(name: string) {
    (|name| > 0 && name[0] == 'c') || (|name| >= 2 && name[..2] == "mc")
  }

  predicate AllAtLeast(qs: seq<nat>, n: nat) {
    forall i :: 0 <= i < |qs| ==> n <= qs[i]
  }

  /** The mask `OR of 1 << (q - nq)` over the global control qubits, folded from
      the left as the loop does. */
  function MaskOf(qubitsOut: seq<nat>, nq: nat): nat
    requires AllAtLeast(qubitsOut, nq)
  {
    if qubitsOut == [] then 0
    else BitOr(MaskOf(qubitsOut[..|qubitsOut| - 1], nq), Pow2(qubitsOut[|qubitsOut| - 1] - nq))
  }

  /** Some global control qubit sits at chunk bit k. */
  ghost predicate ControlAt(qubitsOut: seq<nat>, nq: nat, k: nat)
    requires AllAtLeast(qubitsOut, nq)
  {
    exists i :: 0 <= i < |qubitsOut| && qubitsOut[i] - nq == k
  }

  /** Bit k of the mask is set exactly when some control qubit maps to bit k. */
  lemma {:induction false} MaskBits(qubitsOut: seq<nat>, nq: nat, k: nat)
    requires AllAtLeast(qubitsOut, nq)
    ensures TestBit(MaskOf(qubitsOut, nq), k) <==> ControlAt(qubitsOut, nq, k)
  {
    if qubitsOut == [] {
      ZeroHasNoBits(k);
    } else {
      var n := |qubitsOut| - 1;
      var front := qubitsOut[..n];
      MaskBits(front, nq, k);
      BitOrBit(MaskOf(front, nq), Pow2(qubitsOut[n] - nq), k);
      Pow2Bit(qubitsOut[n] - nq, k);
      if ControlAt(front, nq, k) {
        var i :| 0 <= i < n && front[i] - nq == k;
        assert qubitsOut[i] - nq == k;
      }
      if ControlAt(qubitsOut, nq, k) {
        var i :| 0 <= i < |qubitsOut| && qubitsOut[i] - nq == k;
        if i < n {
          assert front[i] - nq == k;
        }
      }
    }
  }

  /** The mask-building loop of `apply_gate`. */
  method ChunkMask(qubitsOut: seq<nat>, nq: nat) returns (mask: nat)
    requires AllAtLeast(qubitsOut, nq)
    ensures mask == MaskOf(qubitsOut, nq)
    ensures forall k: nat :: TestBit(mask, k) <==> ControlAt(qubitsOut, nq, k)
  {
    mask := 0;
    var i := 0;
    while i < |qubitsOut|
      invariant 0 <= i <= |qubitsOut|
      invariant mask == MaskOf(qubitsOut[..i], nq)
    {
      assert qubitsOut[..i + 1][..i] == qubitsOut[..i];
      mask := BitOr(mask, Pow2(qubitsOut[i] - nq));
      i := i + 1;
    }
    assert qubitsOut[..i] == qubitsOut;
    forall k: nat
      ensures TestBit(mask, k) <==> ControlAt(qubitsOut, nq, k)
    {
      MaskBits(qubitsOut, nq, k);
    }
  }

  /** `(chunk_index & mask) == mask`: the row side of this chunk is active. */
  predicate RowActive(chunkIndex: nat, mask: nat) {
    BitAnd(chunkIndex, mask) == mask
  }

  /** `((chunk_index >> (ng - nq)) & mask) == mask`: the column side is active. */
  predicate ColumnActive(chunkIndex: nat, mask: nat, ng: nat, nq: nat)
    requires nq <= ng
  {
    BitAnd(ShiftRight(chunkIndex, ng - nq), mask) == mask
  }

  /** Every global control qubit is 1 in the row-side bits of the chunk index. */
  ghost predicate ControlsSetOnRow(chunkIndex: nat, qubitsOut: seq<nat>, nq: nat)
    requires AllAtLeast(qubitsOut, nq)
  {
    forall i :: 0 <= i < |qubitsOut| ==> TestBit(chunkIndex, qubitsOut[i] - nq)
  }

  /** Every global control qubit is 1 in the column-side bits of the chunk index. */
  ghost predicate ControlsSetOnColumn(chunkIndex: nat, qubitsOut: seq<nat>, nq: nat, ng: nat)
    requires AllAtLeast(qubitsOut, nq) && nq <= ng
  {
    forall i :: 0 <= i < |qubitsOut| ==> TestBit(chunkIndex, qubitsOut[i] - nq + (ng - nq))
  }

  lemma MaskWithin(x: nat, qubitsOut: seq<nat>, nq: nat)
    requires AllAtLeast(qubitsOut, nq)
    ensures BitsWithin(MaskOf(qubitsOut, nq), x) <==>
            forall i :: 0 <= i < |qubitsOut| ==> TestBit(x, qubitsOut[i] - nq)
  {
    var m := MaskOf(qubitsOut, nq);
    if BitsWithin(m, x) {
      forall i | 0 <= i < |qubitsOut|
        ensures TestBit(x, qubitsOut[i] - nq)
      {
        MaskBits(qubitsOut, nq, qubitsOut[i] - nq);
      }
    }
    if forall i :: 0 <= i < |qubitsOut| ==> TestBit(x, qubitsOut[i] - nq) {
      forall k: nat | TestBit(m, k)
        ensures TestBit(x, k)
      {
        MaskBits(qubitsOut, nq, k);
      }
    }
  }

  /** The row test of `apply_gate` accepts the chunk exactly when all its global
      controls are set on the row side. */
  lemma RowActiveIff(chunkIndex: nat, qubitsOut: seq<nat>, nq: nat)
    requires AllAtLeast(qubitsOut, nq)
    ensures RowActive(chunkIndex, MaskOf(qubitsOut, nq)) <==> ControlsSetOnRow(chunkIndex, qubitsOut, nq)
  {
    CoversMask(chunkIndex, MaskOf(qubitsOut, nq));
    MaskWithin(chunkIndex, qubitsOut, nq);
  }

  /** The column test of `apply_gate` accepts the chunk exactly when all its
      global controls are set on the column side. */
  lemma ColumnActiveIff(chunkIndex: nat, qubitsOut: seq<nat>, nq: nat, ng: nat)
    requires AllAtLeast(qubitsOut, nq) && nq <= ng
    ensures ColumnActive(chunkIndex, MaskOf(qubitsOut, nq), ng, nq) <==>
            ControlsSetOnColumn(chunkIndex, qubitsOut, nq, ng)
  {
    var shifted := ShiftRight(chunkIndex, ng - nq);
    CoversMask(shifted, MaskOf(qubitsOut, nq));
    MaskWithin(shifted, qubitsOut, nq);
    forall i | 0 <= i < |qubitsOut|
      ensures TestBit(shifted, qubitsOut[i] - nq) == TestBit(chunkIndex, qubitsOut[i] - nq + (ng - nq))
    {
      ShiftRightBit(chunkIndex, ng - nq, qubitsOut[i] - nq);
    }
  }

  /** Every qubit of the list moved up by `offset`. */
  function Shifted(qs: seq<nat>, offset: nat): (r: seq<nat>)
    ensures |r| == |qs|
  {
    seq(|qs|, i requires 0 <= i < |qs| => qs[i] + offset)
  }

  /** The in-place loop `new_op.qubits[i] += num_qubits` of `apply_gate`, which moves
      a local op from the row (ket) qubits to the column (bra) qubits. */
  method OffsetQubits(qs: seq<nat>, offset: nat) returns (r: seq<nat>)
    ensures r == Shifted(qs, offset)
    ensures AllBelow(qs, offset) ==> forall i :: 0 <= i < |r| ==> offset <= r[i] < 2 * offset
  {
    r := qs;
    var i := 0;
    while i < |r|
      invariant 0 <= i <= |r| && |r| == |qs|
      invariant forall j :: 0 <= j < i ==> r[j] == qs[j] + offset
      invariant forall j :: i <= j < |r| ==> r[j] == qs[j]
    {
      r := r[i := r[i] + offset];
      i := i + 1;
    }
  }

  /** `qubits_row` of `apply_diagonal_unitary_matrix`: global qubits moved up by
      ng - nq, local qubits unchanged. */
  function RowQubitsOf(qubits: seq<nat>, nq: nat, ng: nat): (r: seq<nat>)
    requires nq <= ng
    ensures |r| == |qubits|
  {
    seq(|qubits|, i requires 0 <= i < |qubits| => if qubits[i] >= nq then qubits[i] + ng - nq else qubits[i])
  }

  /** The fill loop of `qubits_row`. The result addresses a global qubit by its
      column-side chunk bit and leaves local qubits where they are. */
  method RowQubits(qubits: seq<nat>, nq: nat, ng: nat) returns (row: seq<nat>)
    requires nq <= ng
    ensures row == RowQubitsOf(qubits, nq, ng)
    ensures forall i :: 0 <= i < |row| ==> (row[i] >= ng <==> qubits[i] >= nq)
  {
    row := qubits;
    var i := 0;
    while i < |qubits|
      invariant 0 <= i <= |qubits| && |row| == |qubits|
      invariant forall j :: 0 <= j < i ==> row[j] == RowQubitsOf(qubits, nq, ng)[j]
      invariant forall j :: i <= j < |qubits| ==> row[j] == qubits[j]
    {
      if qubits[i] >= nq {
        row := row[i := qubits[i] + ng - nq];
      }
      i := i + 1;
    }
  }

  /** For a global qubit, the chunk bit that `qubits_row` makes it address is the
      bit the column mask of `apply_gate` tests for the same qubit. */
  lemma RowQubitUsesColumnBit(chunkIndex: nat, qubits: seq<nat>, nq: nat, ng: nat, i: nat)
    requires nq <= ng && i < |qubits| && qubits[i] >= nq
    ensures RowQubitsOf(qubits, nq, ng)[i] >= nq
    ensures TestBit(chunkIndex, RowQubitsOf(qubits, nq, ng)[i] - nq) ==
            TestBit(ShiftRight(chunkIndex, ng - nq), qubits[i] - nq)
  {
    ShiftRightBit(chunkIndex, ng - nq, qubits[i] - nq);
  }

  /** `qubits_chunk`: each local qubit twice, once as a row qubit and once moved
      up by nq as a column qubit. */
  method DoubledQubits(qubitsIn: seq<nat>, nq: nat) returns (chunk: seq<nat>)
    ensures chunk == qubitsIn + Shifted(qubitsIn, nq)
    ensures AllBelow(qubitsIn, nq) ==>
              forall i :: 0 <= i < |chunk| ==> (chunk[i] < nq <==> i < |qubitsIn|) && chunk[i] < 2 * nq
  {
    var n := |qubitsIn|;
    chunk := seq(2 * n, _ => 0);
    var i := 0;
    while i < n
      invariant 0 <= i <= n && |chunk| == 2 * n
      invariant forall j :: 0 <= j < i ==> chunk[j] == qubitsIn[j] && chunk[j + n] == qubitsIn[j] + nq
    {
      chunk := chunk[i := qubitsIn[i]][i + n := qubitsIn[i] + nq];
      i := i + 1;
    }
    assert forall j :: 0 <= j < 2 * n ==> chunk[j] == (qubitsIn + Shifted(qubitsIn, nq))[j] by {
      forall j | 0 <= j < 2 * n
        ensures chunk[j] == (qubitsIn + Shifted(qubitsIn, nq))[j]
      {
        if j >= n {
          assert chunk[(j - n) + n] == qubitsIn[j - n] + nq;
        }
      }
    }
  }
}
