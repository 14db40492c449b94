/** The partial trace of `reduced_density_matrix`: which of its three cases a
    qubit list takes, and the block accumulation of
    `reduced_density_matrix_helper`, each entry of the reduced matrix being the
    sum of one entry of every diagonal block of the traced-out qubits. */
module PartialTrace {
  import opened Common

  predicate Sorted(s: seq<nat>) {
    forall i, j :: 0 <= i < j < |s| ==> s[i] <= s[j]
  }

  predicate Distinct(s: seq<nat>) {
    forall i, j :: 0 <= i < j < |s| ==> s[i] != s[j]
  }

  /** x placed before the first entry of s that is not smaller. */
  function Insert(x: nat, s: seq<nat>): (r: seq<nat>)
    requires Sorted(s)
    ensures Sorted(r) && multiset(r) == multiset(s) + multiset{x}
    ensures |r| == |s| + 1 && (r[0] == x || (s != [] && r[0] == s[0]))
  {
    if s == [] || x <= s[0] then [x] + s
    else
      var rest := Insert(x, s[1..]);
      assert s == [s[0]] + s[1..];
      assert s[0] <= rest[0];
      [s[0]] + rest
  }

  /** The `std::sort` of `qubits_sorted`. */
  function SortedCopy(s: seq<nat>): (r: seq<nat>)
    ensures Sorted(r) && multiset(r) == multiset(s)
  {
    if s == [] then []
    else
      assert s == [s[0]] + s[1..];
      Insert(s[0], SortedCopy(s[1..]))
  }

  /** Sorting leaves a list unchanged exactly when it is already sorted, which is
      what the test `qubits == qubits_sorted` asks. */
  lemma {:induction false} SortedCopyFixed(s: seq<nat>)
    ensures SortedCopy(s) == s <==> Sorted(s)
  {
    if s != [] && Sorted(s) {
      SortedCopyFixed(s[1..]);
      assert Sorted(s[1..]);
    }
  }

  /** The three cases of `reduced_density_matrix`. */
  datatype Reduction =
    | TraceAll            // no qubit kept: the 1x1 matrix of the trace
    | WholeState          // every qubit kept in ascending order: the matrix itself
    | Helper(sorted: seq<nat>)  // anything else: the helper, with the sorted list

  function ReductionOf(qubits: seq<nat>, numQubits: nat): Reduction {
    if qubits == [] then TraceAll
    else
      var sorted := SortedCopy(qubits);
      if |qubits| == numQubits && qubits == sorted then WholeState else Helper(sorted)
  }

  /** 0, 1, ..., n-1 */
  function Range(n: nat): (r: seq<nat>)
    ensures |r| == n
  {
    seq(n, i requires 0 <= i < n => i)
  }

  lemma {:induction false} IncreasingFromBelow(s: seq<nat>, i: nat)
    requires Sorted(s) && Distinct(s) && i < |s|
    ensures i <= s[i]
  {
    if i > 0 {
      IncreasingFromBelow(s, i - 1);
    }
  }

  lemma {:induction false} IncreasingToAbove(s: seq<nat>, i: nat)
    requires Sorted(s) && Distinct(s) && i < |s|
    ensures s[i] + (|s| - 1 - i) <= s[|s| - 1]
    decreases |s| - i
  {
    if i < |s| - 1 {
      IncreasingToAbove(s, i + 1);
    }
  }

  /** For a list of distinct qubits of an n-qubit state, the whole-matrix case is
      taken exactly when the list is 0, 1, ..., n-1 (and n > 0); every other
      non-empty list goes through the helper. */
  lemma WholeStateIsIdentityOrder(qubits: seq<nat>, numQubits: nat)
    requires Distinct(qubits)
    requires forall i :: 0 <= i < |qubits| ==> qubits[i] < numQubits
    ensures ReductionOf(qubits, numQubits) == WholeState <==> numQubits > 0 && qubits == Range(numQubits)
    ensures ReductionOf(qubits, numQubits).Helper? <==> qubits != [] && qubits != Range(numQubits)
  {
    SortedCopyFixed(qubits);
    if |qubits| == numQubits && Sorted(qubits) {
      forall i | 0 <= i < |qubits|
        ensures qubits[i] == i
      {
        IncreasingFromBelow(qubits, i);
        IncreasingToAbove(qubits, i);
      }
    }
    if qubits == Range(numQubits) {
      assert Sorted(qubits);
    }
  }

  /** The geometry of the helper: the superoperator qubits and their sorted
      copy, the stride between blocks, the entries of the reduced matrix and the
      number of blocks. */
  datatype Blocks = Blocks(squbits: seq<nat>, squbitsSorted: seq<nat>, shift: nat, vdim: nat, count: nat)

  /** Every block offset the helper visits yields at least `vdim` indices, each
      inside the vector. */
  ghost predicate Readable(vmat: seq<Complex>, indexes: (seq<nat>, seq<nat>, nat) -> seq<nat>, b: Blocks) {
    forall k: nat :: k < b.count ==>
      var inds := indexes(b.squbits, b.squbitsSorted, k * b.shift);
      |inds| >= b.vdim && forall i :: 0 <= i < b.vdim ==> inds[i] < |vmat|
  }

  /** The sum of entry i over the first n blocks, accumulated in the order of
      the helper: block 0 first, then block k read at offset k * shift. */
  function BlockSum(vmat: seq<Complex>, indexes: (seq<nat>, seq<nat>, nat) -> seq<nat>, b: Blocks, i: nat, n: nat): Complex
    requires Readable(vmat, indexes, b)
    requires i < b.vdim && 1 <= n <= b.count
  {
    var inds := indexes(b.squbits, b.squbitsSorted, (n - 1) * b.shift);
    if n == 1 then vmat[inds[i]]
    else Add(BlockSum(vmat, indexes, b, i, n - 1), vmat[inds[i]])
  }

  /** The blocks of an n-qubit state reduced to N qubits: 4^N entries, 2^(n-N)
      blocks, stride 2^(n-N) + 1. */
  function HelperBlocks(squbits: seq<nat>, squbitsSorted: seq<nat>, numQubits: nat, numKept: nat): Blocks
    requires numKept <= numQubits
  {
    Blocks(squbits, squbitsSorted, Pow2(numQubits - numKept) + 1, Pow2(2 * numKept), Pow2(numQubits - numKept))
  }

  /** The two loops of `reduced_density_matrix_helper`: the first block is copied
      into the result, and every further block of the 2^(n-N) traced-out diagonal
      blocks is added entry by entry. */
  method AccumulateBlocks(vmat: seq<Complex>, indexes: (seq<nat>, seq<nat>, nat) -> seq<nat>,
                          squbits: seq<nat>, squbitsSorted: seq<nat>, numQubits: nat, numKept: nat)
      returns (reduced: seq<Complex>)
    requires numKept <= numQubits
    requires Readable(vmat, indexes, HelperBlocks(squbits, squbitsSorted, numQubits, numKept))
    ensures |reduced| == Pow2(2 * numKept)
    ensures forall i :: 0 <= i < |reduced| ==>
              reduced[i] == BlockSum(vmat, indexes, HelperBlocks(squbits, squbitsSorted, numQubits, numKept),
                                     i, Pow2(numQubits - numKept))
  {
    ghost var b := HelperBlocks(squbits, squbitsSorted, numQubits, numKept);
    var vdim := Pow2(2 * numKept);
    var end := Pow2(numQubits - numKept);
    var shift := end + 1;
    reduced := seq(vdim, _ => Zero);
    var inds := indexes(squbits, squbitsSorted, 0);
    assert inds == indexes(squbits, squbitsSorted, 0 * shift);
    var i := 0;
    while i < vdim
      invariant 0 <= i <= vdim && |reduced| == vdim
      invariant forall j :: 0 <= j < i ==> reduced[j] == BlockSum(vmat, indexes, b, j, 1)
    {
      reduced := reduced[i := vmat[inds[i]]];
      i := i + 1;
    }
    var k := 1;
    while k < end
      invariant 1 <= k <= end && |reduced| == vdim
      invariant forall j :: 0 <= j < vdim ==> reduced[j] == BlockSum(vmat, indexes, b, j, k)
    {
      inds := indexes(squbits, squbitsSorted, k * shift);
      i := 0;
      while i < vdim
        invariant 0 <= i <= vdim && |reduced| == vdim
        invariant forall j :: 0 <= j < i ==> reduced[j] == BlockSum(vmat, indexes, b, j, k + 1)
        invariant forall j :: i <= j < vdim ==> reduced[j] == BlockSum(vmat, indexes, b, j, k)
      {
        reduced := reduced[i := Add(reduced[i], vmat[inds[i]])];
        i := i + 1;
      }
      k := k + 1;
    }
  }
}
