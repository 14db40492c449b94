/** The index structure of measurement: the projector diagonal and the basis-swap
    permutation built by `measure_reset_update`, and the conversion of sampled
    basis indices into per-qubit bit lists done by `apply_measure` and
    `sample_measure`. */
module Measurement {
  import opened Common
  import opened Bits
  import opened Operations

  /** The numbers a and b agree on their k low bits. */
  ghost predicate SameLowBits(a: nat, b: nat, k: nat) {
    forall j: nat :: j < k ==> TestBit(a, j) == TestBit(b, j)
  }

  /** `mdiag`: the diagonal that projects the measured qubits onto outcome `meas`
      and renormalises by 1/sqrt(p). */
  function ProjectorDiag(k: nat, meas: nat, p: real): (d: seq<Scalar>)
    requires meas < Pow2(k)
    ensures |d| == Pow2(k)
  {
    seq(Pow2(k), i requires 0 <= i < Pow2(k) => if i == meas then InvSqrt(p) else Num(Zero))
  }

  /** The projector keeps exactly one basis index of the measured qubits, the one
      whose bits read the outcome, and scales it by 1/sqrt(p). */
  lemma ProjectorKeepsOutcome(k: nat, meas: nat, p: real, i: nat)
    requires meas < Pow2(k) && i < Pow2(k)
    ensures ProjectorDiag(k, meas, p)[i] != Num(Zero) <==> SameLowBits(i, meas, k)
    ensures ProjectorDiag(k, meas, p)[i] != Num(Zero) ==> ProjectorDiag(k, meas, p)[i] == InvSqrt(p)
  {
    if SameLowBits(i, meas, k) {
      LowBitsDetermine(i, meas, k);
    }
  }

  /** The basis index a permutation sends j to when it swaps f and m. */
  function Swapped(f: nat, m: nat, j: nat): nat {
    if j == f then m else if j == m then f else j
  }

  /** Swapping twice gives the index back. */
  lemma SwappedInvolution(f: nat, m: nat, j: nat)
    ensures Swapped(f, m, Swapped(f, m, j)) == j
  {
  }

  /** The position `c * dim + r` of cell (r, c) in a column-major vectorised
      matrix, counted up column by column. */
  function CellOf(dim: nat, r: nat, c: nat): nat {
    if c == 0 then r else CellOf(dim, r, c - 1) + dim
  }

  lemma {:induction false} CellOfProduct(dim: nat, r: nat, c: nat)
    ensures CellOf(dim, r, c) == c * dim + r
  {
    if c > 0 {
      CellOfProduct(dim, r, c - 1);
      MulStep(c - 1, dim);
    }
  }

  lemma CellIndex(dim: nat, r: nat, c: nat)
    requires r < dim && c < dim
    ensures CellOf(dim, r, c) < dim * dim
  {
    CellOfProduct(dim, r, c);
    MulStep(c, dim);
    MulMonotone(c + 1, dim, dim);
  }

  /** Distinct (row, column) cells of a dim x dim matrix have distinct positions
      in its column-major vectorisation. */
  lemma {:induction false} CellIndexInjective(dim: nat, r: nat, c: nat, r2: nat, c2: nat)
    requires r < dim && r2 < dim
    requires CellOf(dim, r, c) == CellOf(dim, r2, c2)
    ensures r == r2 && c == c2
  {
    if c > 0 && c2 > 0 {
      CellIndexInjective(dim, r, c - 1, r2, c2 - 1);
    } else if c > 0 || c2 > 0 {
      assert false;
    }
  }

  /** Entry (r, c) of a column-major vectorised dim x dim matrix. */
  function Entry(v: seq<Complex>, dim: nat, r: nat, c: nat): Complex
    requires |v| == dim * dim && r < dim && c < dim
  {
    CellIndex(dim, r, c);
    v[CellOf(dim, r, c)]
  }

  /** v is the 0/1 matrix sending basis index c to Swapped(f, m, c). */
  ghost predicate SwapsBasis(v: seq<Complex>, dim: nat, f: nat, m: nat) {
    && |v| == dim * dim
    && forall r: nat, c: nat :: r < dim && c < dim ==>
         Entry(v, dim, r, c) == (if r == Swapped(f, m, c) then One else Zero)
  }

  /** Sets cell (r, c) of a vectorised matrix to one: only that entry changes. */
  lemma SetCell(v: seq<Complex>, dim: nat, r: nat, c: nat, r2: nat, c2: nat)
    requires |v| == dim * dim && r < dim && c < dim && r2 < dim && c2 < dim
    ensures CellOf(dim, r, c) < |v|
    ensures Entry(v[CellOf(dim, r, c) := One], dim, r2, c2) ==
              if r2 == r && c2 == c then One else Entry(v, dim, r2, c2)
  {
    CellIndex(dim, r, c);
    CellIndex(dim, r2, c2);
    var w := v[CellOf(dim, r, c) := One];
    assert Entry(w, dim, r2, c2) == w[CellOf(dim, r2, c2)];
    if CellOf(dim, r2, c2) == CellOf(dim, r, c) {
      CellIndexInjective(dim, r, c, r2, c2);
    } else {
      assert w[CellOf(dim, r2, c2)] == v[CellOf(dim, r2, c2)];
    }
  }

  /** The `perm` fill of `measure_reset_update`: zeros, the two swapped cells,
      then the diagonal at every other index. */
  method SwapPermutation(dim: nat, finalState: nat, measState: nat) returns (perm: seq<Complex>)
    requires finalState < dim && measState < dim
    ensures SwapsBasis(perm, dim, finalState, measState)
    ensures perm == SwapPermutationOf(dim, finalState, measState)
  {
    perm := seq(dim * dim, _ => Zero);
    CellIndex(dim, measState, finalState);
    CellIndex(dim, finalState, measState);
    CellOfProduct(dim, measState, finalState);
    CellOfProduct(dim, finalState, measState);
    ghost var zeros := perm;
    perm := perm[finalState * dim + measState := One];
    ghost var once := perm;
    assert once == zeros[CellOf(dim, measState, finalState) := One];
    perm := perm[measState * dim + finalState := One];
    assert perm == once[CellOf(dim, finalState, measState) := One];
    forall r: nat, c: nat | r < dim && c < dim
      ensures Entry(perm, dim, r, c) == (if r == Swapped(finalState, measState, c) && (c == finalState || c == measState) then One else Zero)
    {
      CellIndex(dim, r, c);
      assert Entry(zeros, dim, r, c) == Zero;
      SetCell(zeros, dim, measState, finalState, r, c);
      SetCell(once, dim, finalState, measState, r, c);
    }
    var j := 0;
    while j < dim
      invariant 0 <= j <= dim && |perm| == dim * dim
      invariant forall r: nat, c: nat :: r < dim && c < dim ==>
        Entry(perm, dim, r, c) ==
          (if r == Swapped(finalState, measState, c) && (c == finalState || c == measState || c < j) then One else Zero)
    {
      if j != finalState && j != measState {
        CellIndex(dim, j, j);
        CellOfProduct(dim, j, j);
        ghost var before := perm;
        perm := perm[j * dim + j := One];
        forall r: nat, c: nat | r < dim && c < dim
          ensures Entry(perm, dim, r, c) ==
            (if r == Swapped(finalState, measState, c) && (c == finalState || c == measState || c < j + 1) then One else Zero)
        {
          SetCell(before, dim, j, j, r, c);
        }
      }
      j := j + 1;
    }
    SwapPermutationOfSwaps(dim, finalState, measState);
    SwapsBasisUnique(perm, SwapPermutationOf(dim, finalState, measState), dim, finalState, measState);
  }

  /** The permutation as a closed form: the vectorised entry at position i, in
      row i % dim and column i / dim, is 1 exactly when the row is the image of
      the column. */
  function SwapPermutationOf(dim: nat, f: nat, m: nat): (v: seq<Complex>)
    ensures |v| == dim * dim
  {
    seq(dim * dim, i requires 0 <= i < dim * dim => if i % dim == Swapped(f, m, i / dim) then One else Zero)
  }

  lemma SwapPermutationOfSwaps(dim: nat, f: nat, m: nat)
    ensures SwapsBasis(SwapPermutationOf(dim, f, m), dim, f, m)
  {
    var v := SwapPermutationOf(dim, f, m);
    forall r: nat, c: nat | r < dim && c < dim
      ensures Entry(v, dim, r, c) == (if r == Swapped(f, m, c) then One else Zero)
    {
      CellOfProduct(dim, r, c);
      CellIndex(dim, r, c);
      DivModOfSum(c, r, dim);
    }
  }

  /** A vectorised matrix is determined by its entries. */
  lemma {:induction false} SwapsBasisUnique(v: seq<Complex>, w: seq<Complex>, dim: nat, f: nat, m: nat)
    requires SwapsBasis(v, dim, f, m) && SwapsBasis(w, dim, f, m)
    ensures v == w
  {
    forall i | 0 <= i < |v|
      ensures v[i] == w[i]
    {
      var r, c := i % dim, i / dim;
      if dim <= c {
        MulMonotone(dim, c, dim);
        assert false;
      }
      CellOfProduct(dim, r, c);
      assert Entry(v, dim, r, c) == Entry(w, dim, r, c);
    }
  }

  /** Every row and every column of the permutation holds exactly one 1: the
      column of c has it in row Swapped(c), and the row of r in column Swapped(r). */
  lemma PermutationRowsAndColumns(v: seq<Complex>, dim: nat, f: nat, m: nat, r: nat, c: nat)
    requires SwapsBasis(v, dim, f, m) && r < dim && c < dim
    ensures Entry(v, dim, r, c) == One <==> r == Swapped(f, m, c)
    ensures Entry(v, dim, r, c) == One <==> c == Swapped(f, m, r)
    ensures Entry(v, dim, r, c) != One ==> Entry(v, dim, r, c) == Zero
  {
  }

  /** The permutation swaps f and m and fixes every other basis index. */
  lemma PermutationSwapsTwo(v: seq<Complex>, dim: nat, f: nat, m: nat, j: nat)
    requires SwapsBasis(v, dim, f, m) && f < dim && m < dim && j < dim
    ensures Entry(v, dim, m, f) == One && Entry(v, dim, f, m) == One
    ensures j != f && j != m ==> Entry(v, dim, j, j) == One
  {
  }

  /** The permutation is symmetric. */
  lemma PermutationSymmetric(v: seq<Complex>, dim: nat, f: nat, m: nat, r: nat, c: nat)
    requires SwapsBasis(v, dim, f, m) && r < dim && c < dim
    ensures Entry(v, dim, r, c) == Entry(v, dim, c, r)
  {
  }

  /** The permutation is its own inverse: the 1 of column c sits in row
      Swapped(c), and the 1 of that column sits back in row c. */
  lemma PermutationSelfInverse(v: seq<Complex>, dim: nat, f: nat, m: nat, c: nat)
    requires SwapsBasis(v, dim, f, m) && f < dim && m < dim && c < dim
    ensures Swapped(f, m, c) < dim
    ensures Entry(v, dim, Swapped(f, m, c), c) == One
    ensures Entry(v, dim, c, Swapped(f, m, c)) == One
  {
    SwappedInvolution(f, m, c);
  }

  /** 1 when bit k of n is set, else 0. */
  function BitValue(n: nat, k: nat): nat {
    if TestBit(n, k) then 1 else 0
  }

  /** The base-2 digits of n, least significant first, without leading zeros
      (zero itself is one digit). */
  function Digits(n: nat): (d: seq<nat>)
    ensures |d| >= 1
  {
    if n < 2 then [n] else [n % 2] + Digits(n / 2)
  }

  /** `Utils::int2reg(n, 2, minlen)`: the digits of n padded with zeros to at least
      `minlen` entries. */
  function Int2Reg(n: nat, minlen: nat): seq<nat> {
    var d := Digits(n);
    if |d| < minlen then d + seq(minlen - |d|, _ => 0) else d
  }

  lemma {:induction false} DigitsBits(n: nat, k: nat)
    ensures k < |Digits(n)| ==> Digits(n)[k] == BitValue(n, k)
    ensures k >= |Digits(n)| ==> !TestBit(n, k)
  {
    if n < 2 {
      if k > 0 {
        ZeroHasNoBits(k - 1);
      }
    } else if k > 0 {
      DigitsBits(n / 2, k - 1);
    }
  }

  /** Entry k of the register is bit k of n, and the register has at least
      `minlen` entries. */
  lemma Int2RegBits(n: nat, minlen: nat, k: nat)
    requires k < |Int2Reg(n, minlen)|
    ensures |Int2Reg(n, minlen)| >= minlen
    ensures Int2Reg(n, minlen)[k] == BitValue(n, k)
  {
    DigitsBits(n, k);
  }

  /** The conversion loop of `sample_measure`: for each sampled basis index, the
      full register `int2reg(val, 2, num_qubits)` is read at each requested qubit. */
  method SampleRegisters(samples: seq<nat>, qubits: seq<nat>, numQubits: nat) returns (all: seq<seq<nat>>)
    requires AllBelow(qubits, numQubits)
    ensures |all| == |samples|
    ensures forall s :: 0 <= s < |all| ==>
              |all[s]| == |qubits| &&
              forall j :: 0 <= j < |qubits| ==> all[s][j] == BitValue(samples[s], qubits[j])
  {
    all := [];
    var s := 0;
    while s < |samples|
      invariant 0 <= s <= |samples| && |all| == s
      invariant forall t :: 0 <= t < s ==>
                  |all[t]| == |qubits| &&
                  forall j :: 0 <= j < |qubits| ==> all[t][j] == BitValue(samples[t], qubits[j])
    {
      var full := Int2Reg(samples[s], numQubits);
      var sample: seq<nat> := [];
      var j := 0;
      while j < |qubits|
        invariant 0 <= j <= |qubits| && |sample| == j
        invariant forall i :: 0 <= i < j ==> sample[i] == BitValue(samples[s], qubits[i])
      {
        Int2RegBits(samples[s], numQubits, 0);
        Int2RegBits(samples[s], numQubits, qubits[j]);
        sample := sample + [full[qubits[j]]];
        j := j + 1;
      }
      all := all + [sample];
      s := s + 1;
    }
  }
}
