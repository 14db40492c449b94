/** The vectors built by the small gate helpers of the state: the phase diagonal
    of `apply_phase` and the sign and doubled string of `apply_pauli`. */
module GateHelpers {
  import opened Common
  import opened Bits
  import opened Operations

  /** Number of `Y` letters in a Pauli string. */
  function CountY(pauli: string): nat {
    if pauli == [] then 0 else (if pauli[0] == 'Y' then 1 else 0) + CountY(pauli[1..])
  }

  /** The superoperator coefficient of `apply_pauli`: -1 when the string holds an
      odd number of `Y`, else 1. */
  function PauliCoeff(pauli: string): (c: int)
    ensures c == 1 || c == -1
  {
    if CountY(pauli) % 2 == 1 then -1 else 1
  }

  /** The sign each letter picks up under complex conjugation: conj(Y) = -Y, while
      I, X and Z are real. */
  function ConjugationSign(pauli: string): int {
    if pauli == [] then 1 else (if pauli[0] == 'Y' then -1 else 1) * ConjugationSign(pauli[1..])
  }

  /** A Pauli P acts on a density matrix as the superoperator conj(P) (x) P, that is
      the doubled string times the conjugation sign of P; the coefficient of
      `apply_pauli` is that sign. */
  lemma {:induction false} PauliCoeffIsConjugationSign(pauli: string)
    ensures PauliCoeff(pauli) == ConjugationSign(pauli)
  {
    if pauli != [] {
      PauliCoeffIsConjugationSign(pauli[1..]);
    }
  }

  lemma {:induction false} CountYConcat(a: string, b: string)
    ensures CountY(a + b) == CountY(a) + CountY(b)
  {
    if a == [] {
      assert a + b == b;
    } else {
      assert (a + b)[0] == a[0] && (a + b)[1..] == a[1..] + b;
      CountYConcat(a[1..], b);
    }
  }

  /** The coefficient of a tensor product of Paulis is the product of their
      coefficients. */
  lemma PauliCoeffConcat(a: string, b: string)
    ensures PauliCoeff(a + b) == PauliCoeff(a) * PauliCoeff(b)
  {
    CountYConcat(a, b);
  }

  /** The diagonal of the multi-qubit `apply_phase`: ones, with the phase in the
      last entry. */
  function PhaseDiag(k: nat, phase: Scalar): (d: seq<Scalar>)
    ensures |d| == Pow2(k)
  {
    seq(Pow2(k), i requires 0 <= i < Pow2(k) => if i == Pow2(k) - 1 then phase else Num(One))
  }

  /** The phase lands exactly on the basis index where every one of the k qubits is
      1: `apply_phase` is a multi-controlled phase. */
  lemma PhaseOnAllOnes(k: nat, phase: Scalar, i: nat)
    requires i < Pow2(k) && phase != Num(One)
    ensures PhaseDiag(k, phase)[i] == phase <==> LowBitsSet(i, k)
    ensures PhaseDiag(k, phase)[i] != phase ==> PhaseDiag(k, phase)[i] == Num(One)
  {
    AllOnesBelow(i, k);
  }

  /** The diagonal `{1, phase}` of the single-qubit `apply_phase` is the
      one-qubit case of the multi-qubit diagonal. */
  lemma SinglePhaseIsOneQubitCase(phase: Scalar)
    ensures [Num(One), phase] == PhaseDiag(1, phase)
  {
    assert Pow2(1) == 2;
  }
}
