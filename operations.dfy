/** The vocabulary of the state: operations as they reach `apply_op`, the abstract
    density-matrix buffer `qreg_` (a record of every primitive invoked on it),
    the events handed to the classical register and the result sink, the errors
    the state throws, and the collaborators whose code is not part of this model. */
module Operations {
  import opened Common
  import GateCatalog

  datatype OpType =
    | GateOp | Measure | Reset | Barrier | BFunc | QErrorLoc | ROError
    | MatrixOp | DiagonalMatrix | Kraus | Superop | SetStatevec | SetDensmat
    | SaveExpval | SaveExpvalVar | SaveDensmat | SaveProbs | SaveProbsKet
    | SaveAmpsSq | SaveState | Jump | Mark
    | OtherType  // any kind of operation outside the state's operation set

  /** The kinds listed in the state's `StateOpSet`. */
  const OpSetTypes: set<OpType> := {
    GateOp, Measure, Reset, Barrier, BFunc, QErrorLoc, ROError, MatrixOp,
    DiagonalMatrix, Kraus, Superop, SetStatevec, SetDensmat, SaveExpval,
    SaveExpvalVar, SaveDensmat, SaveProbs, SaveProbsKet, SaveAmpsSq, SaveState,
    Jump, Mark}

  datatype DataSubType =
    | Single | CSingle | List | CList | Average | CAverage | Accum | CAccum

  /** A dense complex matrix, entries stored column by column. */
  datatype Matrix = Matrix(rows: nat, cols: nat, data: seq<Complex>)

  datatype Op = Op(
    opType: OpType,
    name: string,
    qubits: seq<nat>,
    params: seq<Complex>,
    intParams: seq<nat>,
    stringParams: seq<string>,
    mats: seq<Matrix>,
    memory: seq<nat>,
    registers: seq<nat>,
    saveType: DataSubType)

  /** Generators of diagonal matrices whose entries are left uninterpreted. */
  datatype DiagGen = RzDiag | RzzDiag

  /** A complex scalar: an exact value, or a named transcendental one. */
  datatype Scalar =
    | Num(c: Complex)
    | ExpI(z: Complex)                  // exp(i z)
    | ConjExpI(z: Complex)              // conj(exp(i z))
    | EighthTurn(inverse: bool)         // (1 + i)/sqrt 2, or (1 - i)/sqrt 2 when inverse
    | InvSqrt(p: real)                  // 1 / sqrt p
    | Generated(gen: DiagGen, theta: Complex, index: nat)  // entry of a generated diagonal

  /** An angle handed to the u3 matrix generator. */
  datatype Angle = Rad(x: real) | HalfPi | Pi

  datatype Rotation = RotX | RotY | RotXX | RotYY | RotZX

  /** A (vectorised) dense matrix handed to the buffer. */
  datatype MatrixArg =
    | U3Matrix(theta: Angle, phi: Angle, lambda: Angle)
    | SXMatrix | SXdgMatrix | ECRMatrix
    | RMatrix(rTheta: Complex, rPhi: Complex)
    | RotationMatrix(axis: Rotation, angle: Complex)
    | Vectorized(m: Matrix)             // vectorize_matrix(m)
    | KrausSuperop(kraus: seq<Matrix>)  // vectorize_matrix(kraus_superop(kraus))
    | Explicit(v: seq<Complex>)         // a vectorised matrix built by the state itself

  /** One primitive invoked on the buffer `qreg_`. */
  datatype Call =
    | Initialize(numQubits: nat)
    | InitializeFromVector(psi: seq<Complex>)   // from tensor_product(conjugate(psi), psi)
    | InitializeFromMatrix(densityMatrix: Matrix)
    | ApplyUnitaryMatrix(qubits: seq<nat>, mat: MatrixArg)
    | ApplyDiagonalUnitaryMatrix(qubits: seq<nat>, diag: seq<Scalar>)
    | ApplyDiagonalMatrix(qubits: seq<nat>, row: seq<Scalar>, inner: seq<Scalar>)
        // the diagonal tensor_product(conjugate(row), inner)
    | ApplySuperopMatrix(qubits: seq<nat>, mat: MatrixArg)
    | ApplyCnot(control: nat, target: nat)
    | ApplyCy(control: nat, target: nat)
    | ApplyCphase(q0: nat, q1: nat, phase: Scalar)
    | ApplyX(qubit: nat)
    | ApplyY(qubit: nat)
    | ApplySwap(q0: nat, q1: nat)
    | ApplyToffoli(q0: nat, q1: nat, q2: nat)
    | ApplyMcx(qubits: seq<nat>)
    | ApplyMcy(qubits: seq<nat>)
    | ApplyMcphase(qubits: seq<nat>, phase: Scalar)
    | ApplyPauli(qubits: seq<nat>, pauli: string, coeff: int)
    | ApplyReset(qubits: seq<nat>)
    | MoveToMatrix   // the contents are handed out and the buffer is left empty

  /** The abstract buffer: its qubit count, its chunk position, whether its
      kernels index globally, and every primitive invoked on it so far. */
  datatype Buffer = Buffer(numQubits: nat, chunkIndex: nat, globalIndexing: bool, calls: seq<Call>)

  /** What a save operation hands to the result sink. */
  datatype Saved =
    | TraceOnly(trace: Complex)         // the 1x1 matrix holding the trace
    | WholeMatrix(moved: bool)          // the full density matrix, moved or copied out
    | Reduced(m: Matrix)
    | Probabilities(p: seq<real>)
    | ProbabilitiesKet(p: seq<real>)    // as a ket-labelled map
    | AmplitudesSquared(p: seq<real>)

  /** A call into the classical register or the result sink. */
  datatype Event =
    | BFuncApplied(op: Op)
    | ROErrorApplied(op: Op)
    | MeasureStored(outcome: seq<nat>, memory: seq<nat>, registers: seq<nat>)
    | ExpvalSaved(op: Op)
    | DataSaved(key: string, value: Saved, opType: OpType, subType: DataSubType)

  datatype Error =
    | InvalidInstruction(opName: string)
    | InvalidGate(gateName: string)
    | NotFullState(opName: string)
    | EmptyAmplitudeParams
    | InitialStateMismatch

  /** Where this state sits among the chunks. */
  datatype Layout = Layout(numQubits: nat, numGlobalQubits: nat, chunkIndex: nat, globalIndexing: bool) {
    /** The state is one chunk of a larger one and its kernels see only local
        qubits, so boundary-crossing operations must be rewritten. */
    predicate Chunked() {
      numGlobalQubits > numQubits && !globalIndexing
    }
  }

  /** Functions of other files the state calls: `superop_qubits`, `QV::indexes`,
      `Chunk::get_inout_ctrl_qubits`, `Chunk::correct_gate_op_in_chunk` and
      `Chunk::block_diagonal_matrix`. */
  datatype Collaborators = Collaborators(
    superopQubits: seq<nat> -> seq<nat>,
    indexes: (seq<nat>, seq<nat>, nat) -> seq<nat>,
    inoutCtrlQubits: (Op, nat) -> (seq<nat>, seq<nat>),
    correctGateOpInChunk: (Op, seq<nat>) -> Op,
    blockDiagonalMatrix: (nat, nat, seq<nat>, seq<Scalar>) -> (seq<nat>, seq<Scalar>))

  predicate AllBelow(qs: seq<nat>, n: nat) {
    forall i :: 0 <= i < |qs| ==> qs[i] < n
  }

  /** `(qubits_in, qubits_out)` splits the operands of op by locality. */
  predicate SplitsByLocality(op: Op, numQubits: nat, split: (seq<nat>, seq<nat>)) {
    && AllBelow(split.0, numQubits)
    && forall i :: 0 <= i < |split.1| ==> numQubits <= split.1[i] && split.1[i] in op.qubits
  }

  /** Number of qubit operands the gate switch reads by position. */
  function QubitsRead(g: GateCatalog.Gate): nat {
    match g
    case U1 | U2 | U3 | X | Y | Z | H | S | Sdg | T | Tdg => 1
    case CX | CY | CZ | CP | Swap => 2
    case CCX => 3
    case _ => 0
  }

  /** Number of parameters the gate switch reads by position. */
  function ParamsRead(g: GateCatalog.Gate): nat {
    match g
    case U3 => 3
    case U2 | R => 2
    case U1 | CP | RX | RY | RZ | RXX | RYY | RZZ | RZX => 1
    case _ => 0
  }

  /** A gate op carries the operands its gate reads (the circuit layer that
      builds ops guarantees this). */
  predicate GateFits(op: Op) {
    match GateCatalog.Lookup(op.name)
    case None => true
    case Some(g) =>
      && |op.qubits| >= QubitsRead(g)
      && |op.params| >= ParamsRead(g)
      && (g == GateCatalog.Pauli ==> |op.stringParams| >= 1)
  }

  /** What the call sites rely on from the collaborators: the control split
      separates local from global operands, the rewritten op acts on exactly the
      local operands and still fits its gate, and the block-diagonal reduction
      returns local qubits only. */
  ghost predicate LibOk(lib: Collaborators) {
    && (forall op, nq :: SplitsByLocality(op, nq, lib.inoutCtrlQubits(op, nq)))
    && (forall op, qs :: lib.correctGateOpInChunk(op, qs).qubits == qs)
    && (forall op, qs :: GateFits(op) ==> GateFits(lib.correctGateOpInChunk(op, qs)))
    && (forall ci, nq, qs, d :: AllBelow(lib.blockDiagonalMatrix(ci, nq, qs, d).0, nq))
  }
}
