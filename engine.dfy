/** The effect of every operation of the density-matrix state as a function of
    the state before it: which primitives are invoked on the buffer, which
    calls reach the classical register and the result sink, and which
    operations are rejected. The methods of the `State` class are proved
    against these functions. */
module Engine {
  import opened Common
  import GateCatalog
  import opened Operations
  import opened ChunkAddressing
  import opened Measurement
  import opened PartialTrace
  import opened SaveData
  import opened GateHelpers

  const MinusOne: Complex := Complex(-1.0, 0.0)
  const ImagUnit: Complex := Complex(0.0, 1.0)
  const MinusImagUnit: Complex := Complex(0.0, -1.0)

  /** The state between operations: the buffer, the number of qubits of the whole
      simulation (of which the buffer may hold one chunk), and the calls made
      into the classical register and the result sink so far. */
  datatype Machine = Machine(qreg: Buffer, numGlobalQubits: nat, events: seq<Event>) {
    function Lay(): Layout {
      Layout(qreg.numQubits, numGlobalQubits, qreg.chunkIndex, qreg.globalIndexing)
    }
  }

  /** The values an operation reads from the classical register, the random
      number generator and the buffer. */
  datatype Reads = Reads(
    conditional: bool,          // creg().check_conditional(op)
    probs: seq<real>,           // qreg_.probabilities(op.qubits)
    outcome: nat,               // rng.rand_int(probs)
    probability: nat -> real,   // qreg_.probability(index)
    trace: Complex,             // qreg_.trace()
    vector: seq<Complex>)       // qreg_.vector()

  /** Complex entries as exact scalars. */
  function AsScalars(cs: seq<Complex>): seq<Scalar> {
    seq(|cs|, i requires 0 <= i < |cs| => Num(cs[i]))
  }

  /** The entries of a diagonal produced by a generator. */
  function GeneratedDiag(gen: DiagGen, theta: Complex, size: nat): (d: seq<Scalar>)
    ensures |d| == size
  {
    seq(size, i requires 0 <= i < size => Generated(gen, theta, i))
  }

  /** `apply_diagonal_unitary_matrix`: on a chunk whose kernels see only local
      qubits, a diagonal touching global qubits is reduced to its block for this
      chunk, once for the row side and once for the column side, and applied as a
      general diagonal on the doubled local qubits. */
  function DiagonalCalls(lib: Collaborators, lay: Layout, qubits: seq<nat>, diag: seq<Scalar>): seq<Call> {
    if lay.Chunked() then
      var inPart := lib.blockDiagonalMatrix(lay.chunkIndex, lay.numQubits, qubits, diag);
      if |inPart.0| == |qubits| then [ApplyDiagonalUnitaryMatrix(qubits, diag)]
      else
        var rowQubits := RowQubitsOf(qubits, lay.numQubits, lay.numGlobalQubits);
        var rowPart := lib.blockDiagonalMatrix(lay.chunkIndex, lay.numQubits, rowQubits, diag);
        [ApplyDiagonalMatrix(inPart.0 + Shifted(inPart.0, lay.numQubits), rowPart.1, inPart.1)]
    else [ApplyDiagonalUnitaryMatrix(qubits, diag)]
  }

  /** The single-qubit `apply_phase`. */
  function PhaseCalls(lib: Collaborators, lay: Layout, qubit: nat, phase: Scalar): seq<Call> {
    DiagonalCalls(lib, lay, [qubit], [Num(One), phase])
  }

  /** `apply_gate_u3` */
  function U3Call(qubit: nat, theta: Angle, phi: Angle, lambda: Angle): Call {
    ApplyUnitaryMatrix([qubit], U3Matrix(theta, phi, lambda))
  }

  /** `apply_pauli`: the doubled string on the superoperator qubits, with the
      conjugation sign. */
  function PauliCalls(lib: Collaborators, qubits: seq<nat>, pauli: string): seq<Call> {
    [ApplyPauli(lib.superopQubits(qubits), pauli + pauli, PauliCoeff(pauli))]
  }

  /** The gate switch of `apply_gate`. */
  function SwitchCalls(lib: Collaborators, lay: Layout, op: Op, g: GateCatalog.Gate): seq<Call>
    requires GateFits(op) && GateCatalog.Lookup(op.name) == Some(g)
  {
    match g
    case U3 => [U3Call(op.qubits[0], Rad(op.params[0].re), Rad(op.params[1].re), Rad(op.params[2].re))]
    case U2 => [U3Call(op.qubits[0], HalfPi, Rad(op.params[0].re), Rad(op.params[1].re))]
    case U1 => PhaseCalls(lib, lay, op.qubits[0], ExpI(op.params[0]))
    case CX => [ApplyCnot(op.qubits[0], op.qubits[1])]
    case CY => [ApplyCy(op.qubits[0], op.qubits[1])]
    case CZ => [ApplyCphase(op.qubits[0], op.qubits[1], Num(MinusOne))]
    case CP => [ApplyCphase(op.qubits[0], op.qubits[1], ExpI(op.params[0]))]
    case Id => []
    case X => [ApplyX(op.qubits[0])]
    case Y => [ApplyY(op.qubits[0])]
    case Z => PhaseCalls(lib, lay, op.qubits[0], Num(MinusOne))
    case H => [U3Call(op.qubits[0], HalfPi, Rad(0.0), Pi)]
    case S => PhaseCalls(lib, lay, op.qubits[0], Num(ImagUnit))
    case Sdg => PhaseCalls(lib, lay, op.qubits[0], Num(MinusImagUnit))
    case SX => [ApplyUnitaryMatrix(op.qubits, SXMatrix)]
    case SXdg => [ApplyUnitaryMatrix(op.qubits, SXdgMatrix)]
    case T => PhaseCalls(lib, lay, op.qubits[0], EighthTurn(false))
    case Tdg => PhaseCalls(lib, lay, op.qubits[0], EighthTurn(true))
    case Swap => [ApplySwap(op.qubits[0], op.qubits[1])]
    case ECR => [ApplyUnitaryMatrix(op.qubits, ECRMatrix)]
    case CCX => [ApplyToffoli(op.qubits[0], op.qubits[1], op.qubits[2])]
    case R => [ApplyUnitaryMatrix(op.qubits, RMatrix(op.params[0], op.params[1]))]
    case RX => [ApplyUnitaryMatrix(op.qubits, RotationMatrix(RotX, op.params[0]))]
    case RY => [ApplyUnitaryMatrix(op.qubits, RotationMatrix(RotY, op.params[0]))]
    case RZ => DiagonalCalls(lib, lay, op.qubits, GeneratedDiag(RzDiag, op.params[0], 2))
    case RXX => [ApplyUnitaryMatrix(op.qubits, RotationMatrix(RotXX, op.params[0]))]
    case RYY => [ApplyUnitaryMatrix(op.qubits, RotationMatrix(RotYY, op.params[0]))]
    case RZZ => DiagonalCalls(lib, lay, op.qubits, GeneratedDiag(RzzDiag, op.params[0], 4))
    case RZX => [ApplyUnitaryMatrix(op.qubits, RotationMatrix(RotZX, op.params[0]))]
    case Pauli => PauliCalls(lib, op.qubits, op.stringParams[0])
  }

  /** The table lookup of `apply_gate` followed by its switch. */
  function SwitchEffect(lib: Collaborators, lay: Layout, op: Op): Result<seq<Call>, Error>
    requires GateFits(op)
  {
    match GateCatalog.Lookup(op.name)
    case None => Err(InvalidGate(op.name))
    case Some(g) => Ok(SwitchCalls(lib, lay, op, g))
  }

  /** `apply_gate_statevector`: a gate applied to one side of the density matrix
      only, as on a state vector. A phase that lands on the column (bra) side is
      conjugated. */
  function StatevectorCalls(lay: Layout, op: Op): Result<seq<Call>, Error>
    requires GateFits(op)
  {
    var g := GateCatalog.Lookup(op.name);
    if g == Some(GateCatalog.X) || g == Some(GateCatalog.CX) then Ok([ApplyMcx(op.qubits)])
    else if g == Some(GateCatalog.U1) then
      var phase := if op.qubits[|op.qubits| - 1] < lay.numQubits then ExpI(op.params[0]) else ConjExpI(op.params[0]);
      Ok([ApplyMcphase(op.qubits, phase)])
    else if g == Some(GateCatalog.Y) then Ok([ApplyMcy(op.qubits)])
    else if g == Some(GateCatalog.Z) then Ok([ApplyMcphase(op.qubits, Num(MinusOne))])
    else Err(InvalidGate(op.name))
  }

  /** The control split `apply_gate` computes on a chunk: only for names that
      start with `c` or `mc`. */
  function ControlSplit(lib: Collaborators, lay: Layout, op: Op): (seq<nat>, seq<nat>) {
    if IsControlName(op.name) then lib.inoutCtrlQubits(op, lay.numQubits) else ([], [])
  }

  /** `apply_gate`. On a chunk, a controlled gate with global controls is skipped
      when neither side of the chunk has them set, applied by the switch when both
      sides do, and applied to the one active side otherwise. */
  function GateEffect(lib: Collaborators, lay: Layout, op: Op): Result<seq<Call>, Error>
    requires LibOk(lib) && GateFits(op)
    decreases if AllBelow(op.qubits, lay.numQubits) then 0 else 1
  {
    var split := ControlSplit(lib, lay, op);
    if lay.Chunked() && |split.1| > 0 then
      var nq := lay.numQubits;
      assert SplitsByLocality(op, nq, split);
      var mask := MaskOf(split.1, nq);
      var row := RowActive(lay.chunkIndex, mask);
      var column := ColumnActive(lay.chunkIndex, mask, lay.numGlobalQubits, nq);
      if !row && !column then Ok([])
      else
        var newOp := lib.correctGateOpInChunk(op, split.0);
        if row && column then
          assert split.1[0] in op.qubits;
          GateEffect(lib, lay, newOp)
        else if row then StatevectorCalls(lay, newOp)
        else StatevectorCalls(lay, newOp.(qubits := Shifted(newOp.qubits, nq)))
    else SwitchEffect(lib, lay, op)
  }

  /** `measure_reset_update`: project onto `measState` and renormalise, then move
      to `finalState` if it differs, by X on one qubit or by a basis-swapping
      permutation on several. */
  function MeasureResetCalls(lib: Collaborators, lay: Layout, qubits: seq<nat>, finalState: nat, measState: nat, prob: real): seq<Call>
    requires finalState < Pow2(|qubits|) && measState < Pow2(|qubits|)
  {
    DiagonalCalls(lib, lay, qubits, ProjectorDiag(|qubits|, measState, prob)) +
      if finalState == measState then []
      else if |qubits| == 1 then [ApplyX(qubits[0])]
      else [ApplyUnitaryMatrix(qubits, Explicit(SwapPermutationOf(Pow2(|qubits|), finalState, measState)))]
  }

  /** `apply_matrix`: a one-row matrix is a diagonal. */
  function MatrixCalls(lib: Collaborators, lay: Layout, qubits: seq<nat>, mat: Matrix): seq<Call> {
    if mat.rows == 1 then DiagonalCalls(lib, lay, qubits, AsScalars(mat.data))
    else [ApplyUnitaryMatrix(qubits, Vectorized(mat))]
  }

  /** The amplitudes squared read by `apply_save_amplitudes_sq`. */
  function AmplitudesOf(probability: nat -> real, indices: seq<nat>): (a: seq<real>)
    ensures |a| == |indices|
  {
    seq(|indices|, i requires 0 <= i < |indices| => probability(indices[i]))
  }

  /** The blocks the helper of `reduced_density_matrix` input. */
  function ReducedBlocks(lib: Collaborators, qubits: seq<nat>, sorted: seq<nat>, numQubits: nat): Blocks
    requires |qubits| <= numQubits
  {
    HelperBlocks(lib.superopQubits(qubits), lib.superopQubits(sorted), numQubits, |qubits|)
  }

  /** What the helper needs of the vector it input. */
  ghost predicate ReducedReadable(lib: Collaborators, qubits: seq<nat>, numQubits: nat, vector: seq<Complex>) {
    |qubits| <= numQubits &&
    (ReductionOf(qubits, numQubits).Helper? ==>
      Readable(vector, lib.indexes, ReducedBlocks(lib, qubits, ReductionOf(qubits, numQubits).sorted, numQubits)))
  }

  /** `reduced_density_matrix`: the trace, the whole matrix, or the helper's sums. */
  function ReducedValue(lib: Collaborators, qubits: seq<nat>, numQubits: nat, lastOp: bool, trace: Complex, vector: seq<Complex>): Saved
    requires ReducedReadable(lib, qubits, numQubits, vector)
  {
    match ReductionOf(qubits, numQubits)
    case TraceAll => TraceOnly(trace)
    case WholeState => WholeMatrix(lastOp)
    case Helper(sorted) =>
      var b := ReducedBlocks(lib, qubits, sorted, numQubits);
      Reduced(Matrix(Pow2(|qubits|), Pow2(|qubits|),
                     seq(b.vdim, i requires 0 <= i < b.vdim => BlockSum(vector, lib.indexes, b, i, b.count))))
  }

  /** The buffer calls of `reduced_density_matrix`: the matrix is moved out only
      for the whole, sorted list on the last operation. */
  function ReducedCalls(qubits: seq<nat>, numQubits: nat, lastOp: bool): seq<Call> {
    if ReductionOf(qubits, numQubits) == WholeState && lastOp then [MoveToMatrix] else []
  }

  /** What the state reads of an operation without checking it (the code that
      builds operations guarantees it). */
  predicate OpFits(m: Machine, op: Op) {
    match op.opType
    case GateOp => GateFits(op)
    case MatrixOp | Superop | SetDensmat => |op.mats| >= 1
    case SaveState => |op.qubits| == m.qreg.numQubits ==> |op.stringParams| >= 1
    case SaveDensmat => |op.stringParams| >= 1 && |op.qubits| <= m.qreg.numQubits
    case SaveProbs | SaveProbsKet => |op.stringParams| >= 1
    case SaveAmpsSq => op.intParams != [] ==> |op.stringParams| >= 1
    case _ => true
  }

  /** What the state relies on of the values it reads: the probabilities cover
      the 2^k outcomes of the measured qubits and the sampled outcome is one of
      them; the vector covers every index the partial trace input. */
  ghost predicate ReadsFit(lib: Collaborators, m: Machine, op: Op, input: Reads) {
    input.conditional ==>
      match op.opType
      case Measure => |input.probs| == Pow2(|op.qubits|) && input.outcome < |input.probs|
      case SaveDensmat => ReducedReadable(lib, op.qubits, m.qreg.numQubits, input.vector)
      case _ => true
  }

  /** Appends calls to the buffer's record. */
  function Record(b: Buffer, calls: seq<Call>): Buffer {
    b.(calls := b.calls + calls)
  }

  /** The machine after a call that either invokes `calls` or throws. */
  function WithCalls(m: Machine, effect: Result<seq<Call>, Error>): Result<Machine, Error> {
    match effect
    case Ok(calls) => Ok(m.(qreg := Record(m.qreg, calls)))
    case Err(e) => Err(e)
  }

  /** `apply_measure`: sample, project, store the outcome bits. */
  function MeasureCalls(lib: Collaborators, lay: Layout, qubits: seq<nat>, probs: seq<real>, outcome: nat): seq<Call>
    requires |probs| == Pow2(|qubits|) && outcome < |probs|
  {
    MeasureResetCalls(lib, lay, qubits, outcome, outcome, probs[outcome])
  }

  /** `apply_op`: one operation applied to the state. */
  function Step(lib: Collaborators, m: Machine, op: Op, input: Reads, finalOps: bool): Result<Machine, Error>
    requires LibOk(lib) && OpFits(m, op) && ReadsFit(lib, m, op, input)
  {
    if !input.conditional then Ok(m)
    else
      var lay := m.Lay();
      match op.opType
      case Barrier => Ok(m)
      case QErrorLoc => Ok(m)
      case Reset => Ok(m.(qreg := Record(m.qreg, [ApplyReset(op.qubits)])))
      case Measure =>
        Ok(Machine(Record(m.qreg, MeasureCalls(lib, lay, op.qubits, input.probs, input.outcome)), m.numGlobalQubits,
                   m.events + [MeasureStored(Int2Reg(input.outcome, |op.qubits|), op.memory, op.registers)]))
      case BFunc => Ok(m.(events := m.events + [BFuncApplied(op)]))
      case ROError => Ok(m.(events := m.events + [ROErrorApplied(op)]))
      case GateOp => WithCalls(m, GateEffect(lib, lay, op))
      case MatrixOp => Ok(m.(qreg := Record(m.qreg, MatrixCalls(lib, lay, op.qubits, op.mats[0]))))
      case DiagonalMatrix => Ok(m.(qreg := Record(m.qreg, DiagonalCalls(lib, lay, op.qubits, AsScalars(op.params)))))
      case Superop => Ok(m.(qreg := Record(m.qreg, [ApplySuperopMatrix(op.qubits, Vectorized(op.mats[0]))])))
      case Kraus => Ok(m.(qreg := Record(m.qreg, [ApplySuperopMatrix(op.qubits, KrausSuperop(op.mats))])))
      case SetStatevec => Ok(m.(qreg := Record(m.qreg, [InitializeFromVector(op.params)])))
      case SetDensmat => Ok(m.(qreg := Record(m.qreg, [InitializeFromMatrix(op.mats[0])])))
      case SaveExpval => Ok(m.(events := m.events + [ExpvalSaved(op)]))
      case SaveExpvalVar => Ok(m.(events := m.events + [ExpvalSaved(op)]))
      case SaveState =>
        if |op.qubits| != m.qreg.numQubits then Err(NotFullState(op.name))
        else
          Ok(Machine(Record(m.qreg, if finalOps then [MoveToMatrix] else []), m.numGlobalQubits,
                     m.events + [DataSaved(SaveKey(op.stringParams[0]), WholeMatrix(finalOps), SaveDensmat, RemapSaveType(op.saveType))]))
      case SaveDensmat =>
        var value := ReducedValue(lib, op.qubits, m.qreg.numQubits, finalOps, input.trace, input.vector);
        Ok(Machine(Record(m.qreg, ReducedCalls(op.qubits, m.qreg.numQubits, finalOps)), m.numGlobalQubits,
                   m.events + [DataSaved(op.stringParams[0], value, op.opType, op.saveType)]))
      case SaveProbs => Ok(m.(events := m.events + [DataSaved(op.stringParams[0], Probabilities(input.probs), op.opType, op.saveType)]))
      case SaveProbsKet => Ok(m.(events := m.events + [DataSaved(op.stringParams[0], ProbabilitiesKet(input.probs), op.opType, op.saveType)]))
      case SaveAmpsSq =>
        if op.intParams == [] then Err(EmptyAmplitudeParams)
        else Ok(m.(events := m.events + [DataSaved(op.stringParams[0], AmplitudesSquared(AmplitudesOf(input.probability, op.intParams)), op.opType, op.saveType)]))
      case Jump => Err(InvalidInstruction(op.name))
      case Mark => Err(InvalidInstruction(op.name))
      case OtherType => Err(InvalidInstruction(op.name))
  }

  /** The global control qubits `qubits_out` of a gate on a chunk. */
  function GlobalControls(lib: Collaborators, lay: Layout, op: Op): (qs: seq<nat>)
    requires LibOk(lib)
    ensures AllAtLeast(qs, lay.numQubits)
    ensures forall i :: 0 <= i < |qs| ==> qs[i] in op.qubits
  {
    assert SplitsByLocality(op, lay.numQubits, lib.inoutCtrlQubits(op, lay.numQubits));
    ControlSplit(lib, lay, op).1
  }

  /** The first element of a list, or 0 for the empty list. */
  function Head(s: seq<nat>): nat {
    if s == [] then 0 else s[0]
  }

  /** Global qubits drawn from a list of local qubits: there are none. This is
      why the rewritten op is not split again. */
  lemma NoGlobalAmongLocal(outs: seq<nat>, locals: seq<nat>, nq: nat)
    requires AllAtLeast(outs, nq) && AllBelow(locals, nq)
    requires forall i :: 0 <= i < |outs| ==> outs[i] in locals
    ensures outs == []
  {
    // Naming the first element (if any) lets the two requires meet on it;
    // `Head` is total, so no index check is made in the case they exclude.
    var first := Head(outs);
  }

  /** The boundary dispatch of `apply_gate`: a gate whose global controls are set
      on neither side of the chunk does nothing; on both sides it is applied by the
      switch to the op rewritten onto local qubits (which is not split again); on
      the row side only it is applied as on a state vector to the local qubits; on
      the column side only, to the local qubits moved up by nq onto the bra index. */
  lemma ChunkedGateDispatch(lib: Collaborators, lay: Layout, op: Op)
    requires LibOk(lib) && GateFits(op) && lay.Chunked()
    requires GlobalControls(lib, lay, op) != []
    ensures var outs := GlobalControls(lib, lay, op);
            var nq := lay.numQubits;
            var row := ControlsSetOnRow(lay.chunkIndex, outs, nq);
            var column := ControlsSetOnColumn(lay.chunkIndex, outs, nq, lay.numGlobalQubits);
            var newOp := lib.correctGateOpInChunk(op, ControlSplit(lib, lay, op).0);
            && AllBelow(newOp.qubits, nq)
            && AllAtLeast(Shifted(newOp.qubits, nq), nq)
            && (!row && !column ==> GateEffect(lib, lay, op) == Ok([]))
            && (row && column ==> GateEffect(lib, lay, op) == SwitchEffect(lib, lay, newOp))
            && (row && !column ==> GateEffect(lib, lay, op) == StatevectorCalls(lay, newOp))
            && (!row && column ==>
                  GateEffect(lib, lay, op) == StatevectorCalls(lay, newOp.(qubits := Shifted(newOp.qubits, nq))))
  {
    var nq := lay.numQubits;
    var split := ControlSplit(lib, lay, op);
    var outs := split.1;
    assert SplitsByLocality(op, nq, lib.inoutCtrlQubits(op, nq));
    RowActiveIff(lay.chunkIndex, outs, nq);
    ColumnActiveIff(lay.chunkIndex, outs, nq, lay.numGlobalQubits);
    var newOp := lib.correctGateOpInChunk(op, split.0);
    assert newOp.qubits == split.0;
    var split2 := ControlSplit(lib, lay, newOp);
    assert SplitsByLocality(newOp, nq, lib.inoutCtrlQubits(newOp, nq));
    NoGlobalAmongLocal(split2.1, newOp.qubits, nq);
  }

  /** The one-sided phase of `apply_gate_statevector`: exp(i lambda) on ket qubits,
      its conjugate on bra qubits. */
  lemma OneSidedPhase(lay: Layout, op: Op)
    requires GateFits(op) && GateCatalog.Lookup(op.name) == Some(GateCatalog.U1)
    ensures |op.qubits| >= 1 && |op.params| >= 1
    ensures AllBelow(op.qubits, lay.numQubits) ==>
              StatevectorCalls(lay, op) == Ok([ApplyMcphase(op.qubits, ExpI(op.params[0]))])
    ensures AllAtLeast(op.qubits, lay.numQubits) ==>
              StatevectorCalls(lay, op) == Ok([ApplyMcphase(op.qubits, ConjExpI(op.params[0]))])
  {
  }

  /** `apply_gate_statevector` accepts exactly x, cx, u1, y and z. */
  lemma StatevectorGates(lay: Layout, op: Op)
    requires GateFits(op)
    ensures StatevectorCalls(lay, op).Ok? <==>
              GateCatalog.Lookup(op.name) in {Some(GateCatalog.X), Some(GateCatalog.CX), Some(GateCatalog.U1),
                                              Some(GateCatalog.Y), Some(GateCatalog.Z)}
    ensures StatevectorCalls(lay, op).Err? ==> StatevectorCalls(lay, op) == Err(InvalidGate(op.name))
  {
  }

  /** Every error `apply_gate` throws is an invalid-gate error. */
  lemma {:induction false} GateErrorsAreInvalidGate(lib: Collaborators, lay: Layout, op: Op)
    requires LibOk(lib) && GateFits(op)
    ensures GateEffect(lib, lay, op).Err? ==> GateEffect(lib, lay, op).error.InvalidGate?
    decreases if AllBelow(op.qubits, lay.numQubits) then 0 else 1
  {
    var split := ControlSplit(lib, lay, op);
    if lay.Chunked() && |split.1| > 0 {
      var nq := lay.numQubits;
      assert SplitsByLocality(op, nq, split);
      var mask := MaskOf(split.1, nq);
      var row := RowActive(lay.chunkIndex, mask);
      var column := ColumnActive(lay.chunkIndex, mask, lay.numGlobalQubits, nq);
      if row && column {
        assert split.1[0] in op.qubits;
        GateErrorsAreInvalidGate(lib, lay, lib.correctGateOpInChunk(op, split.0));
      }
    }
  }

  /** A name outside the gate table is rejected unless the chunk dispatch has
      already disposed of the gate. */
  lemma UnknownGateRejected(lib: Collaborators, lay: Layout, op: Op)
    requires LibOk(lib) && GateCatalog.Lookup(op.name) == None
    requires !lay.Chunked() || GlobalControls(lib, lay, op) == []
    ensures GateEffect(lib, lay, op) == Err(InvalidGate(op.name))
  {
  }

  /** Away from chunk boundaries, two names of the same gate have the same effect. */
  lemma AliasesAgree(lib: Collaborators, lay: Layout, op: Op, other: string)
    requires LibOk(lib) && GateFits(op) && GateCatalog.Lookup(op.name).Some?
    requires GateCatalog.Lookup(other) == GateCatalog.Lookup(op.name)
    requires !lay.Chunked()
    ensures GateFits(op.(name := other))
    ensures GateEffect(lib, lay, op.(name := other)) == GateEffect(lib, lay, op)
  {
    var g := GateCatalog.Lookup(op.name).value;
    assert SwitchCalls(lib, lay, op.(name := other), g) == SwitchCalls(lib, lay, op, g);
  }

  /** The name test is case sensitive: `CX` is never split at a chunk boundary,
      even when a global qubit is among its operands, unlike `cx`. */
  lemma UpperCaseCXNotSplit(lib: Collaborators, lay: Layout, op: Op)
    requires LibOk(lib) && op.name == "CX" && |op.qubits| >= 2
    ensures GateFits(op)
    ensures GateEffect(lib, lay, op) == Ok([ApplyCnot(op.qubits[0], op.qubits[1])])
  {
    assert !IsControlName(op.name) by {
      assert op.name[0] == 'C';
      assert op.name[..2] == "CX";
    }
  }

  /** `apply_diagonal_unitary_matrix`: unchanged unless the diagonal crosses the
      chunk boundary; then one general diagonal on the doubled local qubits, whose
      first half addresses ket qubits and second half the same qubits on the bra. */
  lemma DiagonalSplit(lib: Collaborators, lay: Layout, qubits: seq<nat>, diag: seq<Scalar>)
    requires LibOk(lib)
    ensures var inPart := lib.blockDiagonalMatrix(lay.chunkIndex, lay.numQubits, qubits, diag);
            if !lay.Chunked() || |inPart.0| == |qubits| then
              DiagonalCalls(lib, lay, qubits, diag) == [ApplyDiagonalUnitaryMatrix(qubits, diag)]
            else
              var c := DiagonalCalls(lib, lay, qubits, diag);
              && |c| == 1 && c[0].ApplyDiagonalMatrix?
              && c[0].inner == inPart.1
              && |c[0].qubits| == 2 * |inPart.0|
              && c[0].qubits[..|inPart.0|] == inPart.0
              && forall i :: 0 <= i < |inPart.0| ==>
                   c[0].qubits[i] < lay.numQubits &&
                   c[0].qubits[i + |inPart.0|] == c[0].qubits[i] + lay.numQubits
  {
  }

  /** `measure_reset_update` leaves the state projected on `measState` and moves
      it only when `finalState` differs: by X on a single qubit, otherwise by the
      permutation swapping the two basis states. */
  lemma MeasureResetShape(lib: Collaborators, lay: Layout, qubits: seq<nat>, finalState: nat, measState: nat, prob: real)
    requires finalState < Pow2(|qubits|) && measState < Pow2(|qubits|)
    ensures var d := DiagonalCalls(lib, lay, qubits, ProjectorDiag(|qubits|, measState, prob));
            var c := MeasureResetCalls(lib, lay, qubits, finalState, measState, prob);
            && c[..|d|] == d
            && (finalState == measState <==> |c| == |d|)
            && (finalState != measState && |qubits| == 1 ==> c[|d|..] == [ApplyX(qubits[0])])
            && (finalState != measState && |qubits| != 1 ==>
                  c[|d|..] == [ApplyUnitaryMatrix(qubits, Explicit(SwapPermutationOf(Pow2(|qubits|), finalState, measState)))])
  {
  }

  /** A measurement projects on the sampled outcome, never moves the state, and
      stores the outcome's bits, least significant first, one per measured qubit. */
  lemma MeasureEffect(lib: Collaborators, m: Machine, op: Op, input: Reads, finalOps: bool)
    requires LibOk(lib) && OpFits(m, op) && ReadsFit(lib, m, op, input)
    requires input.conditional && op.opType == Measure
    ensures Step(lib, m, op, input, finalOps).Ok?
    ensures var m2 := Step(lib, m, op, input, finalOps).value;
            && m2.qreg.calls == m.qreg.calls +
                 DiagonalCalls(lib, m.Lay(), op.qubits, ProjectorDiag(|op.qubits|, input.outcome, input.probs[input.outcome]))
            && |m2.events| == |m.events| + 1 && m2.events[..|m.events|] == m.events
            && m2.events[|m.events|].MeasureStored?
            && |m2.events[|m.events|].outcome| >= |op.qubits|
            && forall j :: 0 <= j < |op.qubits| ==> m2.events[|m.events|].outcome[j] == BitValue(input.outcome, j)
  {
    var m2 := Step(lib, m, op, input, finalOps).value;
    var reg := Int2Reg(input.outcome, |op.qubits|);
    assert m2.events[|m.events|].outcome == reg;
    Int2RegBits(input.outcome, |op.qubits|, 0);
    forall j | 0 <= j < |op.qubits|
      ensures reg[j] == BitValue(input.outcome, j)
    {
      Int2RegBits(input.outcome, |op.qubits|, j);
    }
  }

  /** Of the state's own checks (a primitive of the buffer that throws is not
      part of this model), `apply_op` throws exactly for a kind it does not
      handle, a gate it rejects, a partial `save_state` and an empty
      `save_amplitudes_sq`; the invalid-
      instruction error is thrown exactly for the kinds outside the operation set
      and for `jump` and `mark`. An op whose condition fails does nothing. */
  lemma StepErrors(lib: Collaborators, m: Machine, op: Op, input: Reads, finalOps: bool)
    requires LibOk(lib) && OpFits(m, op) && ReadsFit(lib, m, op, input)
    ensures !input.conditional ==> Step(lib, m, op, input, finalOps) == Ok(m)
    ensures Step(lib, m, op, input, finalOps).Err? <==>
              input.conditional &&
              (|| op.opType !in OpSetTypes - {Jump, Mark}
               || (op.opType == GateOp && GateEffect(lib, m.Lay(), op).Err?)
               || (op.opType == SaveState && |op.qubits| != m.qreg.numQubits)
               || (op.opType == SaveAmpsSq && op.intParams == []))
    ensures Step(lib, m, op, input, finalOps) == Err(InvalidInstruction(op.name)) <==>
              input.conditional && op.opType !in OpSetTypes - {Jump, Mark}
  {
    if input.conditional && op.opType == GateOp {
      GateErrorsAreInvalidGate(lib, m.Lay(), op);
    }
  }

  /** Every operation only appends: the buffer keeps its geometry and its earlier
      calls, the event log keeps its earlier events, and an operation touches
      either the buffer or the event log, never both, except measurement and the
      two saves that may move the matrix out. */
  lemma StepAppends(lib: Collaborators, m: Machine, op: Op, input: Reads, finalOps: bool)
    requires LibOk(lib) && OpFits(m, op) && ReadsFit(lib, m, op, input)
    requires Step(lib, m, op, input, finalOps).Ok?
    ensures var m2 := Step(lib, m, op, input, finalOps).value;
            && m2.Lay() == m.Lay()
            && m.qreg.calls <= m2.qreg.calls
            && m.events <= m2.events
            && (op.opType !in {Measure, SaveState, SaveDensmat} ==> m2.qreg == m.qreg || m2.events == m.events)
            && (op.opType in {BFunc, ROError, SaveExpval, SaveExpvalVar, SaveProbs, SaveProbsKet, SaveAmpsSq} ==>
                  m2.qreg == m.qreg)
  {
  }

  /** The three cases of `reduced_density_matrix`: no qubit gives the trace; the
      qubits 0 .. n-1 in order give the whole matrix, moved out exactly on the last
      operation; any other list gives a 2^N x 2^N matrix whose every entry is the
      sum over the 2^(n-N) traced-out diagonal blocks, and nothing is moved. */
  lemma ReducedCases(lib: Collaborators, qubits: seq<nat>, numQubits: nat, lastOp: bool, trace: Complex, vector: seq<Complex>)
    requires ReducedReadable(lib, qubits, numQubits, vector)
    ensures qubits == [] ==>
              ReducedValue(lib, qubits, numQubits, lastOp, trace, vector) == TraceOnly(trace) &&
              ReducedCalls(qubits, numQubits, lastOp) == []
    ensures Distinct(qubits) && AllBelow(qubits, numQubits) && numQubits > 0 && qubits == Range(numQubits) ==>
              ReducedValue(lib, qubits, numQubits, lastOp, trace, vector) == WholeMatrix(lastOp) &&
              (ReducedCalls(qubits, numQubits, lastOp) == [MoveToMatrix] <==> lastOp)
    ensures ReducedValue(lib, qubits, numQubits, lastOp, trace, vector).Reduced? ==>
              var r := ReducedValue(lib, qubits, numQubits, lastOp, trace, vector).m;
              && r.rows == Pow2(|qubits|) && r.cols == Pow2(|qubits|)
              && |r.data| == Pow2(2 * |qubits|)
              && ReducedCalls(qubits, numQubits, lastOp) == []
              && forall i :: 0 <= i < |r.data| ==>
                   r.data[i] == BlockSum(vector, lib.indexes, ReducedBlocks(lib, qubits, SortedCopy(qubits), numQubits),
                                         i, Pow2(numQubits - |qubits|))
  {
    if Distinct(qubits) && AllBelow(qubits, numQubits) {
      WholeStateIsIdentityOrder(qubits, numQubits);
    }
  }

  /** `save_state` of the full state hands the sink the whole matrix under a key
      that is never the placeholder, with a subtype that is never a single-shot
      one, and moves the matrix out exactly on the last operation. */
  lemma SaveStateEffect(lib: Collaborators, m: Machine, op: Op, input: Reads, finalOps: bool)
    requires LibOk(lib) && OpFits(m, op) && ReadsFit(lib, m, op, input)
    requires input.conditional && op.opType == SaveState && |op.qubits| == m.qreg.numQubits
    ensures Step(lib, m, op, input, finalOps).Ok?
    ensures var m2 := Step(lib, m, op, input, finalOps).value;
            && |m2.events| == |m.events| + 1
            && var e := m2.events[|m.events|];
            && e.DataSaved? && e.value == WholeMatrix(finalOps) && e.opType == SaveDensmat
            && e.key != "_method_" && (op.stringParams[0] != "_method_" ==> e.key == op.stringParams[0])
            && e.subType != Single && e.subType != CSingle
            && (m2.qreg.calls == m.qreg.calls + [MoveToMatrix] <==> finalOps)
            && (!finalOps ==> m2.qreg == m.qreg)
  {
    SaveKeyProperties(op.stringParams[0]);
    RemapSaveTypeProperties(op.saveType);
  }
}
