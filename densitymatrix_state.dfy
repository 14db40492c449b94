/** The density-matrix simulator state: an object owning the buffer `qreg_`,
    the number of qubits of the whole simulation and the log of calls into the
    classical register and the result sink. Every method updates the object in
    place and is proved against the functions of module Engine; a method that
    throws leaves the object as it was. */
module DensityMatrixState {
  import opened Common
  import GateCatalog
  import opened Operations
  import opened ChunkAddressing
  import opened Measurement
  import opened PartialTrace
  import opened SaveData
  import opened GateHelpers
  import opened Engine

  /** What a throwing call reports: on success no error and the expected new
      state, on failure the error and the state left as it was. */
  predicate Reports(expected: Result<Machine, Error>, outcome: Outcome<Error>, before: Machine, after: Machine) {
    match expected
    case Ok(m) => outcome == Pass && after == m
    case Err(e) => outcome == Fail(e) && after == before
  }

  /** The fill loop of `apply_save_amplitudes_sq`. */
  method SquaredAmplitudes(probability: nat -> real, indices: seq<nat>) returns (amps: seq<real>)
    ensures |amps| == |indices|
    ensures forall i :: 0 <= i < |indices| ==> amps[i] == probability(indices[i])
  {
    amps := seq(|indices|, _ => 0.0);
    var i := 0;
    while i < |indices|
      invariant 0 <= i <= |indices| && |amps| == |indices|
      invariant forall j :: 0 <= j < i ==> amps[j] == probability(indices[j])
    {
      amps := amps[i := probability(indices[i])];
      i := i + 1;
    }
  }

  class State {
    var qreg: Buffer
    var numGlobalQubits: nat
    var events: seq<Event>
    const lib: Collaborators

    ghost predicate Valid() {
      LibOk(lib)
    }

    function Value(): Machine
      reads this
    {
      Machine(qreg, numGlobalQubits, events)
    }

    function Lay(): Layout
      reads this
    {
      Value().Lay()
    }

    /** An empty buffer placed at `chunkIndex` among the chunks of a simulation
        of `numGlobalQubits` qubits. */
    constructor(lib: Collaborators, numGlobalQubits: nat, chunkIndex: nat, globalIndexing: bool)
      requires LibOk(lib)
      ensures Valid() && this.lib == lib
      ensures Value() == Machine(Buffer(0, chunkIndex, globalIndexing, []), numGlobalQubits, [])
    {
      this.lib := lib;
      this.numGlobalQubits := numGlobalQubits;
      qreg := Buffer(0, chunkIndex, globalIndexing, []);
      events := [];
    }

    /** A primitive of the buffer. */
    method Invoke(calls: seq<Call>)
      modifies this
      ensures Value() == old(Value()).(qreg := Record(old(qreg), calls))
    {
      qreg := Record(qreg, calls);
    }

    /** A call into the classical register or the result sink. */
    method Emit(e: Event)
      modifies this
      ensures Value() == old(Value()).(events := old(events) + [e])
    {
      events := events + [e];
    }

    /** `initialize_qreg(num_qubits)`: resize the buffer and reset it. */
    method InitializeQreg(numQubits: nat)
      modifies this
      ensures Value() == old(Value()).(qreg := old(qreg).(numQubits := numQubits, calls := old(qreg).calls + [Initialize(numQubits)]))
    {
      qreg := qreg.(numQubits := numQubits);
      Invoke([Initialize(numQubits)]);
    }

    /** `initialize_qreg(num_qubits, state)`: adopt a prepared buffer of the right
        size, and reject one of another size. */
    method InitializeQregFrom(numQubits: nat, state: Buffer) returns (outcome: Outcome<Error>)
      modifies this
      ensures outcome == Pass <==> state.numQubits == numQubits
      ensures outcome == Pass ==> Value() == old(Value()).(qreg := state)
      ensures outcome != Pass ==> outcome == Fail(InitialStateMismatch) && Value() == old(Value())
    {
      if state.numQubits != numQubits {
        return Fail(InitialStateMismatch);
      }
      qreg := state;
      outcome := Pass;
    }

    method ApplyDiagonalUnitaryMatrix(qubits: seq<nat>, diag: seq<Scalar>)
      requires Valid()
      modifies this
      ensures Value() == old(Value()).(qreg := Record(old(qreg), DiagonalCalls(lib, old(Lay()), qubits, diag)))
    {
      if numGlobalQubits > qreg.numQubits && !qreg.globalIndexing {
        var inPart := lib.blockDiagonalMatrix(qreg.chunkIndex, qreg.numQubits, qubits, diag);
        if |inPart.0| == |qubits| {
          Invoke([Operations.ApplyDiagonalUnitaryMatrix(qubits, diag)]);
        } else {
          var rowQubits := RowQubits(qubits, qreg.numQubits, numGlobalQubits);
          var rowPart := lib.blockDiagonalMatrix(qreg.chunkIndex, qreg.numQubits, rowQubits, diag);
          var chunkQubits := DoubledQubits(inPart.0, qreg.numQubits);
          Invoke([ApplyDiagonalMatrix(chunkQubits, rowPart.1, inPart.1)]);
        }
      } else {
        Invoke([Operations.ApplyDiagonalUnitaryMatrix(qubits, diag)]);
      }
    }

    /** `apply_phase(qubit, phase)` */
    method ApplyPhase(qubit: nat, phase: Scalar)
      requires Valid()
      modifies this
      ensures Value() == old(Value()).(qreg := Record(old(qreg), PhaseCalls(lib, old(Lay()), qubit, phase)))
    {
      ApplyDiagonalUnitaryMatrix([qubit], [Num(One), phase]);
    }

    /** `apply_phase(qubits, phase)`: the phase on the all-ones basis state. */
    method ApplyPhaseOnQubits(qubits: seq<nat>, phase: Scalar)
      requires Valid()
      modifies this
      ensures Value() == old(Value()).(qreg := Record(old(qreg), DiagonalCalls(lib, old(Lay()), qubits, PhaseDiag(|qubits|, phase))))
    {
      var dim := Pow2(|qubits|);
      var diag := seq(dim, _ => Num(One));
      diag := diag[dim - 1 := phase];
      assert diag == PhaseDiag(|qubits|, phase);
      ApplyDiagonalUnitaryMatrix(qubits, diag);
    }

    /** `apply_gate_u3` */
    method ApplyGateU3(qubit: nat, theta: Angle, phi: Angle, lambda: Angle)
      modifies this
      ensures Value() == old(Value()).(qreg := Record(old(qreg), [U3Call(qubit, theta, phi, lambda)]))
    {
      Invoke([ApplyUnitaryMatrix([qubit], U3Matrix(theta, phi, lambda))]);
    }

    /** `apply_pauli` */
    method ApplyPauli(qubits: seq<nat>, pauli: string)
      modifies this
      ensures Value() == old(Value()).(qreg := Record(old(qreg), PauliCalls(lib, qubits, pauli)))
    {
      var coeff := if CountY(pauli) % 2 == 1 then -1 else 1;
      Invoke([Operations.ApplyPauli(lib.superopQubits(qubits), pauli + pauli, coeff)]);
    }

    /** `apply_matrix` */
    method ApplyMatrix(qubits: seq<nat>, mat: Matrix)
      requires Valid()
      modifies this
      ensures Value() == old(Value()).(qreg := Record(old(qreg), MatrixCalls(lib, old(Lay()), qubits, mat)))
    {
      if mat.rows == 1 {
        ApplyDiagonalUnitaryMatrix(qubits, AsScalars(mat.data));
      } else {
        Invoke([ApplyUnitaryMatrix(qubits, Vectorized(mat))]);
      }
    }

    /** `apply_kraus` */
    method ApplyKraus(qubits: seq<nat>, kmats: seq<Matrix>)
      modifies this
      ensures Value() == old(Value()).(qreg := Record(old(qreg), [ApplySuperopMatrix(qubits, KrausSuperop(kmats))]))
    {
      Invoke([ApplySuperopMatrix(qubits, KrausSuperop(kmats))]);
    }

    /** `apply_gate_statevector` */
    method ApplyGateStatevector(op: Op) returns (outcome: Outcome<Error>)
      requires GateFits(op)
      modifies this
      ensures Reports(WithCalls(old(Value()), StatevectorCalls(old(Lay()), op)), outcome, old(Value()), Value())
    {
      var g := GateCatalog.Lookup(op.name);
      if g == Some(GateCatalog.X) || g == Some(GateCatalog.CX) {
        Invoke([ApplyMcx(op.qubits)]);
      } else if g == Some(GateCatalog.U1) {
        if op.qubits[|op.qubits| - 1] < qreg.numQubits {
          Invoke([ApplyMcphase(op.qubits, ExpI(op.params[0]))]);
        } else {
          Invoke([ApplyMcphase(op.qubits, ConjExpI(op.params[0]))]);
        }
      } else if g == Some(GateCatalog.Y) {
        Invoke([ApplyMcy(op.qubits)]);
      } else if g == Some(GateCatalog.Z) {
        Invoke([ApplyMcphase(op.qubits, Num(MinusOne))]);
      } else {
        return Fail(InvalidGate(op.name));
      }
      outcome := Pass;
    }

    /** The gate switch of `apply_gate`. */
    method ApplySwitch(op: Op, g: GateCatalog.Gate)
      requires Valid() && GateFits(op) && GateCatalog.Lookup(op.name) == Some(g)
      modifies this
      ensures Value() == old(Value()).(qreg := Record(old(qreg), SwitchCalls(lib, old(Lay()), op, g)))
    {
      match g
      case U3 => ApplyGateU3(op.qubits[0], Rad(op.params[0].re), Rad(op.params[1].re), Rad(op.params[2].re));
      case U2 => ApplyGateU3(op.qubits[0], HalfPi, Rad(op.params[0].re), Rad(op.params[1].re));
      case U1 => ApplyPhase(op.qubits[0], ExpI(op.params[0]));
      case CX => Invoke([ApplyCnot(op.qubits[0], op.qubits[1])]);
      case CY => Invoke([ApplyCy(op.qubits[0], op.qubits[1])]);
      case CZ => Invoke([ApplyCphase(op.qubits[0], op.qubits[1], Num(MinusOne))]);
      case CP => Invoke([ApplyCphase(op.qubits[0], op.qubits[1], ExpI(op.params[0]))]);
      case Id =>
      case X => Invoke([ApplyX(op.qubits[0])]);
      case Y => Invoke([ApplyY(op.qubits[0])]);
      case Z => ApplyPhase(op.qubits[0], Num(MinusOne));
      case H => ApplyGateU3(op.qubits[0], HalfPi, Rad(0.0), Pi);
      case S => ApplyPhase(op.qubits[0], Num(ImagUnit));
      case Sdg => ApplyPhase(op.qubits[0], Num(MinusImagUnit));
      case SX => Invoke([ApplyUnitaryMatrix(op.qubits, SXMatrix)]);
      case SXdg => Invoke([ApplyUnitaryMatrix(op.qubits, SXdgMatrix)]);
      case T => ApplyPhase(op.qubits[0], EighthTurn(false));
      case Tdg => ApplyPhase(op.qubits[0], EighthTurn(true));
      case Swap => Invoke([ApplySwap(op.qubits[0], op.qubits[1])]);
      case ECR => Invoke([ApplyUnitaryMatrix(op.qubits, ECRMatrix)]);
      case CCX => Invoke([ApplyToffoli(op.qubits[0], op.qubits[1], op.qubits[2])]);
      case R => Invoke([ApplyUnitaryMatrix(op.qubits, RMatrix(op.params[0], op.params[1]))]);
      case RX => Invoke([ApplyUnitaryMatrix(op.qubits, RotationMatrix(RotX, op.params[0]))]);
      case RY => Invoke([ApplyUnitaryMatrix(op.qubits, RotationMatrix(RotY, op.params[0]))]);
      case RZ => ApplyDiagonalUnitaryMatrix(op.qubits, GeneratedDiag(RzDiag, op.params[0], 2));
      case RXX => Invoke([ApplyUnitaryMatrix(op.qubits, RotationMatrix(RotXX, op.params[0]))]);
      case RYY => Invoke([ApplyUnitaryMatrix(op.qubits, RotationMatrix(RotYY, op.params[0]))]);
      case RZZ => ApplyDiagonalUnitaryMatrix(op.qubits, GeneratedDiag(RzzDiag, op.params[0], 4));
      case RZX => Invoke([ApplyUnitaryMatrix(op.qubits, RotationMatrix(RotZX, op.params[0]))]);
      case Pauli => ApplyPauli(op.qubits, op.stringParams[0]);
    }

    /** `apply_gate` */
    method ApplyGate(op: Op) returns (outcome: Outcome<Error>)
      requires Valid() && GateFits(op)
      modifies this
      ensures Reports(WithCalls(old(Value()), GateEffect(lib, old(Lay()), op)), outcome, old(Value()), Value())
      decreases if AllBelow(op.qubits, qreg.numQubits) then 0 else 1
    {
      if numGlobalQubits > qreg.numQubits && !qreg.globalIndexing {
        var split: (seq<nat>, seq<nat>) := ([], []);
        if IsControlName(op.name) {
          split := lib.inoutCtrlQubits(op, qreg.numQubits);
        }
        if |split.1| > 0 {
          var nq := qreg.numQubits;
          assert SplitsByLocality(op, nq, lib.inoutCtrlQubits(op, nq));
          var mask := ChunkMask(split.1, nq);
          var ctrlChunk := RowActive(qreg.chunkIndex, mask);
          var ctrlChunkSp := ColumnActive(qreg.chunkIndex, mask, numGlobalQubits, nq);
          if !ctrlChunk && !ctrlChunkSp {
            return Pass;
          }
          var newOp := lib.correctGateOpInChunk(op, split.0);
          if ctrlChunk && ctrlChunkSp {
            assert split.1[0] in op.qubits;
            outcome := ApplyGate(newOp);
          } else if ctrlChunk {
            outcome := ApplyGateStatevector(newOp);
          } else {
            var shifted := OffsetQubits(newOp.qubits, nq);
            outcome := ApplyGateStatevector(newOp.(qubits := shifted));
          }
          return;
        }
      }
      match GateCatalog.Lookup(op.name)
      case None =>
        return Fail(InvalidGate(op.name));
      case Some(g) =>
        ApplySwitch(op, g);
        outcome := Pass;
    }

    /** `measure_reset_update` */
    method MeasureResetUpdate(qubits: seq<nat>, finalState: nat, measState: nat, measProb: real)
      requires Valid() && finalState < Pow2(|qubits|) && measState < Pow2(|qubits|)
      modifies this
      ensures Value() == old(Value()).(qreg := Record(old(qreg), MeasureResetCalls(lib, old(Lay()), qubits, finalState, measState, measProb)))
    {
      ghost var lay := Lay();
      ghost var before := qreg;
      var dim := Pow2(|qubits|);
      var mdiag := seq(dim, _ => Num(Zero));
      mdiag := mdiag[measState := InvSqrt(measProb)];
      assert mdiag == ProjectorDiag(|qubits|, measState, measProb);
      ApplyDiagonalUnitaryMatrix(qubits, mdiag);
      ghost var projected := qreg;
      if finalState != measState {
        if |qubits| == 1 {
          Invoke([ApplyX(qubits[0])]);
        } else {
          var perm := SwapPermutation(dim, finalState, measState);
          Invoke([ApplyUnitaryMatrix(qubits, Explicit(perm))]);
        }
        assert qreg.calls == before.calls + MeasureResetCalls(lib, lay, qubits, finalState, measState, measProb);
      }
    }

    /** `apply_measure`: `probs` are the outcome probabilities the buffer reports
        and `outcome` the index the random number generator draws from them. */
    method ApplyMeasure(qubits: seq<nat>, cmemory: seq<nat>, cregister: seq<nat>, probs: seq<real>, outcome: nat)
      requires Valid() && |probs| == Pow2(|qubits|) && outcome < |probs|
      modifies this
      ensures Value() == Machine(Record(old(qreg), MeasureCalls(lib, old(Lay()), qubits, probs, outcome)), old(numGlobalQubits),
                                 old(events) + [MeasureStored(Int2Reg(outcome, |qubits|), cmemory, cregister)])
    {
      MeasureResetUpdate(qubits, outcome, outcome, probs[outcome]);
      Emit(MeasureStored(Int2Reg(outcome, |qubits|), cmemory, cregister));
    }

    /** `apply_reset` */
    method ApplyReset(qubits: seq<nat>)
      modifies this
      ensures Value() == old(Value()).(qreg := Record(old(qreg), [Operations.ApplyReset(qubits)]))
    {
      Invoke([Operations.ApplyReset(qubits)]);
    }

    /** `sample_measure`: `samples` are the basis indices the buffer draws for the
        shots; each is read at the requested qubits. */
    method SampleMeasure(qubits: seq<nat>, samples: seq<nat>) returns (all: seq<seq<nat>>)
      requires AllBelow(qubits, qreg.numQubits)
      ensures |all| == |samples|
      ensures forall s :: 0 <= s < |all| ==>
                |all[s]| == |qubits| &&
                forall j :: 0 <= j < |qubits| ==> all[s][j] == BitValue(samples[s], qubits[j])
    {
      all := SampleRegisters(samples, qubits, qreg.numQubits);
    }

    /** `apply_save_probs`, for `save_probs` and `save_probs_ket`. */
    method ApplySaveProbs(op: Op, probs: seq<real>)
      requires |op.stringParams| >= 1
      modifies this
      ensures Value() == old(Value()).(events := old(events) +
                [DataSaved(op.stringParams[0], if op.opType == SaveProbsKet then ProbabilitiesKet(probs) else Probabilities(probs),
                           op.opType, op.saveType)])
    {
      if op.opType == SaveProbsKet {
        Emit(DataSaved(op.stringParams[0], ProbabilitiesKet(probs), op.opType, op.saveType));
      } else {
        Emit(DataSaved(op.stringParams[0], Probabilities(probs), op.opType, op.saveType));
      }
    }

    /** `apply_save_amplitudes_sq`: `probability` is the buffer's probability of a
        basis index. */
    method ApplySaveAmplitudesSq(op: Op, probability: nat -> real) returns (outcome: Outcome<Error>)
      requires op.intParams != [] ==> |op.stringParams| >= 1
      modifies this
      ensures outcome == Pass <==> op.intParams != []
      ensures outcome == Pass ==>
                Value() == old(Value()).(events := old(events) +
                  [DataSaved(op.stringParams[0], AmplitudesSquared(AmplitudesOf(probability, op.intParams)), op.opType, op.saveType)])
      ensures outcome != Pass ==> outcome == Fail(EmptyAmplitudeParams) && Value() == old(Value())
    {
      if op.intParams == [] {
        return Fail(EmptyAmplitudeParams);
      }
      var amps := SquaredAmplitudes(probability, op.intParams);
      assert amps == AmplitudesOf(probability, op.intParams);
      Emit(DataSaved(op.stringParams[0], Operations.AmplitudesSquared(amps), op.opType, op.saveType));
      outcome := Pass;
    }

    /** `reduced_density_matrix`: `trace` and `vector` are what the buffer reports. */
    method ReducedDensityMatrix(qubits: seq<nat>, lastOp: bool, trace: Complex, vector: seq<Complex>) returns (reduced: Saved)
      requires ReducedReadable(lib, qubits, qreg.numQubits, vector)
      modifies this
      ensures reduced == ReducedValue(lib, qubits, old(qreg).numQubits, lastOp, trace, vector)
      ensures Value() == old(Value()).(qreg := Record(old(qreg), ReducedCalls(qubits, old(qreg).numQubits, lastOp)))
    {
      if qubits == [] {
        return TraceOnly(trace);
      }
      var sorted := SortedCopy(qubits);
      if |qubits| == qreg.numQubits && qubits == sorted {
        if lastOp {
          Invoke([MoveToMatrix]);
        }
        return WholeMatrix(lastOp);
      }
      var n := qreg.numQubits;
      var dim := Pow2(|qubits|);
      var entries := AccumulateBlocks(vector, lib.indexes, lib.superopQubits(qubits), lib.superopQubits(sorted), n, |qubits|);
      ghost var b := ReducedBlocks(lib, qubits, sorted, n);
      assert entries == seq(b.vdim, i requires 0 <= i < b.vdim => BlockSum(vector, lib.indexes, b, i, b.count));
      reduced := Reduced(Matrix(dim, dim, entries));
    }

    /** `apply_save_density_matrix` */
    method ApplySaveDensityMatrix(op: Op, lastOp: bool, trace: Complex, vector: seq<Complex>)
      requires |op.stringParams| >= 1 && ReducedReadable(lib, op.qubits, qreg.numQubits, vector)
      modifies this
      ensures Value() == Machine(Record(old(qreg), ReducedCalls(op.qubits, old(qreg).numQubits, lastOp)), old(numGlobalQubits),
                                 old(events) + [DataSaved(op.stringParams[0], ReducedValue(lib, op.qubits, old(qreg).numQubits, lastOp, trace, vector),
                                                          op.opType, op.saveType)])
    {
      var reduced := ReducedDensityMatrix(op.qubits, lastOp, trace, vector);
      Emit(DataSaved(op.stringParams[0], reduced, op.opType, op.saveType));
    }

    /** `apply_save_state`: only the full state can be saved, under the default key
        when asked, always averaged, moved out on the last operation. */
    method ApplySaveState(op: Op, lastOp: bool) returns (outcome: Outcome<Error>)
      requires |op.qubits| == qreg.numQubits ==> |op.stringParams| >= 1
      modifies this
      ensures outcome == Pass <==> |op.qubits| == old(qreg).numQubits
      ensures outcome == Pass ==>
                Value() == Machine(Record(old(qreg), if lastOp then [MoveToMatrix] else []), old(numGlobalQubits),
                                   old(events) + [DataSaved(SaveKey(op.stringParams[0]), WholeMatrix(lastOp), SaveDensmat, RemapSaveType(op.saveType))])
      ensures outcome != Pass ==> outcome == Fail(NotFullState(op.name)) && Value() == old(Value())
    {
      if |op.qubits| != qreg.numQubits {
        return Fail(NotFullState(op.name));
      }
      var saveType := RemapSaveType(op.saveType);
      var key := if op.stringParams[0] == "_method_" then "density_matrix" else op.stringParams[0];
      if lastOp {
        Invoke([MoveToMatrix]);
      } else {
        Invoke([]);
      }
      Emit(DataSaved(key, WholeMatrix(lastOp), SaveDensmat, saveType));
      outcome := Pass;
    }

    /** `apply_op`: `input` holds what the operation reads from the classical
        register, the random number generator and the buffer. */
    method ApplyOp(op: Op, input: Reads, finalOps: bool) returns (outcome: Outcome<Error>)
      requires Valid() && OpFits(Value(), op) && ReadsFit(lib, Value(), op, input)
      modifies this
      ensures Reports(Step(lib, old(Value()), op, input, finalOps), outcome, old(Value()), Value())
    {
      if !input.conditional {
        return Pass;
      }
      outcome := Pass;
      match op.opType
      case Barrier =>
      case QErrorLoc =>
      case Reset => ApplyReset(op.qubits);
      case Measure => ApplyMeasure(op.qubits, op.memory, op.registers, input.probs, input.outcome);
      case BFunc => Emit(BFuncApplied(op));
      case ROError => Emit(ROErrorApplied(op));
      case GateOp => outcome := ApplyGate(op);
      case MatrixOp => ApplyMatrix(op.qubits, op.mats[0]);
      case DiagonalMatrix => ApplyDiagonalUnitaryMatrix(op.qubits, AsScalars(op.params));
      case Superop => Invoke([ApplySuperopMatrix(op.qubits, Vectorized(op.mats[0]))]);
      case Kraus => ApplyKraus(op.qubits, op.mats);
      case SetStatevec => Invoke([InitializeFromVector(op.params)]);
      case SetDensmat => Invoke([InitializeFromMatrix(op.mats[0])]);
      case SaveExpval => Emit(ExpvalSaved(op));
      case SaveExpvalVar => Emit(ExpvalSaved(op));
      case SaveState => outcome := ApplySaveState(op, finalOps);
      case SaveDensmat => ApplySaveDensityMatrix(op, finalOps, input.trace, input.vector);
      case SaveProbs => ApplySaveProbs(op, input.probs);
      case SaveProbsKet => ApplySaveProbs(op, input.probs);
      case SaveAmpsSq => outcome := ApplySaveAmplitudesSq(op, input.probability);
      case Jump => outcome := Fail(InvalidInstruction(op.name));
      case Mark => outcome := Fail(InvalidInstruction(op.name));
      case OtherType => outcome := Fail(InvalidInstruction(op.name));
    }
  }
}
