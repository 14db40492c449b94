# Density-matrix simulator state, modelled in Dafny

This project models the density-matrix `State` of the Aer simulator
(`src/simulators/density_matrix/densitymatrix_state.hpp`). The state owns a
vectorised density-matrix buffer `qreg_` and applies typed operations to it.
These include gates, matrices, diagonals, superoperators, Kraus channels,
measurement, reset, initialisation and the save instructions.

When the full state is split into chunks whose kernels see only local qubits,
the state rewrites operations that cross the local/global boundary:

- A controlled gate with global controls is skipped, applied on both sides, or
  applied to the ket or the bra side only. The chunk index decides which.
- A diagonal that touches global qubits is cut into its row and column blocks.
  It is then applied once on the doubled local qubits.

The numeric buffer is not part of this model. `Operations.Buffer` records every
primitive the state invokes on it, with its arguments. The model therefore
states exactly which primitives each operation invokes, in which order, and on
which qubits. It also states which values are handed to the classical register
and the result sink (`Operations.Event`) and which operations are rejected
(`Operations.Error`).

Modules:

- `Common`: options, results, exact complex numbers, powers of two.
- `Bits`: the bitwise operations of the source, on unbounded naturals.
- `GateCatalog`: the gate table `gateset_`.
- `Operations`: operations, buffer calls, events, errors and the collaborators.
- `ChunkAddressing`: the control masks and the qubit renumbering at chunk boundaries.
- `Measurement`: the projector, the basis-swapping permutation, and `int2reg` with the sampling loop.
- `PartialTrace`: the cases of `reduced_density_matrix` and the block accumulation of its helper.
- `SaveData`: the key and subtype rules of `save_state`.
- `GateHelpers`: the Pauli conjugation sign and the multi-qubit phase diagonal.
- `Engine`: the effect of every operation, as functions of the state before it, with the lemmas about them.
- `DensityMatrixState`: the class `State`. Its methods update the buffer and the event log in place and are proved against `Engine`.

Two behaviours of the code are worth knowing:

- The name test of the chunk path is case sensitive. `CX` is never split at a
  chunk boundary, while `cx` is (`Engine.UpperCaseCXNotSplit`).
- `measure_reset_update` is only reached with equal final and measured states
  in this file, so its X and permutation branches are never taken here. They
  are modelled and proved all the same.

`measure_reset_update` (densitymatrix_state.hpp:945-986) never checks the
outcome's probability `meas_prob`: the factor `1/sqrt(p)` is applied for any p.
The model keeps that factor symbolic (`Operations.InvSqrt`).

## Model

| member | source | states |
|---|---|---|
| Bits.BitOrBit | src/simulators/density_matrix/densitymatrix_state.hpp:651 | bit k of `a \| b` is set exactly when it is set in a or in b |
| Bits.ShiftRightBit | src/simulators/density_matrix/densitymatrix_state.hpp:656-658 | bit k of `x >> s` is bit k+s of x |
| Bits.CoversMask | src/simulators/density_matrix/densitymatrix_state.hpp:653-659 | `(x & m) == m` exactly when every bit set in m is set in x |
| Bits.LowBitsDetermine | src/simulators/density_matrix/densitymatrix_state.hpp:966-969 | two indices below 2^k that agree on their k low bits are equal |
| Bits.AllOnesBelow | src/simulators/density_matrix/densitymatrix_state.hpp:894-896 | below 2^k, 2^k-1 is the one index with all k low bits set |
| GateCatalog.CanonicalNameRoundTrip | src/simulators/density_matrix/densitymatrix_state.hpp:277-320 | every gate of the enumeration is reached from the table by its canonical name |
| GateCatalog.AliasesResolve | src/simulators/density_matrix/densitymatrix_state.hpp:277-320 | p/u1, u/U/u3, x90/sx, cu1/cp, delay/id and CX/cx resolve to the same gate |
| GateCatalog.KnownNamesAreOpSetNames | src/simulators/density_matrix/densitymatrix_state.hpp:50-53 | a name is in the table exactly when it is among the gate names the state advertises |
| GateCatalog.OnlyListedAliases | src/simulators/density_matrix/densitymatrix_state.hpp:277-320 | two different names resolve to the same gate only when they form a listed alias pair |
| GateCatalog.Lookup | src/simulators/density_matrix/densitymatrix_state.hpp:277-320 | the `gateset_` table: each listed name maps to its gate, every other name to none (its properties are the four rows above) |
| ChunkAddressing.MaskBits | src/simulators/density_matrix/densitymatrix_state.hpp:649-652 | bit k of the control mask is set exactly when some global control sits at chunk bit k |
| ChunkAddressing.ChunkMask | src/simulators/density_matrix/densitymatrix_state.hpp:649-652 | the mask loop ORs `1 << (q - nq)` over the global controls; its bit k is set exactly when some control maps to k |
| ChunkAddressing.MaskWithin | src/simulators/density_matrix/densitymatrix_state.hpp:649-659 | every mask bit is set in x exactly when every control's bit is set in x |
| ChunkAddressing.RowActiveIff | src/simulators/density_matrix/densitymatrix_state.hpp:653-655 | the row test passes exactly when every global control is 1 in the row bits of the chunk index |
| ChunkAddressing.ColumnActiveIff | src/simulators/density_matrix/densitymatrix_state.hpp:656-660 | the column test passes exactly when every global control is 1 in the column bits, ng-nq above |
| ChunkAddressing.OffsetQubits | src/simulators/density_matrix/densitymatrix_state.hpp:670-671 | the in-place loop adds nq to every qubit; local qubits land in [nq, 2nq) |
| ChunkAddressing.RowQubits | src/simulators/density_matrix/densitymatrix_state.hpp:860-865 | global qubits move up by ng-nq and local ones stay; a result is at least ng exactly when its qubit was global |
| ChunkAddressing.RowQubitUsesColumnBit | src/simulators/density_matrix/densitymatrix_state.hpp:860-865 | a moved global qubit addresses the chunk-index bit that the column mask tests for it |
| ChunkAddressing.DoubledQubits | src/simulators/density_matrix/densitymatrix_state.hpp:870-875 | `qubits_chunk` is the local qubits followed by the same qubits plus nq; the first half is ket-side, the second bra-side |
| Measurement.ProjectorDiag | src/simulators/density_matrix/densitymatrix_state.hpp:966-969 | the projector diagonal has 2^k entries |
| Measurement.ProjectorKeepsOutcome | src/simulators/density_matrix/densitymatrix_state.hpp:952-969 | an entry is nonzero exactly at the measured outcome, and there it is 1/sqrt(p) |
| Measurement.SwapPermutation | src/simulators/density_matrix/densitymatrix_state.hpp:972-981 | the fill loop builds the dim x dim 0/1 matrix that swaps the final and measured states and fixes every other basis state |
| Measurement.SwapPermutationOfSwaps | src/simulators/density_matrix/densitymatrix_state.hpp:974-981 | the closed form of `perm` maps column c to row Swapped(c) |
| Measurement.SwapsBasisUnique | src/simulators/density_matrix/densitymatrix_state.hpp:974-981 | two vectors with the same basis map are equal |
| Measurement.PermutationRowsAndColumns | src/simulators/density_matrix/densitymatrix_state.hpp:974-981 | each row and each column holds exactly one 1, and every other entry is 0 |
| Measurement.PermutationSwapsTwo | src/simulators/density_matrix/densitymatrix_state.hpp:976-981 | the final and measured states are exchanged, and every other basis state is fixed |
| Measurement.PermutationSymmetric | src/simulators/density_matrix/densitymatrix_state.hpp:974-981 | the permutation matrix is symmetric |
| Measurement.PermutationSelfInverse | src/simulators/density_matrix/densitymatrix_state.hpp:974-983 | the basis map sends Swapped(c) back to c |
| Measurement.DigitsBits | src/simulators/density_matrix/densitymatrix_state.hpp:920 | the base-2 digits of n are its bits, least significant first, and no bit is set beyond them |
| Measurement.Int2Reg | src/simulators/density_matrix/densitymatrix_state.hpp:920 | `Utils::int2reg(n, 2, minlen)`: the base-2 digits of n, padded with zeros to minlen (its properties are in the Int2RegBits row) |
| Measurement.Int2RegBits | src/simulators/density_matrix/densitymatrix_state.hpp:1005-1009 | `int2reg(n, 2, minlen)` has at least minlen entries, and entry k is bit k of n |
| Measurement.SampleRegisters | src/simulators/density_matrix/densitymatrix_state.hpp:1003-1013 | one register per shot, each as long as the qubit list; entry j is bit `qubits[j]` of the sampled index |
| PartialTrace.Insert | src/simulators/density_matrix/densitymatrix_state.hpp:580-581 | insertion keeps the list sorted and adds exactly one occurrence of the element |
| PartialTrace.SortedCopy | src/simulators/density_matrix/densitymatrix_state.hpp:580-581 | `qubits_sorted` is sorted and a permutation of `qubits` |
| PartialTrace.SortedCopyFixed | src/simulators/density_matrix/densitymatrix_state.hpp:583-584 | `qubits == qubits_sorted` holds exactly when the list is already sorted |
| PartialTrace.ReductionOf | src/simulators/density_matrix/densitymatrix_state.hpp:573-594 | the branch `reduced_density_matrix` takes: the trace, the whole matrix, or the helper on the sorted copy (its properties are in the WholeStateIsIdentityOrder and ReducedCases rows) |
| PartialTrace.WholeStateIsIdentityOrder | src/simulators/density_matrix/densitymatrix_state.hpp:573-594 | for distinct in-range qubits, the whole matrix is returned exactly for 0..n-1; every other non-empty list goes to the helper |
| PartialTrace.AccumulateBlocks | src/simulators/density_matrix/densitymatrix_state.hpp:598-629 | 4^N entries, each the sum of `vmat[indexes(...)[i]]` over the 2^(n-N) blocks at offsets k·(END+1) |
| SaveData.RemapSaveTypeProperties | src/simulators/density_matrix/densitymatrix_state.hpp:544-556 | single becomes average and c_single becomes c_average; other subtypes are unchanged; the remap is idempotent |
| SaveData.SaveKeyProperties | src/simulators/density_matrix/densitymatrix_state.hpp:558-560 | `_method_` becomes `density_matrix`; any other key is kept; the result is never `_method_` |
| SaveData.RemapSaveType | src/simulators/density_matrix/densitymatrix_state.hpp:544-556 | the subtype switch of `apply_save_state` (its properties are in the RemapSaveTypeProperties row) |
| SaveData.SaveKey | src/simulators/density_matrix/densitymatrix_state.hpp:558-560 | the key rule of `apply_save_state` (its properties are in the SaveKeyProperties row) |
| GateHelpers.PauliCoeff | src/simulators/density_matrix/densitymatrix_state.hpp:904 | the coefficient is +1 or -1 |
| GateHelpers.PauliCoeffIsConjugationSign | src/simulators/density_matrix/densitymatrix_state.hpp:902-906 | the coefficient is the product over the letters of the sign each contributes to P ⊗ P* (-1 for each Y) |
| GateHelpers.PauliCoeffConcat | src/simulators/density_matrix/densitymatrix_state.hpp:904 | the coefficient of a concatenated string is the product of the coefficients |
| GateHelpers.PhaseDiag | src/simulators/density_matrix/densitymatrix_state.hpp:894-898 | the diagonal has 2^k entries |
| GateHelpers.PhaseOnAllOnes | src/simulators/density_matrix/densitymatrix_state.hpp:894-898 | the phase sits exactly on the basis state with all k qubits 1; every other entry is 1 |
| GateHelpers.SinglePhaseIsOneQubitCase | src/simulators/density_matrix/densitymatrix_state.hpp:886-898 | the single-qubit `apply_phase` is the k = 1 case of the multi-qubit one |
| Engine.GlobalControls | src/simulators/density_matrix/densitymatrix_state.hpp:640-647 | `qubits_out` holds only global qubits, each an operand of the gate; both clauses carry over the first conjunct of `Operations.LibOk` (`SplitsByLocality`), which this model assumes of `get_inout_ctrl_qubits` |
| Engine.DiagonalCalls | src/simulators/density_matrix/densitymatrix_state.hpp:845-883 | the calls `apply_diagonal_unitary_matrix` makes, by chunk layout (its properties are in the DiagonalSplit row) |
| Engine.SwitchCalls | src/simulators/density_matrix/densitymatrix_state.hpp:684-791 | the primitive each gate of the table invokes in the switch of `apply_gate` (its properties are in the AliasesAgree and UpperCaseCXNotSplit rows) |
| Engine.GateEffect | src/simulators/density_matrix/densitymatrix_state.hpp:637-792 | `apply_gate`: the chunk-boundary dispatch, then the table lookup and switch (its properties are in the ChunkedGateDispatch, GateErrorsAreInvalidGate and UnknownGateRejected rows) |
| Engine.Step | src/simulators/density_matrix/densitymatrix_state.hpp:416-480 | `apply_op`: the conditional check, then the dispatch on the op type (its properties are in the StepErrors, StepAppends, MeasureEffect and SaveStateEffect rows) |
| Engine.NoGlobalAmongLocal | src/simulators/density_matrix/densitymatrix_state.hpp:664-666 | the op rewritten onto local qubits has no global control, so the recursive call is not split again |
| Engine.ChunkedGateDispatch | src/simulators/density_matrix/densitymatrix_state.hpp:640-676 | with global controls: no side active means nothing is done; both sides means the switch on the rewritten op; the row side only means the state-vector path; the column side only means the state-vector path with qubits plus nq |
| Engine.OneSidedPhase | src/simulators/density_matrix/densitymatrix_state.hpp:806-814 | the one-sided u1 is exp(iλ) on ket qubits and its conjugate on bra qubits |
| Engine.StatevectorGates | src/simulators/density_matrix/densitymatrix_state.hpp:795-826 | the state-vector path accepts exactly x, cx, u1, y and z; anything else is an invalid gate |
| Engine.GateErrorsAreInvalidGate | src/simulators/density_matrix/densitymatrix_state.hpp:637-792 | every error of `apply_gate` is an invalid-gate error |
| Engine.UnknownGateRejected | src/simulators/density_matrix/densitymatrix_state.hpp:680-683 | a name outside the table is rejected when the chunk path does not take the gate |
| Engine.AliasesAgree | src/simulators/density_matrix/densitymatrix_state.hpp:680-791 | off chunk boundaries, two names of the same gate invoke the same primitives |
| Engine.UpperCaseCXNotSplit | src/simulators/density_matrix/densitymatrix_state.hpp:644-647 | `CX` always becomes one `apply_cnot`, even with a global control |
| Engine.DiagonalSplit | src/simulators/density_matrix/densitymatrix_state.hpp:845-883 | a diagonal is passed through unless it crosses the chunk boundary; then one general diagonal on the local qubits and the same qubits plus nq |
| Engine.MeasureResetShape | src/simulators/density_matrix/densitymatrix_state.hpp:945-986 | project first; move only when final != measured, by X on one qubit and by the swap permutation on several |
| Engine.MeasureEffect | src/simulators/density_matrix/densitymatrix_state.hpp:914-922 | a measurement only projects on the sampled outcome and stores the outcome's bits, one per measured qubit |
| Engine.StepErrors | src/simulators/density_matrix/densitymatrix_state.hpp:416-480 | a false condition does nothing; of the state's own checks (a throwing buffer primitive is not modelled), an op throws exactly for an unhandled kind, a rejected gate, a partial save_state or an empty save_amplitudes_sq; invalid-instruction is thrown exactly for kinds outside the op set and for jump and mark |
| Engine.StepAppends | src/simulators/density_matrix/densitymatrix_state.hpp:416-480 | an op keeps the chunk layout and only appends buffer calls and events; pure save and register ops leave the buffer alone |
| Engine.ReducedCases | src/simulators/density_matrix/densitymatrix_state.hpp:570-595 | no qubit gives the trace; 0..n-1 gives the whole matrix, moved exactly on the last op; otherwise a 2^N x 2^N matrix of block sums |
| Engine.SaveStateEffect | src/simulators/density_matrix/densitymatrix_state.hpp:537-567 | save_state stores the whole matrix under a non-placeholder key with a non-single subtype, and moves it exactly on the last op |
| DensityMatrixState.SquaredAmplitudes | src/simulators/density_matrix/densitymatrix_state.hpp:509-515 | entry i is the probability of basis index `int_params[i]` |
| DensityMatrixState.State.InitializeQreg | src/simulators/density_matrix/densitymatrix_state.hpp:330-335 | the buffer is resized to n qubits and initialised |
| DensityMatrixState.State.InitializeQregFrom | src/simulators/density_matrix/densitymatrix_state.hpp:350-358 | a buffer of the right size is adopted; one of another size is rejected and the state is unchanged |
| DensityMatrixState.State.ApplyDiagonalUnitaryMatrix | src/simulators/density_matrix/densitymatrix_state.hpp:845-883 | the buffer receives `Engine.DiagonalCalls` |
| DensityMatrixState.State.ApplyPhase | src/simulators/density_matrix/densitymatrix_state.hpp:886-891 | the diagonal (1, phase) on one qubit |
| DensityMatrixState.State.ApplyPhaseOnQubits | src/simulators/density_matrix/densitymatrix_state.hpp:894-898 | the diagonal of 2^k ones with the phase in the last entry |
| DensityMatrixState.State.ApplyGateU3 | src/simulators/density_matrix/densitymatrix_state.hpp:838-842 | one u3 unitary on one qubit |
| DensityMatrixState.State.ApplyPauli | src/simulators/density_matrix/densitymatrix_state.hpp:901-907 | the doubled string on the superoperator qubits, with the coefficient (-1)^(number of Y) |
| DensityMatrixState.State.ApplyMatrix | src/simulators/density_matrix/densitymatrix_state.hpp:829-835 | a one-row matrix goes through the diagonal path; any other matrix is one unitary |
| DensityMatrixState.State.ApplyKraus | src/simulators/density_matrix/densitymatrix_state.hpp:1021-1025 | one superoperator built from the Kraus matrices |
| DensityMatrixState.State.ApplyGateStatevector | src/simulators/density_matrix/densitymatrix_state.hpp:795-826 | reports `Engine.StatevectorCalls`; the state is unchanged when it throws |
| DensityMatrixState.State.ApplySwitch | src/simulators/density_matrix/densitymatrix_state.hpp:684-791 | each gate of the table invokes the primitives of `Engine.SwitchCalls` |
| DensityMatrixState.State.ApplyGate | src/simulators/density_matrix/densitymatrix_state.hpp:637-792 | reports `Engine.GateEffect`; the state is unchanged when it throws |
| DensityMatrixState.State.MeasureResetUpdate | src/simulators/density_matrix/densitymatrix_state.hpp:945-986 | the buffer receives `Engine.MeasureResetCalls` |
| DensityMatrixState.State.ApplyMeasure | src/simulators/density_matrix/densitymatrix_state.hpp:914-922 | project on the sampled outcome, then store `int2reg(outcome)` with the memory and register slots |
| DensityMatrixState.State.ApplyReset | src/simulators/density_matrix/densitymatrix_state.hpp:930-932 | one reset on the buffer |
| DensityMatrixState.State.SampleMeasure | src/simulators/density_matrix/densitymatrix_state.hpp:989-1014 | one register per shot; entry j is bit `qubits[j]` of the sampled index |
| DensityMatrixState.State.ApplySaveProbs | src/simulators/density_matrix/densitymatrix_state.hpp:487-498 | the probabilities are saved, as a ket map for save_probs_ket |
| DensityMatrixState.State.ApplySaveAmplitudesSq | src/simulators/density_matrix/densitymatrix_state.hpp:501-519 | empty params are rejected with the state unchanged; otherwise one probability per requested index is saved |
| DensityMatrixState.State.ReducedDensityMatrix | src/simulators/density_matrix/densitymatrix_state.hpp:570-630 | returns `Engine.ReducedValue` and moves the matrix out only in the whole-state case on the last op |
| DensityMatrixState.State.ApplySaveDensityMatrix | src/simulators/density_matrix/densitymatrix_state.hpp:528-534 | the reduced matrix is saved under the op's key |
| DensityMatrixState.State.ApplySaveState | src/simulators/density_matrix/densitymatrix_state.hpp:537-567 | a partial qubit list is rejected with the state unchanged; otherwise the whole matrix is saved under the remapped key and subtype |
| DensityMatrixState.State.ApplyOp | src/simulators/density_matrix/densitymatrix_state.hpp:416-480 | reports `Engine.Step`; the state is unchanged when it throws |

## Left out

- The numeric buffer `QV::DensityMatrix` is not part of this model. Its primitives are recorded as `Operations.Call` values and never evaluated. So the model says nothing about the resulting density matrix, and the equivalence of the one-sided and two-sided chunk paths is not stated.
- `superop_qubits`, `QV::indexes`, `Chunk::get_inout_ctrl_qubits`, `Chunk::correct_gate_op_in_chunk` and `Chunk::block_diagonal_matrix` are not part of this model. They are function-valued fields of `Operations.Collaborators`. `Operations.LibOk` lists what the call sites rely on of them. Among these, `LibOk` assumes that `correct_gate_op_in_chunk` returns an op that still carries the operands its gate reads, also when every operand of a controlled gate is global and the rewritten op has no qubits; the source then hands that op to `apply_gate_statevector` (densitymatrix_state.hpp:664-676), whose kernels read `qubits[0]`, and what happens there is not modelled.
- Values the state reads are parameters: `check_conditional`, `probabilities`, `probability`, `trace`, `vector`, and the samples of `qreg_.sample_measure`. So are the random draws, passed as the drawn outcome.
- Calls into the classical register and the result sink are recorded as `Operations.Event` values. `save_expval` is computed by the base class and is recorded as one event.
- Floating point is not modelled. Complex entries are exact pairs of reals. `exp(iθ)`, `1/sqrt(p)`, `(1±i)/√2` and the matrix generators (`u3`, `rx`, `rzz_diag`, `kraus_superop`, ...) are symbolic `Operations.Scalar` or `Operations.MatrixArg` values. `vec2ket` formatting and JSON chopping are left out.
- Integers are unbounded. The 64-bit width of `uint_t`, and shifts of 64 or more in `1ull << (q - nq)`, are not modelled.
- On an empty op name, `op.name[0]` reads the string terminator. The model treats such a name as not a control name.
- OpenMP parallel loops run sequentially in the model. `initialize_omp`, `set_config`, `allocate` and `required_memory_mb` are configuration and memory plumbing and are left out.
- `Engine.OpFits`: the source indexes `mats[0]`, `string_params[0]` and the operand lists without checks. The model requires them to be present instead of modelling out-of-range reads. For save_density_matrix it also requires at most as many qubits as the buffer holds: with more, `num_qubits() - N` in `reduced_density_matrix_helper` (densitymatrix_state.hpp:609) wraps around as an unsigned subtraction, and that case is not modelled.
- `Engine.ReadsFit`: the probabilities must cover the 2^k outcomes, and the vector every index the partial trace reads.
- `DensityMatrixState.State.SampleMeasure`: requires the qubits to be in range, which the source assumes without checking.
- `DensityMatrixState.State.constructor`: sets the fields that the base class and `allocate` set in the source.
- `Measurement.PermutationSelfInverse`: states that the permutation is self-inverse on its basis map, not as the matrix product P·P = I, because products of real matrices are not modelled.
