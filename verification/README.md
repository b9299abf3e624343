# pennylane_ls devices in Dafny

This project models the deterministic core of the pennylane_ls plugins. The
plugins run PennyLane circuits on remote cold-atom simulators: a fermion
tweezer device, a single-qudit device and a multi-qudit device. The model covers:

- **Operation catalogs.** Every gate class turns its wires and parameters into
  an instruction tuple `(opcode, wire-list, param-list)`. Angles are sent as
  `θ % 2π`. The qudit `Load` gate also sets the qudit dimension to `par[0] + 1`.
  Observables are sample transforms: the identity, `s - qdim/2`, and
  `(s - qdim/2)^2`. Modules: `FermionOps`, `SingleQuditOps`, `MultiQuditOps`
  (the catalog the multi-qudit device imports), `MultiQuditOpsSnake` (the
  newer catalog in `multi_qudit_ops.py`), and `QuditGates` (gate shapes the
  three qudit catalogs share).
- **Device state and instruction accumulation.** The base class is `Django`.
  Its `Payload` is the `job_payload` with its `experiment_0` instruction list,
  and `AppendEach` appends to that list. The device classes are
  `Fermion.FermionDevice`, `SingleQudit.SingleQuditDevice` and
  `MultiQudit.MultiQuditDevice`. Each holds its `DjangoDevice` as `base`, and
  their methods update `job_id`, `qdim`, `_samples` and the payload in place.
  The contracts state which instructions are appended, in what order, and
  what else changes. As written, only the multi-qudit device has a
  `pre_apply` that installs the experiment. The fermion and single-qudit
  devices keep the constructor's empty dictionary, so their first gate
  raises KeyError("experiment_0") (see Findings). The model adds the missing
  `PreApply` to both, in the multi-qudit form. The accumulation contracts
  hold for any payload, and gates accumulate once an experiment is
  installed.
- **Result decoding.** `ResultDecode` covers `str.split()` and `int()`. It
  defines the shots × wires decode as a function, `DecodeMemory`. The nested
  loops over a zeroed `array2`, `DecodeShots`, are proved to compute it. It
  also has the round trip with the records a server writes.
- **Post-processing.** `Fermion` has the Identity short-circuit, the PauliZ
  transform `1 - 2s` and the column means and variances. `Stats` holds the
  mean and population variance. `ProbabilityTable` is the probability table:
  - each pattern's big-endian index;
  - the `zfill` keys, with the index ↔ key round trip;
  - the counting loop over the distinct observed patterns;
  - for 0/1 samples, the proof that the entries sum to 1.

The network is modelled as inputs:
- the job id the server assigns (`newJobId`);
- the status string `check_job_status` reports (`status`, one value per call);
- the decoded reply of `get_job_result/` (`JobResult`: without a `"results"`
  entry, or with its `memory` list of per-shot strings).

`blocking=True` makes a device wait for the job (`wait_till_done`) and then
fetch.

Where the tests and the code disagree, the model follows the code:
- `tests/test_multi_qudit.py:33` expects the operation names of
  `multi_qudit_ops.py`. `multi_qudit_device.py:14-42` imports `MultiQuditOps.py`
  and offers its names. `MultiQudit.Catalog` states the names the code offers.
- `tests/test_fermion_device.py:71-91` expects one value per wire of an 8-wire
  device. As written, the base class gets a single wire (see Findings).

The multi-qudit `sample` and `expval` never look at the observable
(`multi_qudit_device.py:123-177`). `Lz` and `Z` therefore both give the raw
column means of the counts, and `qdim` is recorded but never read.

## Model

| member | source | states |
|---|---|---|
| Common.Measure | pennylane_ls/fermion_device.py:185 | the measurement tuple has opcode "measure", the one wire, and no parameters |
| Common.Wrap | pennylane_ls/FermionOps.py:58-59 | `θ % 2π` lies in [0, 2π) and differs from θ by a whole number of turns |
| Common.WrapUnique | pennylane_ls/FermionOps.py:59 | any value in [0, 2π) that differs from θ by whole turns is the wrapped angle |
| Common.WrapInRange | pennylane_ls/FermionOps.py:59 | an angle already in [0, 2π) is sent unchanged |
| Common.WrapIdempotent | pennylane_ls/FermionOps.py:59 | wrapping a wrapped angle changes nothing |
| Common.WrapPeriodic | pennylane_ls/FermionOps.py:59 | angles that differ by whole turns are sent as the same parameter |
| Common.AngleParam | pennylane_ls/FermionOps.py:58-59 | IndexError exactly when there is no parameter; otherwise `par[0]` brought into [0, 2π) by whole turns |
| Stats.MeanAffine | pennylane_ls/fermion_device.py:122-124 | the mean of `a + b·s` is `a + b·mean(s)` |
| Stats.VarianceAffine | pennylane_ls/fermion_device.py:136-138 | the population variance of `a + b·s` is `b²·var(s)` |
| Stats.VarianceNonNegative | pennylane_ls/fermion_device.py:138 | a population variance is never negative |
| Stats.ConstantColumn | pennylane_ls/fermion_device.py:124-138 | a constant column has that constant as mean and variance 0 |
| Stats.MeanBounds | pennylane_ls/fermion_device.py:124 | samples within [lo, hi] have their mean within [lo, hi] |
| Stats.SumNonNegative | pennylane_ls/single_qudit_ops.py:163-165 | a sum of non-negative samples is non-negative |
| ResultDecode.Split | pennylane_ls/fermion_device.py:224 | `str.split()` yields non-empty tokens without whitespace |
| ResultDecode.SplitWord | pennylane_ls/fermion_device.py:224 | a token followed by whitespace (or nothing) is split off whole |
| ResultDecode.SplitSpace | pennylane_ls/fermion_device.py:224 | leading whitespace does not change the tokens |
| ResultDecode.SplitJoin | pennylane_ls/fermion_device.py:224 | splitting a space-joined record gives back its tokens |
| ResultDecode.DigitsValueShowNat | pennylane_ls/fermion_device.py:226 | the decimal digits of n read back as n |
| ResultDecode.ParseShowInt | pennylane_ls/fermion_device.py:226 | `int()` of the decimal literal of i is i, negative values included |
| ResultDecode.ShowIntIsWord | pennylane_ls/fermion_device.py:224-226 | a decimal literal is a single token |
| ResultDecode.DecodeRow | pennylane_ls/fermion_device.py:225-226 | a decoded record has exactly num_obs values |
| ResultDecode.DecodeMemory | pennylane_ls/fermion_device.py:221-226 | a decoded reply has `shots` rows of num_obs values each |
| ResultDecode.DecodeRowCharacterised | pennylane_ls/fermion_device.py:225-226 | a record decodes exactly when its first num_obs tokens exist and are integers; value j is `int(token j)` |
| ResultDecode.DecodeMemoryByRows | pennylane_ls/fermion_device.py:223-226 | a reply decodes exactly when there are `shots` records and each decodes; row i is record i decoded |
| ResultDecode.DecodeMemoryCharacterised | pennylane_ls/fermion_device.py:221-226 | decoding succeeds exactly on decodable replies; entry (i, j) is the integer value of token j of record i; extra tokens and records are ignored |
| ResultDecode.ShortReplyFails | pennylane_ls/fermion_device.py:223-226 | too few records or tokens is an error; nothing is padded |
| ResultDecode.SplitEncodeRecord | pennylane_ls/fermion_device.py:224 | a record the server writes splits into the literals of its values |
| ResultDecode.DecodeEncodeRecord | pennylane_ls/fermion_device.py:224-226 | decoding a written record gives its first num_obs values |
| ResultDecode.DecodeEncode | pennylane_ls/fermion_device.py:221-226 | decoding the written records of a count matrix gives the matrix back, truncated to num_obs columns |
| ResultDecode.RowErrorPersists | pennylane_ls/fermion_device.py:225-226 | the first failing token decides the error of a record |
| ResultDecode.MemoryErrorPersists | pennylane_ls/fermion_device.py:223-226 | the first failing record decides the error of the reply |
| ResultDecode.DecodeRecordInto | pennylane_ls/fermion_device.py:224-226 | the inner loop writes the decoded record into row i and leaves the other rows alone |
| ResultDecode.DecodeShots | pennylane_ls/fermion_device.py:221-227 | the nested loops compute DecodeMemory, errors included |
| ProbabilityTable.PatternIndex | pennylane_ls/fermion_device.py:167 | a pattern's big-endian index is below `2 ** n` |
| ProbabilityTable.CountOf | pennylane_ls/fermion_device.py:160 | a pattern's count is positive exactly when it was observed |
| ProbabilityTable.CountIndex | pennylane_ls/fermion_device.py:160-167 | an index's count is positive exactly when some observed row maps to it |
| ProbabilityTable.Distinct | pennylane_ls/fermion_device.py:160 | `np.unique` lists each observed pattern once, and only observed ones |
| ProbabilityTable.TotalCountDistinct | pennylane_ls/fermion_device.py:163 | `counts.sum()` is the number of shots |
| ProbabilityTable.CountOfUnique | pennylane_ls/fermion_device.py:160 | a pattern occurs once among the unique patterns |
| ProbabilityTable.IndexInjective | pennylane_ls/fermion_device.py:167 | two 0/1 patterns of the same width with the same index are equal |
| ProbabilityTable.BinDigits | pennylane_ls/fermion_device.py:171 | `bin(k)[2:]` is a non-empty 0/1 digit string |
| ProbabilityTable.Zeros | pennylane_ls/fermion_device.py:171 | the padding `zfill` adds is all zeros |
| ProbabilityTable.ZFill | pennylane_ls/fermion_device.py:171 | `zfill(n)` pads to width n and never truncates |
| ProbabilityTable.BinDigitsIndex | pennylane_ls/fermion_device.py:167-171 | the index of `bin(k)`'s digits is k |
| ProbabilityTable.BinDigitsWidth | pennylane_ls/fermion_device.py:171-172 | k below `2 ** n` has at most n binary digits |
| ProbabilityTable.ZerosIndex | pennylane_ls/fermion_device.py:167-171 | leading zeros do not change a pattern's index |
| ProbabilityTable.KeyIndex | pennylane_ls/fermion_device.py:167-172 | the key listed at position k has index k |
| ProbabilityTable.KeyWidth | pennylane_ls/fermion_device.py:171-172 | each key is an n-digit 0/1 pattern |
| ProbabilityTable.KeyOfPattern | pennylane_ls/fermion_device.py:167-171 | the key at a 0/1 pattern's index is that pattern |
| ProbabilityTable.CountIndexOfPattern | pennylane_ls/fermion_device.py:160-167 | with 0/1 rows, the count at a pattern's index is that pattern's count |
| ProbabilityTable.SumIndexCountsAll | pennylane_ls/fermion_device.py:162-168 | every row of width n lands at one of the `2 ** n` indices |
| ProbabilityTable.WrittenStep | pennylane_ls/fermion_device.py:164-168 | one loop step writes the pattern's frequency at its index and keeps the table's description |
| ProbabilityTable.WrittenTable | pennylane_ls/fermion_device.py:162-168 | after the loop, an unobserved index holds 0 and an observed one holds the frequency of a pattern with that index |
| ProbabilityTable.BinaryFrequency | pennylane_ls/fermion_device.py:165-168 | with 0/1 rows, that frequency is the index's count over the shots |
| ProbabilityTable.WrittenTables | pennylane_ls/fermion_device.py:162-168 | after the loop the whole table is `Counted`: 0 at every unobserved index, a pattern's frequency at every observed one, and with 0/1 rows exactly the index's count over the shots |
| ProbabilityTable.WriteFrequencies | pennylane_ls/fermion_device.py:164-168 | the loop over the distinct patterns writes each one's count over the total at its index and leaves every other entry of the zeroed table at 0 |
| ProbabilityTable.Probabilities | pennylane_ls/fermion_device.py:160-168 | the counting loop returns `2 ** n` entries: 0 where nothing was observed, otherwise a pattern's relative frequency, which with 0/1 rows is exactly count/total |
| ProbabilityTable.FrequencySum | pennylane_ls/fermion_device.py:165 | frequencies over the same total add |
| ProbabilityTable.SumFrequencies | pennylane_ls/fermion_device.py:165 | a sum of frequencies is the frequency of the summed counts |
| ProbabilityTable.IndexCounts | pennylane_ls/fermion_device.py:160-167 | entry k is the count of index k |
| ProbabilityTable.SumIndexCountsAsSum | pennylane_ls/fermion_device.py:163 | the per-index counts add up as the recursive sum does |
| ProbabilityTable.FrequencyOfNone | pennylane_ls/fermion_device.py:162 | an unobserved entry's probability is 0 |
| ProbabilityTable.FrequencyOfAll | pennylane_ls/fermion_device.py:163-165 | all shots together have probability 1 |
| ProbabilityTable.ProbabilitiesSumToOne | pennylane_ls/fermion_device.py:162-168 | with 0/1 rows, the table's probabilities sum to 1 |
| ProbabilityTable.Table | pennylane_ls/fermion_device.py:170-175 | entry k pairs the key of index k with the probability at k |
| ProbabilityTable.TableKeys | pennylane_ls/fermion_device.py:170-175 | the keys are distinct n-digit 0/1 patterns, and a pattern's entry sits at its index |
| FermionOps.OpcodeInjective | pennylane_ls/FermionOps.py:44-89 | two gates send the same opcode only if they are the same gate |
| FermionOps.FermionOperator | pennylane_ls/FermionOps.py:43-90 | load gives `('load', wires, [])`; hop, inter and phase give `('hop'/'int'/'phase', wires, [θ mod 2π])` on exactly the given wires; a missing `par[0]` is an IndexError |
| FermionOps.OnlyFirstParameter | pennylane_ls/FermionOps.py:58 | parameters after the first are ignored |
| FermionOps.AnglePeriodic | pennylane_ls/FermionOps.py:59-89 | angles differing by whole turns give the same instruction |
| FermionOps.AngleInRange | pennylane_ls/FermionOps.py:59-89 | an angle in [0, 2π) is sent as it is |
| FermionOps.ParticleNumber | pennylane_ls/FermionOps.py:100-102 | the samples are returned unchanged |
| QuditGates.LoadGate | pennylane_ls/MultiQuditOps.py:45-48 | `('load', [wires[0]], par)` with dimension `par[0] + 1`; IndexError without a wire or parameter |
| QuditGates.Rotation | pennylane_ls/MultiQuditOps.py:60-64 | the opcode on the leading wires with one angle in [0, 2π) differing from `par[0]` by whole turns, dimension False; IndexError when short |
| QuditGates.RotationPeriodic | pennylane_ls/MultiQuditOps.py:61-63 | a rotation is periodic in its angle |
| QuditGates.RotationReadsLeading | pennylane_ls/MultiQuditOps.py:118-121 | a rotation only reads its leading wires and first parameter |
| QuditGates.Centered | pennylane_ls/MultiQuditOps.py:154-155 | each sample s becomes `s - qdim/2` |
| QuditGates.MeanCentered | pennylane_ls/MultiQuditOps.py:154-155 | the mean of `s - qdim/2` is the mean count minus `qdim/2` |
| QuditGates.VarianceCentered | pennylane_ls/MultiQuditOps.py:154-155 | the shift leaves the variance unchanged |
| SingleQuditOps.QuditOperator | pennylane_ls/single_qudit_ops.py:59-128 | Load gives `("load", [0], par)` with dimension `par[0] + 1`; RLX/RLZ give one wrapped angle and False; RLZ2 passes `par` unwrapped and never fails; ID gives None; every gate targets `[0]` |
| SingleQuditOps.OnlyLoadSetsDimension | pennylane_ls/single_qudit_ops.py:61-113 | a gate's dimension is truthy exactly for Load with `par[0] != -1` |
| SingleQuditOps.RLZ2DoesNotWrap | pennylane_ls/single_qudit_ops.py:96-113 | a full-turn angle is sent as 2π by RLZ2 and as 0 by RLZ; without parameters RLZ2 sends `[]` where RLZ raises IndexError |
| SingleQuditOps.Transform | pennylane_ls/single_qudit_ops.py:139-165 | the transform keeps the number of samples, and LZ2 is never negative |
| SingleQuditOps.Squares | pennylane_ls/single_qudit_ops.py:165 | `x ** 2` elementwise, never negative |
| SingleQuditOps.TransformValues | pennylane_ls/single_qudit_ops.py:139-165 | ZObs is the count, LZ is `s - qdim/2`, LZ2 is LZ squared |
| SingleQuditOps.MeanLZ | pennylane_ls/single_qudit_ops.py:151-152 | mean LZ is mean ZObs minus `qdim/2` |
| SingleQuditOps.VarianceLZ | pennylane_ls/single_qudit_ops.py:151-152 | LZ and ZObs have the same variance |
| SingleQuditOps.MeanLZ2NonNegative | pennylane_ls/single_qudit_ops.py:163-165 | the mean of LZ2 is never negative |
| MultiQuditOps.QuditOperator | pennylane_ls/MultiQuditOps.py:45-133 | load on `[wires[0]]` with dimension `par[0] + 1`; rLx/rLz/rLz2 on `[wires[0]]` and LxLy/LzLz on `[wires[0], wires[1]]` with one wrapped angle and False; Id gives None; opcodes are the class names |
| MultiQuditOps.TwoQuditWires | pennylane_ls/MultiQuditOps.py:118-133 | LxLy and LzLz act on the first two wires in the order given |
| MultiQuditOps.Transform | pennylane_ls/MultiQuditOps.py:144-155 | the transform keeps the number of samples |
| MultiQuditOps.LzMoments | pennylane_ls/MultiQuditOps.py:144-155 | mean Lz is mean Z minus `qdim/2`; same variance |
| MultiQuditOpsSnake.QuditOperator | pennylane_ls/multi_qudit_ops.py:61-162 | Load on `[wires[0]]` with dimension `par[0] + 1`; rlx/rlz/rlz2 on `[wires[0]]` and rlxly/rlzlz on `[wires[0], wires[1]]`, all with a wrapped angle and False; ID gives None |
| MultiQuditOpsSnake.RLZ2Wraps | pennylane_ls/multi_qudit_ops.py:113-116 | this RLZ2 wraps: a full turn is sent as 0 |
| MultiQuditOpsSnake.Transform | pennylane_ls/multi_qudit_ops.py:174-187 | the transform keeps the number of samples |
| MultiQuditOpsSnake.LZMoments | pennylane_ls/multi_qudit_ops.py:174-187 | mean LZ is mean ZObs minus `qdim/2`; same variance |
| Django.AppendAll | pennylane_ls/fermion_device.py:109-110 | appending to the experiment's list puts the instructions at its end in order; a payload without `experiment_0` is a KeyError, a `None` payload a TypeError |
| Django.AppendAllSplit | pennylane_ls/fermion_device.py:109-110 | appending a list in two parts equals appending it at once |
| Django.Range | pennylane_ls/django_device.py:16-27 | the wires `0, …, n-1` that `wires=n` asks for; this is the corrected base wiring, since line 27 passes one wire instead (see Findings) |
| Django.AsWrittenWires | pennylane_ls/django_device.py:27 | as written, the base device has the single wire 0, whatever was requested |
| Django.DjangoDevice.constructor | pennylane_ls/django_device.py:27-33 | url, credentials, blocking and job id stored as given; the payload has no experiment |
| Django.DjangoDevice.AppendEach | pennylane_ls/fermion_device.py:109-110 | the append loop leaves the payload equal to AppendAll's result, and unchanged on an error |
| Fermion.OperationCatalog | pennylane_ls/fermion_device.py:33-42 | exactly eight operation names; Tunneling, OnSiteInteraction and ChemicalPotential name the same gates as Hop, Inter and Phase |
| Fermion.ApplyResult | pennylane_ls/fermion_device.py:104-110 | an unknown name is a KeyError before anything is touched; a gate's IndexError is passed on; otherwise the gate's one instruction, with its opcode and wires, is appended at the end, and a payload without an experiment gives the append's KeyError or TypeError; Hartree–Fock appends its list |
| Fermion.GateOpcodes | pennylane_ls/fermion_device.py:33-42 | each gate name sends its gate's opcode; the aliases send `hop`, `int` and `phase` |
| Fermion.MeasureAll | pennylane_ls/fermion_device.py:183-186 | one `("measure", [w], [])` per device wire, in wire order |
| Fermion.WireCheck | pennylane_ls/fermion_device.py:82-83 | ValueError exactly when there are more than 8 wires |
| Fermion.AsWrittenWireCheckNeverFires | pennylane_ls/django_device.py:27 | with the base device as written, the wire check passes for any request and only wire 0 is measured |
| Fermion.AsReals | pennylane_ls/fermion_device.py:124 | the samples as floats, row by row |
| Fermion.PauliZRows | pennylane_ls/fermion_device.py:122-123 | each sample s becomes `1 - 2s` |
| Fermion.ObservableRows | pennylane_ls/fermion_device.py:121-123 | the transformed samples keep their shape |
| Fermion.Column | pennylane_ls/fermion_device.py:124 | column j of the samples |
| Fermion.Reduce | pennylane_ls/fermion_device.py:124-126 | IndexError exactly when a wire is not a column; otherwise one mean or variance per requested wire, a scalar exactly for one wire |
| Fermion.PauliZColumn | pennylane_ls/fermion_device.py:122-124 | a PauliZ column is `1 - 2s` over the occupation column |
| Fermion.PauliZMoments | pennylane_ls/fermion_device.py:122-138 | PauliZ expectation values are `1 - 2⟨n⟩` and PauliZ variances `4·Var(n)`, wire by wire |
| Fermion.ConstantWireVariance | pennylane_ls/fermion_device.py:135-140 | a wire with the same occupation in every shot has variance 0 under either observable |
| Fermion.BinaryMeans | pennylane_ls/fermion_device.py:121-126 | 0/1 occupations give a mean in [0, 1] and a PauliZ expectation value in [-1, 1] |
| Fermion.SelectColumns | pennylane_ls/fermion_device.py:157-158 | `shots[:, wires]` keeps the chosen columns in the given order; IndexError for a wire that is not a column |
| Fermion.FermionDevice.constructor | pennylane_ls/fermion_device.py:72-84 | the base device is set up with the requested wires and no samples |
| Fermion.FermionDevice.Open | pennylane_ls/fermion_device.py:72-84 | ValueError exactly when more than 8 wires are requested; otherwise a fresh device with no samples |
| Fermion.FermionDevice.Apply | pennylane_ls/fermion_device.py:99-112 | the payload becomes ApplyResult's; on an error it is unchanged |
| Fermion.FermionDevice.PreMeasure | pennylane_ls/fermion_device.py:178-227 | the measurements are appended after the existing instructions and the job id is set; non-blocking returns the job id; a reply without results is a DeviceError with the samples unchanged; otherwise the samples are the decoded matrix |
| Fermion.FermionDevice.Sample | pennylane_ls/fermion_device.py:142-149 | KeyError for an unknown observable, otherwise the stored samples |
| Fermion.FermionDevice.Moments | pennylane_ls/fermion_device.py:114-140 | Identity gives 1.0 and 0.0 without reading samples; before any samples, PauliZ and ParticleNumber fail; otherwise the reduction of the transformed samples |
| Fermion.FermionDevice.Expval | pennylane_ls/fermion_device.py:118-119 | the Identity expectation value is 1.0 |
| Fermion.FermionDevice.Var | pennylane_ls/fermion_device.py:132-133 | the Identity variance is 0.0 |
| Fermion.FermionDevice.Probability | pennylane_ls/fermion_device.py:151-175 | errors without samples or wires; IndexError for a wire that is not a column; otherwise a probability table over the chosen columns |
| Fermion.FermionDevice.Reset | pennylane_ls/fermion_device.py:229-231 | samples and job id cleared |
| Fermion.FermionDevice.PreApply | pennylane_ls/multi_qudit_device.py:81-89 | the `pre_apply` the fermion device lacks, in the multi-qudit form: samples and job id cleared, a fresh experiment with the device's wire count and shots |
| Fermion.AsWrittenFirstGate | pennylane_ls/fermion_device.py:99-110 | on a freshly built device, any gate that builds its instruction raises KeyError("experiment_0") |
| Fermion.PreparedFirstGate | pennylane_ls/fermion_device.py:99-110 | after PreApply the same gate succeeds, and its instruction is the only one in a `wires`-wire experiment |
| Fermion.TableOfProbabilities | pennylane_ls/fermion_device.py:160-175 | the loop's array with the zfill keys is a table with `2 ** n` index-ordered keys, zero for unobserved indices, frequencies otherwise, summing to 1 for 0/1 samples |
| SingleQudit.Catalog | pennylane_ls/single_qudit_device.py:29-38 | exactly Load, RLX, RLZ and RLZ2, without ID; observables LZ, LZ2 and ZObs |
| SingleQudit.ParseShots | pennylane_ls/single_qudit_device.py:156 | ValueError exactly when some record is not one integer literal; otherwise the integer of each record |
| SingleQudit.ParseShotsShown | pennylane_ls/single_qudit_device.py:156 | counts written as decimal literals parse back to themselves |
| SingleQudit.Fetch | pennylane_ls/single_qudit_device.py:154-160 | KeyError without results; ValueError when a count does not parse; otherwise the observable transform of the counts with the current dimension |
| SingleQudit.Reraise | pennylane_ls/single_qudit_device.py:92-93 | ValueError becomes NotImplementedError; other errors pass |
| SingleQudit.Outcome | pennylane_ls/single_qudit_device.py:90-93 | the statistic of the fetched shots, with a ValueError turned into NotImplementedError |
| SingleQudit.OutcomeLZ | pennylane_ls/single_qudit_device.py:90-106 | ⟨LZ⟩ = ⟨ZObs⟩ - qdim/2 and Var(LZ) = Var(ZObs) on the same reply |
| SingleQudit.OutcomeLZ2NonNegative | pennylane_ls/single_qudit_device.py:90-91 | ⟨LZ2⟩ is never negative |
| SingleQudit.Lift | pennylane_ls/single_qudit_device.py:160 | the fetched shots or the error, as `sample`'s result |
| SingleQudit.SingleQuditDevice.constructor | pennylane_ls/single_qudit_device.py:52-61 | one wire, dimension 2, settings stored as given |
| SingleQudit.SingleQuditDevice.Apply | pennylane_ls/single_qudit_device.py:63-78 | unknown name: KeyError with nothing changed; the instruction on `[0]` is appended once at the end; qdim changes only for Load, to `par[0] + 1`, even if the append fails |
| SingleQudit.SingleQuditDevice.Sample | pennylane_ls/single_qudit_device.py:110-161 | the measure of wire 0 is appended only when there is no job id; a non-blocking device returns the job id when it just submitted or the status is not DONE; otherwise the transformed counts |
| SingleQudit.SingleQuditDevice.Reading | pennylane_ls/single_qudit_device.py:80-108 | "Job_not_done" unless the status is DONE; otherwise the mean or variance of the transformed shots; never a ValueError; with a job id set, an unknown observable gives "Job_not_done" before DONE and KeyError after; payload and job id stated on every path |
| SingleQudit.SingleQuditDevice.Settle | pennylane_ls/single_qudit_device.py:88-91 | the sentinel unless DONE, otherwise the outcome of the fetch |
| SingleQudit.SingleQuditDevice.Reset | pennylane_ls/single_qudit_device.py:163-166 | dimension 2, no job id, no payload |
| SingleQudit.SingleQuditDevice.PreApply | pennylane_ls/multi_qudit_device.py:81-89 | the `pre_apply` the single-qudit device lacks: `reset`, then a fresh one-wire experiment with the device's shots |
| SingleQudit.AsWrittenFirstGate | pennylane_ls/single_qudit_device.py:63-76 | on a freshly built device, any gate that builds its instruction raises KeyError("experiment_0") |
| SingleQudit.PreparedFirstGate | pennylane_ls/single_qudit_device.py:63-76 | after PreApply the same gate succeeds, and its instruction is the only one in a one-wire experiment |
| MultiQudit.Catalog | pennylane_ls/multi_qudit_device.py:35-42 | exactly the six class-named gates, without Id |
| MultiQudit.Listed | pennylane_ls/multi_qudit_device.py:130 | a list is kept; a single wire object becomes a one-element list |
| MultiQudit.FirstUnlabelled | pennylane_ls/multi_qudit_device.py:131-132 | the first wire object without labels, where `name.labels[0]` raises |
| MultiQudit.MeasureLabels | pennylane_ls/multi_qudit_device.py:131-133 | one `("measure", [labels[0]], [])` per wire object, in order |
| MultiQudit.SingleWireArgument | pennylane_ls/multi_qudit_device.py:130-133 | a single wire object is measured on its first label only |
| MultiQudit.Fetch | pennylane_ls/multi_qudit_device.py:168-177 | KeyError without results, otherwise the decoded shots × num_obs matrix |
| MultiQudit.Lift | pennylane_ls/multi_qudit_device.py:177 | the decoded matrix or the error, as `sample`'s result |
| MultiQudit.Column | pennylane_ls/multi_qudit_device.py:119 | column j as floats |
| MultiQudit.ColumnMeans | pennylane_ls/multi_qudit_device.py:119 | one mean per column |
| MultiQudit.ColumnMeansBounds | pennylane_ls/multi_qudit_device.py:119 | counts within [lo, hi] give column means within [lo, hi] |
| MultiQudit.ConstantColumnMean | pennylane_ls/multi_qudit_device.py:119 | a constant column's mean is that constant |
| MultiQudit.MultiQuditDevice.constructor | pennylane_ls/multi_qudit_device.py:57-66 | dimension 2, settings stored as given; the base gets the wires `0, …, wires-1`, which is the corrected base wiring, not line 27 of `django_device.py` as written (see Findings) |
| MultiQudit.AsWrittenPreApplyOneWire | pennylane_ls/multi_qudit_device.py:81-89 | a device built on the as-written base, after `pre_apply` and the submitting `sample`, holds an experiment that declares one wire and measures every one of the two or more requested wire objects |
| MultiQudit.MultiQuditDevice.AsWritten | pennylane_ls/multi_qudit_device.py:57-66 | the constructor on the as-written base: dimension 2, settings stored as given, and the base keeps the single wire `[0]` |
| Django.DjangoDevice.AsWritten | pennylane_ls/django_device.py:27-33 | `__init__` as written: settings stored as given, the empty payload, and the one wire `[0]` whatever `wires` asks for |
| MultiQudit.MultiQuditDevice.PreApply | pennylane_ls/multi_qudit_device.py:81-89 | job id cleared; a fresh experiment with no instructions, the device's wire count and its shots |
| MultiQudit.MultiQuditDevice.Apply | pennylane_ls/multi_qudit_device.py:91-106 | unknown name: KeyError with nothing changed; the instruction on the gate's leading wires is appended once at the end; qdim changes only for load |
| MultiQudit.MultiQuditDevice.MeasureEach | pennylane_ls/multi_qudit_device.py:131-133 | the measures of the labelled prefix are appended in order; an unlabelled object then raises IndexError |
| MultiQudit.MultiQuditDevice.Sample | pennylane_ls/multi_qudit_device.py:123-177 | measures appended only when there is no job id; non-blocking returns the job id when just submitted or not DONE; otherwise the decoded matrix with one column per wire object (fresh job) or per label of the argument (existing job) |
| MultiQudit.MultiQuditDevice.Settle | pennylane_ls/multi_qudit_device.py:116-121 | the sentinel unless DONE; otherwise the column means; any error becomes NotImplementedError |
| MultiQudit.MultiQuditDevice.Expval | pennylane_ls/multi_qudit_device.py:108-121 | every error becomes NotImplementedError; "Job_not_done" unless DONE; otherwise the column means of the decoded counts; on the error paths payload and job id are stated too, and the measures of the labelled prefix stay appended |
| MultiQudit.MultiQuditDevice.Reset | pennylane_ls/multi_qudit_device.py:179-180 | only the job id is cleared |

## Left out

- The HTTP client is not modelled: `requests.post`/`requests.get`, `json.dumps`/`json.loads`, `wait_till_done` and `check_job_status`. Their definitions are not part of this model. Their results are method inputs: `newJobId`, `status` and `JobResult`.
- `status` is one value per method call. A job whose status changes between the two checks inside one `expval` call is not modelled.
- Floating point is not modelled: angles, means, variances and `qdim / 2` are exact reals. `2 * np.pi` is the exact real 6.283185307179586.
- The decoded matrices are modelled as rows of unbounded integers. The fermion matrix has `dtype=int`, so at `fermion_device.py:226` a count beyond 2^63 - 1 (or below -2^63) raises OverflowError; the model does not raise it. The multi-qudit matrix is float64, so at `multi_qudit_device.py:176` a count above 2^53 in magnitude is rounded; the model keeps it exact.
- `int()` is modelled on ASCII decimal literals with an optional sign. Underscores and non-ASCII digits are not modelled. A `memory` entry the server sends as a JSON number rather than a string is not modelled either.
- `fermion_device.py:17-20` imports `Load`, `HartreeFock`, `Hop`, `Inter`, `Phase`, `PauliZ` and `Identity` from `FermionOps.py`, which defines none of them (it has only `load`, `hop`, `inter`, `phase` and `ParticleNumber`). As written, that import fails with ImportError, and `__init__.py:6` imports `fermion_device`, so the whole package fails to import. The model gives the catalog's `Load`, `Hop`, `Inter` and `Phase` the instruction shapes of the lowercase `load`, `hop`, `inter` and `phase` (`FermionOps.py:33-90`). `HartreeFock` is an opaque catalog entry whose instruction list is an input to `Apply`. `PauliZ` and `Identity` are modelled only through the device's own handling of them (`fermion_device.py:118-123`, in `Moments`).
- The `issubclass` checks (`raise NotImplementedError()` for a class of the wrong family) are not modelled. Every catalog entry belongs to its device's family.
- Fermion.FermionDevice.Moments: before any samples, PauliZ is modelled as AttributeError (`None.shape`) and ParticleNumber as AxisError (`np.mean(None, axis=0)`). These exception classes come from numpy and are not derived from the shown code.
- Fermion.FermionDevice.Probability: without samples, the model gives AxisError when no wires are given and TypeError otherwise. With samples and no wires it gives TypeError (`len(None)`).
- ProbabilityTable.Probabilities: for samples other than 0/1, two patterns can share an index. The model then states only that the entry is the frequency of one of them. Which pattern `np.unique`'s sort order lets win is not modelled.
- `blocking` is a boolean. The fermion and single-qudit checks `blocking is True` and the multi-qudit truthiness check `if self.blocking:` agree on booleans.
- At least one shot is required, as PennyLane's `Device` demands (`requires shots >= 1`). PennyLane's `Device`, `Wires` and the plugin registry are not modelled. Wires are `seq<nat>`, and a wire object is its label list.
- `capabilities()` and the plugin metadata are not modelled; they only describe the device to PennyLane.
- The superseded device files, the declaration-only operation files, `LocalSingleQuditOps.py`, the lab-sequence and analysis code, and the test hardware scaffolding are not part of this model. Nothing in the exported devices calls them.

## Findings

| source | as written | input that shows it | evidently intended | confidence | as-written member | corrected member |
|---|---|---|---|---|---|---|
| pennylane_ls/django_device.py:27 | the base device is always built with `wires=1`, ignoring the requested wire count | a `FermionDevice` with `wires=9`: the `num_wires <= 8` check passes, and `pre_measure` measures only wire 0 (the 8-wire tests expect 4 values) | the requested wires are passed on, so a 9-wire fermion device raises ValueError and every wire is measured | not executed | Fermion.AsWrittenWireCheckNeverFires | Fermion.FermionDevice.Open |
| pennylane_ls/django_device.py:27 | the multi-qudit base device also gets one wire, whatever `wires` asks for | `MultiQuditDevice(wires=2)`: `pre_apply` sends `num_wires` 1 (`multi_qudit_device.py:86`), and `sample` with two wire objects appends two measurements to it | `pre_apply` declares the requested wire count | not executed | MultiQudit.AsWrittenPreApplyOneWire | MultiQudit.MultiQuditDevice.PreApply |
| pennylane_ls/fermion_device.py:99-110 | the fermion device has no `pre_apply`, so `job_payload` stays the `{}` of `django_device.py:33` | a fresh `FermionDevice` with `apply("Load", [0], [])`: KeyError('experiment_0') | `pre_apply` installs an empty experiment first, as the multi-qudit device does and the older `FermionDevice.py:50-58` did | not executed | Fermion.AsWrittenFirstGate | Fermion.FermionDevice.PreApply |
| pennylane_ls/single_qudit_device.py:63-76 | the single-qudit device has no `pre_apply` either | a fresh `SingleQuditDevice` with `apply("RLX", [0], [0.5])`: KeyError('experiment_0') | `pre_apply` installs an empty one-wire experiment first, as the older `SingleQuditDevice.py:55-63` did | not executed | SingleQudit.AsWrittenFirstGate | SingleQudit.SingleQuditDevice.PreApply |
