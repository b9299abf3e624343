/** The fermion tweezer device: it collects the gate instructions of a
    circuit in the job payload, adds one measurement per wire, decodes the
    server's shot records into an occupation matrix, and reduces that matrix
    to expectation values, variances and a probability table. */
module Fermion {
  import opened Common
  import Stats
  import FermionOps
  import Django
  import ResultDecode
  import ProbabilityTable

  /** What `_operation_map` maps a name to: one of the four gate classes, or
      the Hartree–Fock entry. */
  datatype FermionOp = Gate(gate: FermionOps.FermionGate) | HartreeFock

  datatype FermionObservable = ParticleNumber | PauliZ | Identity

  /** What `expval`/`var` return: `result.item()` when one wire was asked
      for, the array of values otherwise. */
  datatype Value = Scalar(x: real) | Vector(xs: seq<real>)

  function Values(v: Value): seq<real> {
    match v
    case Scalar(x) => [x]
    case Vector(xs) => xs
  }

  const OperationMap: map<string, FermionOp> := map[
    "Load" := Gate(FermionOps.Load),
    "Hop" := Gate(FermionOps.Hop),
    "Tunneling" := Gate(FermionOps.Hop),
    "Inter" := Gate(FermionOps.Inter),
    "OnSiteInteraction" := Gate(FermionOps.Inter),
    "Phase" := Gate(FermionOps.Phase),
    "ChemicalPotential" := Gate(FermionOps.Phase),
    "HartreeFock" := HartreeFock]

  const ObservableMap: map<string, FermionObservable> := map[
    "ParticleNumber" := ParticleNumber,
    "PauliZ" := PauliZ,
    "Identity" := Identity]

  /** The device offers exactly eight operation names; the three aliases
      name the same gate as the name they stand for. */
  lemma OperationCatalog()
    ensures OperationMap.Keys == {"ChemicalPotential", "HartreeFock", "Hop", "Inter",
                                  "Load", "OnSiteInteraction", "Phase", "Tunneling"}
    ensures OperationMap["Tunneling"] == OperationMap["Hop"]
    ensures OperationMap["OnSiteInteraction"] == OperationMap["Inter"]
    ensures OperationMap["ChemicalPotential"] == OperationMap["Phase"]
  {
  }

  /** The opcode each gate name sends: an alias sends the opcode of the
      gate it stands for, and the interaction gate sends "int". */
  lemma GateOpcodes()
    ensures FermionOps.Opcode(OperationMap["Load"].gate) == "load"
    ensures FermionOps.Opcode(OperationMap["Hop"].gate) == "hop"
    ensures FermionOps.Opcode(OperationMap["Tunneling"].gate) == "hop"
    ensures FermionOps.Opcode(OperationMap["Inter"].gate) == "int"
    ensures FermionOps.Opcode(OperationMap["OnSiteInteraction"].gate) == "int"
    ensures FermionOps.Opcode(OperationMap["Phase"].gate) == "phase"
    ensures FermionOps.Opcode(OperationMap["ChemicalPotential"].gate) == "phase"
  {
  }

  /** The payload after `apply(operation, wires, par)`: the name is looked up
      first (KeyError for an unknown one, before anything is touched); a gate
      appends its single instruction, the Hartree–Fock entry appends its
      instruction list in order. The Hartree–Fock list is a parameter,
      because its class is not part of this model. */
  function ApplyResult(p: Django.Payload, name: string, wires: seq<nat>, par: seq<real>,
                       hartreeFock: seq<Instruction>): (r: Result<Django.Payload>)
    ensures name !in OperationMap ==> r == Err(KeyError(name))
    ensures r.Ok? && OperationMap[name].Gate? ==>
      p.Experiment? && r.value.Experiment?
      && |r.value.instructions| == |p.instructions| + 1
      && r.value.instructions[..|p.instructions|] == p.instructions
      && r.value.instructions[|p.instructions|].opcode == FermionOps.Opcode(OperationMap[name].gate)
      && r.value.instructions[|p.instructions|].wires == wires
      && r.value.numWires == p.numWires && r.value.shots == p.shots
    ensures r.Ok? && OperationMap[name].HartreeFock? ==> r == Django.AppendAll(p, hartreeFock)
    ensures name in OperationMap && OperationMap[name].Gate? && p.Experiment? ==>
      (r.Ok? <==> FermionOps.FermionOperator(OperationMap[name].gate, wires, par).Ok?)
    ensures name in OperationMap && OperationMap[name].Gate? ==>
      var g := FermionOps.FermionOperator(OperationMap[name].gate, wires, par);
      (g.Err? ==> r == Err(g.error)) && (g.Ok? ==> r == Django.AppendAll(p, [g.value]))
  {
    if name !in OperationMap then Err(KeyError(name))
    else match OperationMap[name]
      case HartreeFock => Django.AppendAll(p, hartreeFock)
      case Gate(g) =>
        match FermionOps.FermionOperator(g, wires, par)
        case Err(e) => Err(e)
        case Ok(ins) => Django.AppendAll(p, [ins])
  }

  /** `("measure", [w], [])` for each wire, in wire order. */
  function MeasureAll(wires: seq<nat>): (ms: seq<Instruction>)
    ensures |ms| == |wires|
    ensures forall i :: 0 <= i < |wires| ==> ms[i] == Measure(wires[i])
  {
    seq(|wires|, i requires 0 <= i < |wires| => Measure(wires[i]))
  }

  /** `__init__`'s check: more than 8 wires raise ValueError. */
  function WireCheck(numWires: nat): (r: Result<()>)
    ensures r.Ok? <==> numWires <= 8
    ensures r.Err? ==> r.error == ValueError
  {
    if numWires <= 8 then Ok(()) else Err(ValueError)
  }

  /** As written, the base class always has one wire, so the check passes
      for any requested wire count, 9 included, and the device measures
      only wire 0. */
  lemma AsWrittenWireCheckNeverFires(wires: nat)
    ensures WireCheck(|Django.AsWrittenWires(wires)|).Ok?
    ensures MeasureAll(Django.AsWrittenWires(wires)) == [Measure(0)]
  {
  }

  predicate HasWidth(rows: seq<seq<int>>, width: nat) {
    forall i :: 0 <= i < |rows| ==> |rows[i]| == width
  }

  /** The samples as floats. */
  function AsReals(rows: seq<seq<int>>): (r: seq<seq<real>>)
    ensures |r| == |rows|
    ensures forall i :: 0 <= i < |rows| ==> r[i] == Stats.ToReals(rows[i])
  {
    seq(|rows|, i requires 0 <= i < |rows| => Stats.ToReals(rows[i]))
  }

  /** `np.ones(shots.shape) - 2 * shots`: occupation s becomes 1 - 2s. */
  function PauliZRows(rows: seq<seq<int>>): (r: seq<seq<real>>)
    ensures |r| == |rows|
    ensures forall i :: 0 <= i < |rows| ==> r[i] == Stats.Affine(Stats.ToReals(rows[i]), 1.0, -2.0)
  {
    seq(|rows|, i requires 0 <= i < |rows| => Stats.Affine(Stats.ToReals(rows[i]), 1.0, -2.0))
  }

  /** The samples an observable reduces: PauliZ transforms them, the others
      use the occupations as they are. */
  function ObservableRows(o: FermionObservable, rows: seq<seq<int>>): (r: seq<seq<real>>)
    ensures |r| == |rows|
    ensures forall i :: 0 <= i < |rows| ==> |r[i]| == |rows[i]|
  {
    if o == PauliZ then PauliZRows(rows) else AsReals(rows)
  }

  function Column(rows: seq<seq<real>>, j: nat): (c: seq<real>)
    requires forall i :: 0 <= i < |rows| ==> j < |rows[i]|
    ensures |c| == |rows|
    ensures forall i :: 0 <= i < |rows| ==> c[i] == rows[i][j]
  {
    seq(|rows|, i requires 0 <= i < |rows| => rows[i][j])
  }

  datatype Moment = MeanOf | VarianceOf

  function MomentOf(m: Moment, xs: seq<real>): real
    requires |xs| > 0
  {
    match m
    case MeanOf => Stats.Mean(xs)
    case VarianceOf => Stats.Variance(xs)
  }

  /** `np.mean(shots, axis=0)[wires]` (or `np.var`), then `.item()` when a
      single wire was asked for. A wire that is not a column raises
      IndexError. */
  function Reduce(m: Moment, rows: seq<seq<real>>, width: nat, wires: seq<nat>): (r: Result<Value>)
    requires |rows| > 0
    requires forall i :: 0 <= i < |rows| ==> |rows[i]| == width
    ensures r.Ok? <==> forall i :: 0 <= i < |wires| ==> wires[i] < width
    ensures r.Err? ==> r.error == IndexError
    ensures r.Ok? ==> (r.value.Scalar? <==> |wires| == 1)
    ensures r.Ok? ==> (
      |Values(r.value)| == |wires|
      && forall i :: 0 <= i < |wires| ==> Values(r.value)[i] == MomentOf(m, Column(rows, wires[i])))
  {
    if exists i :: 0 <= i < |wires| && wires[i] >= width then Err(IndexError)
    else
      var vals := seq(|wires|, i requires 0 <= i < |wires| => MomentOf(m, Column(rows, wires[i])));
      if |vals| == 1 then Ok(Scalar(vals[0])) else Ok(Vector(vals))
  }

  /** Column j of the PauliZ samples is 1 - 2s over column j of the occupations. */
  lemma PauliZColumn(rows: seq<seq<int>>, j: nat)
    requires forall i :: 0 <= i < |rows| ==> j < |rows[i]|
    ensures Column(PauliZRows(rows), j) == Stats.Affine(Column(AsReals(rows), j), 1.0, -2.0)
  {
    var a, b := Column(PauliZRows(rows), j), Stats.Affine(Column(AsReals(rows), j), 1.0, -2.0);
    forall i | 0 <= i < |rows| ensures a[i] == b[i] {
      assert PauliZRows(rows)[i][j] == 1.0 + -2.0 * AsReals(rows)[i][j];
    }
  }

  /** PauliZ expectation values are 1 - 2⟨n⟩ and PauliZ variances are
      4·Var(n), wire by wire, where n is the occupation. */
  lemma PauliZMoments(rows: seq<seq<int>>, width: nat, wires: seq<nat>)
    requires |rows| > 0 && HasWidth(rows, width)
    requires forall i :: 0 <= i < |wires| ==> wires[i] < width
    ensures forall i :: 0 <= i < |wires| ==>
      Values(Reduce(MeanOf, PauliZRows(rows), width, wires).value)[i]
      == 1.0 - 2.0 * Values(Reduce(MeanOf, AsReals(rows), width, wires).value)[i]
    ensures forall i :: 0 <= i < |wires| ==>
      Values(Reduce(VarianceOf, PauliZRows(rows), width, wires).value)[i]
      == 4.0 * Values(Reduce(VarianceOf, AsReals(rows), width, wires).value)[i]
  {
    forall i | 0 <= i < |wires|
      ensures Stats.Mean(Column(PauliZRows(rows), wires[i])) == 1.0 - 2.0 * Stats.Mean(Column(AsReals(rows), wires[i]))
      ensures Stats.Variance(Column(PauliZRows(rows), wires[i])) == 4.0 * Stats.Variance(Column(AsReals(rows), wires[i]))
    {
      PauliZColumn(rows, wires[i]);
      Stats.MeanAffine(Column(AsReals(rows), wires[i]), 1.0, -2.0);
      Stats.VarianceAffine(Column(AsReals(rows), wires[i]), 1.0, -2.0);
    }
  }

  /** A wire that showed the same occupation in every shot has variance 0,
      under either observable. */
  lemma ConstantWireVariance(rows: seq<seq<int>>, width: nat, wires: seq<nat>, o: FermionObservable, i: nat, c: int)
    requires |rows| > 0 && HasWidth(rows, width)
    requires forall w :: 0 <= w < |wires| ==> wires[w] < width
    requires i < |wires| && forall s :: 0 <= s < |rows| ==> rows[s][wires[i]] == c
    ensures Values(Reduce(VarianceOf, ObservableRows(o, rows), width, wires).value)[i] == 0.0
  {
    var col := Column(ObservableRows(o, rows), wires[i]);
    var v := if o == PauliZ then 1.0 - 2.0 * c as real else c as real;
    forall s | 0 <= s < |rows| ensures col[s] == v {
      assert Stats.ToReals(rows[s])[wires[i]] == c as real;
    }
    Stats.ConstantColumn(col, v);
  }

  /** Occupations of 0 or 1 give a mean occupation in [0, 1] and a PauliZ
      expectation value in [-1, 1]. */
  lemma BinaryMeans(rows: seq<seq<int>>, width: nat, wires: seq<nat>, i: nat)
    requires |rows| > 0 && HasWidth(rows, width)
    requires forall w :: 0 <= w < |wires| ==> wires[w] < width
    requires i < |wires| && forall s :: 0 <= s < |rows| ==> rows[s][wires[i]] == 0 || rows[s][wires[i]] == 1
    ensures 0.0 <= Values(Reduce(MeanOf, AsReals(rows), width, wires).value)[i] <= 1.0
    ensures -1.0 <= Values(Reduce(MeanOf, PauliZRows(rows), width, wires).value)[i] <= 1.0
  {
    var col := Column(AsReals(rows), wires[i]);
    forall s | 0 <= s < |rows| ensures 0.0 <= col[s] <= 1.0 {
      assert col[s] == rows[s][wires[i]] as real;
    }
    Stats.MeanBounds(col, 0.0, 1.0);
    PauliZMoments(rows, width, wires);
  }

  /** `shots[:, wires]`: the chosen columns, in the order given. A wire that
      is not a column raises IndexError. */
  function SelectColumns(rows: seq<seq<int>>, width: nat, wires: seq<nat>): (r: Result<seq<seq<int>>>)
    requires HasWidth(rows, width)
    ensures r.Ok? <==> forall i :: 0 <= i < |wires| ==> wires[i] < width
    ensures r.Err? ==> r.error == IndexError
    ensures r.Ok? ==> (
      |r.value| == |rows| && ProbabilityTable.HasWidth(r.value, |wires|)
      && forall s, i :: 0 <= s < |rows| && 0 <= i < |wires| ==> r.value[s][i] == rows[s][wires[i]])
  {
    if exists i :: 0 <= i < |wires| && wires[i] >= width then Err(IndexError)
    else Ok(seq(|rows|, s requires 0 <= s < |rows| =>
      seq(|wires|, i requires 0 <= i < |wires| => rows[s][wires[i]])))
  }

  class FermionDevice {
    const base: Django.DjangoDevice
    var samples: Option<seq<seq<int>>>

    /** The device has at least one shot, and decoded samples are a
        shots × wires matrix. */
    predicate Valid()
      reads this, base
    {
      base.shots >= 1
      && (samples.Some? ==> |samples.value| == base.shots && HasWidth(samples.value, |base.wires|))
    }

    constructor(url: string, wires: nat, shots: nat, username: Option<string>,
                password: Option<string>, jobId: Option<string>, blocking: bool)
      requires shots >= 1
      ensures fresh(base) && Valid() && samples == None
      ensures base.urlPrefix == url && base.wires == Django.Range(wires) && base.shots == shots
      ensures base.username == username && base.password == password
      ensures base.jobId == jobId && base.blocking == blocking && base.payload == Django.Untitled
    {
      base := new Django.DjangoDevice(url, wires, shots, username, password, jobId, blocking);
      samples := None;
    }

    /** `FermionDevice(...)`: the base device is set up, then more than 8
        wires raise ValueError. */
    static method Open(url: string, wires: nat, shots: nat, username: Option<string>,
                       password: Option<string>, jobId: Option<string>, blocking: bool)
      returns (r: Result<FermionDevice>)
      requires shots >= 1
      ensures r.Err? <==> wires > 8
      ensures r.Err? ==> r.error == ValueError
      ensures r.Ok? ==> (
        fresh(r.value) && fresh(r.value.base) && r.value.Valid()
        && r.value.samples == None && r.value.base.wires == Django.Range(wires)
        && r.value.base.shots == shots && r.value.base.payload == Django.Untitled
        && r.value.base.jobId == jobId && r.value.base.blocking == blocking)
    {
      var dev := new FermionDevice(url, wires, shots, username, password, jobId, blocking);
      var check := WireCheck(|dev.base.wires|);
      if check.Err? {
        return Err(check.error);
      }
      return Ok(dev);
    }

    /** The `pre_apply` this device does not define, in the form the
        multi-qudit device gives it: the samples and the job id are cleared
        and a fresh experiment with no instructions, the device's wire count
        and its shots is installed. */
    method PreApply()
      modifies this`samples, base`jobId, base`payload
      ensures samples == None && base.jobId == None
      ensures base.payload == Django.Experiment([], |base.wires|, base.shots)
    {
      Reset();
      base.payload := Django.Experiment([], |base.wires|, base.shots);
    }

    /** `apply`: the payload becomes ApplyResult of the old payload; on an
        error it is left as it was. */
    method Apply(name: string, wires: seq<nat>, par: seq<real>, hartreeFock: seq<Instruction>)
      returns (r: Result<()>)
      modifies base`payload
      ensures ApplyResult(old(base.payload), name, wires, par, hartreeFock).Ok? ==>
        r.Ok? && base.payload == ApplyResult(old(base.payload), name, wires, par, hartreeFock).value
      ensures ApplyResult(old(base.payload), name, wires, par, hartreeFock).Err? ==>
        r == Err(ApplyResult(old(base.payload), name, wires, par, hartreeFock).error)
        && base.payload == old(base.payload)
    {
      if name !in OperationMap {
        return Err(KeyError(name));
      }
      var out: seq<Instruction>;
      if OperationMap[name].HartreeFock? {
        out := hartreeFock;
      } else {
        var ins := FermionOps.FermionOperator(OperationMap[name].gate, wires, par);
        if ins.Err? {
          return Err(ins.error);
        }
        out := [ins.value];
      }
      r := base.AppendEach(out);
    }

    /** `pre_measure`: one measurement per device wire is appended, the job
        is posted (its id is `newJobId`), and a blocking device decodes the
        server's `reply` into the samples. A non-blocking device returns the
        job id at once. A reply without results raises DeviceError and
        leaves the samples as they were. */
    method PreMeasure(newJobId: string, reply: JobResult) returns (r: Result<Option<string>>)
      requires Valid()
      modifies base`payload, base`jobId, this`samples
      ensures Valid()
      ensures Django.AppendAll(old(base.payload), MeasureAll(base.wires)).Err? ==>
        r == Err(Django.AppendAll(old(base.payload), MeasureAll(base.wires)).error)
        && base.payload == old(base.payload) && base.jobId == old(base.jobId) && samples == old(samples)
      ensures Django.AppendAll(old(base.payload), MeasureAll(base.wires)).Ok? ==>
        base.payload == Django.AppendAll(old(base.payload), MeasureAll(base.wires)).value
        && base.jobId == Some(newJobId)
      ensures Django.AppendAll(old(base.payload), MeasureAll(base.wires)).Ok? && !base.blocking ==>
        r == Ok(Some(newJobId)) && samples == old(samples)
      ensures (Django.AppendAll(old(base.payload), MeasureAll(base.wires)).Ok? && base.blocking
               && reply.NoResults?) ==> r == Err(DeviceError(reply.text)) && samples == old(samples)
      ensures (Django.AppendAll(old(base.payload), MeasureAll(base.wires)).Ok? && base.blocking
               && reply.Results?) ==>
        match ResultDecode.DecodeMemory(reply.memory, base.shots, |base.wires|)
        case Err(e) => r == Err(e) && samples == old(samples)
        case Ok(m) => r == Ok(None) && samples == Some(m)
    {
      var appended := base.AppendEach(MeasureAll(base.wires));
      if appended.Err? {
        return Err(appended.error);
      }
      base.jobId := Some(newJobId);
      if !base.blocking {
        return Ok(Some(newJobId));
      }
      match reply
      case NoResults(text) =>
        return Err(DeviceError(text));
      case Results(memory) =>
        var out := ResultDecode.DecodeShots(memory, base.shots, |base.wires|);
        if out.Err? {
          return Err(out.error);
        }
        samples := Some(out.value);
        return Ok(None);
    }

    /** `sample`: the stored samples, after the observable name is looked up. */
    function Sample(observable: string): (r: Result<Option<seq<seq<int>>>>)
      reads this
      ensures observable !in ObservableMap ==> r == Err(KeyError(observable))
      ensures observable in ObservableMap ==>
        r == Ok(if samples.Some? then Some(FermionOps.ParticleNumber(samples.value)) else None)
    {
      if observable !in ObservableMap then Err(KeyError(observable)) else Ok(samples)
    }

    /** `expval` and `var`: Identity gives 1.0 (variance 0.0) without reading
        the samples; the other observables reduce the samples column by
        column. Before any samples, PauliZ fails on `None.shape` and
        ParticleNumber on `np.mean(None, axis=0)`. */
    function Moments(m: Moment, observable: string, wires: seq<nat>): (r: Result<Value>)
      reads this, base
      requires Valid()
      ensures observable !in ObservableMap ==> r == Err(KeyError(observable))
      ensures observable in ObservableMap && ObservableMap[observable] == Identity ==>
        r == Ok(Scalar(if m == MeanOf then 1.0 else 0.0))
      ensures observable in ObservableMap && ObservableMap[observable] != Identity && samples.None? ==>
        r == Err(if ObservableMap[observable] == PauliZ then AttributeError else AxisError)
      ensures observable in ObservableMap && ObservableMap[observable] != Identity && samples.Some? ==>
        r == Reduce(m, ObservableRows(ObservableMap[observable], samples.value), |base.wires|, wires)
    {
      if observable !in ObservableMap then Err(KeyError(observable))
      else if ObservableMap[observable] == Identity then Ok(Scalar(if m == MeanOf then 1.0 else 0.0))
      else match samples
        case None => Err(if ObservableMap[observable] == PauliZ then AttributeError else AxisError)
        case Some(rows) => Reduce(m, ObservableRows(ObservableMap[observable], rows), |base.wires|, wires)
    }

    function Expval(observable: string, wires: seq<nat>): (r: Result<Value>)
      reads this, base
      requires Valid()
      ensures observable in ObservableMap && ObservableMap[observable] == Identity ==> r == Ok(Scalar(1.0))
    {
      Moments(MeanOf, observable, wires)
    }

    function Var(observable: string, wires: seq<nat>): (r: Result<Value>)
      reads this, base
      requires Valid()
      ensures observable in ObservableMap && ObservableMap[observable] == Identity ==> r == Ok(Scalar(0.0))
    {
      Moments(VarianceOf, observable, wires)
    }

    /** `probability(wires)`: the table over the chosen wires. Its keys are
        the 2^n binary patterns in index order; an unobserved index has
        probability 0; an observed one has the relative frequency of a
        pattern with that index, and with 0/1 samples exactly the frequency
        of the index, the probabilities then adding up to 1. */
    method Probability(wires: Option<seq<nat>>) returns (r: Result<seq<(seq<int>, real)>>)
      requires Valid()
      ensures samples.None? ==> r == Err(if wires.None? then AxisError else TypeError)
      ensures samples.Some? && wires.None? ==> r == Err(TypeError)
      ensures samples.Some? && wires.Some? ==>
        (r.Ok? <==> forall i :: 0 <= i < |wires.value| ==> wires.value[i] < |base.wires|)
      ensures r.Err? && samples.Some? && wires.Some? ==> r.error == IndexError
      ensures r.Ok? ==> (
        samples.Some? && wires.Some?
        && SelectColumns(samples.value, |base.wires|, wires.value).Ok?
        && TableOf(r.value, SelectColumns(samples.value, |base.wires|, wires.value).value, |wires.value|))
    {
      if samples.None? {
        return Err(if wires.None? then AxisError else TypeError);
      }
      if wires.None? {
        return Err(TypeError);
      }
      var rows := SelectColumns(samples.value, |base.wires|, wires.value);
      if rows.Err? {
        return Err(rows.error);
      }
      var n := |wires.value|;
      var probs := ProbabilityTable.Probabilities(rows.value, n);
      TableOfProbabilities(probs[..], rows.value, n);
      return Ok(ProbabilityTable.Table(probs[..], n));
    }

    /** `reset`: the samples and the job id are cleared. */
    method Reset()
      modifies this`samples, base`jobId
      ensures samples == None && base.jobId == None
    {
      samples := None;
      base.jobId := None;
    }
  }

  /** As written the device has no `pre_apply`, so the payload is still the
      empty dictionary of the constructor when the first gate arrives, and
      that gate raises KeyError("experiment_0"). */
  method AsWrittenFirstGate(wires: nat, shots: nat, name: string, gateWires: seq<nat>, par: seq<real>)
    returns (r: Result<()>)
    requires shots >= 1
    requires name in OperationMap && OperationMap[name].Gate?
    requires FermionOps.FermionOperator(OperationMap[name].gate, gateWires, par).Ok?
    ensures r == Err(KeyError("experiment_0"))
  {
    var dev := new FermionDevice("http://qsimsim.synqs.org/fermions/", wires, shots, None, None, None, true);
    r := dev.Apply(name, gateWires, par, []);
  }

  /** With the experiment installed first, the same gate is the one
      instruction of a `wires`-wire experiment. */
  method PreparedFirstGate(wires: nat, shots: nat, name: string, gateWires: seq<nat>, par: seq<real>)
    returns (r: Result<()>, payload: Django.Payload)
    requires shots >= 1
    requires name in OperationMap && OperationMap[name].Gate?
    requires FermionOps.FermionOperator(OperationMap[name].gate, gateWires, par).Ok?
    ensures r.Ok?
    ensures payload == Django.Experiment(
      [FermionOps.FermionOperator(OperationMap[name].gate, gateWires, par).value], wires, shots)
  {
    var dev := new FermionDevice("http://qsimsim.synqs.org/fermions/", wires, shots, None, None, None, true);
    dev.PreApply();
    r := dev.Apply(name, gateWires, par, []);
    payload := dev.base.payload;
  }

  /** The properties of a probability table over rows of width n. */
  predicate TableOf(table: seq<(seq<int>, real)>, rows: seq<seq<int>>, n: nat) {
    |rows| > 0
    && |table| == ProbabilityTable.Pow2(n)
    && (forall k :: 0 <= k < |table| ==> table[k].0 == ProbabilityTable.KeyPattern(n, k))
    && (forall k :: 0 <= k < |table| && ProbabilityTable.CountIndex(rows, k) == 0 ==> table[k].1 == 0.0)
    && (forall k :: 0 <= k < |table| && ProbabilityTable.CountIndex(rows, k) > 0 ==>
          ProbabilityTable.FrequencyAtIndex(table[k].1, rows, k))
    && (ProbabilityTable.AllBinary(rows) ==>
          (forall k :: 0 <= k < |table| ==>
             table[k].1 == ProbabilityTable.Frequency(ProbabilityTable.CountIndex(rows, k), |rows|))
          && Stats.Sum(seq(|table|, k requires 0 <= k < |table| => table[k].1)) == 1.0)
  }

  /** The table built from what the counting loop leaves in the array has
      the properties of a probability table. */
  lemma TableOfProbabilities(probs: seq<real>, rows: seq<seq<int>>, n: nat)
    requires |rows| > 0 && ProbabilityTable.HasWidth(rows, n) && |probs| == ProbabilityTable.Pow2(n)
    requires ProbabilityTable.Counted(probs, rows)
    ensures TableOf(ProbabilityTable.Table(probs, n), rows, n)
  {
    var table := ProbabilityTable.Table(probs, n);
    assert seq(|table|, k requires 0 <= k < |table| => table[k].1) == probs;
    if ProbabilityTable.AllBinary(rows) {
      ProbabilityTable.ProbabilitiesSumToOne(probs, rows, n);
    }
  }
}
