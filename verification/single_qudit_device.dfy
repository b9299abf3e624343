/** The single-qudit device: gates on the one qudit are appended to the job
    payload, `Load` fixes the qudit dimension, the first `sample` submits the
    job with one measurement, and the returned counts are transformed by the
    observable with the current dimension. */
module SingleQudit {
  import opened Common
  import Stats
  import SingleQuditOps
  import Django
  import ResultDecode

  const OperationMap: map<string, SingleQuditOps.Gate> := map[
    "RLX" := SingleQuditOps.RLX,
    "RLZ" := SingleQuditOps.RLZ,
    "RLZ2" := SingleQuditOps.RLZ2,
    "Load" := SingleQuditOps.Load]

  const ObservableMap: map<string, SingleQuditOps.Observable> := map[
    "LZ" := SingleQuditOps.LZ,
    "ZObs" := SingleQuditOps.ZObs,
    "LZ2" := SingleQuditOps.LZ2]

  /** The device offers exactly the four gates Load, RLX, RLZ and RLZ2;
      the identity gate is not among them. */
  lemma Catalog()
    ensures OperationMap.Keys == {"Load", "RLX", "RLZ", "RLZ2"}
    ensures SingleQuditOps.ID !in OperationMap.Values
    ensures ObservableMap.Keys == {"LZ", "LZ2", "ZObs"}
  {
  }

  /** `[int(shot) for shot in memory]`: every record must be one integer
      literal, otherwise ValueError. */
  function ParseShots(memory: seq<string>): (r: Result<seq<int>>)
    ensures r.Ok? <==> forall i :: 0 <= i < |memory| ==> ResultDecode.IntOf(memory[i]).Some?
    ensures r.Err? ==> r.error == ValueError
    ensures r.Ok? ==> (
      |r.value| == |memory|
      && forall i :: 0 <= i < |memory| ==> r.value[i] == ResultDecode.IntOf(memory[i]).value)
  {
    if exists i :: 0 <= i < |memory| && ResultDecode.IntOf(memory[i]).None? then Err(ValueError)
    else Ok(seq(|memory|, i requires 0 <= i < |memory| => ResultDecode.IntOf(memory[i]).value))
  }

  /** Counts written out as decimal literals parse back to themselves. */
  lemma ParseShotsShown(xs: seq<int>)
    ensures ParseShots(seq(|xs|, i requires 0 <= i < |xs| => ResultDecode.ShowInt(xs[i]))) == Ok(xs)
  {
    var memory := seq(|xs|, i requires 0 <= i < |xs| => ResultDecode.ShowInt(xs[i]));
    forall i | 0 <= i < |xs| ensures ResultDecode.IntOf(memory[i]) == Some(xs[i]) {
      ResultDecode.ShowIntIsWord(xs[i]);
      ResultDecode.SplitWord(memory[i], []);
      assert memory[i] + [] == memory[i];
      assert ResultDecode.Split(memory[i]) == [memory[i]];
      ResultDecode.ParseShowInt(xs[i]);
    }
    assert ParseShots(memory).Ok?;
    assert ParseShots(memory).value == xs;
  }

  /** The shots `sample` returns once the job is done: the `"results"` entry
      (KeyError without one), its integer counts, transformed by the
      observable with dimension qdim. */
  function Fetch(o: SingleQuditOps.Observable, reply: JobResult, qdim: real): (r: Result<seq<real>>)
    ensures reply.NoResults? ==> r == Err(KeyError("results"))
    ensures reply.Results? ==> (r.Ok? <==> ParseShots(reply.memory).Ok?)
    ensures reply.Results? && r.Err? ==> r.error == ValueError
    ensures r.Ok? ==> r.value == SingleQuditOps.Transform(o, ParseShots(reply.memory).value, qdim)
  {
    match reply
    case NoResults(_) => Err(KeyError("results"))
    case Results(memory) =>
      match ParseShots(memory)
      case Err(e) => Err(e)
      case Ok(counts) => Ok(SingleQuditOps.Transform(o, counts, qdim))
  }

  /** A numpy mean or variance: NaN for no samples. */
  datatype Statistic = Number(x: real) | NotANumber

  datatype Moment = MeanOf | VarianceOf

  function StatisticOf(m: Moment, xs: seq<real>): Statistic {
    if |xs| == 0 then NotANumber
    else match m
      case MeanOf => Number(Stats.Mean(xs))
      case VarianceOf => Number(Stats.Variance(xs))
  }

  /** `except ValueError: raise NotImplementedError()`. */
  function Reraise(e: PyError): (e': PyError)
    ensures e.ValueError? ==> e' == NotImplementedError
    ensures !e.ValueError? ==> e' == e
  {
    if e.ValueError? then NotImplementedError else e
  }

  /** What `expval`/`var` make of a finished job: the statistic of the
      fetched shots, with ValueError turned into NotImplementedError. */
  function Outcome(m: Moment, o: SingleQuditOps.Observable, reply: JobResult, qdim: real): (r: Result<Statistic>)
    ensures r.Err? <==> Fetch(o, reply, qdim).Err?
    ensures r.Err? ==> r.error == Reraise(Fetch(o, reply, qdim).error) && !r.error.ValueError?
    ensures r.Ok? ==> r.value == StatisticOf(m, Fetch(o, reply, qdim).value)
  {
    match Fetch(o, reply, qdim)
    case Err(e) => Err(Reraise(e))
    case Ok(xs) => Ok(StatisticOf(m, xs))
  }

  /** The LZ expectation value is the ZObs one shifted by half the dimension,
      and both have the same variance. */
  lemma OutcomeLZ(reply: JobResult, qdim: real)
    requires Outcome(MeanOf, SingleQuditOps.ZObs, reply, qdim).Ok?
    requires Outcome(MeanOf, SingleQuditOps.ZObs, reply, qdim).value.Number?
    ensures Outcome(MeanOf, SingleQuditOps.LZ, reply, qdim)
      == Ok(Number(Outcome(MeanOf, SingleQuditOps.ZObs, reply, qdim).value.x - qdim / 2.0))
    ensures Outcome(VarianceOf, SingleQuditOps.LZ, reply, qdim)
      == Outcome(VarianceOf, SingleQuditOps.ZObs, reply, qdim)
  {
    var counts := ParseShots(reply.memory).value;
    var zs := SingleQuditOps.Transform(SingleQuditOps.ZObs, counts, qdim);
    var ls := SingleQuditOps.Transform(SingleQuditOps.LZ, counts, qdim);
    assert Fetch(SingleQuditOps.ZObs, reply, qdim) == Ok(zs);
    assert Fetch(SingleQuditOps.LZ, reply, qdim) == Ok(ls);
    assert |zs| > 0 && |ls| == |zs|;
    SingleQuditOps.MeanLZ(counts, qdim);
    SingleQuditOps.VarianceLZ(counts, qdim);
    assert Outcome(MeanOf, SingleQuditOps.LZ, reply, qdim) == Ok(Number(Stats.Mean(ls)));
    assert Outcome(VarianceOf, SingleQuditOps.LZ, reply, qdim) == Ok(Number(Stats.Variance(ls)));
    assert Outcome(VarianceOf, SingleQuditOps.ZObs, reply, qdim) == Ok(Number(Stats.Variance(zs)));
  }

  /** The LZ2 expectation value is never negative. */
  lemma OutcomeLZ2NonNegative(reply: JobResult, qdim: real)
    requires Outcome(MeanOf, SingleQuditOps.LZ2, reply, qdim).Ok?
    requires Outcome(MeanOf, SingleQuditOps.LZ2, reply, qdim).value.Number?
    ensures Outcome(MeanOf, SingleQuditOps.LZ2, reply, qdim).value.x >= 0.0
  {
    SingleQuditOps.MeanLZ2NonNegative(ParseShots(reply.memory).value, qdim);
  }

  class SingleQuditDevice {
    const base: Django.DjangoDevice
    var qdim: real

    /** `SingleQuditDevice(...)`: one wire, and qudit dimension 2. */
    constructor(shots: nat, username: Option<string>, url: string, password: Option<string>,
                jobId: Option<string>, blocking: bool)
      requires shots >= 1
      ensures fresh(base) && qdim == 2.0
      ensures base.urlPrefix == url && base.wires == [0] && base.shots == shots
      ensures base.username == username && base.password == password
      ensures base.jobId == jobId && base.blocking == blocking && base.payload == Django.Untitled
    {
      base := new Django.DjangoDevice(url, 1, shots, username, password, jobId, blocking);
      qdim := 2.0;
    }

    /** `apply(operation, wires, par)`: the name is looked up first; the
        gate's instruction (always on wire 0) is appended once at the end.
        A truthy dimension, which only Load gives, replaces qdim before the
        append, so it changes even when the append fails. */
    method Apply(name: string, wires: seq<nat>, par: seq<real>) returns (r: Result<()>)
      modifies this`qdim, base`payload
      ensures name !in OperationMap ==>
        r == Err(KeyError(name)) && qdim == old(qdim) && base.payload == old(base.payload)
      ensures (name in OperationMap && OperationMap[name] != SingleQuditOps.RLZ2 && |par| == 0) ==>
        r == Err(IndexError) && qdim == old(qdim) && base.payload == old(base.payload)
      ensures qdim == if name in OperationMap && OperationMap[name] == SingleQuditOps.Load
                         && |par| > 0 && par[0] != -1.0
                      then par[0] + 1.0 else old(qdim)
      ensures name in OperationMap && SingleQuditOps.QuditOperator(OperationMap[name], par).Ok? ==>
        var ins := SingleQuditOps.QuditOperator(OperationMap[name], par).value.value.instruction;
        ins.wires == [0]
        && (Django.AppendAll(old(base.payload), [ins]).Ok? ==>
              r.Ok? && base.payload == Django.AppendAll(old(base.payload), [ins]).value)
        && (Django.AppendAll(old(base.payload), [ins]).Err? ==>
              r == Err(Django.AppendAll(old(base.payload), [ins]).error) && base.payload == old(base.payload))
    {
      if name !in OperationMap {
        return Err(KeyError(name));
      }
      var g := OperationMap[name];
      var out := SingleQuditOps.QuditOperator(g, par);
      if out.Err? {
        return Err(out.error);
      }
      var gate := out.value.value;
      SingleQuditOps.OnlyLoadSetsDimension(g, par);
      if Truthy(gate.qdim) {
        qdim := gate.qdim.d;
      }
      r := base.AppendEach([gate.instruction]);
    }

    /** `sample(observable, wires, par)`. The observable is looked up first.
        Without a job id the measurement of wire 0 is appended and the job
        is submitted (its id is `newJobId`); a non-blocking device then
        hands back the job id. Otherwise the job is awaited (blocking) or
        its `status` checked, and the fetched counts are transformed with
        the current dimension. With a job id nothing is appended. */
    method Sample(observable: string, newJobId: string, status: string, reply: JobResult)
      returns (r: Result<SampleOutcome<seq<real>>>)
      modifies base`payload, base`jobId
      ensures observable !in ObservableMap ==>
        r == Err(KeyError(observable)) && base.payload == old(base.payload) && base.jobId == old(base.jobId)
      ensures observable in ObservableMap && old(base.jobId).Some? ==>
        base.payload == old(base.payload) && base.jobId == old(base.jobId)
        && (!base.blocking && status != "DONE" ==> r == Ok(Pending(old(base.jobId).value)))
        && (base.blocking || status == "DONE" ==> r == Lift(Fetch(ObservableMap[observable], reply, qdim)))
      ensures observable in ObservableMap && old(base.jobId).None? ==>
        var submitted := Django.AppendAll(old(base.payload), [Measure(0)]);
        (submitted.Err? ==>
           r == Err(submitted.error) && base.payload == old(base.payload) && base.jobId == None)
        && (submitted.Ok? ==>
              base.payload == submitted.value && base.jobId == Some(newJobId)
              && (!base.blocking ==> r == Ok(Pending(newJobId)))
              && (base.blocking ==> r == Lift(Fetch(ObservableMap[observable], reply, qdim))))
    {
      if observable !in ObservableMap {
        return Err(KeyError(observable));
      }
      if base.jobId.None? {
        var appended := base.AppendEach([Measure(0)]);
        if appended.Err? {
          return Err(appended.error);
        }
        base.jobId := Some(newJobId);
        if !base.blocking {
          return Ok(Pending(newJobId));
        }
      }
      if !base.blocking && status != "DONE" {
        return Ok(Pending(base.jobId.value));
      }
      var shots := Fetch(ObservableMap[observable], reply, qdim);
      r := Lift(shots);
    }

    /** `expval` (MeanOf) and `var` (VarianceOf). Without a job id, `sample`
        submits the job first; a job whose status is not DONE gives the
        sentinel "Job_not_done"; otherwise the statistic of the fetched
        shots. A ValueError from reading the counts becomes
        NotImplementedError. With a job id already set the status is checked
        before the observable is looked up, so an unknown observable gives
        the sentinel until the job is DONE and a KeyError after. */
    method Reading(m: Moment, observable: string, newJobId: string, status: string, reply: JobResult)
      returns (r: Result<Reading<Statistic>>)
      modifies base`payload, base`jobId
      ensures observable !in ObservableMap ==>
        base.payload == old(base.payload) && base.jobId == old(base.jobId)
      ensures observable !in ObservableMap && (old(base.jobId).None? || status == "DONE") ==>
        r == Err(KeyError(observable))
      ensures observable !in ObservableMap && old(base.jobId).Some? && status != "DONE" ==>
        r == Ok(JobNotDone)
      ensures r.Err? ==> !r.error.ValueError?
      ensures observable in ObservableMap && old(base.jobId).Some? ==>
        base.payload == old(base.payload) && base.jobId == old(base.jobId)
        && r == Settle(m, ObservableMap[observable], status, reply)
      ensures observable in ObservableMap && old(base.jobId).None? ==>
        var submitted := Django.AppendAll(old(base.payload), [Measure(0)]);
        (submitted.Err? ==>
           r == Err(submitted.error) && base.payload == old(base.payload) && base.jobId == None)
        && (submitted.Ok? ==>
              base.payload == submitted.value && base.jobId == Some(newJobId)
              && (base.blocking && Fetch(ObservableMap[observable], reply, qdim).Err? ==>
                    r == Err(Reraise(Fetch(ObservableMap[observable], reply, qdim).error)))
              && (!base.blocking || Fetch(ObservableMap[observable], reply, qdim).Ok? ==>
                    r == Settle(m, ObservableMap[observable], status, reply)))
    {
      if base.jobId.None? {
        var first := Sample(observable, newJobId, status, reply);
        if first.Err? {
          return Err(Reraise(first.error));
        }
      }
      if status != "DONE" {
        return Ok(JobNotDone);
      }
      var second := Sample(observable, newJobId, status, reply);
      match second
      case Err(e) =>
        return Err(Reraise(e));
      case Ok(Samples(xs)) =>
        return Ok(Done(StatisticOf(m, xs)));
    }

    /** What `expval`/`var` give once the job is submitted: the sentinel
        unless the status is DONE, otherwise the outcome of the fetch. */
    function Settle(m: Moment, o: SingleQuditOps.Observable, status: string, reply: JobResult)
      : (r: Result<Reading<Statistic>>)
      reads this
      ensures status != "DONE" ==> r == Ok(JobNotDone)
      ensures status == "DONE" && r.Ok? ==> r.value.Done? && Outcome(m, o, reply, qdim) == Ok(r.value.value)
      ensures status == "DONE" && r.Err? ==> Outcome(m, o, reply, qdim) == Err(r.error)
    {
      if status != "DONE" then Ok(JobNotDone)
      else match Outcome(m, o, reply, qdim)
        case Err(e) => Err(e)
        case Ok(s) => Ok(Done(s))
    }

    /** The `pre_apply` this device does not define, in the form the
        multi-qudit device gives it: `reset`, then a fresh experiment with
        no instructions, the device's one wire and its shots. */
    method PreApply()
      modifies this`qdim, base`jobId, base`payload
      ensures qdim == 2.0 && base.jobId == None
      ensures base.payload == Django.Experiment([], |base.wires|, base.shots)
    {
      Reset();
      base.payload := Django.Experiment([], |base.wires|, base.shots);
    }

    /** `reset`: dimension 2, no job id, and no payload at all (so a later
        `apply` raises TypeError). */
    method Reset()
      modifies this`qdim, base`jobId, base`payload
      ensures qdim == 2.0 && base.jobId == None && base.payload == Django.NoPayload
    {
      qdim := 2.0;
      base.jobId := None;
      base.payload := Django.NoPayload;
    }
  }

  /** As written the device has no `pre_apply`, so the payload is still the
      empty dictionary of the constructor when the first gate arrives, and
      that gate raises KeyError("experiment_0"). */
  method AsWrittenFirstGate(shots: nat, name: string, par: seq<real>) returns (r: Result<()>)
    requires shots >= 1
    requires name in OperationMap && SingleQuditOps.QuditOperator(OperationMap[name], par).Ok?
    ensures r == Err(KeyError("experiment_0"))
  {
    var dev := new SingleQuditDevice(shots, None, "http://qsimsim.synqs.org/api/singlequdit/", None, None, true);
    r := dev.Apply(name, [0], par);
  }

  /** With the experiment installed first, the same gate is the one
      instruction of a one-wire experiment. */
  method PreparedFirstGate(shots: nat, name: string, par: seq<real>)
    returns (r: Result<()>, payload: Django.Payload)
    requires shots >= 1
    requires name in OperationMap && SingleQuditOps.QuditOperator(OperationMap[name], par).Ok?
    ensures r.Ok?
    ensures payload == Django.Experiment(
      [SingleQuditOps.QuditOperator(OperationMap[name], par).value.value.instruction], 1, shots)
  {
    var dev := new SingleQuditDevice(shots, None, "http://qsimsim.synqs.org/api/singlequdit/", None, None, true);
    dev.PreApply();
    r := dev.Apply(name, [0], par);
    payload := dev.base.payload;
  }

  function Lift(x: Result<seq<real>>): (r: Result<SampleOutcome<seq<real>>>)
    ensures x.Err? ==> r == Err(x.error)
    ensures x.Ok? ==> r == Ok(Samples(x.value))
  {
    match x
    case Err(e) => Err(e)
    case Ok(v) => Ok(Samples(v))
  }
}
