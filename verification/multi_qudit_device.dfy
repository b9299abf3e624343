/** The multi-qudit device: `pre_apply` installs a fresh experiment, gates
    are appended as the circuit runs, the first `sample` appends one
    measurement per requested wire and submits the job, and the server's
    records are decoded into a shots × wires count matrix whose column
    means `expval` returns. Neither `sample` nor `expval` consults the
    observable: Z and Lz give the same raw count means. */
module MultiQudit {
  import opened Common
  import Stats
  import MultiQuditOps
  import Django
  import ResultDecode

  const OperationMap: map<string, MultiQuditOps.Gate> := map[
    "rLx" := MultiQuditOps.RLx,
    "rLz" := MultiQuditOps.RLz,
    "rLz2" := MultiQuditOps.RLz2,
    "LxLy" := MultiQuditOps.LxLy,
    "LzLz" := MultiQuditOps.LzLz,
    "load" := MultiQuditOps.Load]

  /** The device offers exactly six gates, named like their classes; the
      identity gate is not among them. */
  lemma Catalog()
    ensures OperationMap.Keys == {"LxLy", "LzLz", "load", "rLx", "rLz", "rLz2"}
    ensures MultiQuditOps.Id !in OperationMap.Values
    ensures forall name | name in OperationMap && name != "load" ::
      MultiQuditOps.Opcode(OperationMap[name]) == name
  {
  }

  /** The `wires` argument of `sample`: a list of wire objects, each with its
      labels, or a single wire object. */
  datatype WireArg = AsList(items: seq<seq<nat>>) | AsWires(labels: seq<nat>)

  /** `wires if isinstance(wires, list) else [wires]`. */
  function Listed(w: WireArg): (r: seq<seq<nat>>)
    ensures w.AsList? ==> r == w.items
    ensures w.AsWires? ==> r == [w.labels]
  {
    match w
    case AsList(items) => items
    case AsWires(labels) => [labels]
  }

  /** `len(wires)` of the argument as given. */
  function Length(w: WireArg): nat {
    match w
    case AsList(items) => |items|
    case AsWires(labels) => |labels|
  }

  /** The position of the first wire object without labels, or the number
      of objects when every one has a label. */
  function FirstUnlabelled(items: seq<seq<nat>>): (k: nat)
    ensures k <= |items|
    ensures forall i :: 0 <= i < k ==> |items[i]| > 0
    ensures k < |items| ==> items[k] == []
  {
    if items == [] || items[0] == [] then 0 else 1 + FirstUnlabelled(items[1..])
  }

  /** `("measure", [name.labels[0]], [])` for each wire object, in order. */
  function MeasureLabels(items: seq<seq<nat>>): (ms: seq<Instruction>)
    requires forall i :: 0 <= i < |items| ==> |items[i]| > 0
    ensures |ms| == |items|
    ensures forall i :: 0 <= i < |items| ==> ms[i] == Measure(items[i][0])
  {
    seq(|items|, i requires 0 <= i < |items| => Measure(items[i][0]))
  }

  /** A single wire object is measured on its first label only, and
      submitting reads one column from each record. */
  lemma SingleWireArgument(labels: seq<nat>)
    requires |labels| > 0
    ensures FirstUnlabelled(Listed(AsWires(labels))) == 1
    ensures MeasureLabels(Listed(AsWires(labels))) == [Measure(labels[0])]
    ensures |Listed(AsWires(labels))| == 1
  {
  }

  /** The count matrix `sample` returns once the job is done: the
      `"results"` entry (KeyError without one), decoded into `shots` rows of
      numObs values. */
  function Fetch(reply: JobResult, shots: nat, numObs: nat): (r: Result<seq<seq<int>>>)
    ensures reply.NoResults? ==> r == Err(KeyError("results"))
    ensures reply.Results? ==> r == ResultDecode.DecodeMemory(reply.memory, shots, numObs)
  {
    match reply
    case NoResults(_) => Err(KeyError("results"))
    case Results(memory) => ResultDecode.DecodeMemory(memory, shots, numObs)
  }

  function Lift(x: Result<seq<seq<int>>>): (r: Result<SampleOutcome<seq<seq<int>>>>)
    ensures x.Err? ==> r == Err(x.error)
    ensures x.Ok? ==> r == Ok(Samples(x.value))
  {
    match x
    case Err(e) => Err(e)
    case Ok(v) => Ok(Samples(v))
  }

  /** Column j of an integer matrix, as floats. */
  function Column(rows: seq<seq<int>>, j: nat): (c: seq<real>)
    requires forall i :: 0 <= i < |rows| ==> j < |rows[i]|
    ensures |c| == |rows|
    ensures forall i :: 0 <= i < |rows| ==> c[i] == rows[i][j] as real
  {
    seq(|rows|, i requires 0 <= i < |rows| => rows[i][j] as real)
  }

  /** `np.mean(shots, axis=0)`: the mean of each of the n columns. */
  function ColumnMeans(rows: seq<seq<int>>, n: nat): (r: seq<real>)
    requires |rows| > 0 && forall i :: 0 <= i < |rows| ==> |rows[i]| == n
    ensures |r| == n
  {
    seq(n, j requires 0 <= j < n => Stats.Mean(Column(rows, j)))
  }

  /** Counts between lo and hi give column means between lo and hi. */
  lemma ColumnMeansBounds(rows: seq<seq<int>>, n: nat, lo: int, hi: int)
    requires |rows| > 0 && forall i :: 0 <= i < |rows| ==> |rows[i]| == n
    requires forall i, j :: 0 <= i < |rows| && 0 <= j < n ==> lo <= rows[i][j] <= hi
    ensures forall j :: 0 <= j < n ==> lo as real <= ColumnMeans(rows, n)[j] <= hi as real
  {
    forall j | 0 <= j < n ensures lo as real <= ColumnMeans(rows, n)[j] <= hi as real {
      Stats.MeanBounds(Column(rows, j), lo as real, hi as real);
    }
  }

  /** A column that holds the same count in every shot has that count as
      its mean. */
  lemma ConstantColumnMean(rows: seq<seq<int>>, n: nat, j: nat, c: int)
    requires |rows| > 0 && forall i :: 0 <= i < |rows| ==> |rows[i]| == n
    requires j < n && forall i :: 0 <= i < |rows| ==> rows[i][j] == c
    ensures ColumnMeans(rows, n)[j] == c as real
  {
    Stats.ConstantColumn(Column(rows, j), c as real);
  }

  class MultiQuditDevice {
    const base: Django.DjangoDevice
    var qdim: real

    /** `MultiQuditDevice(...)`: the wires `0, …, wires-1`, and qudit
        dimension 2. */
    constructor(wires: nat, shots: nat, url: string, username: Option<string>,
                password: Option<string>, jobId: Option<string>, blocking: bool)
      requires shots >= 1
      ensures fresh(base) && qdim == 2.0
      ensures base.urlPrefix == url && base.wires == Django.Range(wires) && base.shots == shots
      ensures base.username == username && base.password == password
      ensures base.jobId == jobId && base.blocking == blocking && base.payload == Django.Untitled
    {
      base := new Django.DjangoDevice(url, wires, shots, username, password, jobId, blocking);
      qdim := 2.0;
    }

    /** `MultiQuditDevice(...)` on the base device as written, which keeps
        one wire whatever `wires` asks for. */
    constructor AsWritten(wires: nat, shots: nat, url: string, username: Option<string>,
                          password: Option<string>, jobId: Option<string>, blocking: bool)
      requires shots >= 1
      ensures fresh(base) && qdim == 2.0
      ensures base.urlPrefix == url && base.wires == Django.AsWrittenWires(wires) && base.shots == shots
      ensures base.username == username && base.password == password
      ensures base.jobId == jobId && base.blocking == blocking && base.payload == Django.Untitled
    {
      base := new Django.DjangoDevice.AsWritten(url, wires, shots, username, password, jobId, blocking);
      qdim := 2.0;
    }

    /** `pre_apply`: the job id is cleared and a fresh experiment with no
        instructions, the device's wire count and its shot count is
        installed. */
    method PreApply()
      modifies base`jobId, base`payload
      ensures base.jobId == None
      ensures base.payload == Django.Experiment([], |base.wires|, base.shots)
    {
      Reset();
      base.payload := Django.Experiment([], |base.wires|, base.shots);
    }

    /** `apply(operation, wires, par)`: the name is looked up first; the
        gate's instruction on its leading wires is appended once at the end.
        A truthy dimension, which only `load` gives, replaces qdim before the
        append. */
    method Apply(name: string, wires: seq<nat>, par: seq<real>) returns (r: Result<()>)
      modifies this`qdim, base`payload
      ensures name !in OperationMap ==>
        r == Err(KeyError(name)) && qdim == old(qdim) && base.payload == old(base.payload)
      ensures (name in OperationMap && !(|par| > 0 && |wires| >= MultiQuditOps.Arity(OperationMap[name]))) ==>
        r == Err(IndexError) && qdim == old(qdim) && base.payload == old(base.payload)
      ensures qdim == if name in OperationMap && OperationMap[name] == MultiQuditOps.Load
                         && |par| > 0 && |wires| > 0 && par[0] != -1.0
                      then par[0] + 1.0 else old(qdim)
      ensures (name in OperationMap && |par| > 0 && |wires| >= MultiQuditOps.Arity(OperationMap[name])) ==>
        var ins := MultiQuditOps.QuditOperator(OperationMap[name], par, wires).value.value.instruction;
        ins.wires == wires[..MultiQuditOps.Arity(OperationMap[name])]
        && (Django.AppendAll(old(base.payload), [ins]).Ok? ==>
              r.Ok? && base.payload == Django.AppendAll(old(base.payload), [ins]).value)
        && (Django.AppendAll(old(base.payload), [ins]).Err? ==>
              r == Err(Django.AppendAll(old(base.payload), [ins]).error) && base.payload == old(base.payload))
    {
      if name !in OperationMap {
        return Err(KeyError(name));
      }
      var g := OperationMap[name];
      var out := MultiQuditOps.QuditOperator(g, par, wires);
      if out.Err? {
        return Err(out.error);
      }
      var gate := out.value.value;
      if Truthy(gate.qdim) {
        qdim := gate.qdim.d;
      }
      r := base.AppendEach([gate.instruction]);
    }

    /** The measurement loop of `sample`: each wire object's first label is
        measured in turn; the first object without labels raises IndexError
        after the ones before it were appended. */
    method MeasureEach(items: seq<seq<nat>>) returns (r: Result<()>)
      modifies base`payload
      ensures
        var ms := MeasureLabels(items[..FirstUnlabelled(items)]);
        (Django.AppendAll(old(base.payload), ms).Err? ==>
           r == Err(Django.AppendAll(old(base.payload), ms).error) && base.payload == old(base.payload))
        && (Django.AppendAll(old(base.payload), ms).Ok? ==>
              base.payload == Django.AppendAll(old(base.payload), ms).value
              && r == if FirstUnlabelled(items) < |items| then Err(IndexError) else Ok(()))
    {
      var k := FirstUnlabelled(items);
      for i := 0 to |items|
        invariant i <= k
        invariant Django.AppendAll(old(base.payload), MeasureLabels(items[..i])).Ok?
        invariant base.payload == Django.AppendAll(old(base.payload), MeasureLabels(items[..i])).value
      {
        if items[i] == [] {
          assert i == k;
          return Err(IndexError);
        }
        var appended := base.AppendEach([Measure(items[i][0])]);
        assert MeasureLabels(items[..i + 1]) == MeasureLabels(items[..i]) + [Measure(items[i][0])];
        Django.AppendAllSplit(old(base.payload), MeasureLabels(items[..i]), [Measure(items[i][0])]);
        if appended.Err? {
          assert i == 0;
          return Err(appended.error);
        }
      }
      assert items[..|items|] == items;
      return Ok(());
    }

    /** `sample(observable, wires, par)`. Without a job id one measurement
        per wire object is appended and the job is submitted (its id is
        `newJobId`); a non-blocking device then hands back the job id. Then
        the job is awaited (blocking) or its `status` checked, and the
        records are decoded into `shots` rows with one value per wire object
        when the job was just submitted, one per label of the argument as
        given otherwise. The observable is never consulted. */
    method Sample(observable: string, wires: WireArg, newJobId: string, status: string, reply: JobResult)
      returns (r: Result<SampleOutcome<seq<seq<int>>>>)
      modifies base`payload, base`jobId
      ensures old(base.jobId).Some? ==>
        base.payload == old(base.payload) && base.jobId == old(base.jobId)
        && (!base.blocking && status != "DONE" ==> r == Ok(Pending(old(base.jobId).value)))
        && (base.blocking || status == "DONE" ==> r == Lift(Fetch(reply, base.shots, Length(wires))))
      ensures old(base.jobId).None? ==>
        var items := Listed(wires);
        var submitted := Django.AppendAll(old(base.payload), MeasureLabels(items[..FirstUnlabelled(items)]));
        (submitted.Err? ==>
           r == Err(submitted.error) && base.payload == old(base.payload) && base.jobId == None)
        && (submitted.Ok? && FirstUnlabelled(items) < |items| ==>
              r == Err(IndexError) && base.payload == submitted.value && base.jobId == None)
        && (submitted.Ok? && FirstUnlabelled(items) == |items| ==>
              base.payload == submitted.value && base.jobId == Some(newJobId)
              && (!base.blocking ==> r == Ok(Pending(newJobId)))
              && (base.blocking ==> r == Lift(Fetch(reply, base.shots, |items|))))
    {
      var numObs := Length(wires);
      if base.jobId.None? {
        var items := Listed(wires);
        var measured := MeasureEach(items);
        if measured.Err? {
          return Err(measured.error);
        }
        numObs := |items|;
        base.jobId := Some(newJobId);
        if !base.blocking {
          return Ok(Pending(newJobId));
        }
      }
      if !base.blocking && status != "DONE" {
        return Ok(Pending(base.jobId.value));
      }
      if reply.NoResults? {
        return Err(KeyError("results"));
      }
      var out := ResultDecode.DecodeShots(reply.memory, base.shots, numObs);
      r := Lift(out);
    }

    /** What `expval` gives once the job is submitted: the sentinel unless
        the status is DONE, otherwise the column means of the fetched counts;
        every error becomes NotImplementedError. */
    function Settle(status: string, reply: JobResult, numObs: nat): (r: Result<Reading<seq<real>>>)
      requires base.shots >= 1
      ensures status != "DONE" ==> r == Ok(JobNotDone)
      ensures r.Err? ==> r.error == NotImplementedError
      ensures (status == "DONE" && r.Ok?) ==> (
        Fetch(reply, base.shots, numObs).Ok? && r.value.Done?
        && |r.value.value| == numObs
        && forall j :: 0 <= j < numObs ==>
             r.value.value[j] == Stats.Mean(Column(Fetch(reply, base.shots, numObs).value, j)))
      ensures status == "DONE" ==> (r.Err? <==> Fetch(reply, base.shots, numObs).Err?)
    {
      if status != "DONE" then Ok(JobNotDone)
      else match Fetch(reply, base.shots, numObs)
        case Err(_) => Err(NotImplementedError)
        case Ok(rows) => Ok(Done(ColumnMeans(rows, numObs)))
    }

    /** `expval(observable, wires, par)`. Without a job id, `sample` submits
        the job first; a job whose status is not DONE gives the sentinel
        "Job_not_done"; otherwise the column means of the counts. Every
        error, whatever its kind, becomes NotImplementedError; a wire object
        without labels fails after the measurements of the ones before it
        were appended, and those stay in the payload. */
    method Expval(observable: string, wires: WireArg, newJobId: string, status: string, reply: JobResult)
      returns (r: Result<Reading<seq<real>>>)
      requires base.shots >= 1
      modifies base`payload, base`jobId
      ensures r.Err? ==> r.error == NotImplementedError
      ensures old(base.jobId).Some? ==>
        base.payload == old(base.payload) && base.jobId == old(base.jobId)
        && r == Settle(status, reply, Length(wires))
      ensures old(base.jobId).None? ==>
        var items := Listed(wires);
        var submitted := Django.AppendAll(old(base.payload), MeasureLabels(items[..FirstUnlabelled(items)]));
        (submitted.Err? ==>
           r == Err(NotImplementedError) && base.payload == old(base.payload) && base.jobId == None)
        && (submitted.Ok? && FirstUnlabelled(items) < |items| ==>
              r == Err(NotImplementedError) && base.payload == submitted.value && base.jobId == None)
        && (submitted.Ok? && FirstUnlabelled(items) == |items| ==>
              base.payload == submitted.value && base.jobId == Some(newJobId)
              && (base.blocking && Fetch(reply, base.shots, |items|).Err? ==> r == Err(NotImplementedError))
              && (!base.blocking || Fetch(reply, base.shots, |items|).Ok? ==>
                    r == Settle(status, reply, Length(wires))))
    {
      if base.jobId.None? {
        var first := Sample(observable, wires, newJobId, status, reply);
        if first.Err? {
          return Err(NotImplementedError);
        }
      }
      if status != "DONE" {
        return Ok(JobNotDone);
      }
      var second := Sample(observable, wires, newJobId, status, reply);
      match second
      case Err(_) =>
        return Err(NotImplementedError);
      case Ok(Samples(rows)) =>
        return Ok(Done(ColumnMeans(rows, Length(wires))));
    }

    /** `reset`: only the job id is cleared; the payload and qdim stay. */
    method Reset()
      modifies base`jobId
      ensures base.jobId == None
    {
      base.jobId := None;
    }
  }

  /** As written, a device asked for `wires` wires submits a one-wire
      experiment: `pre_apply` declares one wire, and `sample` then appends a
      measurement for every one of the requested wire objects. */
  method AsWrittenPreApplyOneWire(wires: nat, shots: nat, items: seq<seq<nat>>, newJobId: string)
    returns (payload: Django.Payload)
    requires shots >= 1 && wires >= 2
    requires |items| == wires && FirstUnlabelled(items) == |items|
    ensures payload == Django.Experiment(MeasureLabels(items), 1, shots)
    ensures |payload.instructions| == wires > payload.numWires
  {
    var dev := new MultiQuditDevice.AsWritten(wires, shots, "http://qsimsim.synqs.org/api/multiqudit/",
                                              None, None, None, false);
    dev.PreApply();
    var submitted := dev.Sample("Z", AsList(items), newJobId, "DONE", NoResults(""));
    assert items[..FirstUnlabelled(items)] == items;
    payload := dev.base.payload;
  }
}
