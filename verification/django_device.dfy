/** The base class of the remote devices: the credentials and job state every
    device keeps, and the job payload whose instruction list `apply` and the
    measurement steps append to. */
module Django {
  import opened Common

  /** The `job_payload` attribute: `None` (after a single-qudit `reset`), a
      dictionary without an "experiment_0" entry (the initial `{}`), or one
      experiment with its instruction list, wire count and shot count. */
  datatype Payload =
    | NoPayload
    | Untitled
    | Experiment(instructions: seq<Instruction>, numWires: nat, shots: nat)

  /** Appending `xs` one at a time to `job_payload["experiment_0"]["instructions"]`.
      Nothing to append never touches the payload; otherwise a `None` payload
      raises TypeError and a payload without an experiment raises KeyError. */
  function AppendAll(p: Payload, xs: seq<Instruction>): (r: Result<Payload>)
    ensures r.Err? <==> xs != [] && !p.Experiment?
    ensures r.Err? ==> r.error == if p.NoPayload? then TypeError else KeyError("experiment_0")
    ensures r.Ok? && p.Experiment? ==>
      r.value.Experiment? && r.value.instructions == p.instructions + xs
      && r.value.numWires == p.numWires && r.value.shots == p.shots
    ensures r.Ok? && !p.Experiment? ==> r.value == p
  {
    if xs == [] then Ok(p)
    else match p
      case NoPayload => Err(TypeError)
      case Untitled => Err(KeyError("experiment_0"))
      case Experiment(ins, n, s) => Ok(Experiment(ins + xs, n, s))
  }

  /** Appending a list in two parts is appending it at once: the device
      calls that append one block after another build the same list. */
  lemma AppendAllSplit(p: Payload, xs: seq<Instruction>, ys: seq<Instruction>)
    ensures AppendAll(p, xs + ys)
      == match AppendAll(p, xs) case Err(e) => Err(e) case Ok(q) => AppendAll(q, ys)
  {
    if xs == [] {
      assert xs + ys == ys;
    } else if p.Experiment? {
      assert (p.instructions + xs) + ys == p.instructions + (xs + ys);
    }
  }

  /** The wires `0, …, n-1` of a device created with `wires=n`. */
  function Range(n: nat): (r: seq<nat>)
    ensures |r| == n && forall i :: 0 <= i < n ==> r[i] == i
  {
    seq(n, i requires 0 <= i < n => i)
  }

  /** `super().__init__(wires=1, shots=shots)` as written: the base device
      gets one wire whatever `wires` the caller asked for. */
  function AsWrittenWires(wires: nat): (r: seq<nat>)
    ensures r == [0]
  {
    Range(1)
  }

  class DjangoDevice {
    const urlPrefix: string
    const wires: seq<nat>
    const shots: nat
    const username: Option<string>
    const password: Option<string>
    const blocking: bool
    var jobId: Option<string>
    var payload: Payload

    /** `DjangoDevice.__init__`: the settings are stored as given and the
        payload starts as an empty dictionary. The device gets the wires
        `0, …, wires-1`; the constructor as written passes one wire instead
        (see AsWrittenWires). */
    constructor(url: string, wires: nat, shots: nat, username: Option<string>,
                password: Option<string>, jobId: Option<string>, blocking: bool)
      requires shots >= 1
      ensures this.urlPrefix == url && this.wires == Range(wires) && this.shots == shots
      ensures this.username == username && this.password == password
      ensures this.jobId == jobId && this.blocking == blocking
      ensures this.payload == Untitled
    {
      this.urlPrefix := url;
      this.wires := Range(wires);
      this.shots := shots;
      this.username := username;
      this.password := password;
      this.blocking := blocking;
      this.jobId := jobId;
      this.payload := Untitled;
    }

    /** `DjangoDevice.__init__` as written: the same settings, but the
        device gets the single wire of `super().__init__(wires=1, …)`. */
    constructor AsWritten(url: string, wires: nat, shots: nat, username: Option<string>,
                          password: Option<string>, jobId: Option<string>, blocking: bool)
      requires shots >= 1
      ensures this.urlPrefix == url && this.wires == AsWrittenWires(wires) && this.shots == shots
      ensures this.username == username && this.password == password
      ensures this.jobId == jobId && this.blocking == blocking
      ensures this.payload == Untitled
    {
      this.urlPrefix := url;
      this.wires := AsWrittenWires(wires);
      this.shots := shots;
      this.username := username;
      this.password := password;
      this.blocking := blocking;
      this.jobId := jobId;
      this.payload := Untitled;
    }

    /** The append loop: each instruction goes to the end of the list in
        turn. On an error nothing has been appended, because the first
        append already fails. */
    method AppendEach(xs: seq<Instruction>) returns (r: Result<()>)
      modifies this`payload
      ensures AppendAll(old(payload), xs).Ok? ==> r.Ok? && payload == AppendAll(old(payload), xs).value
      ensures AppendAll(old(payload), xs).Err? ==>
        r == Err(AppendAll(old(payload), xs).error) && payload == old(payload)
    {
      for i := 0 to |xs|
        invariant AppendAll(old(payload), xs[..i]).Ok?
        invariant payload == AppendAll(old(payload), xs[..i]).value
      {
        match payload
        case NoPayload =>
          assert xs[..i] == [];
          return Err(TypeError);
        case Untitled =>
          assert xs[..i] == [];
          return Err(KeyError("experiment_0"));
        case Experiment(ins, n, s) =>
          assert xs[..i + 1] == xs[..i] + [xs[i]];
          payload := Experiment(ins + [xs[i]], n, s);
      }
      assert xs[..|xs|] == xs;
      return Ok(());
    }
  }
}
