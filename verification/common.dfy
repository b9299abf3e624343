/** Values shared by every device: the Python exceptions the devices raise,
    the instruction tuples they send to the remote simulator, the replies
    the simulator gives, and the angle normalisation `theta % (2*np.pi)`. */
module Common {

  datatype Option<+T> = None | Some(value: T)

  /** The Python exception kinds the modelled code raises. */
  datatype PyError =
    | KeyError(key: string)
    | IndexError
    | ValueError
    | TypeError
    | AttributeError
    | AxisError
    | DeviceError(detail: string)
    | NotImplementedError

  datatype Result<+T> = Ok(value: T) | Err(error: PyError)

  /** An instruction tuple `(opcode, wire-list, param-list)` of the job payload. */
  datatype Instruction = Instruction(opcode: string, wires: seq<nat>, params: seq<real>)

  /** The second component a qudit gate returns: `False` (or `None`) when the
      gate leaves the qudit dimension alone, a number when it sets it. */
  datatype QdimFlag = NoDim | Dim(d: real)

  /** `if qdim:` in the devices: only a non-zero number is truthy. */
  predicate Truthy(q: QdimFlag) {
    q.Dim? && q.d != 0.0
  }

  /** The pair `(l_obj, qdim)` a qudit gate's `qudit_operator` returns. */
  datatype QuditGate = QuditGate(instruction: Instruction, qdim: QdimFlag)

  /** What the server's `get_job_result/` reply decodes to: either a dictionary
      without a "results" key (kept as the raw reply text), or the
      `results[0].data.memory` list of per-shot strings. */
  datatype JobResult = NoResults(text: string) | Results(memory: seq<string>)

  /** What a qudit device's `sample` hands back: the job id while the job is
      pending, or the samples once it is done. */
  datatype SampleOutcome<+T> = Pending(jobId: string) | Samples(value: T)

  /** What a qudit device's `expval`/`var` hands back: the sentinel string
      "Job_not_done" or the number(s) computed from the samples. */
  datatype Reading<+T> = JobNotDone | Done(value: T)

  /** The measurement instruction `("measure", [wire], [])`. */
  function Measure(wire: nat): (r: Instruction)
    ensures r.opcode == "measure" && r.wires == [wire] && r.params == []
  {
    Instruction("measure", [wire], [])
  }

  /** The value of the Python float `2 * np.pi`. */
  const TwoPi: real := 6.283185307179586

  /** k whole turns. */
  function Turns(k: int): real {
    k as real * TwoPi
  }

  /** Python's `theta % (2 * np.pi)`: the representative of theta modulo a
      full turn that lies in [0, 2π). Python's float `%` floors, so the
      result is never negative. */
  function Wrap(theta: real): (r: real)
    ensures 0.0 <= r < TwoPi
    ensures exists k :: theta - r == Turns(k)
  {
    var k := (theta / TwoPi).Floor;
    assert theta - (theta - Turns(k)) == Turns(k);
    theta - Turns(k)
  }

  /** The two properties of Wrap single out one value: any r in [0, 2π) that
      differs from theta by whole turns is Wrap(theta). */
  lemma WrapUnique(theta: real, r: real, k: int)
    requires 0.0 <= r < TwoPi
    requires theta - r == Turns(k)
    ensures r == Wrap(theta)
  {
    var w := Wrap(theta);
    var j :| theta - w == Turns(j);
    assert r - w == Turns(j - k);
  }

  /** An angle already in [0, 2π) is stored unchanged. */
  lemma WrapInRange(theta: real)
    requires 0.0 <= theta < TwoPi
    ensures Wrap(theta) == theta
  {
    WrapUnique(theta, theta, 0);
  }

  /** Wrapping twice is wrapping once. */
  lemma WrapIdempotent(theta: real)
    ensures Wrap(Wrap(theta)) == Wrap(theta)
  {
    WrapInRange(Wrap(theta));
  }

  /** Angles that differ by whole turns are stored as the same parameter. */
  lemma WrapPeriodic(theta: real, j: int)
    ensures Wrap(theta + Turns(j)) == Wrap(theta)
  {
    var w := Wrap(theta);
    var k :| theta - w == Turns(k);
    assert theta + Turns(j) - w == Turns(k + j);
    WrapUnique(theta + Turns(j), w, k + j);
  }

  /** `theta = par[0]` followed by `theta % (2 * np.pi)`: an IndexError when
      there is no parameter, otherwise the first parameter brought into
      [0, 2π) by whole turns. */
  function AngleParam(par: seq<real>): (r: Result<real>)
    ensures r.Ok? <==> |par| > 0
    ensures r.Err? ==> r.error == IndexError
    ensures r.Ok? ==> 0.0 <= r.value < TwoPi && exists k :: par[0] - r.value == Turns(k)
  {
    if |par| == 0 then Err(IndexError) else Ok(Wrap(par[0]))
  }
}
