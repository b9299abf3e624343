/** The newer multi-qudit catalog: the same gate shapes as `MultiQuditOps`
    under upper-case class names, sending lower-case opcodes, with the
    observables `ZObs` and `LZ`. */
module MultiQuditOpsSnake {
  import opened Common
  import Stats
  import QuditGates

  datatype Gate = Load | RLX | RLZ | RLZ2 | ID | RLXLY | RLZLZ

  datatype Observable = ZObs | LZ

  /** The lower-case opcode each gate sends. */
  function Opcode(g: Gate): string
    requires g != ID
  {
    match g
    case Load => "load"
    case RLX => "rlx"
    case RLZ => "rlz"
    case RLZ2 => "rlz2"
    case RLXLY => "rlxly"
    case RLZLZ => "rlzlz"
  }

  function Arity(g: Gate): nat {
    if g == RLXLY || g == RLZLZ then 2 else 1
  }

  /** `qudit_operator(par, wires)`. `ID` returns None. `Load` sends its
      parameters unchanged on `[wires[0]]` and sets the dimension to
      `par[0] + 1`. Every other gate, `RLZ2` included, sends `par[0]` modulo
      2π on its leading wires with `False` for the dimension. Too few
      parameters or wires raise IndexError. */
  function QuditOperator(g: Gate, par: seq<real>, wires: seq<nat>): (r: Result<Option<QuditGate>>)
    ensures g == ID ==> r == Ok(None)
    ensures g != ID ==> (r.Ok? <==> |par| > 0 && |wires| >= Arity(g)) && (r.Err? ==> r.error == IndexError)
    ensures r.Ok? && g != ID ==>
      (r.value.Some? && r.value.value.instruction.opcode == Opcode(g)
       && r.value.value.instruction.wires == wires[..Arity(g)])
    ensures r.Ok? && g == Load ==>
      r.value.value.instruction.params == par && r.value.value.qdim == Dim(par[0] + 1.0)
    ensures r.Ok? && g != Load && g != ID ==>
      (r.value.value.qdim == NoDim && |r.value.value.instruction.params| == 1
       && 0.0 <= r.value.value.instruction.params[0] < TwoPi
       && exists k :: par[0] - r.value.value.instruction.params[0] == Turns(k))
  {
    if g == ID then Ok(None)
    else
      var gate := if g == Load then QuditGates.LoadGate(par, wires)
        else QuditGates.Rotation(Opcode(g), Arity(g), par, wires);
      match gate
      case Err(e) => Err(e)
      case Ok(q) => Ok(Some(q))
  }

  /** Unlike the single-qudit `RLZ2`, this one wraps: a full turn is sent as 0. */
  lemma RLZ2Wraps(wires: seq<nat>)
    requires |wires| > 0
    ensures QuditOperator(RLZ2, [TwoPi], wires).value.value.instruction.params == [0.0]
  {
    WrapUnique(TwoPi, 0.0, 1);
  }

  /** `ZObs` is the atom count; `LZ` is the count shifted by half the dimension. */
  function Transform(o: Observable, samples: seq<int>, qdim: real): (r: seq<real>)
    ensures |r| == |samples|
  {
    match o
    case ZObs => Stats.ToReals(samples)
    case LZ => QuditGates.Centered(samples, qdim)
  }

  /** The mean of `LZ` is the mean of `ZObs` minus half the dimension, and
      the two have the same variance. */
  lemma LZMoments(samples: seq<int>, qdim: real)
    requires |samples| > 0
    ensures Stats.Mean(Transform(LZ, samples, qdim)) == Stats.Mean(Transform(ZObs, samples, qdim)) - qdim / 2.0
    ensures Stats.Variance(Transform(LZ, samples, qdim)) == Stats.Variance(Transform(ZObs, samples, qdim))
  {
    QuditGates.MeanCentered(samples, qdim);
    QuditGates.VarianceCentered(samples, qdim);
  }
}
