/** The multi-qudit catalog the multi-qudit device imports: single-qudit
    gates on `wires[0]`, two-qudit gates on `[wires[0], wires[1]]`, and the
    observables `Z` and `Lz`. Opcodes are the class names. */
module MultiQuditOps {
  import opened Common
  import Stats
  import QuditGates

  datatype Gate = Load | RLx | RLz | RLz2 | Id | LxLy | LzLz

  datatype Observable = Z | Lz

  /** The opcode each gate sends: its class name. */
  function Opcode(g: Gate): string
    requires g != Id
  {
    match g
    case Load => "load"
    case RLx => "rLx"
    case RLz => "rLz"
    case RLz2 => "rLz2"
    case LxLy => "LxLy"
    case LzLz => "LzLz"
  }

  /** How many leading wires a gate acts on. */
  function Arity(g: Gate): nat {
    if g == LxLy || g == LzLz then 2 else 1
  }

  /** `qudit_operator(par, wires)`. `Id` returns None. `load` sends its
      parameters unchanged on `[wires[0]]` and sets the dimension to
      `par[0] + 1`. Every other gate sends `par[0]` modulo 2π on its leading
      wires and leaves the dimension alone. Too few parameters or wires
      raise IndexError. */
  function QuditOperator(g: Gate, par: seq<real>, wires: seq<nat>): (r: Result<Option<QuditGate>>)
    ensures g == Id ==> r == Ok(None)
    ensures g != Id ==> (r.Ok? <==> |par| > 0 && |wires| >= Arity(g)) && (r.Err? ==> r.error == IndexError)
    ensures r.Ok? && g != Id ==>
      (r.value.Some? && r.value.value.instruction.opcode == Opcode(g)
       && r.value.value.instruction.wires == wires[..Arity(g)])
    ensures r.Ok? && g == Load ==>
      r.value.value.instruction.params == par && r.value.value.qdim == Dim(par[0] + 1.0)
    ensures r.Ok? && g != Load && g != Id ==>
      (r.value.value.qdim == NoDim && |r.value.value.instruction.params| == 1
       && 0.0 <= r.value.value.instruction.params[0] < TwoPi
       && exists k :: par[0] - r.value.value.instruction.params[0] == Turns(k))
  {
    if g == Id then Ok(None)
    else
      var gate := if g == Load then QuditGates.LoadGate(par, wires)
        else QuditGates.Rotation(Opcode(g), Arity(g), par, wires);
      match gate
      case Err(e) => Err(e)
      case Ok(q) => Ok(Some(q))
  }

  /** A two-qudit gate acts on the first two wires in the order given; the
      wires after them are ignored. */
  lemma TwoQuditWires(g: Gate, par: seq<real>, wires: seq<nat>)
    requires (g == LxLy || g == LzLz) && |par| > 0 && |wires| >= 2
    ensures QuditOperator(g, par, wires).value.value.instruction.wires == [wires[0], wires[1]]
  {
    assert wires[..2] == [wires[0], wires[1]];
  }

  /** `Z` is the atom count; `Lz` is the count shifted by half the dimension. */
  function Transform(o: Observable, samples: seq<int>, qdim: real): (r: seq<real>)
    ensures |r| == |samples|
  {
    match o
    case Z => Stats.ToReals(samples)
    case Lz => QuditGates.Centered(samples, qdim)
  }

  /** The mean of `Lz` is the mean of `Z` minus half the dimension, and the
      two have the same variance. */
  lemma LzMoments(samples: seq<int>, qdim: real)
    requires |samples| > 0
    ensures Stats.Mean(Transform(Lz, samples, qdim)) == Stats.Mean(Transform(Z, samples, qdim)) - qdim / 2.0
    ensures Stats.Variance(Transform(Lz, samples, qdim)) == Stats.Variance(Transform(Z, samples, qdim))
  {
    QuditGates.MeanCentered(samples, qdim);
    QuditGates.VarianceCentered(samples, qdim);
  }
}
