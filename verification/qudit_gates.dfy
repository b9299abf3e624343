/** The gate shapes the three qudit catalogs share: the load gate, which
    sends its parameters and sets the qudit dimension, and the rotations,
    which send one angle modulo 2π on their leading wires and leave the
    dimension alone; and the observable `s - qdim/2`. */
module QuditGates {
  import opened Common
  import Stats

  /** `("load", [wires[0]], par)` with dimension `par[0] + 1`. */
  function LoadGate(par: seq<real>, wires: seq<nat>): (r: Result<QuditGate>)
    ensures r.Ok? <==> |par| > 0 && |wires| > 0
    ensures r.Err? ==> r.error == IndexError
    ensures r.Ok? ==>
      r.value.instruction == Instruction("load", [wires[0]], par) && r.value.qdim == Dim(par[0] + 1.0)
  {
    if |wires| == 0 || |par| == 0 then Err(IndexError)
    else Ok(QuditGate(Instruction("load", [wires[0]], par), Dim(par[0] + 1.0)))
  }

  /** `theta = par[0]` and `(opcode, [wires[0], …, wires[arity - 1]],
      [theta % (2 * np.pi)])` with `False` for the dimension. Missing
      parameters or wires raise IndexError; extra ones are ignored. */
  function Rotation(opcode: string, arity: nat, par: seq<real>, wires: seq<nat>): (r: Result<QuditGate>)
    ensures r.Ok? <==> |par| > 0 && |wires| >= arity
    ensures r.Err? ==> r.error == IndexError
    ensures r.Ok? ==>
      r.value.instruction.opcode == opcode && r.value.instruction.wires == wires[..arity]
      && |r.value.instruction.params| == 1
      && 0.0 <= r.value.instruction.params[0] < TwoPi
      && (exists k :: par[0] - r.value.instruction.params[0] == Turns(k))
      && r.value.qdim == NoDim
  {
    match AngleParam(par)
    case Err(e) => Err(e)
    case Ok(theta) =>
      if |wires| < arity then Err(IndexError)
      else Ok(QuditGate(Instruction(opcode, wires[..arity], [theta]), NoDim))
  }

  /** A rotation is periodic in its angle. */
  lemma RotationPeriodic(opcode: string, arity: nat, theta: real, j: int, wires: seq<nat>)
    ensures Rotation(opcode, arity, [theta + Turns(j)], wires) == Rotation(opcode, arity, [theta], wires)
  {
    WrapPeriodic(theta, j);
  }

  /** A rotation only reads its leading wires and its first parameter. */
  lemma RotationReadsLeading(opcode: string, arity: nat, par: seq<real>, par': seq<real>,
                             wires: seq<nat>, wires': seq<nat>)
    requires |par| > 0 && |par'| > 0 && par[0] == par'[0]
    requires |wires| >= arity && |wires'| >= arity && wires[..arity] == wires'[..arity]
    ensures Rotation(opcode, arity, par, wires) == Rotation(opcode, arity, par', wires')
  {
  }

  /** `samples - qdim / 2`. */
  function Centered(samples: seq<int>, qdim: real): (r: seq<real>)
    ensures |r| == |samples|
    ensures forall i :: 0 <= i < |samples| ==> r[i] == samples[i] as real - qdim / 2.0
  {
    Stats.Affine(Stats.ToReals(samples), -(qdim / 2.0), 1.0)
  }

  /** The mean of `s - qdim/2` is the mean count minus half the dimension. */
  lemma MeanCentered(samples: seq<int>, qdim: real)
    requires |samples| > 0
    ensures Stats.Mean(Centered(samples, qdim)) == Stats.Mean(Stats.ToReals(samples)) - qdim / 2.0
  {
    Stats.MeanAffine(Stats.ToReals(samples), -(qdim / 2.0), 1.0);
  }

  /** Shifting by half the dimension leaves the variance unchanged. */
  lemma VarianceCentered(samples: seq<int>, qdim: real)
    requires |samples| > 0
    ensures Stats.Variance(Centered(samples, qdim)) == Stats.Variance(Stats.ToReals(samples))
  {
    Stats.VarianceAffine(Stats.ToReals(samples), -(qdim / 2.0), 1.0);
  }
}
