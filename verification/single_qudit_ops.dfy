/** The gates and observables of the single-qudit device. Every gate acts
    on wire 0 whatever wire it was applied to; `Load` also fixes the qudit
    dimension. The observables transform the integer samples using that
    dimension. */
module SingleQuditOps {
  import opened Common
  import Stats
  import QuditGates

  datatype Gate = Load | RLX | RLZ | RLZ2 | ID

  datatype Observable = ZObs | LZ | LZ2

  /** The opcode of every gate but `ID`, which sends nothing. */
  function Opcode(g: Gate): string
    requires g != ID
  {
    match g
    case Load => "load"
    case RLX => "rlx"
    case RLZ => "rlz"
    case RLZ2 => "rlz2"
  }

  /** `qudit_operator(par)`. `ID` returns None. `Load` sends its parameters
      unchanged and sets the dimension to `par[0] + 1`. `RLX` and `RLZ`
      send `par[0]` modulo 2π. `RLZ2` sends `par` unwrapped and never reads
      it, so it cannot fail. Every gate targets wire 0. A missing `par[0]`
      raises IndexError. */
  function QuditOperator(g: Gate, par: seq<real>): (r: Result<Option<QuditGate>>)
    ensures g == ID ==> r == Ok(None)
    ensures g == RLZ2 ==> r.Ok?
    ensures g != ID && g != RLZ2 ==> (r.Ok? <==> |par| > 0)
    ensures r.Err? ==> r.error == IndexError
    ensures r.Ok? && g != ID ==>
      (r.value.Some? && r.value.value.instruction.opcode == Opcode(g)
       && r.value.value.instruction.wires == [0])
    ensures r.Ok? && (g == Load || g == RLZ2) ==> r.value.value.instruction.params == par
    ensures r.Ok? && g == Load ==> r.value.value.qdim == Dim(par[0] + 1.0)
    ensures r.Ok? && g != Load && g != ID ==> r.value.value.qdim == NoDim
    ensures r.Ok? && (g == RLX || g == RLZ) ==>
      |r.value.value.instruction.params| == 1
      && 0.0 <= r.value.value.instruction.params[0] < TwoPi
      && exists k :: par[0] - r.value.value.instruction.params[0] == Turns(k)
  {
    match g
    case ID => Ok(None)
    case Load =>
      (match QuditGates.LoadGate(par, [0])
       case Err(e) => Err(e)
       case Ok(gate) => Ok(Some(gate)))
    case RLZ2 => Ok(Some(QuditGate(Instruction(Opcode(g), [0], par), NoDim)))
    case _ =>
      match QuditGates.Rotation(Opcode(g), 1, par, [0])
      case Err(e) => Err(e)
      case Ok(gate) => Ok(Some(gate))
  }

  /** Only `Load` can change the qudit dimension, and it does so unless the
      requested atom number is -1 (then `par[0] + 1` is 0, which is falsy). */
  lemma OnlyLoadSetsDimension(g: Gate, par: seq<real>)
    requires QuditOperator(g, par).Ok? && QuditOperator(g, par).value.Some?
    ensures Truthy(QuditOperator(g, par).value.value.qdim) <==> g == Load && par[0] != -1.0
  {
  }

  /** `RLZ2` is the one rotation that does not wrap its angle: an angle of a
      full turn is sent as it is, where `RLZ` sends 0; and with no parameter
      it sends an empty list, where `RLZ` raises IndexError. */
  lemma RLZ2DoesNotWrap()
    ensures QuditOperator(RLZ2, [TwoPi]).value.value.instruction.params == [TwoPi]
    ensures QuditOperator(RLZ2, []).value.value.instruction.params == []
    ensures QuditOperator(RLZ, []) == Err(IndexError)
    ensures QuditOperator(RLZ, [TwoPi]).value.value.instruction.params == [0.0]
  {
    WrapUnique(TwoPi, 0.0, 1);
  }

  /** `qudit_operator(samples, qdim)`: `ZObs` is the raw count, `LZ` is the
      count shifted by half the dimension, `LZ2` is the square of `LZ`. */
  function Transform(o: Observable, samples: seq<int>, qdim: real): (r: seq<real>)
    ensures |r| == |samples|
    ensures o == LZ2 ==> forall i :: 0 <= i < |r| ==> r[i] >= 0.0
  {
    match o
    case ZObs => Stats.ToReals(samples)
    case LZ => QuditGates.Centered(samples, qdim)
    case LZ2 => Squares(QuditGates.Centered(samples, qdim))
  }

  /** Elementwise `x ** 2`. */
  function Squares(xs: seq<real>): (r: seq<real>)
    ensures |r| == |xs|
    ensures forall i :: 0 <= i < |xs| ==> r[i] == xs[i] * xs[i] && r[i] >= 0.0
  {
    seq(|xs|, i requires 0 <= i < |xs| => xs[i] * xs[i])
  }

  /** Sample by sample: `ZObs` is the count, `LZ` is `s - qdim/2`, and `LZ2`
      is the square of `LZ`. */
  lemma TransformValues(samples: seq<int>, qdim: real, i: nat)
    requires i < |samples|
    ensures Transform(ZObs, samples, qdim)[i] == samples[i] as real
    ensures Transform(LZ, samples, qdim)[i] == samples[i] as real - qdim / 2.0
    ensures Transform(LZ2, samples, qdim)[i]
      == Transform(LZ, samples, qdim)[i] * Transform(LZ, samples, qdim)[i]
  {
  }

  /** The mean of `LZ` is the mean of `ZObs` minus half the dimension. */
  lemma MeanLZ(samples: seq<int>, qdim: real)
    requires |samples| > 0
    ensures Stats.Mean(Transform(LZ, samples, qdim))
      == Stats.Mean(Transform(ZObs, samples, qdim)) - qdim / 2.0
  {
    QuditGates.MeanCentered(samples, qdim);
  }

  /** `LZ` and `ZObs` have the same variance. */
  lemma VarianceLZ(samples: seq<int>, qdim: real)
    requires |samples| > 0
    ensures Stats.Variance(Transform(LZ, samples, qdim)) == Stats.Variance(Transform(ZObs, samples, qdim))
  {
    QuditGates.VarianceCentered(samples, qdim);
  }

  /** The mean of `LZ2` is never negative. */
  lemma MeanLZ2NonNegative(samples: seq<int>, qdim: real)
    requires |samples| > 0
    ensures Stats.Mean(Transform(LZ2, samples, qdim)) >= 0.0
  {
    Stats.SumNonNegative(Transform(LZ2, samples, qdim));
  }
}
