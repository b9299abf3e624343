/** The fermion tweezer gates and the particle-number observable: each gate
    turns its wires and parameters into one instruction tuple for the
    remote simulator. */
module FermionOps {
  import opened Common

  /** The four gate classes `load`, `hop`, `inter` and `phase`. */
  datatype FermionGate = Load | Hop | Inter | Phase

  /** The opcode each gate writes. The on-site interaction is sent as "int". */
  function Opcode(g: FermionGate): string {
    match g
    case Load => "load"
    case Hop => "hop"
    case Inter => "int"
    case Phase => "phase"
  }

  /** No two gates share an opcode, so the simulator can tell every gate
      apart from its instruction. */
  lemma OpcodeInjective(g: FermionGate, h: FermionGate)
    ensures Opcode(g) == Opcode(h) <==> g == h
  {
  }

  /** `fermion_operator(wires, par)`: the instruction on exactly the given
      wires, in order. `load` takes no parameter; the other gates read
      `par[0]` (an IndexError when there is none) and send it modulo 2π. */
  function FermionOperator(g: FermionGate, wires: seq<nat>, par: seq<real>): (r: Result<Instruction>)
    ensures r.Err? <==> g != Load && |par| == 0
    ensures r.Err? ==> r.error == IndexError
    ensures r.Ok? ==> r.value.opcode == Opcode(g) && r.value.wires == wires
    ensures r.Ok? && g == Load ==> r.value.params == []
    ensures r.Ok? && g != Load ==>
      |r.value.params| == 1 && 0.0 <= r.value.params[0] < TwoPi
      && exists k :: par[0] - r.value.params[0] == Turns(k)
  {
    if g == Load then Ok(Instruction(Opcode(g), wires, []))
    else match AngleParam(par)
      case Err(e) => Err(e)
      case Ok(theta) => Ok(Instruction(Opcode(g), wires, [theta]))
  }

  /** Only the first parameter matters: parameters after it are ignored. */
  lemma OnlyFirstParameter(g: FermionGate, wires: seq<nat>, par: seq<real>, par': seq<real>)
    requires |par| > 0 && |par'| > 0 && par[0] == par'[0]
    ensures FermionOperator(g, wires, par) == FermionOperator(g, wires, par')
  {
  }

  /** Angles that differ by whole turns give the same instruction. */
  lemma AnglePeriodic(g: FermionGate, wires: seq<nat>, theta: real, j: int)
    ensures FermionOperator(g, wires, [theta + Turns(j)]) == FermionOperator(g, wires, [theta])
  {
    WrapPeriodic(theta, j);
  }

  /** An angle already in [0, 2π) is sent as it is. */
  lemma AngleInRange(g: FermionGate, wires: seq<nat>, theta: real)
    requires g != Load && 0.0 <= theta < TwoPi
    ensures FermionOperator(g, wires, [theta]) == Ok(Instruction(Opcode(g), wires, [theta]))
  {
    WrapInRange(theta);
  }

  /** `ParticleNumber.fermion_operator(samples)`: the occupation samples are
      the observable's values, unchanged. */
  function ParticleNumber(samples: seq<seq<int>>): (r: seq<seq<int>>)
    ensures |r| == |samples| && forall i :: 0 <= i < |samples| ==> r[i] == samples[i]
  {
    samples
  }
}
