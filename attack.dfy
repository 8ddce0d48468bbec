/** The attack injector: from the attack start onwards the two front
    turbines are forced to an extreme yaw that ignores the controller. */
module Attack {

  /** The spoofed yaw (degrees) written to turbines 0 and 1. */
  const AttackYaw: real := 60.0

  /** The value of the yaw vector after injection. */
  function Injected(yaw: seq<real>, timestep: int, attackStart: int): (r: seq<real>)
    requires timestep >= attackStart ==> |yaw| >= 2
    ensures |r| == |yaw|
    ensures timestep < attackStart ==> r == yaw
    ensures timestep >= attackStart ==> r[0] == AttackYaw && r[1] == AttackYaw
    ensures forall i :: 2 <= i < |yaw| ==> r[i] == yaw[i]
  {
    if timestep >= attackStart then yaw[0 := AttackYaw][1 := AttackYaw] else yaw
  }

  /** Injecting twice at the same timestep is the same as injecting once. */
  lemma InjectedIdempotent(yaw: seq<real>, timestep: int, attackStart: int)
    requires timestep >= attackStart ==> |yaw| >= 2
    ensures Injected(Injected(yaw, timestep, attackStart), timestep, attackStart)
         == Injected(yaw, timestep, attackStart)
  {
  }

  /** `inject_attack`: overwrites the caller's array in place and hands the
      same array back. An array shorter than 2 while the attack is active
      makes the source raise an index error, hence the precondition. */
  method InjectAttack(yawCommands: array<real>, timestep: int, attackStart: int)
    returns (r: array<real>)
    requires timestep >= attackStart ==> yawCommands.Length >= 2
    modifies yawCommands
    ensures r == yawCommands
    ensures yawCommands[..] == Injected(old(yawCommands[..]), timestep, attackStart)
  {
    if timestep >= attackStart {
      yawCommands[0] := AttackYaw;
      yawCommands[1] := AttackYaw;
    }
    r := yawCommands;
  }
}
