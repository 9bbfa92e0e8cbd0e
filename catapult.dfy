/** The catapult: a tension setpoint guarded by fixed bounds, a release latch driven
    by stall-homing, and the four-command firing sequence; plus the two buttons that
    step the tension. */
module CatapultControl {
  import opened Ev3

  const MinTension: int := 40
  const MaxTension: int := 100
  /** The tension a catapult starts with (the program calls it the default power). */
  const DefaultTension: int := 70
  /** The step of one button press. */
  const Delta: int := 1

  const LockCommand: MotorCommand := ReleaseStall(-100, 40)
  const ReleaseCommand: MotorCommand := ReleaseStall(100, 40)

  predicate InRange(v: int) {
    MinTension <= v <= MaxTension
  }

  /** The tension after asking for `value` when it is `tension`: a value within the
      bounds is taken as it is, any other is ignored (never clamped to a bound). */
  function GuardedTension(tension: int, value: int): (t: int)
    ensures t == value || t == tension
    ensures t == value <==> InRange(value) || value == tension
    ensures InRange(tension) ==> InRange(t)
  {
    if InRange(value) then value else tension
  }

  /** The ways the program changes the tension: the setter and the two buttons. */
  datatype TensionOp = SetTo(value: int) | Increase | Decrease

  function ApplyOp(tension: int, op: TensionOp): (t: int)
    ensures InRange(tension) && op == Increase ==>
              t == if tension == MaxTension then tension else tension + 1
    ensures InRange(tension) && op == Decrease ==>
              t == if tension == MinTension then tension else tension - 1
  {
    match op
    case SetTo(v) => GuardedTension(tension, v)
    case Increase => GuardedTension(tension, tension + Delta)
    case Decrease => GuardedTension(tension, tension - Delta)
  }

  function ApplyOps(tension: int, ops: seq<TensionOp>): int
    decreases |ops|
  {
    if ops == [] then tension else ApplyOps(ApplyOp(tension, ops[0]), ops[1..])
  }

  /** Whatever the program does to the tension, it stays within the bounds. */
  lemma {:induction false} TensionStaysInRange(tension: int, ops: seq<TensionOp>)
    requires InRange(tension)
    ensures InRange(ApplyOps(tension, ops))
    decreases |ops|
  {
    if ops != [] {
      TensionStaysInRange(ApplyOp(tension, ops[0]), ops[1..]);
    }
  }

  /** Where the mechanism is, as far as the commands determine it. */
  datatype Latch = LatchUnknown | Locked | Released
  datatype Mechanism = Mechanism(latch: Latch, tensionAngle: Option<int>)

  /** The mechanism before any command: nothing is known. */
  const PowerOn: Mechanism := Mechanism(LatchUnknown, None)

  /** A tension stall leaves the tension motor at an angle only the hardware knows;
      a run to a target leaves it there; the release motor's direction of travel
      decides the latch. */
  function Actuate(m: Mechanism, c: MotorCommand): Mechanism {
    match c
    case TensionStall(_, _) => m.(tensionAngle := None)
    case ReleaseStall(power, _) =>
      if power < 0 then m.(latch := Locked)
      else if power > 0 then m.(latch := Released)
      else m
    case TensionTarget(_, angle) => m.(tensionAngle := Some(angle))
  }

  function ActuateAll(m: Mechanism, cs: seq<MotorCommand>): Mechanism
    decreases |cs|
  {
    if cs == [] then m else ActuateAll(Actuate(m, cs[0]), cs[1..])
  }

  lemma {:induction false} ActuateAllAppend(m: Mechanism, a: seq<MotorCommand>, b: seq<MotorCommand>)
    ensures ActuateAll(m, a + b) == ActuateAll(ActuateAll(m, a), b)
    decreases |a|
  {
    if a != [] {
      assert (a + b)[0] == a[0];
      assert (a + b)[1..] == a[1..] + b;
      ActuateAllAppend(Actuate(m, a[0]), a[1..], b);
    } else {
      assert a + b == b;
    }
  }

  /** The firing sequence: wind the spring against its stop under a duty limit equal
      to the tension, open the latch, bring the tension motor back to the angle it
      started from, close the latch. */
  function ShootSequence(tension: int, startAngle: int): seq<MotorCommand> {
    [TensionStall(100, tension), ReleaseCommand, TensionTarget(300, startAngle), LockCommand]
  }

  /** Firing ends locked with the tension motor back where it started, from any state. */
  lemma ShootEndsLocked(m: Mechanism, tension: int, startAngle: int)
    ensures ActuateAll(m, ShootSequence(tension, startAngle)) == Mechanism(Locked, Some(startAngle))
    ensures ShootSequence(tension, startAngle)[|ShootSequence(tension, startAngle)| - 1] == LockCommand
  {
    var cs := ShootSequence(tension, startAngle);
    var m1 := Actuate(m, cs[0]);
    var m2 := Actuate(m1, cs[1]);
    var m3 := Actuate(m2, cs[2]);
    assert ActuateAll(m, cs) == ActuateAll(m1, cs[1..]);
    assert ActuateAll(m1, cs[1..]) == ActuateAll(m2, cs[2..]);
    assert ActuateAll(m2, cs[2..]) == ActuateAll(m3, cs[3..]);
    assert ActuateAll(m3, cs[3..]) == ActuateAll(Actuate(m3, cs[3]), cs[4..]);
  }

  /** The latch opens only once the spring is wound and held by the stalled motor. */
  lemma ShootReleasesWound(m: Mechanism, tension: int, startAngle: int)
    ensures ActuateAll(m, ShootSequence(tension, startAngle)[..1]).tensionAngle == None
    ensures ActuateAll(m, ShootSequence(tension, startAngle)[..2]) == Mechanism(Released, None)
  {
    var cs := ShootSequence(tension, startAngle);
    var m1 := Actuate(m, cs[0]);
    assert ActuateAll(m, cs[..1]) == ActuateAll(m1, cs[..1][1..]);
    assert ActuateAll(m, cs[..2]) == ActuateAll(m1, cs[..2][1..]);
    assert ActuateAll(m1, cs[..2][1..]) == ActuateAll(Actuate(m1, cs[1]), cs[..2][2..]);
  }

  class Catapult {
    var tension: int
    /** Every motor primitive issued so far, in order. */
    ghost var commands: seq<MotorCommand>

    ghost predicate Valid()
      reads this
    {
      InRange(tension)
    }

    ghost function State(): Mechanism
      reads this
    {
      ActuateAll(PowerOn, commands)
    }

    constructor ()
      ensures Valid() && tension == DefaultTension && commands == []
    {
      tension := DefaultTension;
      commands := [];
    }

    /** Startup homes the latch: afterwards it is known to be locked. */
    method Startup()
      modifies this`commands
      ensures commands == old(commands) + [LockCommand]
      ensures State().latch == Locked
    {
      Lock();
    }

    method Lock()
      modifies this`commands
      ensures commands == old(commands) + [LockCommand]
      ensures State() == old(State()).(latch := Locked)
    {
      ActuateAllAppend(PowerOn, commands, [LockCommand]);
      commands := commands + [LockCommand];
    }

    method Release()
      modifies this`commands
      ensures commands == old(commands) + [ReleaseCommand]
      ensures State() == old(State()).(latch := Released)
    {
      ActuateAllAppend(PowerOn, commands, [ReleaseCommand]);
      commands := commands + [ReleaseCommand];
    }

    method SetTension(value: int)
      requires Valid()
      modifies this`tension
      ensures Valid()
      ensures tension == GuardedTension(old(tension), value)
    {
      if MinTension <= value <= MaxTension {
        tension := value;
      }
    }

    /** Fires; `startAngle` is the tension motor's angle on entry, as the hardware reports it. */
    method Shoot(startAngle: int)
      modifies this`commands
      ensures commands == old(commands) + ShootSequence(tension, startAngle)
      ensures State() == Mechanism(Locked, Some(startAngle))
    {
      commands := commands + [TensionStall(100, tension)];
      Release();
      commands := commands + [TensionTarget(300, startAngle)];
      Lock();
      ActuateAllAppend(PowerOn, old(commands), ShootSequence(tension, startAngle));
      ShootEndsLocked(ActuateAll(PowerOn, old(commands)), tension, startAngle);
    }
  }

  /** The tension buttons; drawing the value on the screen is not modelled. */
  class Display {
    const catapult: Catapult

    constructor (catapult: Catapult)
      ensures this.catapult == catapult
    {
      this.catapult := catapult;
    }

    method Increase()
      requires catapult.Valid()
      modifies catapult`tension
      ensures catapult.Valid()
      ensures catapult.tension == ApplyOp(old(catapult.tension), TensionOp.Increase)
    {
      catapult.SetTension(catapult.tension + Delta);
    }

    method Decrease()
      requires catapult.Valid()
      modifies catapult`tension
      ensures catapult.Valid()
      ensures catapult.tension == ApplyOp(old(catapult.tension), TensionOp.Decrease)
    {
      catapult.SetTension(catapult.tension - Delta);
    }
  }
}
