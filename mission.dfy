/** The player: the shared drive fields, the mission routines (each generator is a
    "resume" function giving the effect of one next() call, and a method of the
    Player class proved to have that effect), and the drive dispatch rule.
    Sensor readings are the finite sequences the sensors will deliver; a routine that
    needs a reading when none is left ends with Starved, which only says that the
    model has no more input. */
module Mission {
  import opened Ev3
  import opened LineFollower
  import opened CatapultControl

  const ForwardSpeed: int := 100
  /** The tension the throw routine sets before firing. */
  const ThrowTension: int := 70

  /** The fields the routines read and write, and the readings still to come. */
  datatype PlayerState = PlayerState(driveSpeed: int, turnRate: real,
                                     colors: seq<Color>, reflections: seq<int>)

  /** The exceptions the program raises: `yield from` on None, and next() on a
      finished generator. */
  datatype Fault = NoneNotIterable | StopIteration

  /** How one next() call ends: at a yield, by returning, by raising, or for want of a reading. */
  datatype Step = Yielded | Returned | Raised(fault: Fault) | Starved

  datatype Outcome = Outcome(step: Step, state: PlayerState)

  /** manage_drive's rule: stop exactly when the speed is zero, otherwise drive. */
  function DriveDecision(speed: int, turnRate: real): (c: DriveCommand)
    ensures c == Stop <==> speed == 0
    ensures c.Drive? ==> c.speed != 0 && c.speed == speed && c.turnRate == turnRate
  {
    if speed == 0 then Stop else Drive(speed, turnRate)
  }

  /** The number of readings at the front of `cs` equal to `c`. */
  function RunOf(cs: seq<Color>, c: Color): (n: nat)
    ensures n <= |cs|
    ensures forall i :: 0 <= i < n ==> cs[i] == c
    ensures n < |cs| ==> cs[n] != c
  {
    if cs == [] || cs[0] != c then 0 else 1 + RunOf(cs[1..], c)
  }

  /** The number of readings at the front of `cs` other than `c`. */
  function RunOfNot(cs: seq<Color>, c: Color): (n: nat)
    ensures n <= |cs|
    ensures forall i :: 0 <= i < n ==> cs[i] != c
    ensures n < |cs| ==> cs[n] == c
  {
    if cs == [] || cs[0] == c then 0 else 1 + RunOfNot(cs[1..], c)
  }

  /** One next() of init_routine: poll the left colour once; yield while it is not green. */
  function InitResume(s: PlayerState): (o: Outcome)
    ensures o.step != Raised(NoneNotIterable) && o.step != Raised(StopIteration)
    ensures o.state == if s.colors == [] then s else s.(colors := s.colors[1..])
    ensures o.step == Yielded <==> s.colors != [] && s.colors[0] != Green
    ensures s.colors != [] && s.colors[0] == Green ==> o.step == Returned
    ensures o.step == Starved <==> s.colors == []
  {
    if s.colors == [] then Outcome(Starved, s)
    else if s.colors[0] != Green then Outcome(Yielded, s.(colors := s.colors[1..]))
    else Outcome(Returned, s.(colors := s.colors[1..]))
  }

  /** One next() of start_routine: while the left colour is green, command full speed
      straight ahead and yield. */
  function StartResume(s: PlayerState): (o: Outcome)
    ensures o.step != Raised(NoneNotIterable) && o.step != Raised(StopIteration)
    ensures o.step == Starved <==> s.colors == []
    ensures o.step == Yielded <==> s.colors != [] && s.colors[0] == Green
    ensures s.colors != [] && s.colors[0] != Green ==> o.step == Returned
    ensures o.state.colors == (if s.colors == [] then s.colors else s.colors[1..])
    ensures o.state.reflections == s.reflections
    ensures o.step == Yielded ==> o.state.driveSpeed == ForwardSpeed && o.state.turnRate == 0.0
    ensures o.step != Yielded ==> o.state.driveSpeed == s.driveSpeed && o.state.turnRate == s.turnRate
  {
    if s.colors == [] then Outcome(Starved, s)
    else if s.colors[0] == Green
    then Outcome(Yielded, s.(driveSpeed := ForwardSpeed, turnRate := 0.0, colors := s.colors[1..]))
    else Outcome(Returned, s.(colors := s.colors[1..]))
  }

  /** The line-following loop both walks share: while the left colour is white, steer
      by the right reflectance. It never yields and never touches the speed. */
  function FollowLine(s: PlayerState, backwards: bool): (o: Outcome)
    ensures o.step == Returned || o.step == Starved
    ensures o.state.driveSpeed == s.driveSpeed
    ensures |o.state.colors| <= |s.colors|
    decreases |s.colors|
  {
    if s.colors == [] then Outcome(Starved, s)
    else if s.colors[0] != White then Outcome(Returned, s.(colors := s.colors[1..]))
    else if s.reflections == [] then Outcome(Starved, s.(colors := s.colors[1..]))
    else FollowLine(s.(turnRate := TurnRate(s.reflections[0], backwards),
                       colors := s.colors[1..], reflections := s.reflections[1..]), backwards)
  }

  /** walk_along_line_backwards: follow the line with the law reversed, then stop. */
  function RetraceLine(s: PlayerState): (o: Outcome)
    ensures o.step == Returned || o.step == Starved
    ensures o.step == Returned ==> o.state.driveSpeed == 0 && o.state.turnRate == 0.0
    ensures o.step == FollowLine(s, true).step
    ensures o.state.colors == FollowLine(s, true).state.colors
    ensures o.state.reflections == FollowLine(s, true).state.reflections
  {
    var o := FollowLine(s, true);
    if o.step == Returned then Outcome(Returned, o.state.(driveSpeed := 0, turnRate := 0.0)) else o
  }

  /** The follow loop in closed form: with w white readings in front, it returns
      exactly when a non-white reading and w reflectance readings are available, having
      consumed w + 1 colours and w reflectances, and the turn rate is that of the last
      reflectance read (unchanged when there was none). */
  lemma {:induction false} FollowLineClosedForm(s: PlayerState, backwards: bool)
    ensures var w := RunOf(s.colors, White);
      FollowLine(s, backwards).step == Returned <==> w < |s.colors| && w <= |s.reflections|
    ensures var w := RunOf(s.colors, White);
      w < |s.colors| && w <= |s.reflections| ==>
        FollowLine(s, backwards).state ==
          s.(turnRate := if w == 0 then s.turnRate else TurnRate(s.reflections[w - 1], backwards),
             colors := s.colors[w + 1..], reflections := s.reflections[w..])
    decreases |s.colors|
  {
    if s.colors != [] && s.colors[0] == White && s.reflections != [] {
      var s' := s.(turnRate := TurnRate(s.reflections[0], backwards),
                   colors := s.colors[1..], reflections := s.reflections[1..]);
      FollowLineClosedForm(s', backwards);
      assert RunOf(s.colors, White) == 1 + RunOf(s'.colors, White);
      var w := RunOf(s'.colors, White);
      if w < |s'.colors| && w <= |s'.reflections| {
        assert s'.colors[w + 1..] == s.colors[w + 2..];
        assert s'.reflections[w..] == s.reflections[w + 1..];
        if w > 0 {
          assert s'.reflections[w - 1] == s.reflections[w];
        }
      }
    }
  }

  /** Three white readings steering at 90, 47 and 12, then red: the walk returns with
      the turn rate of the last reading, 1.2 * (12 - 47). */
  lemma FollowLineScenario()
    ensures FollowLine(PlayerState(100, 0.0, [White, White, White, Red], [90, 47, 12]), false)
            == Outcome(Returned, PlayerState(100, -42.0, [], []))
  {
    FollowLineClosedForm(PlayerState(100, 0.0, [White, White, White, Red], [90, 47, 12]), false);
  }

  /** Where run() is suspended: in init_routine's loop, in start_routine's loop, or
      finished (by an exception). */
  datatype RunPoint = InInit | InStart | Closed

  /** How one next() of run() ends; `resume` is where it is suspended afterwards
      (Closed unless it yielded). */
  datatype RunOutcome = RunOutcome(step: Step, resume: RunPoint, state: PlayerState)

  /** The rest of run() once start_routine's loop test has been reached: the forward walk
      is called and runs to completion, and its None result is not iterable. */
  function ResumeStart(s: PlayerState): (r: RunOutcome)
    ensures r.step == Yielded ==> r.resume == InStart && |r.state.colors| < |s.colors|
    ensures r.step == Yielded || r.step == Starved || r.step == Raised(NoneNotIterable)
  {
    var o := StartResume(s);
    if o.step == Yielded then RunOutcome(Yielded, InStart, o.state)
    else if o.step == Starved then RunOutcome(Starved, Closed, o.state)
    else
      var w := FollowLine(o.state, false);
      if w.step == Returned then RunOutcome(Raised(NoneNotIterable), Closed, w.state)
      else RunOutcome(Starved, Closed, w.state)
  }

  /** One next() of run(). As written, the forward walk is an ordinary function, so the
      step that reaches it ends in a TypeError and run() never gets to the throw. */
  function RunResume(at: RunPoint, s: PlayerState): (r: RunOutcome)
    ensures r.step == Yielded ==> r.resume != Closed && |r.state.colors| < |s.colors|
    ensures r.step != Returned
    ensures r.step == Raised(StopIteration) <==> at == Closed
  {
    match at
    case InInit =>
      var o := InitResume(s);
      if o.step == Yielded then RunOutcome(Yielded, InInit, o.state)
      else if o.step == Starved then RunOutcome(Starved, Closed, o.state)
      else ResumeStart(o.state)
    case InStart => ResumeStart(s)
    case Closed => RunOutcome(Raised(StopIteration), Closed, s)
  }

  /** Where throw_routine is suspended. */
  datatype ThrowPoint = ThrowEntry | ThrowSettling | ThrowFired | ThrowClosed

  class Player {
    const catapult: Catapult
    const display: Display
    var driveSpeed: int
    var turnRate: real
    /** The colours the left sensor will report, in order. */
    var leftColors: seq<Color>
    /** The reflectances the right sensor will report, in order. */
    var rightReflections: seq<int>
    /** Every command sent to the drive base so far, in order. */
    ghost var driveCommands: seq<DriveCommand>

    ghost predicate Valid()
      reads this, catapult
    {
      catapult.Valid() && display.catapult == catapult
    }

    function State(): PlayerState
      reads this
    {
      PlayerState(driveSpeed, turnRate, leftColors, rightReflections)
    }

    constructor (colors: seq<Color>, reflections: seq<int>)
      ensures Valid() && fresh(catapult) && fresh(display)
      ensures State() == PlayerState(0, 0.0, colors, reflections)
      ensures catapult.tension == DefaultTension && catapult.commands == []
      ensures driveCommands == []
    {
      var c := new Catapult();
      catapult := c;
      display := new Display(c);
      driveSpeed, turnRate := 0, 0.0;
      leftColors, rightReflections := colors, reflections;
      driveCommands := [];
    }

    /** Homes the catapult latch; drawing the start screen is not modelled. */
    method Startup()
      requires Valid()
      modifies catapult`commands
      ensures Valid()
      ensures catapult.commands == old(catapult.commands) + [LockCommand]
      ensures catapult.State().latch == Locked
    {
      catapult.Startup();
    }

    method ReadColor() returns (c: Option<Color>)
      modifies this`leftColors
      ensures old(leftColors) == [] ==> c == None && leftColors == old(leftColors)
      ensures old(leftColors) != [] ==> c == Some(old(leftColors)[0]) && leftColors == old(leftColors)[1..]
    {
      if leftColors == [] {
        c := None;
      } else {
        c := Some(leftColors[0]);
        leftColors := leftColors[1..];
      }
    }

    method ReadReflection() returns (r: Option<int>)
      modifies this`rightReflections
      ensures old(rightReflections) == [] ==> r == None && rightReflections == old(rightReflections)
      ensures old(rightReflections) != [] ==>
                r == Some(old(rightReflections)[0]) && rightReflections == old(rightReflections)[1..]
    {
      if rightReflections == [] {
        r := None;
      } else {
        r := Some(rightReflections[0]);
        rightReflections := rightReflections[1..];
      }
    }

    method InitRoutine() returns (step: Step)
      modifies this`leftColors
      ensures Outcome(step, State()) == InitResume(old(State()))
    {
      var c := ReadColor();
      if c.None? {
        step := Starved;
      } else if c.value != Green {
        step := Yielded;
      } else {
        step := Returned;
      }
    }

    method StartRoutine() returns (step: Step)
      modifies this`driveSpeed, this`turnRate, this`leftColors
      ensures Outcome(step, State()) == StartResume(old(State()))
    {
      var c := ReadColor();
      if c.None? {
        step := Starved;
      } else if c.value == Green {
        driveSpeed := ForwardSpeed;
        turnRate := 0.0;
        step := Yielded;
      } else {
        step := Returned;
      }
    }

    /** Reads the right reflectance and sets the turn rate from it; false when no
        reading is left. */
    method UpdateSpeedTurnRate(backwards: bool) returns (read: bool)
      modifies this`turnRate, this`rightReflections
      ensures read <==> old(rightReflections) != []
      ensures read ==> turnRate == TurnRate(old(rightReflections)[0], backwards)
                       && rightReflections == old(rightReflections)[1..]
      ensures !read ==> turnRate == old(turnRate) && rightReflections == old(rightReflections)
    {
      var r := ReadReflection();
      if r.None? {
        return false;
      }
      turnRate := TurnRate(r.value, backwards);
      read := true;
    }

    method FollowLoop(backwards: bool) returns (step: Step)
      modifies this`turnRate, this`leftColors, this`rightReflections
      ensures Outcome(step, State()) == FollowLine(old(State()), backwards)
    {
      while true
        invariant FollowLine(State(), backwards) == FollowLine(old(State()), backwards)
        invariant driveSpeed == old(driveSpeed)
        decreases |leftColors|
      {
        var c := ReadColor();
        if c.None? {
          return Starved;
        }
        if c.value != White {
          return Returned;
        }
        var read := UpdateSpeedTurnRate(backwards);
        if !read {
          return Starved;
        }
      }
    }

    /** Runs the whole forward walk at once: this routine does not yield. */
    method WalkAlongLineForward() returns (step: Step)
      modifies this`turnRate, this`leftColors, this`rightReflections
      ensures Outcome(step, State()) == FollowLine(old(State()), false)
    {
      step := FollowLoop(false);
    }

    method WalkAlongLineBackwards() returns (step: Step)
      modifies this`driveSpeed, this`turnRate, this`leftColors, this`rightReflections
      ensures Outcome(step, State()) == RetraceLine(old(State()))
    {
      step := FollowLoop(true);
      if step == Returned {
        driveSpeed := 0;
        turnRate := 0.0;
      }
    }

    /** One next() of throw_routine; `angle` is what the tension motor reports if it fires.
        The next() after the last yield runs off the end of the generator (Returned, which
        ends a `yield from`); a next() on the finished generator raises StopIteration. */
    method ThrowRoutine(at: ThrowPoint, angle: int) returns (step: Step, next: ThrowPoint)
      requires Valid()
      modifies this`driveSpeed, this`turnRate, catapult`tension, catapult`commands
      ensures Valid()
      ensures at == ThrowEntry ==>
                step == Yielded && next == ThrowSettling && driveSpeed == 0 && turnRate == 0.0
                && unchanged(catapult)
      ensures at == ThrowSettling ==>
                step == Yielded && next == ThrowFired
                && driveSpeed == old(driveSpeed) && turnRate == old(turnRate)
                && catapult.tension == ThrowTension
                && catapult.commands == old(catapult.commands) + ShootSequence(ThrowTension, angle)
                && catapult.State() == Mechanism(Locked, Some(angle))
      ensures at == ThrowFired ==>
                step == Returned && next == ThrowClosed
                && driveSpeed == old(driveSpeed) && turnRate == old(turnRate) && unchanged(catapult)
      ensures at == ThrowClosed ==>
                step == Raised(StopIteration) && next == ThrowClosed
                && driveSpeed == old(driveSpeed) && turnRate == old(turnRate) && unchanged(catapult)
    {
      match at
      case ThrowEntry =>
        driveSpeed := 0;
        turnRate := 0.0;
        step, next := Yielded, ThrowSettling;
      case ThrowSettling =>
        catapult.SetTension(ThrowTension);
        catapult.Shoot(angle);
        step, next := Yielded, ThrowFired;
      case ThrowFired =>
        step, next := Returned, ThrowClosed;
      case ThrowClosed =>
        step, next := Raised(StopIteration), ThrowClosed;
    }

    /** One next() of manage_drive: it sends the command the current fields call for. */
    method ManageDrive()
      modifies this`driveCommands
      ensures driveCommands == old(driveCommands) + [DriveDecision(driveSpeed, turnRate)]
    {
      if driveSpeed == 0 {
        driveCommands := driveCommands + [Stop];
      } else {
        driveCommands := driveCommands + [Drive(driveSpeed, turnRate)];
      }
    }

    /** One next() of run(). */
    method Run(at: RunPoint) returns (step: Step, resume: RunPoint)
      modifies this`driveSpeed, this`turnRate, this`leftColors, this`rightReflections
      ensures RunOutcome(step, resume, State()) == RunResume(at, old(State()))
    {
      if at == Closed {
        return Raised(StopIteration), Closed;
      }
      if at == InInit {
        step := InitRoutine();
        if step == Yielded {
          return Yielded, InInit;
        } else if step == Starved {
          return Starved, Closed;
        }
      }
      step := StartRoutine();
      if step == Yielded {
        return Yielded, InStart;
      } else if step == Starved {
        return Starved, Closed;
      }
      step := WalkAlongLineForward();
      if step == Returned {
        step := Raised(NoneNotIterable);
      }
      resume := Closed;
    }
  }
}
