/** The program's main loop: every tick advances the tasks in list order, first
    manage_drive and then run (the telemetry task is not modelled), until a next()
    call raises. */
module TaskLoop {
  import opened Ev3
  import opened CatapultControl
  import opened Mission

  /** What one tick does: the drive command sent from the fields as they stand, then
      one next() of run(). */
  datatype TickOutcome = TickOutcome(command: DriveCommand, run: RunOutcome)

  function TickOnce(at: RunPoint, s: PlayerState): (t: TickOutcome)
    ensures t.command == Stop <==> s.driveSpeed == 0
    ensures t.run.step == Yielded ==> |t.run.state.colors| < |s.colors|
  {
    TickOutcome(DriveDecision(s.driveSpeed, s.turnRate), RunResume(at, s))
  }

  /** Every drive command sent until run() stops yielding, how it stopped, and the
      fields at that point. */
  datatype Session = Session(commands: seq<DriveCommand>, ending: Step, final: PlayerState)

  function Ticks(at: RunPoint, s: PlayerState): (r: Session)
    ensures |r.commands| >= 1 && r.ending != Yielded && r.ending != Returned
    decreases |s.colors|
  {
    var t := TickOnce(at, s);
    if t.run.step == Yielded then
      var rest := Ticks(t.run.resume, t.run.state);
      Session([t.command] + rest.commands, rest.ending, rest.final)
    else Session([t.command], t.run.step, t.run.state)
  }

  /** A tick that yields is followed by the ticks from where it left run(). */
  lemma TicksUnfold(at: RunPoint, s: PlayerState, at': RunPoint, s': PlayerState)
    requires RunResume(at, s) == RunOutcome(Yielded, at', s')
    ensures Ticks(at, s).commands == [DriveDecision(s.driveSpeed, s.turnRate)] + Ticks(at', s').commands
    ensures Ticks(at, s).ending == Ticks(at', s').ending
  {
  }

  /** What run() has set up at each of its suspension points. */
  predicate Settled(at: RunPoint, s: PlayerState) {
    && (at == InInit ==> s.driveSpeed == 0 && s.turnRate == 0.0)
    && (at == InStart ==> s.driveSpeed == ForwardSpeed && s.turnRate == 0.0)
  }

  /** As written, the wheels never see the line-following law: every command sent is a
      stop or full speed straight ahead, and the run ends in the TypeError of the
      forward walk (or for want of readings), never at the throw. */
  lemma {:induction false} WheelsNeverFollowTheLine(at: RunPoint, s: PlayerState)
    requires at != Closed && Settled(at, s)
    ensures forall i :: 0 <= i < |Ticks(at, s).commands| ==>
              Ticks(at, s).commands[i] in {Stop, Drive(ForwardSpeed, 0.0)}
    ensures Ticks(at, s).ending in {Raised(NoneNotIterable), Starved}
    decreases |s.colors|
  {
    var t := TickOnce(at, s);
    if t.run.step == Yielded {
      assert Settled(t.run.resume, t.run.state);
      WheelsNeverFollowTheLine(t.run.resume, t.run.state);
    }
  }

  function Stops(n: nat): (r: seq<DriveCommand>)
    ensures |r| == n && forall i :: 0 <= i < n ==> r[i] == Stop
  {
    seq(n, _ => Stop)
  }

  function Cruise(n: nat): (r: seq<DriveCommand>)
    ensures |r| == n && forall i :: 0 <= i < n ==> r[i] == Drive(ForwardSpeed, 0.0)
  {
    seq(n, _ => Drive(ForwardSpeed, 0.0))
  }

  /** The forward walk over `cs` completes: a non-white reading comes, and there is a
      reflectance for every white one before it. */
  predicate WalkCompletes(cs: seq<Color>, rs: seq<int>) {
    RunOf(cs, White) < |cs| && RunOf(cs, White) <= |rs|
  }

  /** start_routine's loop over `cs` ends, and the forward walk after it completes. */
  predicate StartThenWalk(cs: seq<Color>, rs: seq<int>) {
    RunOf(cs, Green) < |cs| && WalkCompletes(cs[RunOf(cs, Green) + 1..], rs)
  }

  /** From start_routine's loop with h green readings in front, then a forward walk that
      completes: h + 1 ticks at full speed, then the TypeError. */
  lemma {:induction false} StartPhaseTicks(s: PlayerState)
    requires s.driveSpeed == ForwardSpeed && s.turnRate == 0.0
    requires StartThenWalk(s.colors, s.reflections)
    ensures Ticks(InStart, s).commands == Cruise(RunOf(s.colors, Green) + 1)
    ensures Ticks(InStart, s).ending == Raised(NoneNotIterable)
    decreases |s.colors|, 1
  {
    if RunOf(s.colors, Green) > 0 {
      GreenStartTick(s);
    } else {
      FollowLineClosedForm(s.(colors := s.colors[1..]), false);
    }
  }

  /** A green reading in start_routine: one more full-speed command, then as from the next reading. */
  lemma {:induction false} GreenStartTick(s: PlayerState)
    requires s.driveSpeed == ForwardSpeed && s.turnRate == 0.0
    requires StartThenWalk(s.colors, s.reflections) && RunOf(s.colors, Green) > 0
    ensures Ticks(InStart, s).commands == Cruise(RunOf(s.colors, Green) + 1)
    ensures Ticks(InStart, s).ending == Raised(NoneNotIterable)
    decreases |s.colors|, 0
  {
    var h := RunOf(s.colors, Green);
    var s' := s.(colors := s.colors[1..]);
    assert RunOf(s'.colors, Green) == h - 1;
    assert s'.colors[h - 1 + 1..] == s.colors[h + 1..];
    StartPhaseTicks(s');
    StartYields(s);
    assert DriveDecision(s.driveSpeed, s.turnRate) == Drive(ForwardSpeed, 0.0);
    TicksUnfold(InStart, s, InStart, s');
    CruiseCons(h);
  }

  /** A green reading in start_routine at full speed: run yields with only the reading consumed. */
  lemma StartYields(s: PlayerState)
    requires s.driveSpeed == ForwardSpeed && s.turnRate == 0.0
    requires s.colors != [] && s.colors[0] == Green
    ensures RunResume(InStart, s) == RunOutcome(Yielded, InStart, s.(colors := s.colors[1..]))
  {
  }

  lemma CruiseCons(h: nat)
    ensures [Drive(ForwardSpeed, 0.0)] + Cruise(h) == Cruise(h + 1)
  {
  }

  /** The tick that reads the first green colour: init_routine ends and start_routine
      takes over within the same next() call. */
  lemma GreenTicks(s: PlayerState)
    requires s.driveSpeed == 0 && s.turnRate == 0.0
    requires s.colors != [] && s.colors[0] == Green
    requires StartThenWalk(s.colors[1..], s.reflections)
    ensures Ticks(InInit, s).commands == [Stop] + Cruise(RunOf(s.colors[1..], Green))
    ensures Ticks(InInit, s).ending == Raised(NoneNotIterable)
  {
    var tail := s.colors[1..];
    var h := RunOf(tail, Green);
    if h > 0 {
      var s' := s.(driveSpeed := ForwardSpeed, turnRate := 0.0, colors := tail[1..]);
      assert RunOf(tail[1..], Green) == h - 1;
      assert tail[1..][h - 1 + 1..] == tail[h + 1..];
      assert RunResume(InInit, s) == RunOutcome(Yielded, InStart, s');
      StartPhaseTicks(s');
    } else {
      FollowLineClosedForm(s.(colors := tail[1..]), false);
    }
  }

  /** The whole as-written run from power-on fields: g non-green readings, then a green
      one, then h greens, a non-green one and a forward walk that completes. The drive
      base receives g + 1 stops and h full-speed commands, and the run raises the
      TypeError. */
  lemma {:induction false} ProgramTicks(s: PlayerState)
    requires s.driveSpeed == 0 && s.turnRate == 0.0
    requires RunOfNot(s.colors, Green) < |s.colors|
    requires StartThenWalk(s.colors[RunOfNot(s.colors, Green) + 1..], s.reflections)
    ensures Ticks(InInit, s).commands ==
              Stops(RunOfNot(s.colors, Green) + 1)
              + Cruise(RunOf(s.colors[RunOfNot(s.colors, Green) + 1..], Green))
    ensures Ticks(InInit, s).ending == Raised(NoneNotIterable)
    decreases |s.colors|, 1
  {
    var g := RunOfNot(s.colors, Green);
    if g == 0 {
      GreenTicks(s);
      assert [Stop] == Stops(1);
    } else {
      NonGreenTick(s);
    }
  }

  /** A tick that reads a non-green colour first only stops the robot. */
  lemma {:induction false} NonGreenTick(s: PlayerState)
    requires s.driveSpeed == 0 && s.turnRate == 0.0
    requires 0 < RunOfNot(s.colors, Green) < |s.colors|
    requires StartThenWalk(s.colors[RunOfNot(s.colors, Green) + 1..], s.reflections)
    ensures Ticks(InInit, s).commands ==
              Stops(RunOfNot(s.colors, Green) + 1)
              + Cruise(RunOf(s.colors[RunOfNot(s.colors, Green) + 1..], Green))
    ensures Ticks(InInit, s).ending == Raised(NoneNotIterable)
    decreases |s.colors|, 0
  {
    var g := RunOfNot(s.colors, Green);
    var rest := s.colors[g + 1..];
    var s' := s.(colors := s.colors[1..]);
    assert RunOfNot(s'.colors, Green) == g - 1;
    assert s'.colors[g - 1 + 1..] == rest;
    ProgramTicks(s');
    var h := RunOf(rest, Green);
    assert Ticks(InInit, s').commands == Stops(g) + Cruise(h);
    InitYields(s);
    assert DriveDecision(s.driveSpeed, s.turnRate) == Stop;
    TicksUnfold(InInit, s, InInit, s');
    StopsCons(g, h);
  }

  /** A non-green reading in init_routine: run yields with nothing changed but the reading consumed. */
  lemma InitYields(s: PlayerState)
    requires s.colors != [] && s.colors[0] != Green
    ensures RunResume(InInit, s) == RunOutcome(Yielded, InInit, s.(colors := s.colors[1..]))
  {
  }

  lemma StopsCons(g: nat, h: nat)
    ensures [Stop] + (Stops(g) + Cruise(h)) == Stops(g + 1) + Cruise(h)
  {
    assert [Stop] + Stops(g) == Stops(g + 1);
  }

  /** Black, then green twice more after the first green, then red and black: two stops,
      two full-speed commands, then the TypeError. */
  lemma ProgramScenario()
    ensures Ticks(InInit, PlayerState(0, 0.0, [Black, Green, Green, Green, Red, Black], [])).commands
            == [Stop, Stop, Drive(ForwardSpeed, 0.0), Drive(ForwardSpeed, 0.0)]
    ensures Ticks(InInit, PlayerState(0, 0.0, [Black, Green, Green, Green, Red, Black], [])).ending
            == Raised(NoneNotIterable)
  {
    var s := PlayerState(0, 0.0, [Black, Green, Green, Green, Red, Black], []);
    assert RunOfNot(s.colors, Green) == 1;
    assert s.colors[2..] == [Green, Green, Red, Black];
    assert RunOf([Green, Green, Red, Black], Green) == 2;
    assert [Green, Green, Red, Black][3..] == [Black];
    assert RunOf([Black], White) == 0;
    ProgramTicks(s);
    assert Stops(2) == [Stop, Stop];
    assert Cruise(2) == [Drive(ForwardSpeed, 0.0), Drive(ForwardSpeed, 0.0)];
  }

  /** One tick: manage_drive, then run. */
  method Tick(p: Player, at: RunPoint) returns (step: Step, resume: RunPoint)
    modifies p
    ensures p.driveCommands == old(p.driveCommands) + [TickOnce(at, old(p.State())).command]
    ensures RunOutcome(step, resume, p.State()) == TickOnce(at, old(p.State())).run
  {
    p.ManageDrive();
    step, resume := p.Run(at);
  }

  /** The main loop, from run()'s start, until a next() call raises or the readings run out. */
  method MainLoop(p: Player) returns (ending: Step)
    modifies p
    ensures p.driveCommands == old(p.driveCommands) + Ticks(InInit, old(p.State())).commands
    ensures ending == Ticks(InInit, old(p.State())).ending
    ensures p.State() == Ticks(InInit, old(p.State())).final
  {
    var at := InInit;
    ghost var whole := Ticks(InInit, p.State());
    while true
      invariant old(p.driveCommands) + whole.commands == p.driveCommands + Ticks(at, p.State()).commands
      invariant Ticks(at, p.State()).ending == whole.ending
      invariant Ticks(at, p.State()).final == whole.final
      decreases |p.leftColors|
    {
      ghost var before := p.State();
      ghost var sent := p.driveCommands;
      var step, resume := Tick(p, at);
      if step != Yielded {
        return step;
      }
      assert Ticks(at, before).commands == [TickOnce(at, before).command] + Ticks(resume, p.State()).commands;
      assert p.driveCommands == sent + [TickOnce(at, before).command];
      at := resume;
    }
  }

  /** The program: build the player, home the catapult, run the loop. The catapult is
      never fired and its tension never changes. */
  method Program(colors: seq<Color>, reflections: seq<int>) returns (p: Player, ending: Step)
    ensures p.Valid() && p.catapult.tension == DefaultTension
    ensures p.catapult.commands == [LockCommand] && p.catapult.State().latch == Locked
    ensures p.driveCommands == Ticks(InInit, PlayerState(0, 0.0, colors, reflections)).commands
    ensures ending == Ticks(InInit, PlayerState(0, 0.0, colors, reflections)).ending
  {
    p := new Player(colors, reflections);
    p.Startup();
    ending := MainLoop(p);
  }
}
