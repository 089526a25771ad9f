/** The pen's tilt state machine as values: a pen is seen as its state
    together with the commands it has issued to its driving motor. */
module PenModel {
  import opened Motors

  /** Drive power, as a percentage, of every tilt movement. */
  const MOTOR_SPEED: int := 30
  /** Rotations of one upward movement. */
  const MOTOR_UP_ROTATIONS: real := 0.4
  /** Rotations of one downward movement. */
  const MOTOR_DOWN_ROTATIONS: real := 0.4

  datatype PenState = Unknown | Up | Down

  /** The one command that raises the pen. */
  const UP_STROKE: Command := Run(MOTOR_SPEED, MOTOR_UP_ROTATIONS)
  /** The one command that lowers the pen: the same speed, reversed. */
  const DOWN_STROKE: Command := Run(-1 * MOTOR_SPEED, MOTOR_DOWN_ROTATIONS)
  /** What construction sends to the motor, in this order. */
  const CONSTRUCTOR_COMMANDS: seq<Command> := [Reset, SetBrake(true), SetInverted(true)]

  /** A pen: its state and every command it has sent its motor, oldest first. */
  datatype PenView = PenView(state: PenState, issued: seq<Command>)

  /** A pen just constructed: it already satisfies the invariant every later
      call keeps. */
  function Constructed(): (p: PenView)
    ensures Consistent(p)
  {
    PenView(Unknown, CONSTRUCTOR_COMMANDS)
  }

  /** Raises the pen unless it is already up. */
  function MoveUp(p: PenView): (r: PenView)
    ensures r.state == Up
    ensures p.issued <= r.issued && |r.issued| <= |p.issued| + 1
    ensures r.issued == p.issued <==> p.state == Up
    ensures |r.issued| == |p.issued| + 1 ==> r.issued[|p.issued|] == UP_STROKE
  {
    if p.state != Up then PenView(Up, p.issued + [UP_STROKE]) else p
  }

  /** Lowers the pen unless it is already down. */
  function MoveDown(p: PenView): (r: PenView)
    ensures r.state == Down
    ensures p.issued <= r.issued && |r.issued| <= |p.issued| + 1
    ensures r.issued == p.issued <==> p.state == Down
    ensures |r.issued| == |p.issued| + 1 ==> r.issued[|p.issued|] == DOWN_STROKE
  {
    if p.state != Down then PenView(Down, p.issued + [DOWN_STROKE]) else p
  }

  /** Initialization is a raise, whatever the pen's state. */
  function Initialize(p: PenView): (r: PenView)
    ensures r.state == Up
  {
    MoveUp(p)
  }

  /** The public operations of a pen. */
  datatype Call = InitializeCall | MoveUpCall | MoveDownCall

  function Apply(p: PenView, c: Call): PenView {
    match c
    case InitializeCall => Initialize(p)
    case MoveUpCall => MoveUp(p)
    case MoveDownCall => MoveDown(p)
  }

  /** The pen after the calls `cs`, in order. */
  function Execute(p: PenView, cs: seq<Call>): PenView
    decreases |cs|
  {
    if cs == [] then p else Execute(Apply(p, cs[0]), cs[1..])
  }

  function Last(s: seq<Command>): Command
    requires s != []
  {
    s[|s| - 1]
  }

  /** Every command is a raise or a lower, and no two neighbours are the same. */
  predicate Alternating(s: seq<Command>) {
    && (forall i | 0 <= i < |s| :: s[i] == UP_STROKE || s[i] == DOWN_STROKE)
    && (forall i | 0 <= i < |s| - 1 :: s[i] != s[i + 1])
  }

  /** The state a pen can be in after construction and any calls: the constructor's
      setup is followed only by alternating raises and lowers; the state is Unknown
      exactly while none has been issued, and otherwise names the last one. */
  predicate Consistent(p: PenView) {
    && |p.issued| >= 3
    && p.issued[..3] == CONSTRUCTOR_COMMANDS
    && Alternating(p.issued[3..])
    && (p.state == Unknown <==> |p.issued| == 3)
    && (p.state == Up ==> Last(p.issued) == UP_STROKE)
    && (p.state == Down ==> Last(p.issued) == DOWN_STROKE)
  }

  /** Net tilt travel, in rotations, of the commands `s` (positive is up). */
  function Displacement(s: seq<Command>): real {
    if s == [] then 0.0
    else
      var c := s[|s| - 1];
      Displacement(s[..|s| - 1]) +
      (if c.Run? && c.power > 0 then c.rotations
       else if c.Run? && c.power < 0 then -c.rotations
       else 0.0)
  }

  // ---------------------------------------------------------------------------
  // Properties of single calls

  lemma MoveUpIdempotent(p: PenView)
    ensures MoveUp(MoveUp(p)) == MoveUp(p)
  {
  }

  lemma MoveDownIdempotent(p: PenView)
    ensures MoveDown(MoveDown(p)) == MoveDown(p)
  {
  }

  lemma InitializeIsMoveUp(p: PenView)
    ensures Initialize(p) == MoveUp(p)
    ensures Initialize(p).state == Up
  {
  }

  /** Appending a stroke that differs from the current last one keeps the
      strokes alternating. */
  lemma {:induction false} AlternatingSnoc(s: seq<Command>, c: Command)
    requires Alternating(s)
    requires c == UP_STROKE || c == DOWN_STROKE
    requires s != [] ==> Last(s) != c
    ensures Alternating(s + [c])
  {
    var t := s + [c];
    forall i | 0 <= i < |t| - 1 ensures t[i] != t[i + 1] {
      if i < |s| - 1 {
        assert t[i] == s[i] && t[i + 1] == s[i + 1];
      } else {
        assert t[i] == Last(s) && t[i + 1] == c;
      }
    }
    forall i | 0 <= i < |t| ensures t[i] == UP_STROKE || t[i] == DOWN_STROKE {
      if i < |s| { assert t[i] == s[i]; }
    }
  }

  /** Issuing `c` after the setup extends the stroke part by `c`. */
  lemma StrokesSnoc(issued: seq<Command>, c: Command)
    requires |issued| >= 3
    ensures (issued + [c])[..3] == issued[..3]
    ensures (issued + [c])[3..] == issued[3..] + [c]
  {
  }

  lemma {:induction false} MoveUpConsistent(p: PenView)
    requires Consistent(p)
    ensures Consistent(MoveUp(p))
  {
    if p.state != Up {
      StrokesSnoc(p.issued, UP_STROKE);
      var s := p.issued[3..];
      assert s != [] ==> Last(s) == Last(p.issued);
      AlternatingSnoc(s, UP_STROKE);
    }
  }

  lemma {:induction false} MoveDownConsistent(p: PenView)
    requires Consistent(p)
    ensures Consistent(MoveDown(p))
  {
    if p.state != Down {
      StrokesSnoc(p.issued, DOWN_STROKE);
      var s := p.issued[3..];
      assert s != [] ==> Last(s) == Last(p.issued);
      AlternatingSnoc(s, DOWN_STROKE);
    }
  }

  lemma ApplyConsistent(p: PenView, c: Call)
    requires Consistent(p)
    ensures Consistent(Apply(p, c))
    ensures Apply(p, c).state != Unknown
  {
    match c
    case InitializeCall => MoveUpConsistent(p);
    case MoveUpCall => MoveUpConsistent(p);
    case MoveDownCall => MoveDownConsistent(p);
  }

  // ---------------------------------------------------------------------------
  // Properties of every run of a pen

  /** Every sequence of calls keeps the invariant, and a known state stays known. */
  lemma {:induction false} ExecuteConsistent(p: PenView, cs: seq<Call>)
    requires Consistent(p)
    ensures Consistent(Execute(p, cs))
    ensures p.state != Unknown ==> Execute(p, cs).state != Unknown
    decreases |cs|
  {
    if cs != [] {
      ApplyConsistent(p, cs[0]);
      ExecuteConsistent(Apply(p, cs[0]), cs[1..]);
    }
  }

  /** The state is Unknown after construction and after no call: any call
      leaves a known state behind for good. */
  lemma {:induction false} UnknownOnlyInitially(cs: seq<Call>)
    ensures Consistent(Execute(Constructed(), cs))
    ensures Execute(Constructed(), cs).state == Unknown <==> cs == []
  {
    var p := Constructed();
    assert p.issued[3..] == [];
    ExecuteConsistent(p, cs);
    if cs != [] {
      ApplyConsistent(p, cs[0]);
      ExecuteConsistent(Apply(p, cs[0]), cs[1..]);
    }
  }

  /** Every run command a pen issues drives the motor at exactly the motor
      speed, up or down, for the configured number of rotations. */
  lemma RunsAtMotorSpeed(p: PenView, i: int)
    requires Consistent(p)
    requires 0 <= i < |p.issued| && p.issued[i].Run?
    ensures p.issued[i].power == MOTOR_SPEED || p.issued[i].power == -MOTOR_SPEED
    ensures p.issued[i].power > 0 ==> p.issued[i].rotations == MOTOR_UP_ROTATIONS
    ensures p.issued[i].power < 0 ==> p.issued[i].rotations == MOTOR_DOWN_ROTATIONS
  {
    if i >= 3 {
      assert p.issued[3..][i - 3] == p.issued[i];
    }
  }

  /** Alternating strokes never travel further than one stroke from where the
      first of them started, on the side the last one moved to. */
  lemma {:induction false} AlternatingDisplacement(s: seq<Command>)
    requires Alternating(s)
    ensures s == [] ==> Displacement(s) == 0.0
    ensures s != [] && Last(s) == UP_STROKE ==>
      Displacement(s) == 0.0 || Displacement(s) == MOTOR_UP_ROTATIONS
    ensures s != [] && Last(s) == DOWN_STROKE ==>
      Displacement(s) == 0.0 || Displacement(s) == -MOTOR_DOWN_ROTATIONS
  {
    if s != [] {
      var t := s[..|s| - 1];
      assert Alternating(t) by {
        assert forall i | 0 <= i < |t| :: t[i] == s[i];
      }
      AlternatingDisplacement(t);
      if t != [] {
        assert Last(t) == s[|s| - 2];
      }
    }
  }

  /** A raised pen sits exactly one stroke above a lowered one: its net travel
      since construction is 0 or one raise when up, 0 or one lower when down. */
  lemma {:induction false} TiltTravelBounded(p: PenView)
    requires Consistent(p)
    ensures p.state == Unknown ==> Displacement(p.issued[3..]) == 0.0
    ensures p.state == Up ==>
      Displacement(p.issued[3..]) == 0.0 || Displacement(p.issued[3..]) == MOTOR_UP_ROTATIONS
    ensures p.state == Down ==>
      Displacement(p.issued[3..]) == 0.0 || Displacement(p.issued[3..]) == -MOTOR_DOWN_ROTATIONS
  {
    var s := p.issued[3..];
    assert s != [] ==> Last(s) == Last(p.issued);
    AlternatingDisplacement(s);
  }
}
