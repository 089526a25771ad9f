/** The pen actuator: one driving motor that tilts the pen up or down, and
    the state the pen was last moved to. */
module Pens {
  import opened Motors
  import opened PenModel

  class Pen {
    /** Bound at construction and never reassigned. */
    const drivingMotor: Motor
    var state: PenState
    /** What the motor had received before this pen was built with it. */
    ghost const prior: seq<Command>

    /** The motor's log is what it had before plus what this pen issued, and
        the pen is in a state that construction and some calls lead to. */
    ghost predicate Valid()
      reads this, drivingMotor
    {
      && prior <= drivingMotor.log
      && Consistent(PenView(state, drivingMotor.log[|prior|..]))
    }

    ghost function View(): PenView
      reads this, drivingMotor
      requires Valid()
    {
      PenView(state, drivingMotor.log[|prior|..])
    }

    /** Takes ownership of `drivingMotor`, resets it, enables braking and
        inverts its direction, and leaves the state Unknown. */
    constructor (drivingMotor: Motor)
      modifies drivingMotor
      ensures this.drivingMotor == drivingMotor
      ensures state == Unknown
      ensures drivingMotor.log == old(drivingMotor.log) + CONSTRUCTOR_COMMANDS
      ensures Valid() && View() == Constructed()
    {
      state := Unknown;
      this.drivingMotor := drivingMotor;
      prior := drivingMotor.log;
      new;
      drivingMotor.Reset();
      drivingMotor.SetBrake(true);
      drivingMotor.SetInverted(true);
      assert drivingMotor.log[|prior|..] == CONSTRUCTOR_COMMANDS;
    }

    /** Raises the pen, which is the same as `MoveUp` from any state. */
    method Initialize()
      modifies this, drivingMotor
      ensures state == Up
      ensures old(state) != Up ==> drivingMotor.log == old(drivingMotor.log) + [UP_STROKE]
      ensures old(state) == Up ==> drivingMotor.log == old(drivingMotor.log)
      ensures old(Valid()) ==> Valid() && View() == PenModel.Initialize(old(View()))
    {
      MoveUp();
    }

    /** Issues one raise, unless the pen is already up. */
    method MoveUp()
      modifies this, drivingMotor
      ensures state == Up
      ensures old(state) != Up ==> drivingMotor.log == old(drivingMotor.log) + [UP_STROKE]
      ensures old(state) == Up ==> drivingMotor.log == old(drivingMotor.log)
      ensures old(Valid()) ==> Valid() && View() == PenModel.MoveUp(old(View()))
    {
      ghost var oldState, oldLog := state, drivingMotor.log;
      ghost var valid := Valid();
      if state != Up {
        drivingMotor.Run(MOTOR_SPEED, MOTOR_UP_ROTATIONS);
        state := Up;
      }
      if valid {
        ghost var before := PenView(oldState, oldLog[|prior|..]);
        MoveUpConsistent(before);
        assert drivingMotor.log[|prior|..] == PenModel.MoveUp(before).issued;
      }
    }

    /** Issues one lower, unless the pen is already down. */
    method MoveDown()
      modifies this, drivingMotor
      ensures state == Down
      ensures old(state) != Down ==> drivingMotor.log == old(drivingMotor.log) + [DOWN_STROKE]
      ensures old(state) == Down ==> drivingMotor.log == old(drivingMotor.log)
      ensures old(Valid()) ==> Valid() && View() == PenModel.MoveDown(old(View()))
    {
      ghost var oldState, oldLog := state, drivingMotor.log;
      ghost var valid := Valid();
      if state != Down {
        drivingMotor.Run(-1 * MOTOR_SPEED, MOTOR_DOWN_ROTATIONS);
        state := Down;
      }
      if valid {
        ghost var before := PenView(oldState, oldLog[|prior|..]);
        MoveDownConsistent(before);
        assert drivingMotor.log[|prior|..] == PenModel.MoveDown(before).issued;
      }
    }
  }
}
