/** The motor library the pen drives, reduced to the commands it is sent.
    The physical effect of a command (rotation, braking, blocking until a
    run completes) is not modelled: a motor is the ghost log of the commands
    issued to it, in order. */
module Motors {

  /** One call on a motor handle. `Run` always uses rotations as its unit. */
  datatype Command =
    | Reset
    | SetBrake(on: bool)
    | SetInverted(on: bool)
    | Run(power: int, rotations: real)

  class Motor {
    /** Every command this motor has received, oldest first. */
    ghost var log: seq<Command>

    constructor ()
      ensures log == []
    {
      log := [];
    }

    method Reset()
      modifies this
      ensures log == old(log) + [Command.Reset]
    {
      log := log + [Command.Reset];
    }

    method SetBrake(on: bool)
      modifies this
      ensures log == old(log) + [Command.SetBrake(on)]
    {
      log := log + [Command.SetBrake(on)];
    }

    method SetInverted(on: bool)
      modifies this
      ensures log == old(log) + [Command.SetInverted(on)]
    {
      log := log + [Command.SetInverted(on)];
    }

    /** Runs at a signed power percentage for the given number of rotations. */
    method Run(power: int, rotations: real)
      modifies this
      ensures log == old(log) + [Command.Run(power, rotations)]
    {
      log := log + [Command.Run(power, rotations)];
    }
  }
}
