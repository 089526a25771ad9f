# Pen tilt actuator and reason codes — a verified Dafny model

This project models the control logic of a LEGO EV3 pen-plotter driver:

- **The pen** (`Pen.ts`). A `Pen` owns one driving motor that tilts the pen
  and remembers the state it last moved the pen to: `Unknown`, `Up` or
  `Down`. Construction resets the motor, enables braking and inverts its
  direction, and leaves the state `Unknown`. `moveUp` and `moveDown` are
  guarded transitions: each sends one `run` command to the motor (power +30
  or −30 percent for 0.4 rotations), and only when the pen is not already in
  the target state. `initialize` is `moveUp`.
- **Reason codes** (`ReasonCode.ts`). The numeric enumeration `ReasonCode`
  and `reasonCodeToString`, which maps the one declared member
  (`InvalidParameters`, value 0) to `"Invalid Parameters"` and every other
  value to `"Unknown"`.

Layout:

- `motor.dfy` — module `Motors`: the motor commands the pen uses, and a
  `Motor` class whose ghost `log` records every command it receives.
- `pen_model.dfy` — module `PenModel`: the pen as a value (`PenView`: state
  plus commands issued), its transitions as functions, the invariant
  `Consistent` that every reachable pen satisfies, and the lemmas about them.
- `pen.dfy` — module `Pens`: the `Pen` class with its `state` field and a
  `const` motor handle, whose methods update the state and drive the motor;
  each method's contract ties the new state and motor log to the old ones and
  to the `PenModel` function of the same name.
- `reason_code.dfy` — module `ReasonCodes`.

`PenState` is declared outside `Pen.ts`; the model gives it the three
members `Pen.ts` uses (Pen.ts:11, 24, 31). The rotation constants are exact
`real` literals (0.4); nothing in the logic depends on floating point.

The invariant proved about every pen (`PenModel.Consistent`): the motor's
log after construction is the three setup commands followed only by raise
and lower strokes that alternate (never two raises or two lowers in a row);
the state is `Unknown` exactly while no stroke has been issued; otherwise the
state names the last stroke. As a consequence the net tilt travel since
construction is 0 or one raise when up, and 0 or one lower when down: the
motor is never driven twice in a row in the same direction, and its net
tilt travel never exceeds one stroke.

## Model

| member | source | states |
|---|---|---|
| `Motors.Motor.Reset` | Pen.ts:14 | the reset command is appended to the motor's log |
| `Motors.Motor.SetBrake` | Pen.ts:15 | the brake command, with its flag, is appended to the log |
| `Motors.Motor.SetInverted` | Pen.ts:16 | the inversion command, with its flag, is appended to the log |
| `Motors.Motor.Run` | Pen.ts:25 | a run command with the signed power and rotation count is appended to the log |
| `Pens.Pen.constructor` | Pen.ts:10-17 | the motor handle is the one passed in; state is Unknown; the motor's log gains exactly reset, brake on, inverted on, in that order; the invariant holds |
| `Pens.Pen.Initialize` | Pen.ts:19-21 | afterwards the state is Up whatever it was; exactly the effect of MoveUp on state and motor log |
| `Pens.Pen.MoveUp` | Pen.ts:23-28 | state becomes Up; if it was not Up the motor log gains exactly one run at +30 for 0.4 rotations, otherwise the log is unchanged; the invariant is kept |
| `Pens.Pen.MoveDown` | Pen.ts:30-35 | state becomes Down; if it was not Down the log gains exactly one run at −30 for 0.4 rotations, otherwise the log is unchanged; the invariant is kept |
| `PenModel.Constructed` | Pen.ts:10-17 | a new pen (Unknown, exactly the three setup commands) already satisfies the reachable-pen invariant |
| `PenModel.MoveUp` | Pen.ts:23-28 | the result is Up; it only appends, at most one command, which is the raise stroke; nothing is issued if and only if the pen was already Up |
| `PenModel.MoveDown` | Pen.ts:30-35 | the result is Down; it only appends, at most one command, which is the lower stroke; nothing is issued if and only if the pen was already Down |
| `PenModel.Initialize` | Pen.ts:19-21 | the result is Up from any state |
| `PenModel.InitializeIsMoveUp` | Pen.ts:19-21 | initialize and moveUp have the same effect on every pen |
| `PenModel.MoveUpIdempotent` | Pen.ts:24 | raising twice gives the same state and log as raising once |
| `PenModel.MoveDownIdempotent` | Pen.ts:31 | lowering twice gives the same state and log as lowering once |
| `PenModel.MoveUpConsistent` | Pen.ts:23-28 | moveUp keeps the reachable-pen invariant |
| `PenModel.MoveDownConsistent` | Pen.ts:30-35 | moveDown keeps the reachable-pen invariant |
| `PenModel.ApplyConsistent` | Pen.ts:19-35 | every public call keeps the invariant and leaves a state other than Unknown |
| `PenModel.ExecuteConsistent` | Pen.ts:10-35 | every sequence of calls keeps the invariant; once the state is known it never returns to Unknown |
| `PenModel.UnknownOnlyInitially` | Pen.ts:10-35 | from construction, any sequence of calls yields a pen that satisfies the invariant, whose state is Unknown if and only if no call was made |
| `PenModel.RunsAtMotorSpeed` | Pen.ts:2-4 | every run command a reachable pen issues has power +30 or −30, with 0.4 rotations |
| `PenModel.AlternatingDisplacement` | Pen.ts:23-35 | alternating strokes travel 0 or one stroke in total, on the side of the last stroke |
| `PenModel.TiltTravelBounded` | Pen.ts:23-35 | a reachable pen's net tilt travel is 0 when Unknown, 0 or +0.4 rotations when Up, 0 or −0.4 when Down |
| `ReasonCodes.ToString` | ReasonCode.ts:5-14 | the result is one of exactly two strings; "Invalid Parameters" if and only if the code is the declared member 0; "Unknown" for every other value |
| `ReasonCodes.SameTextIffSameClass` | ReasonCode.ts:1-14 | two codes display alike exactly when both or neither are the declared member |

## Left out

- The physical effect of motor commands (rotation, braking, blocking until a run completes): a motor is only the ghost log of commands it receives.
- A missing (null or undefined) motor: `Pen.ts:14` would throw when it calls `reset` on it; the model's `Motor` type is non-null, so that error path is not modelled.
- The `MoveUnit.Rotations` argument of `run`: every run in the source passes it, so a run command carries rotations implicitly.
- Use of the motor handle by other code between pen calls: the pen's contracts state how its own calls change the log; the invariant `Pens.Pen.Valid` is stated about the commands since construction and is assumed as a precondition only of the clauses that mention it.
- `Error.ts` (`Error.raise`): stops motors, writes to the screen, sets the status light and plays a sound; its only logic is the call to `reasonCodeToString`, which is modelled.
- `Motor.ts` (`MotorHelper.setDefaults`): a null-guarded wrapper over the same three setup calls the constructor makes; the pen does not use it.
- `Printer.ts`: a constant bounding box and a call that resets all motors; it has no logic.
