# Car physics core in Dafny

This project models the core of a raycast car simulator. It covers three parts:

- **The tyres** (`Tyre`). Each tyre finds the ground with a raycast, pushes the body up with a clamped spring and damper, and cancels its own sideways slip with a lateral grip force. On request it also applies drive torque taken from a speed-to-torque curve, and a brake impulse.
- **The car controller** (`CarController`). It picks the tuning record (`CarData`) of the selected archetype. It dispatches the frame step and the physics step to the current driving state. It routes drive torque to the driven axle and brakes to both axles, and every physics step it adds a passive brake.
- **Two driving states.**
  - The player state turns the input axes into a throttle command, and into a steering yaw that is lerped toward a target.
  - The bot state follows a spline: it advances its target point on arrival, and it accelerates forwards while enabled.

The engine is represented by the two objects the code changes:

- The car's rigid body is a class that records every add-force-at-position call, in order, as a `ForceCommand` (tyre identity, force vector).
- A tyre transform is a class that holds the local Euler angles the steering code writes.

Everything the engine computes (raycast hits, transform axes, point velocities, input axes, frame times, the signed angle, spline positions) enters as a parameter. Floats are exact reals. `Mathf.Approximately` is an abstract comparison passed in by the caller.

The modules follow the program's structure:

| module | file | what it holds |
|---|---|---|
| `TyreForces` | `tyre_forces.dfy` | The force rules of one tyre as functions, and the command sequences of one axle. |
| `Tyres` | `tyre.dfy` | The `Tyre` class and the per-axle loops of the controller. |
| `Car` | `car_controller.dfy` | The controller and both driving states as classes, with the lemmas that relate them. |
| `DrivingPolicy` | `driving_policy.dfy` | The decisions of the driving states: throttle, steering and path progress. |
| `CarConfig` | `car_data.dfy` | The tuning record and the lookup of the record for an archetype. |
| `Scalars`, `Vectors`, `RealArith`, `Engine`, `Wrappers` | | The engine's math helpers, the rigid body and the transform. |

Three behaviours follow from the code as written, and the model keeps them:

- **The player state never brakes.** MoveCar's branch for a pull-back while `m_carSpeed > 0` calls ApplyBrakes (PlayerDrivingCarState.cs:46-49). Nothing assigns `m_carSpeed` (declared at PlayerDrivingCarState.cs:12), so the field stays 0 and that branch never runs: a pull-back always reverses (`StaleSpeedDecision`, `PlayerStepNeverBrakes`).
- **A bot without a spline is still enabled.** `m_botDrivingEnabled` starts true (BotDrivingCarState.cs:18). The constructor returns before it sets the spline when none is given (BotDrivingCarState.cs:27-30), and nothing else clears the flag, so OnFixedUpdate keeps accelerating the car.
- **The front tyres share one yaw.** RotateTires lerps the single field `m_wheelTurnAngle` once per front tyre and copies it onto that tyre's transform (PlayerDrivingCarState.cs:65-72), so the i-th tyre (from zero) receives the (i+1)-th iterate (`RotateTires`).

## Model

| member | source | states |
|---|---|---|
| CarConfig.Find | Car_Physics/Assets/Scripts/Car/CarController.cs:71 | No record is found exactly when no record has the type. A found record is the first one with that type. |
| CarConfig.SwitchedCarData | Car_Physics/Assets/Scripts/Car/CarController.cs:65-72 | The cache is kept when the list is empty or the cached record already has the selected type. Otherwise it becomes the first record of that type, or nothing if no record has it. |
| CarConfig.SwitchedCarDataIdempotent | Car_Physics/Assets/Scripts/Car/CarController.cs:65-72 | Switching to the same archetype twice gives the same cache as switching once. |
| TyreForces.SnapSpringZ | Car_Physics/Assets/Scripts/Car/Tyre.cs:68-72 | A spring axis whose Z lies strictly between -0.2 and 0 gets Z = 0. Any other axis is kept. X and Y never change. |
| TyreForces.SnapSpringZLeavesNoBand | Car_Physics/Assets/Scripts/Car/Tyre.cs:69-72 | No snapped axis has Z inside the band, so snapping twice is snapping once. |
| TyreForces.SuspensionOffset | Car_Physics/Assets/Scripts/Car/Tyre.cs:87-88 | The offset lies in [-1, 1]. It equals rest minus hit when that difference is in range. It is positive exactly when the hit is nearer than the rest distance, and zero exactly when they are equal. |
| TyreForces.RaycastHitCompressesOnly | Car_Physics/Assets/Scripts/Car/Tyre.cs:55 | The raycast reaches only as far as the rest distance, so a hit gives an offset in [0, rest distance]: the spring is never stretched. |
| TyreForces.SuspensionForceMagnitude | Car_Physics/Assets/Scripts/Car/Tyre.cs:89 | The spring force is the clamped offset times the stiffness, minus the velocity along the spring times the damper. |
| TyreForces.SuspensionStiffens | Car_Physics/Assets/Scripts/Car/Tyre.cs:89 | With a non-negative stiffness, a nearer hit never gives a smaller spring force. |
| TyreForces.SuspensionDamps | Car_Physics/Assets/Scripts/Car/Tyre.cs:89 | With a non-negative damper, a larger velocity along the spring never gives a larger force. |
| TyreForces.SuspensionEmission | Car_Physics/Assets/Scripts/Car/Tyre.cs:81-91 | No force exactly when the rest and hit distances compare approximately equal. Otherwise there is one force: the spring magnitude along the spring axis. |
| TyreForces.CancellingImpulse | Car_Physics/Assets/Scripts/Car/Tyre.cs:100-102 | Over one step, the grip or brake force's impulse is the mass times the removed share of the velocity. |
| TyreForces.CancellingOpposesVelocity | Car_Physics/Assets/Scripts/Car/Tyre.cs:133-135 | With a non-negative mass and factor, the grip or brake coefficient has the sign opposite to the velocity, or is zero. |
| TyreForces.LateralForce | Car_Physics/Assets/Scripts/Car/Tyre.cs:100-102 | The grip force lies along the steering axis and cancels the grip-factor share of the tyre's sideways velocity, for the tyre mass, over the step. |
| TyreForces.BrakeForce | Car_Physics/Assets/Scripts/Car/Tyre.cs:133-135 | The brake force lies along the forward axis and cancels the brake-factor share of the tyre's forward velocity, for the tyre mass, over the step. |
| TyreForces.PhysicsStepEmission | Car_Physics/Assets/Scripts/Car/Tyre.cs:53-63 | No hit gives no force. A hit gives the suspension call followed by exactly one lateral grip force. All of them are at this tyre. |
| TyreForces.BrakeEmission | Car_Physics/Assets/Scripts/Car/Tyre.cs:127-137 | No force exactly when the tyre is airborne. Otherwise there is one brake force. |
| TyreForces.NormalizedSpeed | Car_Physics/Assets/Scripts/Car/Tyre.cs:117 | The normalised speed lies in [0, 1], and it is 0 when the car is at rest. |
| TyreForces.NormalizedSpeedIgnoresDirection | Car_Physics/Assets/Scripts/Car/Tyre.cs:117 | Negating the speed does not change the normalised speed. |
| TyreForces.NormalizedSpeedSaturates | Car_Physics/Assets/Scripts/Car/Tyre.cs:117 | At or beyond the top speed, in either direction, the normalised speed is 1. |
| TyreForces.TorqueMagnitude | Car_Physics/Assets/Scripts/Car/Tyre.cs:117-122 | The curve at the normalised speed times the torque, negated and scaled by the reverse multiplier in reverse. |
| TyreForces.TorqueForce | Car_Physics/Assets/Scripts/Car/Tyre.cs:117-123 | The drive force is the signed torque along the forward axis, times the caller's multiplier. |
| TyreForces.ReverseTorqueMirrorsForward | Car_Physics/Assets/Scripts/Car/Tyre.cs:117-122 | Reverse torque is minus the forward torque times the reverse multiplier. The forward torque is symmetric in the speed's sign. At or above the top speed it is the curve's value at 1 times the torque. |
| TyreForces.TorqueEmission | Car_Physics/Assets/Scripts/Car/Tyre.cs:111-125 | No force exactly when the tyre is airborne. Otherwise there is one drive command. |
| TyreForces.GroundedIsFilter | Car_Physics/Assets/Scripts/Car/Tyre.cs:113-116 | A contact is among the grounded tyres of an axle exactly when it is in the axle and on the ground. |
| TyreForces.AxleTorque | Car_Physics/Assets/Scripts/Car/CarController.cs:101-104 | A torque pass is each tyre's torque call in axle order. |
| TyreForces.AxleBrake | Car_Physics/Assets/Scripts/Car/CarController.cs:117-125 | A brake pass is each tyre's brake call in axle order. |
| TyreForces.AxleTorqueIsGroundedTorque | Car_Physics/Assets/Scripts/Car/CarController.cs:101-111 | A torque pass gives exactly one command per grounded tyre, in axle order, each built from the same direction, speed and multiplier. |
| TyreForces.AxleBrakeIsGroundedBrake | Car_Physics/Assets/Scripts/Car/CarController.cs:117-125 | A brake pass gives exactly one brake command per grounded tyre, in axle order, all with one factor. |
| TyreForces.AxleBrakeIsBrakeCommands | Car_Physics/Assets/Scripts/Car/CarController.cs:117-120 | A brake pass over an axle equals the independent definition: the brake commands of its grounded tyres. |
| TyreForces.BothAxlesBrake | Car_Physics/Assets/Scripts/Car/CarController.cs:115-126 | Front pass then back pass gives the grounded front tyres' brake commands with the front factor, followed by the grounded back tyres' commands with the back factor. |
| TyreForces.AirborneAxleIsSilent | Car_Physics/Assets/Scripts/Car/Tyre.cs:111-132 | An axle with no grounded tyre gets neither torque nor brake commands. |
| Vectors.MagnitudeExceeds | Car_Physics/Assets/Scripts/Car/CarStates/BotDrivingCarState.cs:61 | A vector is beyond the arrival distance when its squared length exceeds the squared distance, and always for a negative distance. |
| Vectors.MagnitudeExceedsIsLengthTest | Car_Physics/Assets/Scripts/Car/CarStates/BotDrivingCarState.cs:61 | The square-based test agrees with comparing the true length to the arrival distance. |
| Scalars.LerpIterateBetween | Car_Physics/Assets/Scripts/Car/CarStates/PlayerDrivingCarState.cs:65-72 | Every iterate of repeated lerping lies between the start and the target. |
| Engine.RigidBody.AddForceAtPosition | Car_Physics/Assets/Scripts/Car/Tyre.cs:106-109 | Each call appends exactly one command (tyre, force) to the body's record. |
| Tyres.Tyre.constructor | Car_Physics/Assets/Scripts/Car/Tyre.cs:21-40 | A tyre starts airborne, with its axes and velocity components at their zero defaults, and keeps its identity, body, transform and the tuning record it is given. The controller constructor requires that record to be the one it loads, which is the record Start reads from the controller. |
| Tyres.Tyre.Update | Car_Physics/Assets/Scripts/Car/Tyre.cs:65-80 | The spring axis is the snapped up axis. Each velocity component is the point velocity projected on its axis. The ground flag is unchanged. |
| Tyres.Tyre.FixedUpdate | Car_Physics/Assets/Scripts/Car/Tyre.cs:53-63 | The tyre is grounded exactly when the raycast hits. The body receives exactly the physics-step emission. No other state changes. |
| Tyres.Tyre.ApplySuspensionForce | Car_Physics/Assets/Scripts/Car/Tyre.cs:81-91 | The body receives exactly the suspension emission. |
| Tyres.Tyre.ApplySteeringForce | Car_Physics/Assets/Scripts/Car/Tyre.cs:98-104 | The body receives exactly one lateral grip force from this tyre. |
| Tyres.Tyre.ApplyTorque | Car_Physics/Assets/Scripts/Car/Tyre.cs:111-125 | The body receives exactly the torque emission: nothing while airborne. |
| Tyres.Tyre.ApplyBrakeForce | Car_Physics/Assets/Scripts/Car/Tyre.cs:127-137 | The body receives exactly the brake emission: nothing while airborne. |
| Tyres.TorqueAxle | Car_Physics/Assets/Scripts/Car/CarController.cs:101-104 | The loop over an axle appends exactly the axle's torque pass, computed from the tyres' state before the loop. |
| Tyres.BrakeAxle | Car_Physics/Assets/Scripts/Car/CarController.cs:117-120 | The loop over an axle appends exactly the axle's brake pass. |
| Car.CarController.constructor | Car_Physics/Assets/Scripts/Car/CarController.cs:38-58 | Both states are built over the front tyres. The start state is entered, with a state-machine switch unless it is Init. The record of the selected archetype is loaded, and it is the record of every tyre. The player state's inputs, speed field, yaw and baseline start at zero. The bot is enabled, its baseline and yaw come from the first front tyre, and its steering yaw, target, vector and move direction start at zero. With a spline its increment is the given one and its first target lies one increment along; without one both are zero. |
| Car.CarController.OnValidate | Car_Physics/Assets/Scripts/Car/CarController.cs:44-47 | An edit reloads the cached record by the switch rule. Nothing else changes. |
| Car.CarController.SwitchCarData | Car_Physics/Assets/Scripts/Car/CarController.cs:65-72 | The cache becomes SwitchedCarData of the list, the old cache and the selected type. The list, the state and the speed are unchanged. |
| Car.CarController.ChangeCarState | Car_Physics/Assets/Scripts/Car/CarController.cs:87-95 | A switch to the current state is ignored. Any other switch is passed to the state machine exactly once and becomes current. |
| Car.CarController.Update | Car_Physics/Assets/Scripts/Car/CarController.cs:74-79 | Only the current state's frame step runs. The car speed becomes forward · velocity. The state, the record list, the archetype and the cached record are unchanged. In PlayerDriving the inputs are stored, the player's speed field and baseline are kept, the shared yaw takes one lerp step per front tyre, and each front tyre that is the last to hold its transform gets the iterate after its own step. In BotDriving a stopped bot, or a car not driven by the bot, is unchanged; otherwise the target is evaluated, the progress takes one path step, the steering yaw is set, and the move direction and shared yaw are kept. |
| Car.CarController.AccelerateCar | Car_Physics/Assets/Scripts/Car/CarController.cs:97-113 | The body receives exactly the torque pass over the driven axle: front for front-wheel drive, back otherwise. The tyres' contacts are unchanged. |
| Car.CarController.ApplyBrakes | Car_Physics/Assets/Scripts/Car/CarController.cs:115-126 | The body receives the front brake pass, then the back brake pass, each with its factor times the multiplier. |
| Car.CarController.StateFixedUpdate | Car_Physics/Assets/Scripts/Car/CarController.cs:83 | The state machine's physics step appends exactly the current state's forces. It leaves the tyres, the bot's progress, target, vector, steering yaw and shared yaw unchanged. In BotDriving an enabled bot stores the car's forward axis as its move direction; otherwise the bot state is unchanged. |
| Car.CarController.FixedUpdate | Car_Physics/Assets/Scripts/Car/CarController.cs:81-85 | One physics step appends the state's forces followed by the passive brake (the static brake value), both computed from the state at the start of the step. An enabled bot in BotDriving stores the forward axis; otherwise the bot state is unchanged. The bot's progress, target, vector, steering yaw and shared yaw are kept. |
| Car.AccelerationRouting | Car_Physics/Assets/Scripts/Car/CarController.cs:97-113 | Accelerating emits one command per grounded driven tyre, in axle order. When the axles share no tyre identity, front-wheel drive never pushes at a back tyre. |
| Car.BrakesReachBothAxles | Car_Physics/Assets/Scripts/Car/CarController.cs:115-126 | Whatever the drive, braking gives the grounded front tyres' brake commands, then the grounded back tyres', each with its axle's factor. |
| Car.PlayerStepNeverBrakes | Car_Physics/Assets/Scripts/Car/CarStates/PlayerDrivingCarState.cs:34-56 | With the never-written zero speed, the player's physics step reverses on a pull-back, accelerates on a push when the top speed is positive, and does nothing without input. It never brakes. |
| Car.PlayerDrivingCarState.constructor | Car_Physics/Assets/Scripts/Car/CarStates/PlayerDrivingCarState.cs:15-18 | The state keeps the front tyres. Its inputs, speed, yaw and baseline start at zero. |
| Car.PlayerDrivingCarState.OnEnter | Car_Physics/Assets/Scripts/Car/CarStates/PlayerDrivingCarState.cs:19-23 | The shared yaw and the baseline are taken from the first front tyre's local angles. |
| Car.PlayerDrivingCarState.OnUpdate | Car_Physics/Assets/Scripts/Car/CarStates/PlayerDrivingCarState.cs:24-29 | The inputs are stored, and the speed field and baseline are kept. The shared yaw becomes the iterate after one lerp step per front tyre, and each front tyre that is the last to hold its transform gets the iterate after its own step. |
| Car.PlayerDrivingCarState.RotateTires | Car_Physics/Assets/Scripts/Car/CarStates/PlayerDrivingCarState.cs:57-73 | The shared yaw ends at the n-th lerp iterate toward the target, with n the number of front tyres. The i-th tyre's transform holds the shared angles at the (i+1)-th iterate, whenever no later front tyre writes the same transform. |
| Car.PlayerDrivingCarState.TurnTyre | Car_Physics/Assets/Scripts/Car/CarStates/PlayerDrivingCarState.cs:69-71 | One pass of the loop: the shared yaw takes the given value and the tyre's transform receives the shared angles. The inputs, speed field and baseline are kept. |
| Car.PlayerDrivingCarState.OnFixedUpdate | Car_Physics/Assets/Scripts/Car/CarStates/PlayerDrivingCarState.cs:30-33 | The body receives exactly the forces of the throttle decision's command. |
| Car.PlayerDrivingCarState.MoveCar | Car_Physics/Assets/Scripts/Car/CarStates/PlayerDrivingCarState.cs:34-56 | At most one command per step: accelerate, brake or reverse as the throttle decision says, and nothing otherwise. |
| Car.BotDrivingCarState.constructor | Car_Physics/Assets/Scripts/Car/CarStates/BotDrivingCarState.cs:10-34 | The baseline is the first front tyre's yaw, and the bot is enabled. The steering yaw, target, vector to the target and move direction start at zero. With a spline, the target is one increment along it. Without one, target and increment stay zero. |
| Car.BotDrivingCarState.OnUpdate | Car_Physics/Assets/Scripts/Car/CarStates/BotDrivingCarState.cs:36-44 | A stopped bot, or a car not driven by the bot, changes nothing. Otherwise the target is evaluated and the progress takes one path step. The steering yaw is set. The move direction and the shared yaw are kept. |
| Car.BotDrivingCarState.OnFixedUpdate | Car_Physics/Assets/Scripts/Car/CarStates/BotDrivingCarState.cs:46-54 | While enabled, the bot stores the forward axis and accelerates forwards with no speed check. When stopped, nothing is added and nothing changes. The target, the vector to it, the steering yaw, the shared yaw and the progress are kept in both cases. |
| Car.BotDrivingCarState.UpdatePointToReach | Car_Physics/Assets/Scripts/Car/CarStates/BotDrivingCarState.cs:56-78 | Beyond the arrival distance nothing advances. On arrival the progress takes one Advance step. |
| Car.BotDrivingCarState.RotateCar | Car_Physics/Assets/Scripts/Car/CarStates/BotDrivingCarState.cs:82-88 | The steering yaw is the signed angle, clamped to the lock, plus the baseline. The progress is unchanged. |
| DrivingPolicy.ThrottleDecision | Car_Physics/Assets/Scripts/Car/CarStates/PlayerDrivingCarState.cs:36-55 | Each command holds exactly under its condition: forward below the top speed; brake on a pull-back while moving forward; reverse on a pull-back otherwise; nothing without input or at the top speed. |
| DrivingPolicy.StaleSpeedDecision | Car_Physics/Assets/Scripts/Car/CarStates/PlayerDrivingCarState.cs:44-54 | At speed zero the decision never brakes, and a pull-back always reverses. |
| DrivingPolicy.LiveSpeedWouldBrake | Car_Physics/Assets/Scripts/Car/CarStates/PlayerDrivingCarState.cs:46-49 | With the true forward speed, a pull-back would brake, where the stale speed reverses. |
| DrivingPolicy.PlayerSteeringTarget | Car_Physics/Assets/Scripts/Car/CarStates/PlayerDrivingCarState.cs:69 | The steering target is the lock times the input axis, about the baseline. |
| DrivingPolicy.PlayerSteeringTargetWithinLock | Car_Physics/Assets/Scripts/Car/CarStates/PlayerDrivingCarState.cs:69 | For an input axis in [-1, 1], the target lies within the lock around the baseline. With no input it is the baseline. |
| DrivingPolicy.PlayerTurnRate | Car_Physics/Assets/Scripts/Car/CarStates/PlayerDrivingCarState.cs:60-64 | The rate is ten times the record's rate exactly when the input compares approximately equal to the baseline yaw. |
| DrivingPolicy.FastCentreNeedsBaselineInAxisRange | Car_Physics/Assets/Scripts/Car/CarStates/PlayerDrivingCarState.cs:61 | Under exact comparison, a baseline yaw outside [-1, 1] never triggers the fast return to centre. |
| DrivingPolicy.PlayerSteeringStaysWithinLock | Car_Physics/Assets/Scripts/Car/CarStates/PlayerDrivingCarState.cs:65-72 | A shared yaw that starts inside the lock stays inside it after any number of lerp steps. |
| DrivingPolicy.PlayerYawAfter | Car_Physics/Assets/Scripts/Car/CarStates/PlayerDrivingCarState.cs:65-72 | The shared yaw after n front tyres is the n-th lerp iterate from the start toward the target, at the frame's turn rate times the frame time. |
| DrivingPolicy.PlayerYawStep | Car_Physics/Assets/Scripts/Car/CarStates/PlayerDrivingCarState.cs:68-70 | One more front tyre moves the shared yaw by one lerp toward the target, at the frame's turn rate times the frame time. |
| DrivingPolicy.BotSteeringTarget | Car_Physics/Assets/Scripts/Car/CarStates/BotDrivingCarState.cs:85-88 | The bot's yaw stays within the lock about the baseline. It is angle plus baseline inside the lock, and the nearer bound plus the baseline outside it. |
| DrivingPolicy.Advance | Car_Physics/Assets/Scripts/Car/CarStates/BotDrivingCarState.cs:65-77 | Below the end the target moves by the increment. At or past the end, a closed path wraps to 0 and an open path stops. Advancing never re-enables a stopped bot. |
| DrivingPolicy.PathStep | Car_Physics/Assets/Scripts/Car/CarStates/BotDrivingCarState.cs:38-42 | One frame of the bot: an enabled bot that has arrived advances, and any other frame leaves the progress as it was. |
| DrivingPolicy.PathStepKeepsStopped | Car_Physics/Assets/Scripts/Car/CarStates/BotDrivingCarState.cs:38-41 | A frame without an arrival changes nothing, and a stopped bot is never started again. |
| DrivingPolicy.ClosedPathStaysOnTrack | Car_Physics/Assets/Scripts/Car/CarStates/BotDrivingCarState.cs:65-73 | On a closed path the target stays in [0, 1) and the bot keeps driving, after any number of arrivals. |
| DrivingPolicy.StoppedStaysStopped | Car_Physics/Assets/Scripts/Car/CarStates/BotDrivingCarState.cs:74-77 | Once stopped, later arrivals change nothing. |
| DrivingPolicy.OpenPathCountsArrivals | Car_Physics/Assets/Scripts/Car/CarStates/BotDrivingCarState.cs:65-69 | On an open path, while the bot still drives, n arrivals have moved the target by n increments, and it is still short of the end. |
| DrivingPolicy.OpenPathStops | Car_Physics/Assets/Scripts/Car/CarStates/BotDrivingCarState.cs:74-77 | On an open path the bot has stopped by the first arrival that carries the target to the end. |
| DrivingPolicy.QuarterIncrementOpenPath | Car_Physics/Assets/Scripts/Car/CarStates/BotDrivingCarState.cs:31-33 | Starting one quarter in, with a quarter increment on an open path, the bot drives through two arrivals and stops at the third. |

## Left out

- Floating point: floats are exact reals, so rounding, NaN and infinities are not modelled. `Mathf.Approximately` is an abstract comparison supplied by the caller.
- A zero top speed: `MaxCarSpeed` defaults to 0 in the tuning record, where the torque rule's division would give an infinity or NaN. The model's top speed is a non-zero real by type.
- Null references and empty arrays: a missing tuning record or spline, and an empty front-tyre array, are excluded by preconditions (`currentCarData.Some?`, `spline.Some?`, at least one front tyre). In the code these throw.
- The start state: the controller's current state starts as `Init`, taken to be the zero value of the `CarStates` enum that C# gives the uninitialised field (CarController.cs:29). The enum's declaration is not part of this model, so this is an assumption; the state-machine switch recorded at construction depends on it.
- The state machine is not part of this model. Its dispatch follows the current state (Init does nothing). A switch is recorded in a ghost sequence, but the entered state's `OnEnter` and the left state's `OnExit` are not invoked from `ChangeCarState`.
- The engine: the raycast, the transform axes, point velocities, input axes, frame and physics times, `Vector3.SignedAngle` and the spline's evaluated positions are parameters. Forces are identified by the tyre they act at, not by a world position. The physics solver that integrates them is not modelled.
- The raycast's layer mask (`LayersToIgnore`) is left out: the hit is an input.
- Wheel visuals are not modelled: the wheel mesh's spin (Tyre.cs:49-50), its suspension offset position (Tyre.cs:92-95) and the tyre speed that only feeds the spin (Tyre.cs:78).
- The bot's tyre rotation in `RotateCar` is not modelled. It is a quaternion lerp of each front tyre's local rotation toward the clamped yaw (BotDrivingCarState.cs:89-98). Only the yaw angle itself is modelled.
- The centre-of-mass offset set at start (CarController.cs:60-63) is not modelled.
- Editor gizmos and debug logging are not modelled. The unused fields `m_carXAngle` and `m_isCarOnRamp` are not modelled.
- Vector magnitudes are compared through squared lengths: `MagnitudeExceeds` agrees with the true length comparison (`MagnitudeExceedsIsLengthTest`). No square root is modelled.
- A tyre's tuning record is the one the controller held when the tyre started. A later switch of the controller's record does not reach the tyres, as in the code.
- Tyres.Tyre.constructor: the tyre does not read the controller itself, since the controller's module sits above the tyres'. It takes the record as a parameter, and the controller constructor requires every tyre's record to be the record it loads.
- Car.CarController.constructor: requires every tyre's record to be the loaded record. In the code each tyre reads `CurrentCarData` at start (Tyre.cs:35), after the controller's Awake. With no record for the selected archetype that read is null and the tyre's first physics step throws, so this case is excluded rather than modelled.
- Car.PlayerDrivingCarState.RotateTires: when several front tyres share one transform, the contract gives the transform's value only for the last of them, which is what the transform holds. The earlier, overwritten values are not stated. The same holds for `OnUpdate` and `CarController.Update`.
