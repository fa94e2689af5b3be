/**
 * The car controller and its two driving states. The controller owns the tyres
 * and the rigid body, chooses the tuning record, dispatches the frame and physics
 * steps to the current state and routes drive and brake calls to the axles; the
 * player state turns input axes into throttle and steering, the bot state follows
 * a spline.
 */
module Car {

  import opened Wrappers
  import opened Vectors
  import opened CarConfig
  import opened TyreForces
  import opened Engine
  import opened Tyres
  import opened DrivingPolicy
  import Scalars

  /** The states the controller's state machine can be in; `Init` has no behaviour. */
  datatype CarStates = Init | PlayerDriving | BotDriving

  /** The spline the bot follows: whether it loops, and the world position at a share of its length. */
  datatype Spline = Spline(isClosed: bool, evaluatePosition: real -> Vec3)

  /** The transforms of a sequence of tyres. */
  ghost function TransformsOf(tyres: seq<Tyre>): set<Transform>
  {
    set i | 0 <= i < |tyres| :: tyres[i].transform
  }

  /**
   * Tyre `i` is the last of the first `n` tyres to hold its transform: a loop that writes
   * each tyre's transform in order leaves that transform with tyre `i`'s value.
   */
  ghost predicate LastWithTransform(tyres: seq<Tyre>, i: int, n: int)
    requires 0 <= i < n <= |tyres|
  {
    forall k :: i < k < n ==> tyres[k].transform != tyres[i].transform
  }

  /** A tyre that is the last with its transform among `n + 1` tyres is so among the first `n`, and tyre `n` does not share it. */
  lemma LastWithTransformPrefix(tyres: seq<Tyre>, i: int, n: int)
    requires 0 <= i < n < |tyres| && LastWithTransform(tyres, i, n + 1)
    ensures LastWithTransform(tyres, i, n) && tyres[n].transform != tyres[i].transform
  {
  }

  class CarController {
    const frontTyres: seq<Tyre>
    const backTyres: seq<Tyre>
    const body: RigidBody
    const carDriveStartState: CarStates
    /** The configured tuning records and the selected archetype, both editable in the editor. */
    var carDatas: seq<CarData>
    var currentCarDataType: CarDataType
    const isBotDriving: bool
    const pointCheckDistance: real
    const splinePercentageIncrement: real

    var carSpeed: real
    var currentCarData: Option<CarData>
    const playerDrivingState: PlayerDrivingCarState
    const botDrivingCarState: BotDrivingCarState
    var currentCarState: CarStates
    var carForwardVector: Vec3
    /** Every state the state machine was told to switch to, in order. */
    ghost var setStateCalls: seq<CarStates>

    /**
     * The wiring the controller relies on: at least one front tyre, every tyre
     * adding its forces to this car's body, and both driving states steering
     * this car's front tyres.
     */
    ghost predicate Valid()
    {
      |frontTyres| > 0 &&
      Mounted(frontTyres, body) && Mounted(backTyres, body) &&
      playerDrivingState.frontTyres == frontTyres &&
      botDrivingCarState.frontTyres == frontTyres
    }

    /**
     * Awake: build both driving states over the front tyres, enter the start state,
     * then load the tuning record of the selected archetype.
     */
    constructor(frontTyres: seq<Tyre>, backTyres: seq<Tyre>, body: RigidBody, carDriveStartState: CarStates,
                carDatas: seq<CarData>, currentCarDataType: CarDataType, isBotDriving: bool,
                spline: Option<Spline>, pointCheckDistance: real, splinePercentageIncrement: real)
      requires |frontTyres| > 0 && Mounted(frontTyres, body) && Mounted(backTyres, body)
      requires forall t :: t in frontTyres + backTyres ==> SwitchedCarData(carDatas, None, currentCarDataType) == Some(t.data)
      ensures Valid()
      ensures this.frontTyres == frontTyres && this.backTyres == backTyres && this.body == body
      ensures this.carDatas == carDatas && this.currentCarDataType == currentCarDataType
      ensures this.isBotDriving == isBotDriving && this.pointCheckDistance == pointCheckDistance
      ensures currentCarState == carDriveStartState
      ensures setStateCalls == if carDriveStartState == Init then [] else [carDriveStartState]
      ensures currentCarData == SwitchedCarData(carDatas, None, currentCarDataType)
      ensures forall t :: t in frontTyres + backTyres ==> currentCarData == Some(t.data)
      ensures carSpeed == 0.0 && playerDrivingState.carSpeed == 0.0
      ensures fresh(playerDrivingState) && fresh(botDrivingCarState)
      ensures playerDrivingState.verticalAxisInput == 0.0 && playerDrivingState.horizontalAxisInput == 0.0
      ensures playerDrivingState.wheelTurnAngle == Zero && playerDrivingState.initialTyreRotation == 0.0
      ensures botDrivingCarState.botDrivingEnabled && botDrivingCarState.spline == spline
      ensures botDrivingCarState.initialTyreRotation == frontTyres[0].transform.localEulerAngles.y
      ensures botDrivingCarState.wheelTurnAngle == frontTyres[0].transform.localEulerAngles
      ensures botDrivingCarState.tyreRotateAngle == 0.0 && botDrivingCarState.carMoveDirection == Zero
      ensures botDrivingCarState.targetPosition == Zero && botDrivingCarState.vectorToTarget == Zero
      ensures spline.Some? ==> botDrivingCarState.currentSplinePoint == splinePercentageIncrement
                               && botDrivingCarState.splinePercentageIncrement == splinePercentageIncrement
      ensures spline.None? ==> botDrivingCarState.currentSplinePoint == 0.0
                               && botDrivingCarState.splinePercentageIncrement == 0.0
    {
      this.frontTyres := frontTyres;
      this.backTyres := backTyres;
      this.body := body;
      this.carDriveStartState := carDriveStartState;
      this.carDatas := carDatas;
      this.currentCarDataType := currentCarDataType;
      this.isBotDriving := isBotDriving;
      this.pointCheckDistance := pointCheckDistance;
      this.splinePercentageIncrement := splinePercentageIncrement;
      carSpeed := 0.0;
      currentCarData := None;
      currentCarState := Init;
      carForwardVector := Zero;
      setStateCalls := [];
      playerDrivingState := new PlayerDrivingCarState(frontTyres);
      botDrivingCarState := new BotDrivingCarState(frontTyres, spline, splinePercentageIncrement);
      new;
      ChangeCarState(carDriveStartState);
      SwitchCarData();
    }

    /** OnValidate: an edit of the records or of the selected archetype reloads the record. */
    method OnValidate()
      modifies this
      ensures currentCarData == SwitchedCarData(carDatas, old(currentCarData), currentCarDataType)
      ensures carDatas == old(carDatas) && currentCarDataType == old(currentCarDataType)
      ensures currentCarState == old(currentCarState) && setStateCalls == old(setStateCalls)
      ensures carSpeed == old(carSpeed) && carForwardVector == old(carForwardVector)
    {
      SwitchCarData();
    }

    method SwitchCarData()
      modifies this
      ensures currentCarData == SwitchedCarData(carDatas, old(currentCarData), currentCarDataType)
      ensures carDatas == old(carDatas) && currentCarDataType == old(currentCarDataType)
      ensures currentCarState == old(currentCarState) && setStateCalls == old(setStateCalls)
      ensures carSpeed == old(carSpeed) && carForwardVector == old(carForwardVector)
    {
      if |carDatas| == 0 || (currentCarData.Some? && currentCarData.value.carDataType == currentCarDataType) {
        return;
      }
      currentCarData := Find(carDatas, currentCarDataType);
    }

    /** A switch to the current state is ignored; any other switch is passed to the state machine once. */
    method ChangeCarState(stateToChangeCarInto: CarStates)
      modifies this
      ensures currentCarState == stateToChangeCarInto
      ensures setStateCalls == if stateToChangeCarInto == old(currentCarState) then old(setStateCalls)
                               else old(setStateCalls) + [stateToChangeCarInto]
      ensures currentCarData == old(currentCarData) && carDatas == old(carDatas)
      ensures currentCarDataType == old(currentCarDataType)
      ensures carSpeed == old(carSpeed) && carForwardVector == old(carForwardVector)
    {
      if stateToChangeCarInto == currentCarState {
        return;
      }
      setStateCalls := setStateCalls + [stateToChangeCarInto];
      currentCarState := stateToChangeCarInto;
    }

    /** The axle that receives drive torque: the front one for front-wheel drive, the back one otherwise. */
    ghost function DrivenAxle(): seq<Tyre>
      requires currentCarData.Some?
      reads this
    {
      if currentCarData.value.carDriveType == FrontWheelDrive then frontTyres else backTyres
    }

    /** The forces one AccelerateCar call adds: a torque pass over the driven axle at the car's speed. */
    ghost function AccelerateForces(isForward: bool, accelerationMultiplier: real): seq<ForceCommand>
      requires Valid() && currentCarData.Some?
      reads this, frontTyres, backTyres
    {
      AxleTorque(Contacts(DrivenAxle()), isForward, carSpeed, accelerationMultiplier)
    }

    /** The forces one ApplyBrakes call adds: a brake pass over the front axle, then one over the back axle. */
    ghost function BrakeForces(brakeMultiplier: real, fixedDeltaTime: real): seq<ForceCommand>
      requires currentCarData.Some? && fixedDeltaTime > 0.0
      reads this, frontTyres, backTyres
    {
      AxleBrake(Contacts(frontTyres), currentCarData.value.frontWheelBrakeFactor * brakeMultiplier, fixedDeltaTime)
        + AxleBrake(Contacts(backTyres), currentCarData.value.backWheelBrakeFactor * brakeMultiplier, fixedDeltaTime)
    }

    /** The forces a driving state's command adds, with the default multipliers of one. */
    ghost function CommandForces(command: DriveCommand, fixedDeltaTime: real): seq<ForceCommand>
      requires Valid() && currentCarData.Some? && fixedDeltaTime > 0.0
      reads this, frontTyres, backTyres
    {
      match command
      case Accelerate(isForward) => AccelerateForces(isForward, 1.0)
      case Brake => BrakeForces(1.0, fixedDeltaTime)
      case NoCommand => []
    }

    /** The forces the current state's physics step adds, before the controller's passive brake. */
    ghost function StateStepForces(fixedDeltaTime: real): seq<ForceCommand>
      requires Valid() && currentCarData.Some? && fixedDeltaTime > 0.0
      reads this, frontTyres, backTyres, playerDrivingState, botDrivingCarState
    {
      match currentCarState
      case Init => []
      case PlayerDriving =>
        CommandForces(ThrottleDecision(playerDrivingState.verticalAxisInput, playerDrivingState.carSpeed,
                                       currentCarData.value.maxCarSpeed), fixedDeltaTime)
      case BotDriving => if botDrivingCarState.botDrivingEnabled then AccelerateForces(true, 1.0) else []
    }

    /** Drive torque on every tyre of the driven axle, in order, with one direction, speed and multiplier. */
    method AccelerateCar(isForward: bool, accelerationMultiplier: real)
      requires Valid() && currentCarData.Some?
      modifies body
      ensures body.log == old(body.log) + old(AccelerateForces(isForward, accelerationMultiplier))
      ensures Contacts(frontTyres) == old(Contacts(frontTyres)) && Contacts(backTyres) == old(Contacts(backTyres))
    {
      if currentCarData.value.carDriveType == FrontWheelDrive {
        TorqueAxle(frontTyres, body, isForward, carSpeed, accelerationMultiplier);
      } else {
        TorqueAxle(backTyres, body, isForward, carSpeed, accelerationMultiplier);
      }
      ContactsFrame(frontTyres);
      ContactsFrame(backTyres);
    }

    /** Brakes every front tyre with the front factor and every back tyre with the back factor, whatever the drive. */
    method ApplyBrakes(brakeMultiplier: real, fixedDeltaTime: real)
      requires Valid() && currentCarData.Some? && fixedDeltaTime > 0.0
      modifies body
      ensures body.log == old(body.log) + old(BrakeForces(brakeMultiplier, fixedDeltaTime))
    {
      var frontFactor := currentCarData.value.frontWheelBrakeFactor * brakeMultiplier;
      var backFactor := currentCarData.value.backWheelBrakeFactor * brakeMultiplier;
      ghost var front := Contacts(frontTyres);
      ghost var back := Contacts(backTyres);
      assert BrakeForces(brakeMultiplier, fixedDeltaTime)
             == AxleBrake(front, frontFactor, fixedDeltaTime) + AxleBrake(back, backFactor, fixedDeltaTime);
      BrakeAxle(frontTyres, body, frontFactor, fixedDeltaTime);
      assert Contacts(backTyres) == back;
      BrakeAxle(backTyres, body, backFactor, fixedDeltaTime);
      AppendAssociative(old(body.log), AxleBrake(front, frontFactor, fixedDeltaTime), AxleBrake(back, backFactor, fixedDeltaTime));
    }

    /**
     * Update (one frame): the current state's frame step, then the car speed along the
     * car's forward axis. The frame's inputs (input axes, frame time, the car's pose and
     * velocity, the engine's float comparison and signed angle) are parameters.
     */
    method Update(verticalInput: real, horizontalInput: real, deltaTime: real, carPosition: Vec3, carForward: Vec3,
                  velocity: Vec3, approximately: (real, real) -> bool, signedAngle: (Vec3, Vec3) -> real)
      requires Valid()
      requires currentCarState == PlayerDriving ==> currentCarData.Some?
      requires currentCarState == BotDriving && botDrivingCarState.botDrivingEnabled && isBotDriving ==>
                 currentCarData.Some? && botDrivingCarState.spline.Some?
      modifies this, playerDrivingState, botDrivingCarState, TransformsOf(frontTyres)
      ensures carForwardVector == carForward && carSpeed == Dot(carForward, velocity)
      ensures currentCarState == old(currentCarState) && currentCarData == old(currentCarData)
      ensures setStateCalls == old(setStateCalls)
      ensures old(currentCarState) != PlayerDriving ==> unchanged(playerDrivingState) && unchanged(TransformsOf(frontTyres))
      ensures old(currentCarState) != BotDriving ==> unchanged(botDrivingCarState)
      ensures carDatas == old(carDatas) && currentCarDataType == old(currentCarDataType)
      ensures old(currentCarState) == PlayerDriving ==>
                playerDrivingState.verticalAxisInput == verticalInput &&
                playerDrivingState.horizontalAxisInput == horizontalInput &&
                playerDrivingState.carSpeed == old(playerDrivingState.carSpeed) &&
                playerDrivingState.initialTyreRotation == old(playerDrivingState.initialTyreRotation) &&
                playerDrivingState.wheelTurnAngle
                == old(playerDrivingState.wheelTurnAngle).(y := PlayerYawAfter(
                     old(playerDrivingState.wheelTurnAngle).y, currentCarData.value.maxTyreRotation,
                     currentCarData.value.wheelRotationSpeed, horizontalInput, playerDrivingState.initialTyreRotation,
                     deltaTime, approximately, |frontTyres|))
      ensures old(currentCarState) == PlayerDriving ==>
                forall i :: 0 <= i < |frontTyres| && LastWithTransform(frontTyres, i, |frontTyres|) ==>
                  frontTyres[i].transform.localEulerAngles
                  == old(playerDrivingState.wheelTurnAngle).(y := PlayerYawAfter(
                       old(playerDrivingState.wheelTurnAngle).y, currentCarData.value.maxTyreRotation,
                       currentCarData.value.wheelRotationSpeed, horizontalInput, playerDrivingState.initialTyreRotation,
                       deltaTime, approximately, i + 1))
      ensures old(currentCarState) == BotDriving && (!old(botDrivingCarState.botDrivingEnabled) || !isBotDriving) ==>
                unchanged(botDrivingCarState)
      ensures old(currentCarState) == BotDriving && old(botDrivingCarState.botDrivingEnabled) && isBotDriving ==>
                var bot := botDrivingCarState;
                bot.targetPosition == bot.spline.value.evaluatePosition(old(bot.currentSplinePoint)) &&
                bot.vectorToTarget == Planar(Sub(bot.targetPosition, carPosition)) &&
                bot.Progress() == PathStep(old(bot.Progress()), bot.splinePercentageIncrement, bot.spline.value.isClosed,
                                           !MagnitudeExceeds(bot.vectorToTarget, pointCheckDistance)) &&
                bot.tyreRotateAngle == BotSteeringTarget(signedAngle(bot.carMoveDirection, bot.vectorToTarget),
                                                         currentCarData.value.maxTyreRotation, bot.initialTyreRotation) &&
                bot.carMoveDirection == old(bot.carMoveDirection) && bot.wheelTurnAngle == old(bot.wheelTurnAngle)
    {
      if currentCarState == PlayerDriving {
        playerDrivingState.OnUpdate(this, verticalInput, horizontalInput, deltaTime, approximately);
      } else if currentCarState == BotDriving {
        botDrivingCarState.OnUpdate(this, carPosition, signedAngle);
      }
      carForwardVector := carForward;
      carSpeed := Dot(carForwardVector, velocity);
    }

    /**
     * The state machine's physics step: the current state's OnFixedUpdate, if any. It only
     * adds forces and touches the bot state, so the tyres and the tuning record stay as they were.
     */
    method StateFixedUpdate(fixedDeltaTime: real, carForward: Vec3)
      requires Valid() && currentCarData.Some? && fixedDeltaTime > 0.0
      modifies botDrivingCarState, body
      ensures body.log == old(body.log) + old(StateStepForces(fixedDeltaTime))
      ensures Contacts(frontTyres) == old(Contacts(frontTyres)) && Contacts(backTyres) == old(Contacts(backTyres))
      ensures botDrivingCarState.Progress() == old(botDrivingCarState.Progress())
      ensures currentCarState == BotDriving && old(botDrivingCarState.botDrivingEnabled) ==>
                botDrivingCarState.carMoveDirection == carForward
      ensures botDrivingCarState.targetPosition == old(botDrivingCarState.targetPosition)
      ensures botDrivingCarState.vectorToTarget == old(botDrivingCarState.vectorToTarget)
      ensures botDrivingCarState.tyreRotateAngle == old(botDrivingCarState.tyreRotateAngle)
      ensures botDrivingCarState.wheelTurnAngle == old(botDrivingCarState.wheelTurnAngle)
      ensures currentCarState != BotDriving || !old(botDrivingCarState.botDrivingEnabled) ==>
                unchanged(botDrivingCarState)
    {
      if currentCarState == PlayerDriving {
        playerDrivingState.OnFixedUpdate(this, fixedDeltaTime);
      } else if currentCarState == BotDriving {
        botDrivingCarState.OnFixedUpdate(this, carForward);
      }
      ContactsFrame(frontTyres);
      ContactsFrame(backTyres);
    }

    /** FixedUpdate (one physics step): the current state's physics step, then the passive brake. */
    method FixedUpdate(fixedDeltaTime: real, carForward: Vec3)
      requires Valid() && currentCarData.Some? && fixedDeltaTime > 0.0
      modifies botDrivingCarState, body
      ensures body.log == old(body.log) + old(StateStepForces(fixedDeltaTime))
                          + old(BrakeForces(currentCarData.value.staticBraceValue, fixedDeltaTime))
      ensures botDrivingCarState.Progress() == old(botDrivingCarState.Progress())
      ensures currentCarState == BotDriving && old(botDrivingCarState.botDrivingEnabled) ==>
                botDrivingCarState.carMoveDirection == carForward
      ensures botDrivingCarState.targetPosition == old(botDrivingCarState.targetPosition)
      ensures botDrivingCarState.vectorToTarget == old(botDrivingCarState.vectorToTarget)
      ensures botDrivingCarState.tyreRotateAngle == old(botDrivingCarState.tyreRotateAngle)
      ensures botDrivingCarState.wheelTurnAngle == old(botDrivingCarState.wheelTurnAngle)
      ensures currentCarState != BotDriving || !old(botDrivingCarState.botDrivingEnabled) ==>
                unchanged(botDrivingCarState)
    {
      StateFixedUpdate(fixedDeltaTime, carForward);
      ApplyBrakes(currentCarData.value.staticBraceValue, fixedDeltaTime);
    }
  }

  // ---------------------------------------------------------------- controller properties

  /**
   * AccelerateCar drives exactly the grounded tyres of the driven axle, one command each,
   * in axle order, all with the caller's direction and multiplier and the car's speed;
   * when the axles share no tyre identity, no tyre of the other axle is touched.
   */
  lemma AccelerationRouting(car: CarController, isForward: bool, accelerationMultiplier: real)
    requires car.Valid() && car.currentCarData.Some?
    ensures var axle := Contacts(car.DrivenAxle());
            |car.AccelerateForces(isForward, accelerationMultiplier)| == |Grounded(axle)| &&
            forall k :: 0 <= k < |Grounded(axle)| ==>
              car.AccelerateForces(isForward, accelerationMultiplier)[k]
              == TorqueCommand(Grounded(axle)[k], isForward, car.carSpeed, accelerationMultiplier)
    ensures (forall i, j :: 0 <= i < |car.frontTyres| && 0 <= j < |car.backTyres| ==> car.frontTyres[i].id != car.backTyres[j].id) ==>
              forall k, j :: 0 <= k < |car.AccelerateForces(isForward, accelerationMultiplier)| && 0 <= j < |car.backTyres| &&
                             car.currentCarData.value.carDriveType == FrontWheelDrive ==>
                car.AccelerateForces(isForward, accelerationMultiplier)[k].tyre != car.backTyres[j].id
  {
    var axle := Contacts(car.DrivenAxle());
    AxleTorqueIsGroundedTorque(axle, isForward, car.carSpeed, accelerationMultiplier);
    GroundedIsFilter(axle);
    forall k | 0 <= k < |Grounded(axle)|
      ensures exists i :: 0 <= i < |car.DrivenAxle()| && Grounded(axle)[k].id == car.DrivenAxle()[i].id
    {
      var c := Grounded(axle)[k];
      assert c in axle;
      var i :| 0 <= i < |axle| && axle[i] == c;
      ContactAt(car.DrivenAxle(), i);
      assert c.id == car.DrivenAxle()[i].id;
    }
  }

  /**
   * ApplyBrakes reaches both axles whatever the drive: one brake command per grounded
   * front tyre with the front factor, then one per grounded back tyre with the back factor.
   */
  lemma BrakesReachBothAxles(car: CarController, brakeMultiplier: real, fixedDeltaTime: real)
    requires car.currentCarData.Some? && fixedDeltaTime > 0.0
    ensures car.BrakeForces(brakeMultiplier, fixedDeltaTime)
            == BrakeCommands(Grounded(Contacts(car.frontTyres)),
                             car.currentCarData.value.frontWheelBrakeFactor * brakeMultiplier, fixedDeltaTime)
               + BrakeCommands(Grounded(Contacts(car.backTyres)),
                               car.currentCarData.value.backWheelBrakeFactor * brakeMultiplier, fixedDeltaTime)
  {
    var frontFactor := car.currentCarData.value.frontWheelBrakeFactor * brakeMultiplier;
    var backFactor := car.currentCarData.value.backWheelBrakeFactor * brakeMultiplier;
    assert car.BrakeForces(brakeMultiplier, fixedDeltaTime)
           == AxleBrake(Contacts(car.frontTyres), frontFactor, fixedDeltaTime)
              + AxleBrake(Contacts(car.backTyres), backFactor, fixedDeltaTime);
    BothAxlesBrake(Contacts(car.frontTyres), Contacts(car.backTyres), frontFactor, backFactor, fixedDeltaTime);
    assert frontFactor == car.currentCarData.value.frontWheelBrakeFactor * brakeMultiplier;
    assert backFactor == car.currentCarData.value.backWheelBrakeFactor * brakeMultiplier;
  }

  /**
   * Because the player state's speed is never written, its physics step never brakes:
   * it reverses whenever the player pulls back, even at full forward speed.
   */
  lemma PlayerStepNeverBrakes(car: CarController, fixedDeltaTime: real)
    requires car.Valid() && car.currentCarData.Some? && fixedDeltaTime > 0.0
    requires car.currentCarState == PlayerDriving && car.playerDrivingState.carSpeed == 0.0
    ensures car.playerDrivingState.verticalAxisInput < 0.0 ==>
              car.StateStepForces(fixedDeltaTime) == car.AccelerateForces(false, 1.0)
    ensures car.playerDrivingState.verticalAxisInput > 0.0 && car.currentCarData.value.maxCarSpeed > 0.0 ==>
              car.StateStepForces(fixedDeltaTime) == car.AccelerateForces(true, 1.0)
    ensures car.playerDrivingState.verticalAxisInput == 0.0 ==> car.StateStepForces(fixedDeltaTime) == []
  {
    StaleSpeedDecision(car.playerDrivingState.verticalAxisInput, car.currentCarData.value.maxCarSpeed);
  }

  // ---------------------------------------------------------------- player driving

  class PlayerDrivingCarState {
    const frontTyres: seq<Tyre>
    var verticalAxisInput: real
    var horizontalAxisInput: real
    /** The speed the throttle decision reads. No method writes it, so it keeps its initial zero. */
    var carSpeed: real
    /** The yaw shared by all front tyres, lerped toward the steering target. */
    var wheelTurnAngle: Vec3
    var initialTyreRotation: real

    constructor(frontTyres: seq<Tyre>)
      ensures this.frontTyres == frontTyres
      ensures verticalAxisInput == 0.0 && horizontalAxisInput == 0.0
      ensures wheelTurnAngle == Zero && initialTyreRotation == 0.0 && carSpeed == 0.0
    {
      this.frontTyres := frontTyres;
      carSpeed := 0.0;
      verticalAxisInput := 0.0;
      horizontalAxisInput := 0.0;
      wheelTurnAngle := Zero;
      initialTyreRotation := 0.0;
    }

    /** OnEnter: the baseline yaw is the first front tyre's current local yaw. */
    method OnEnter()
      requires |frontTyres| > 0
      modifies this
      ensures wheelTurnAngle == frontTyres[0].transform.localEulerAngles
      ensures initialTyreRotation == frontTyres[0].transform.localEulerAngles.y
      ensures verticalAxisInput == old(verticalAxisInput) && horizontalAxisInput == old(horizontalAxisInput)
      ensures carSpeed == old(carSpeed)
    {
      wheelTurnAngle := frontTyres[0].transform.localEulerAngles;
      initialTyreRotation := wheelTurnAngle.y;
    }

    /** OnUpdate: take this frame's input axes, then steer the front tyres. */
    method OnUpdate(car: CarController, verticalInput: real, horizontalInput: real, deltaTime: real,
                    approximately: (real, real) -> bool)
      requires car.currentCarData.Some?
      modifies this, TransformsOf(frontTyres)
      ensures verticalAxisInput == verticalInput && horizontalAxisInput == horizontalInput
      ensures carSpeed == old(carSpeed) && initialTyreRotation == old(initialTyreRotation)
      ensures wheelTurnAngle
              == old(wheelTurnAngle).(y := PlayerYawAfter(old(wheelTurnAngle).y, car.currentCarData.value.maxTyreRotation,
                                                          car.currentCarData.value.wheelRotationSpeed, horizontalInput,
                                                          initialTyreRotation, deltaTime, approximately, |frontTyres|))
      ensures forall i :: 0 <= i < |frontTyres| && LastWithTransform(frontTyres, i, |frontTyres|) ==>
                frontTyres[i].transform.localEulerAngles
                == old(wheelTurnAngle).(y := PlayerYawAfter(old(wheelTurnAngle).y, car.currentCarData.value.maxTyreRotation,
                                                            car.currentCarData.value.wheelRotationSpeed, horizontalInput,
                                                            initialTyreRotation, deltaTime, approximately, i + 1))
    {
      verticalAxisInput := verticalInput;
      horizontalAxisInput := horizontalInput;
      RotateTires(car, deltaTime, approximately);
    }

    /**
     * RotateTires: one shared yaw is lerped toward the steering target once per front
     * tyre, and each tyre takes the yaw as it stands after its own step, so the i-th
     * tyre (from zero) receives the (i + 1)-th iterate.
     */
    method RotateTires(car: CarController, deltaTime: real, approximately: (real, real) -> bool)
      requires car.currentCarData.Some?
      modifies this, TransformsOf(frontTyres)
      ensures verticalAxisInput == old(verticalAxisInput) && horizontalAxisInput == old(horizontalAxisInput)
      ensures carSpeed == old(carSpeed) && initialTyreRotation == old(initialTyreRotation)
      ensures wheelTurnAngle
              == old(wheelTurnAngle).(y := PlayerYawAfter(old(wheelTurnAngle).y, car.currentCarData.value.maxTyreRotation,
                                                          car.currentCarData.value.wheelRotationSpeed, horizontalAxisInput,
                                                          initialTyreRotation, deltaTime, approximately, |frontTyres|))
      ensures forall i :: 0 <= i < |frontTyres| && LastWithTransform(frontTyres, i, |frontTyres|) ==>
                frontTyres[i].transform.localEulerAngles
                == old(wheelTurnAngle).(y := PlayerYawAfter(old(wheelTurnAngle).y, car.currentCarData.value.maxTyreRotation,
                                                            car.currentCarData.value.wheelRotationSpeed, horizontalAxisInput,
                                                            initialTyreRotation, deltaTime, approximately, i + 1))
    {
      var maxTyreRotation := car.currentCarData.value.maxTyreRotation;
      var wheelRotationSpeed := car.currentCarData.value.wheelRotationSpeed;
      ghost var baseSpeed := wheelRotationSpeed;
      if approximately(horizontalAxisInput, initialTyreRotation) {
        wheelRotationSpeed := wheelRotationSpeed * RotationBackToZeroMultiplier;
      }
      ghost var start, input, baseline := wheelTurnAngle, horizontalAxisInput, initialTyreRotation;
      for i := 0 to |frontTyres|
        invariant verticalAxisInput == old(verticalAxisInput) && horizontalAxisInput == input
        invariant initialTyreRotation == baseline && carSpeed == old(carSpeed)
        invariant wheelTurnAngle
                  == start.(y := PlayerYawAfter(start.y, maxTyreRotation, baseSpeed, input, baseline, deltaTime,
                                                approximately, i))
        invariant forall j :: 0 <= j < i && LastWithTransform(frontTyres, j, i) ==>
                    frontTyres[j].transform.localEulerAngles
                    == start.(y := PlayerYawAfter(start.y, maxTyreRotation, baseSpeed, input, baseline, deltaTime,
                                                  approximately, j + 1))
      {
        var yaw := Scalars.Lerp(wheelTurnAngle.y, maxTyreRotation * horizontalAxisInput + initialTyreRotation,
                                wheelRotationSpeed * deltaTime);
        assert yaw == PlayerYawAfter(start.y, maxTyreRotation, baseSpeed, input, baseline, deltaTime,
                                     approximately, i + 1) by {
          PlayerYawStep(start.y, maxTyreRotation, baseSpeed, input, baseline, deltaTime, approximately, i,
                        wheelRotationSpeed);
        }
        TurnTyre(frontTyres[i].transform, yaw);
        forall j | 0 <= j < i && LastWithTransform(frontTyres, j, i + 1)
          ensures frontTyres[j].transform != frontTyres[i].transform && LastWithTransform(frontTyres, j, i)
        {
          LastWithTransformPrefix(frontTyres, j, i);
        }
      }
    }

    /** One pass of RotateTires' loop: the shared yaw takes its next value and the tyre's transform copies it. */
    method TurnTyre(tyreTransform: Transform, yaw: real)
      modifies this, tyreTransform
      ensures wheelTurnAngle == old(wheelTurnAngle).(y := yaw) && tyreTransform.localEulerAngles == wheelTurnAngle
      ensures verticalAxisInput == old(verticalAxisInput) && horizontalAxisInput == old(horizontalAxisInput)
      ensures carSpeed == old(carSpeed) && initialTyreRotation == old(initialTyreRotation)
    {
      wheelTurnAngle := wheelTurnAngle.(y := yaw);
      tyreTransform.localEulerAngles := wheelTurnAngle;
    }

    /** OnFixedUpdate: issue this step's throttle command. */
    method OnFixedUpdate(car: CarController, fixedDeltaTime: real)
      requires car.Valid() && car.currentCarData.Some? && fixedDeltaTime > 0.0
      modifies car.body
      ensures car.body.log == old(car.body.log)
                + old(car.CommandForces(ThrottleDecision(verticalAxisInput, carSpeed, car.currentCarData.value.maxCarSpeed), fixedDeltaTime))
    {
      MoveCar(car, fixedDeltaTime);
    }

    /** MoveCar: at most one command per physics step, chosen by the throttle decision. */
    method MoveCar(car: CarController, fixedDeltaTime: real)
      requires car.Valid() && car.currentCarData.Some? && fixedDeltaTime > 0.0
      modifies car.body
      ensures car.body.log == old(car.body.log)
                + old(car.CommandForces(ThrottleDecision(verticalAxisInput, carSpeed, car.currentCarData.value.maxCarSpeed), fixedDeltaTime))
    {
      if verticalAxisInput > 0.0 {
        if carSpeed >= car.currentCarData.value.maxCarSpeed {
          return;
        }
        car.AccelerateCar(true, 1.0);
      } else if verticalAxisInput < 0.0 {
        if carSpeed > 0.0 {
          car.ApplyBrakes(1.0, fixedDeltaTime);
        } else {
          car.AccelerateCar(false, 1.0);
        }
      }
    }
  }

  // ---------------------------------------------------------------- bot driving

  class BotDrivingCarState {
    const frontTyres: seq<Tyre>
    const initialTyreRotation: real
    const spline: Option<Spline>
    const splinePercentageIncrement: real
    var tyreRotateAngle: real
    var wheelTurnAngle: Vec3
    var currentSplinePoint: real
    var targetPosition: Vec3
    var vectorToTarget: Vec3
    var carMoveDirection: Vec3
    var botDrivingEnabled: bool

    /** The bot's position along its path and whether it still drives. */
    ghost function Progress(): PathProgress
      reads this
    {
      PathProgress(currentSplinePoint, botDrivingEnabled)
    }

    /**
     * The baseline yaw is the first front tyre's local yaw. Without a spline nothing
     * else is set: the target stays at zero, the increment at zero, and the bot enabled.
     * With one, the first target lies one increment along it.
     */
    constructor(frontTyres: seq<Tyre>, spline: Option<Spline>, splinePercentageIncrement: real)
      requires |frontTyres| > 0
      ensures this.frontTyres == frontTyres && this.spline == spline
      ensures wheelTurnAngle == frontTyres[0].transform.localEulerAngles
      ensures initialTyreRotation == frontTyres[0].transform.localEulerAngles.y
      ensures botDrivingEnabled
      ensures tyreRotateAngle == 0.0 && targetPosition == Zero && vectorToTarget == Zero && carMoveDirection == Zero
      ensures spline.None? ==> currentSplinePoint == 0.0 && this.splinePercentageIncrement == 0.0
      ensures spline.Some? ==> currentSplinePoint == splinePercentageIncrement
                               && this.splinePercentageIncrement == splinePercentageIncrement
    {
      this.frontTyres := frontTyres;
      wheelTurnAngle := frontTyres[0].transform.localEulerAngles;
      initialTyreRotation := frontTyres[0].transform.localEulerAngles.y;
      botDrivingEnabled := true;
      tyreRotateAngle := 0.0;
      targetPosition := Zero;
      vectorToTarget := Zero;
      carMoveDirection := Zero;
      if spline.None? {
        this.spline := None;
        this.splinePercentageIncrement := 0.0;
        currentSplinePoint := 0.0;
      } else {
        this.spline := spline;
        this.splinePercentageIncrement := splinePercentageIncrement;
        currentSplinePoint := splinePercentageIncrement;
      }
    }

    /**
     * OnUpdate: a stopped bot, or a car not driven by the bot, does nothing; otherwise
     * check arrival at the current target and steer toward it.
     */
    method OnUpdate(car: CarController, carPosition: Vec3, signedAngle: (Vec3, Vec3) -> real)
      requires botDrivingEnabled && car.isBotDriving ==> car.currentCarData.Some? && spline.Some?
      modifies this
      ensures !old(botDrivingEnabled) || !car.isBotDriving ==> unchanged(this)
      ensures old(botDrivingEnabled) && car.isBotDriving ==>
                targetPosition == spline.value.evaluatePosition(old(currentSplinePoint)) &&
                vectorToTarget == Planar(Sub(targetPosition, carPosition)) &&
                Progress() == PathStep(old(Progress()), splinePercentageIncrement, spline.value.isClosed,
                                       !MagnitudeExceeds(vectorToTarget, car.pointCheckDistance)) &&
                tyreRotateAngle == BotSteeringTarget(signedAngle(carMoveDirection, vectorToTarget),
                                                     car.currentCarData.value.maxTyreRotation, initialTyreRotation)
      ensures carMoveDirection == old(carMoveDirection) && wheelTurnAngle == old(wheelTurnAngle)
    {
      if !botDrivingEnabled || !car.isBotDriving {
        return;
      }
      UpdatePointToReach(carPosition, car.pointCheckDistance);
      RotateCar(car, signedAngle);
    }

    /** OnFixedUpdate: while enabled, remember the car's forward axis and accelerate forwards, at any speed. */
    method OnFixedUpdate(car: CarController, carForward: Vec3)
      requires car.Valid() && car.currentCarData.Some?
      modifies this, car.body
      ensures !old(botDrivingEnabled) ==> unchanged(this) && car.body.log == old(car.body.log)
      ensures old(botDrivingEnabled) ==>
                carMoveDirection == carForward && car.body.log == old(car.body.log) + old(car.AccelerateForces(true, 1.0))
      ensures targetPosition == old(targetPosition) && vectorToTarget == old(vectorToTarget)
      ensures tyreRotateAngle == old(tyreRotateAngle) && wheelTurnAngle == old(wheelTurnAngle)
      ensures Progress() == old(Progress())
    {
      if !botDrivingEnabled {
        return;
      }
      carMoveDirection := carForward;
      car.AccelerateCar(true, 1.0);
    }

    /**
     * UpdatePointToReach: the planar vector to the target; when it is longer than the
     * arrival distance nothing else changes, otherwise the target advances.
     */
    method UpdatePointToReach(carPosition: Vec3, pointCheckDistance: real)
      requires spline.Some?
      modifies this
      ensures targetPosition == spline.value.evaluatePosition(old(currentSplinePoint))
      ensures vectorToTarget == Planar(Sub(targetPosition, carPosition))
      ensures MagnitudeExceeds(vectorToTarget, pointCheckDistance) ==> Progress() == old(Progress())
      ensures !MagnitudeExceeds(vectorToTarget, pointCheckDistance) ==>
                Progress() == Advance(old(Progress()), splinePercentageIncrement, spline.value.isClosed)
      ensures tyreRotateAngle == old(tyreRotateAngle) && carMoveDirection == old(carMoveDirection)
      ensures wheelTurnAngle == old(wheelTurnAngle)
    {
      targetPosition := spline.value.evaluatePosition(currentSplinePoint);
      vectorToTarget := Sub(targetPosition, carPosition);
      vectorToTarget := vectorToTarget.(y := 0.0);
      if MagnitudeExceeds(vectorToTarget, pointCheckDistance) {
        return;
      }
      currentSplinePoint := currentSplinePoint + splinePercentageIncrement;
      if currentSplinePoint < 1.0 {
        return;
      }
      if spline.value.isClosed {
        currentSplinePoint := 0.0;
      } else {
        botDrivingEnabled := false;
      }
    }

    /** RotateCar: the steering yaw toward the target, limited to the lock, about the baseline. */
    method RotateCar(car: CarController, signedAngle: (Vec3, Vec3) -> real)
      requires car.currentCarData.Some?
      modifies this
      ensures tyreRotateAngle == BotSteeringTarget(signedAngle(carMoveDirection, vectorToTarget),
                                                   car.currentCarData.value.maxTyreRotation, initialTyreRotation)
      ensures Progress() == old(Progress())
      ensures targetPosition == old(targetPosition) && vectorToTarget == old(vectorToTarget)
      ensures carMoveDirection == old(carMoveDirection) && wheelTurnAngle == old(wheelTurnAngle)
    {
      tyreRotateAngle := signedAngle(carMoveDirection, vectorToTarget);
      tyreRotateAngle := Scalars.Clamp(tyreRotateAngle, -car.currentCarData.value.maxTyreRotation,
                                       car.currentCarData.value.maxTyreRotation);
      tyreRotateAngle := tyreRotateAngle + initialTyreRotation;
    }
  }
}
