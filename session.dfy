/**
 * Session guard of the Jumping Sumo wrapper (`SumoWrapper` in sumopy_wrapper.py).
 *
 * The wrapper holds at most one controller of the external robot library. Every
 * command method first requires a live controller, then validates its
 * arguments, and only then appends one frame to the controller's outbound
 * command list; a refused call changes nothing.
 */
module Session {
  import opened Wrappers
  import opened Frames

  /** One call of the library's `move(speed, turn, duration)`. */
  datatype Motion = Motion(speed: real, turn: real, duration: real)

  /** Best-effort stop sent on disconnect: zero speed and turn for 0.1 s. */
  const StopMotion := Motion(0.0, 0.0, 0.1)

  const PercentLimit: real := 100.0
  const MinDuration: real := 0.025

  predicate InPercentRange(x: real) {
    -PercentLimit <= x <= PercentLimit
  }

  /** What the model observes of a library controller. */
  datatype ControllerState = ControllerState(
    connected: bool, commands: seq<Frame>, motions: seq<Motion>, storedPhotos: nat)

  /** A freshly handshaken controller: live, nothing sent yet. */
  const FreshController := ControllerState(true, [], [], 0)

  /** The state after appending one frame to the outbound list. */
  function Queued(s: ControllerState, f: Frame): (t: ControllerState)
    ensures |t.commands| == |s.commands| + 1 && t.commands[|s.commands|] == f
    ensures t.commands[..|s.commands|] == s.commands
    ensures t.connected == s.connected && t.motions == s.motions && t.storedPhotos == s.storedPhotos
  {
    s.(commands := s.commands + [f])
  }

  /** Why the wrapper raised `ValueError`. */
  datatype Fault =
    | NotConnected
    | SpeedOutOfRange
    | TurnOutOfRange
    | DurationTooShort
    | UnknownJumpType
    | UnknownPosture
    | UnknownAnimation

  datatype Outcome = Done | Refused(fault: Fault)

  /**
   * Stand-in for the library's `SumoController`: only the parts the wrapper
   * touches. `connected` is maintained by the library's own link handling.
   */
  class SumoController {
    var connected: bool
    /** The outbound command list `_commands`. */
    var commands: seq<Frame>
    /** The `move` calls made on this controller, oldest first. */
    var motions: seq<Motion>
    /** Number of `store_pic` calls. */
    var storedPhotos: nat

    function State(): ControllerState
      reads this
    {
      ControllerState(connected, commands, motions, storedPhotos)
    }

    /** A successful handshake with the robot. */
    constructor ()
      ensures State() == FreshController
    {
      connected, commands, motions, storedPhotos := true, [], [], 0;
    }

    method Move(speed: real, turn: real, duration: real)
      modifies this
      ensures State() == old(State()).(motions := old(motions) + [Motion(speed, turn, duration)])
    {
      motions := motions + [Motion(speed, turn, duration)];
    }

    method StorePic()
      modifies this
      ensures State() == old(State()).(storedPhotos := old(storedPhotos) + 1)
    {
      storedPhotos := storedPhotos + 1;
    }
  }

  class SumoWrapper {
    var controller: SumoController?

    /** The observable session: None when there is no controller. */
    function View(): Option<ControllerState>
      reads this, controller
    {
      if controller == null then None else Some(controller.State())
    }

    /** `__init__`: try to connect; `linkUp` is whether the library's handshake succeeds. */
    constructor (linkUp: bool)
      ensures linkUp ==> controller != null && fresh(controller) && View() == Some(FreshController)
      ensures !linkUp ==> controller == null
    {
      controller := null;
      new;
      Connect(linkUp);
    }

    /** `_connect`: a timeout or any other failure leaves no controller. */
    method Connect(linkUp: bool)
      modifies this
      ensures linkUp ==> controller != null && fresh(controller) && View() == Some(FreshController)
      ensures !linkUp ==> controller == null
    {
      if linkUp {
        controller := new SumoController();
      } else {
        controller := null;
      }
    }

    function IsConnected(): (r: bool)
      reads this, controller
      ensures controller == null ==> !r
      ensures r <==> View().Some? && View().value.connected
    {
      controller != null && controller.connected
    }

    /** `move`: a live controller, speed and turn within [-100, 100], at least 0.025 s. */
    method Move(speed: real, turn: real, duration: real) returns (r: Outcome)
      modifies controller
      ensures r == Done <==>
                old(IsConnected()) && InPercentRange(speed) && InPercentRange(turn) && duration >= MinDuration
      ensures !old(IsConnected()) ==> r == Refused(NotConnected)
      ensures old(IsConnected()) && !InPercentRange(speed) ==> r == Refused(SpeedOutOfRange)
      ensures old(IsConnected()) && InPercentRange(speed) && !InPercentRange(turn) ==> r == Refused(TurnOutOfRange)
      ensures old(IsConnected()) && InPercentRange(speed) && InPercentRange(turn) && duration < MinDuration ==>
                r == Refused(DurationTooShort)
      ensures r == Done ==>
                View() == Some(old(View()).value.(motions := old(View()).value.motions + [Motion(speed, turn, duration)]))
      ensures r != Done ==> View() == old(View())
    {
      if !IsConnected() {
        return Refused(NotConnected);
      }
      if !InPercentRange(speed) {
        return Refused(SpeedOutOfRange);
      }
      if !InPercentRange(turn) {
        return Refused(TurnOutOfRange);
      }
      if duration < MinDuration {
        return Refused(DurationTooShort);
      }
      controller.Move(speed, turn, duration);
      r := Done;
    }

    /** `get_camera_frame`: `picture` is what the library's `get_pic` yields (None if it failed). */
    method GetCameraFrame(picture: Option<seq<Byte>>) returns (r: Outcome, frame: Option<seq<Byte>>)
      ensures r == Done <==> IsConnected()
      ensures r != Done ==> r == Refused(NotConnected) && frame == None
      ensures r == Done ==> frame == picture
    {
      if !IsConnected() {
        return Refused(NotConnected), None;
      }
      r, frame := Done, picture;
    }

    /** `capture_photo`: asks the robot to store a photo on its own storage. */
    method CapturePhoto() returns (r: Outcome)
      modifies controller
      ensures r == Done <==> old(IsConnected())
      ensures r != Done ==> r == Refused(NotConnected) && View() == old(View())
      ensures r == Done ==>
                View() == Some(old(View()).value.(storedPhotos := old(View()).value.storedPhotos + 1))
    {
      if !IsConnected() {
        return Refused(NotConnected);
      }
      controller.StorePic();
      r := Done;
    }

    /** `jump`: 'long' or 'high', sent as Animations/Jump with a u32 enum. */
    method Jump(jumpType: string) returns (r: Outcome)
      modifies controller
      ensures !old(IsConnected()) ==> r == Refused(NotConnected)
      ensures old(IsConnected()) && jumpType !in JumpTypes ==> r == Refused(UnknownJumpType)
      ensures r == Done <==> old(IsConnected()) && jumpType in JumpTypes
      ensures r == Done ==> View() == Some(Queued(old(View()).value, Encode(Command.Jump(JumpValue(jumpType).value))))
      ensures r != Done ==> View() == old(View())
    {
      if !IsConnected() {
        return Refused(NotConnected);
      }
      var value := JumpValue(jumpType);
      if value.None? {
        return Refused(UnknownJumpType);
      }
      // ACK, command channel, Jumping Sumo project, Animations class, Jump offset
      var cmd := FabCmd(4, 11, 3, 2, 3, PackU32(value.value));
      controller.commands := controller.commands + [cmd];
      r := Done;
    }

    /** `load_jump`: Animations/JumpLoad, no arguments. */
    method LoadJump() returns (r: Outcome)
      modifies controller
      ensures r == Done <==> old(IsConnected())
      ensures r != Done ==> r == Refused(NotConnected) && View() == old(View())
      ensures r == Done ==> View() == Some(Queued(old(View()).value, Encode(JumpLoad)))
    {
      if !IsConnected() {
        return Refused(NotConnected);
      }
      var cmd := FabCmd(4, 11, 3, 2, 2, []);
      controller.commands := controller.commands + [cmd];
      r := Done;
    }

    /** `cancel_jump`: Animations/JumpCancel, no arguments. */
    method CancelJump() returns (r: Outcome)
      modifies controller
      ensures r == Done <==> old(IsConnected())
      ensures r != Done ==> r == Refused(NotConnected) && View() == old(View())
      ensures r == Done ==> View() == Some(Queued(old(View()).value, Encode(JumpCancel)))
    {
      if !IsConnected() {
        return Refused(NotConnected);
      }
      var cmd := FabCmd(4, 11, 3, 2, 1, []);
      controller.commands := controller.commands + [cmd];
      r := Done;
    }

    /** `stop_jump`: Animations/JumpStop, no arguments. */
    method StopJump() returns (r: Outcome)
      modifies controller
      ensures r == Done <==> old(IsConnected())
      ensures r != Done ==> r == Refused(NotConnected) && View() == old(View())
      ensures r == Done ==> View() == Some(Queued(old(View()).value, Encode(JumpStop)))
    {
      if !IsConnected() {
        return Refused(NotConnected);
      }
      var cmd := FabCmd(4, 11, 3, 2, 0, []);
      controller.commands := controller.commands + [cmd];
      r := Done;
    }

    /** `change_posture`: standing, jumper or kicker, sent as Piloting/Posture with a u32 enum. */
    method ChangePosture(postureType: string) returns (r: Outcome)
      modifies controller
      ensures !old(IsConnected()) ==> r == Refused(NotConnected)
      ensures old(IsConnected()) && postureType !in PostureTypes ==> r == Refused(UnknownPosture)
      ensures r == Done <==> old(IsConnected()) && postureType in PostureTypes
      ensures r == Done ==>
                View() == Some(Queued(old(View()).value, Encode(Posture(PostureValue(postureType).value))))
      ensures r != Done ==> View() == old(View())
    {
      if !IsConnected() {
        return Refused(NotConnected);
      }
      var value := PostureValue(postureType);
      if value.None? {
        return Refused(UnknownPosture);
      }
      // ACK, piloting channel, Jumping Sumo project, Piloting class, Posture offset
      var cmd := FabCmd(4, 10, 3, 0, 1, PackU32(value.value));
      controller.commands := controller.commands + [cmd];
      r := Done;
    }

    /** `play_animation`: one of the ten simple animations, sent as Animations/SimpleAnimation. */
    method PlayAnimation(animationName: string) returns (r: Outcome)
      modifies controller
      ensures !old(IsConnected()) ==> r == Refused(NotConnected)
      ensures old(IsConnected()) && animationName !in Animations ==> r == Refused(UnknownAnimation)
      ensures r == Done <==> old(IsConnected()) && animationName in Animations
      ensures r == Done ==>
                View() == Some(Queued(old(View()).value, Encode(SimpleAnimation(AnimationValue(animationName).value))))
      ensures r != Done ==> View() == old(View())
    {
      if !IsConnected() {
        return Refused(NotConnected);
      }
      var value := AnimationValue(animationName);
      if value.None? {
        return Refused(UnknownAnimation);
      }
      // ACK, command channel, Jumping Sumo project, Animations class, SimpleAnimation offset
      var cmd := FabCmd(4, 11, 3, 2, 4, PackU32(value.value));
      controller.commands := controller.commands + [cmd];
      r := Done;
    }

    /**
     * `disconnect`: send a best-effort stop, then drop the controller.
     * With no controller it does nothing.
     */
    method Disconnect()
      modifies this, controller
      ensures controller == null
      ensures old(controller) == null ==> unchanged(this)
      ensures old(controller) != null ==>
                old(controller).State() == old(controller.State()).(motions := old(controller.motions) + [StopMotion])
    {
      if controller != null {
        controller.Move(0.0, 0.0, 0.1);
        controller := null;
      }
    }
  }
}
