/**
 * Tool dispatcher of the MCP server (`call_tool` in server.py).
 *
 * One process-wide optional session (`robot`). Connecting tears down any
 * previous session first; disconnecting is safe without a session; the
 * status query changes nothing; every other tool needs a live session.
 * Omitted arguments get defaults, and every exception raised beneath the
 * dispatcher becomes an error result.
 */
module Server {
  import opened Wrappers
  import opened Frames
  import opened Session

  /** A JSON argument value as the host protocol hands it over. */
  datatype Arg = Text(s: string) | Number(x: real) | Flag(b: bool) | Null | Composite

  /**
   * The value Python compares against an int: numbers as they are, booleans
   * as 0 and 1. None where the comparison raises TypeError.
   */
  function NumericValue(a: Arg): (r: Option<real>)
    ensures r.Some? <==> a.Number? || a.Flag?
    ensures a.Number? ==> r == Some(a.x)
  {
    match a
    case Number(x) => Some(x)
    case Flag(b) => Some(if b then 1.0 else 0.0)
    case _ => None
  }

  /** `arguments.get(key, default)`. */
  function Param(args: map<string, Arg>, key: string, default: Arg): (a: Arg)
    ensures key in args ==> a == args[key]
    ensures key !in args ==> a == default
  {
    if key in args then args[key] else default
  }

  /** The tools the server declares. */
  datatype Tool =
    | ConnectRobot
    | DisconnectRobot
    | GetConnectionStatus
    | MoveRobot
    | GetCameraFrame
    | CapturePhoto
    | JumpRobot
    | LoadJump
    | CancelJump
    | StopJump
    | ChangePosture
    | PlayAnimation
  {
    /** Every tool but connect, disconnect and status needs a live session. */
    predicate NeedsSession() {
      !(ConnectRobot? || DisconnectRobot? || GetConnectionStatus?)
    }
  }

  /** The name a tool is called by. */
  function ToolName(t: Tool): (name: string) {
    match t
    case ConnectRobot => "connect_robot"
    case DisconnectRobot => "disconnect_robot"
    case GetConnectionStatus => "get_connection_status"
    case MoveRobot => "move_robot"
    case GetCameraFrame => "get_camera_frame"
    case CapturePhoto => "capture_photo"
    case JumpRobot => "jump_robot"
    case LoadJump => "load_jump"
    case CancelJump => "cancel_jump"
    case StopJump => "stop_jump"
    case ChangePosture => "change_posture"
    case PlayAnimation => "play_animation"
  }

  /** The branch of `call_tool` that a tool name selects; None for an unknown name. */
  function ToolNamed(name: string): (t: Option<Tool>)
    ensures t.Some? ==> ToolName(t.value) == name
    ensures t.None? ==> forall tool :: ToolName(tool) != name
  {
    if name == "connect_robot" then Some(ConnectRobot)
    else if name == "disconnect_robot" then Some(DisconnectRobot)
    else if name == "get_connection_status" then Some(GetConnectionStatus)
    else if name == "move_robot" then Some(MoveRobot)
    else if name == "get_camera_frame" then Some(GetCameraFrame)
    else if name == "capture_photo" then Some(CapturePhoto)
    else if name == "jump_robot" then Some(JumpRobot)
    else if name == "load_jump" then Some(LoadJump)
    else if name == "cancel_jump" then Some(CancelJump)
    else if name == "stop_jump" then Some(StopJump)
    else if name == "change_posture" then Some(ChangePosture)
    else if name == "play_animation" then Some(PlayAnimation)
    else None
  }

  /** Every declared tool is reached by its own name. */
  lemma ToolNamedName(t: Tool)
    ensures ToolNamed(ToolName(t)) == Some(t)
  {
  }

  /** Defaults for omitted arguments. */
  const DefaultTurn := Number(0.0)
  const DefaultDuration := Number(1.0)
  const DefaultJumpType := "long"
  const DefaultPosture := "standing"
  const DefaultAnimation := "spin"

  datatype Heading = Forward | Backward | NoMovement
  datatype Side = TurningRight | TurningLeft | Straight

  /** The `direction` of the move description. */
  function HeadingOf(speed: real): (h: Heading)
    ensures h == Forward <==> speed > 0.0
    ensures h == Backward <==> speed < 0.0
  {
    if speed > 0.0 then Forward else if speed < 0.0 then Backward else NoMovement
  }

  /** The `turn_desc` of the move description. */
  function SideOf(turn: real): (s: Side)
    ensures s == TurningRight <==> turn > 0.0
    ensures s == TurningLeft <==> turn < 0.0
  {
    if turn > 0.0 then TurningRight else if turn < 0.0 then TurningLeft else Straight
  }

  /** What a tool call returns, without its text. */
  datatype ToolResult =
    | Connected
    | ConnectFailed
    | Disconnected
    | NoConnectionActive
    | NoSession
    | Status(connected: bool)
    | RobotNotConnected
    | ConnectionLost
    | Moving(heading: Heading, side: Side, motion: Motion)
    | CameraFrame(jpeg: seq<Byte>)
    | NoFrameYet
    | PhotoStored
    | Jumping(long: bool)
    | SpringLoaded
    | JumpCancelled
    | JumpMotorStopped
    | PostureChanged(posture: string)
    | AnimationPlaying(animation: string)
    | UnknownTool
    | Failed

  /**
   * The arguments of `move_robot`: `speed` is required (a missing one raises
   * KeyError), `turn` and `duration` default to 0 and 1.0; None when one is
   * missing or cannot be compared as a number.
   */
  function MoveRequest(args: map<string, Arg>): (m: Option<Motion>)
    ensures m.Some? <==>
              "speed" in args && NumericValue(args["speed"]).Some?
              && NumericValue(Param(args, "turn", DefaultTurn)).Some?
              && NumericValue(Param(args, "duration", DefaultDuration)).Some?
    ensures m.Some? ==> Some(m.value.speed) == NumericValue(args["speed"])
    ensures m.Some? ==> Some(m.value.turn) == NumericValue(Param(args, "turn", DefaultTurn))
    ensures m.Some? ==> Some(m.value.duration) == NumericValue(Param(args, "duration", DefaultDuration))
    ensures m.Some? && "turn" !in args ==> m.value.turn == 0.0
    ensures m.Some? && "duration" !in args ==> m.value.duration == 1.0
  {
    if "speed" !in args then None
    else
      match (NumericValue(args["speed"]),
             NumericValue(Param(args, "turn", DefaultTurn)),
             NumericValue(Param(args, "duration", DefaultDuration)))
      case (Some(speed), Some(turn), Some(duration)) => Some(Motion(speed, turn, duration))
      case _ => None
  }

  /**
   * An enum-name argument with its default. None for a value that is not
   * text: the wrapper's membership test then fails or raises, an error either way.
   */
  function TextParam(args: map<string, Arg>, key: string, default: string): (r: Option<string>)
    ensures key !in args ==> r == Some(default)
    ensures key in args ==> (r.Some? <==> args[key].Text?)
    ensures key in args && args[key].Text? ==> r == Some(args[key].s)
  {
    match Param(args, key, Text(default))
    case Text(s) => Some(s)
    case _ => None
  }

  /** A tool's result together with the controller state it leaves behind. */
  datatype Reply = Reply(result: ToolResult, after: ControllerState)

  /**
   * Reference behaviour of a tool that needs a live session, on the state of
   * the session's controller: the result and the controller state after it.
   */
  function Guarded(tool: Tool, args: map<string, Arg>, picture: Option<seq<Byte>>, s: ControllerState)
    : (res: Reply)
    requires tool.NeedsSession()
    ensures res.result.Failed? ==> res.after == s
    ensures res.after.connected == s.connected
    ensures |s.commands| <= |res.after.commands| <= |s.commands| + 1
    ensures res.after.commands[..|s.commands|] == s.commands
    ensures |res.after.commands| == |s.commands| + 1 ==> Decode(res.after.commands[|s.commands|]).Some?
    ensures |s.motions| <= |res.after.motions| <= |s.motions| + 1
  {
    match tool
    case MoveRobot =>
      (match MoveRequest(args)
       case None => Reply(Failed, s)
       case Some(m) =>
         if InPercentRange(m.speed) && InPercentRange(m.turn) && m.duration >= MinDuration then
           Reply(Moving(HeadingOf(m.speed), SideOf(m.turn), m), s.(motions := s.motions + [m]))
         else Reply(Failed, s))
    case GetCameraFrame =>
      (if picture.None? then Reply(NoFrameYet, s) else Reply(CameraFrame(picture.value), s))
    case CapturePhoto =>
      Reply(PhotoStored, s.(storedPhotos := s.storedPhotos + 1))
    case JumpRobot =>
      var t := TextParam(args, "jump_type", DefaultJumpType);
      if t.Some? && JumpValue(t.value).Some? then
        DecodeEncode(Command.Jump(JumpValue(t.value).value));
        Reply(Jumping(t.value == "long"), Queued(s, Encode(Command.Jump(JumpValue(t.value).value))))
      else Reply(Failed, s)
    case LoadJump =>
      DecodeEncode(JumpLoad);
      Reply(SpringLoaded, Queued(s, Encode(JumpLoad)))
    case CancelJump =>
      DecodeEncode(JumpCancel);
      Reply(JumpCancelled, Queued(s, Encode(JumpCancel)))
    case StopJump =>
      DecodeEncode(JumpStop);
      Reply(JumpMotorStopped, Queued(s, Encode(JumpStop)))
    case ChangePosture =>
      var t := TextParam(args, "posture_type", DefaultPosture);
      if t.Some? && PostureValue(t.value).Some? then
        DecodeEncode(Posture(PostureValue(t.value).value));
        Reply(PostureChanged(t.value), Queued(s, Encode(Posture(PostureValue(t.value).value))))
      else Reply(Failed, s)
    case PlayAnimation =>
      var t := TextParam(args, "animation", DefaultAnimation);
      if t.Some? && AnimationValue(t.value).Some? then
        DecodeEncode(SimpleAnimation(AnimationValue(t.value).value));
        Reply(AnimationPlaying(t.value), Queued(s, Encode(SimpleAnimation(AnimationValue(t.value).value))))
      else Reply(Failed, s)
  }

  /** `move_robot` with well-typed arguments records exactly one `move` call when they are in range, and fails otherwise. */
  lemma GuardedMove(args: map<string, Arg>, picture: Option<seq<Byte>>, s: ControllerState, m: Motion)
    requires MoveRequest(args) == Some(m)
    ensures InPercentRange(m.speed) && InPercentRange(m.turn) && m.duration >= MinDuration ==>
              Guarded(MoveRobot, args, picture, s)
              == Reply(Moving(HeadingOf(m.speed), SideOf(m.turn), m), s.(motions := s.motions + [m]))
    ensures !(InPercentRange(m.speed) && InPercentRange(m.turn) && m.duration >= MinDuration) ==>
              Guarded(MoveRobot, args, picture, s) == Reply(Failed, s)
  {
  }

  /** `jump_robot` queues exactly its Jump frame for a known jump type and fails otherwise. */
  lemma GuardedJump(args: map<string, Arg>, picture: Option<seq<Byte>>, s: ControllerState, t: string)
    requires TextParam(args, "jump_type", DefaultJumpType) == Some(t)
    ensures t in JumpTypes ==>
              Guarded(JumpRobot, args, picture, s)
              == Reply(Jumping(t == "long"), Queued(s, Encode(Command.Jump(JumpValue(t).value))))
    ensures t !in JumpTypes ==> Guarded(JumpRobot, args, picture, s) == Reply(Failed, s)
  {
  }

  /** `play_animation` queues exactly its SimpleAnimation frame for a known name and fails otherwise. */
  lemma GuardedAnimation(args: map<string, Arg>, picture: Option<seq<Byte>>, s: ControllerState, t: string)
    requires TextParam(args, "animation", DefaultAnimation) == Some(t)
    ensures t in Animations ==>
              Guarded(PlayAnimation, args, picture, s)
              == Reply(AnimationPlaying(t), Queued(s, Encode(SimpleAnimation(AnimationValue(t).value))))
    ensures t !in Animations ==> Guarded(PlayAnimation, args, picture, s) == Reply(Failed, s)
  {
  }

  /** An omitted argument behaves exactly like its documented default. */
  lemma OmittedArgumentsDefault(args: map<string, Arg>, picture: Option<seq<Byte>>, s: ControllerState)
    ensures "turn" !in args ==> MoveRequest(args) == MoveRequest(args["turn" := DefaultTurn])
    ensures "duration" !in args ==> MoveRequest(args) == MoveRequest(args["duration" := DefaultDuration])
    ensures "jump_type" !in args ==>
              Guarded(JumpRobot, args, picture, s)
              == Guarded(JumpRobot, args["jump_type" := Text(DefaultJumpType)], picture, s)
    ensures "posture_type" !in args ==>
              Guarded(ChangePosture, args, picture, s)
              == Guarded(ChangePosture, args["posture_type" := Text(DefaultPosture)], picture, s)
    ensures "animation" !in args ==>
              Guarded(PlayAnimation, args, picture, s)
              == Guarded(PlayAnimation, args["animation" := Text(DefaultAnimation)], picture, s)
  {
  }

  /** Every frame in the outbound list denotes a command the robot understands. */
  predicate WellFormedQueue(s: ControllerState) {
    forall i :: 0 <= i < |s.commands| ==> Decode(s.commands[i]).Some?
  }

  /** A session tool keeps the outbound list well formed. */
  lemma GuardedKeepsQueue(tool: Tool, args: map<string, Arg>, picture: Option<seq<Byte>>, s: ControllerState)
    requires tool.NeedsSession() && WellFormedQueue(s)
    ensures WellFormedQueue(Guarded(tool, args, picture, s).after)
  {
  }

  /** One call of a session tool on a live session. */
  datatype Call = Call(tool: Tool, args: map<string, Arg>, picture: Option<seq<Byte>>)

  /** The results of a run of calls, in order, and the controller state after the last. */
  datatype Transcript = Transcript(results: seq<ToolResult>, after: ControllerState)

  /** A run of session-tool calls, each on the state the previous one left. */
  function RunCalls(calls: seq<Call>, s: ControllerState): (run: Transcript)
    requires forall i :: 0 <= i < |calls| ==> calls[i].tool.NeedsSession()
    decreases |calls|
  {
    if |calls| == 0 then Transcript([], s)
    else
      var step := Guarded(calls[0].tool, calls[0].args, calls[0].picture, s);
      var rest := RunCalls(calls[1..], step.after);
      Transcript([step.result] + rest.results, rest.after)
  }

  /**
   * Over any run of session-tool calls the wrapper never writes the link
   * flag, frames already queued are never rewritten, each call adds at most
   * one frame, and every frame in the list still denotes a command.
   */
  lemma {:induction false} RunKeepsQueue(calls: seq<Call>, s: ControllerState)
    requires forall i :: 0 <= i < |calls| ==> calls[i].tool.NeedsSession()
    requires WellFormedQueue(s)
    ensures |RunCalls(calls, s).results| == |calls|
    ensures RunCalls(calls, s).after.connected == s.connected
    ensures |s.commands| <= |RunCalls(calls, s).after.commands| <= |s.commands| + |calls|
    ensures RunCalls(calls, s).after.commands[..|s.commands|] == s.commands
    ensures WellFormedQueue(RunCalls(calls, s).after)
  {
    if |calls| > 0 {
      var step := Guarded(calls[0].tool, calls[0].args, calls[0].picture, s);
      GuardedKeepsQueue(calls[0].tool, calls[0].args, calls[0].picture, s);
      RunKeepsQueue(calls[1..], step.after);
      var u := RunCalls(calls[1..], step.after).after;
      assert u.commands[..|s.commands|] == u.commands[..|step.after.commands|][..|s.commands|];
    }
  }

  class ToolServer {
    /** The global `robot`. */
    var robot: SumoWrapper?
    /** Every session this server has torn down. */
    ghost var retired: set<SumoWrapper>

    /** At most one wrapper holds a controller: every torn-down one has dropped its own. */
    ghost predicate Valid()
      reads this, retired
    {
      (robot != null ==> robot !in retired)
      && forall w :: w in retired ==> w.controller == null
    }

    ghost function Footprint(): set<object>
      reads this, robot
    {
      if robot == null then {}
      else if robot.controller == null then {robot}
      else {robot, robot.controller}
    }

    constructor ()
      ensures Valid() && robot == null && retired == {}
    {
      robot := null;
      retired := {};
    }

    /** The tools that need a live session, once the guard has passed. */
    method RunGuarded(tool: Tool, args: map<string, Arg>, picture: Option<seq<Byte>>) returns (r: ToolResult)
      requires tool.NeedsSession()
      requires robot != null && robot.IsConnected()
      modifies robot.controller
      ensures robot.controller == old(robot.controller)
      ensures Reply(r, robot.View().value) == Guarded(tool, args, picture, old(robot.View().value))
    {
      match tool
      case MoveRobot =>
        var m := MoveRequest(args);
        if m.None? {
          return Failed;
        }
        var outcome := robot.Move(m.value.speed, m.value.turn, m.value.duration);
        r := if outcome.Done? then Moving(HeadingOf(m.value.speed), SideOf(m.value.turn), m.value) else Failed;
      case GetCameraFrame =>
        var outcome, frame := robot.GetCameraFrame(picture);
        r := if frame.None? then NoFrameYet else CameraFrame(frame.value);
      case CapturePhoto =>
        var outcome := robot.CapturePhoto();
        r := PhotoStored;
      case JumpRobot =>
        var jumpType := TextParam(args, "jump_type", DefaultJumpType);
        if jumpType.None? {
          return Failed;
        }
        var outcome := robot.Jump(jumpType.value);
        r := if outcome.Done? then Jumping(jumpType.value == "long") else Failed;
      case LoadJump =>
        var outcome := robot.LoadJump();
        r := SpringLoaded;
      case CancelJump =>
        var outcome := robot.CancelJump();
        r := JumpCancelled;
      case StopJump =>
        var outcome := robot.StopJump();
        r := JumpMotorStopped;
      case ChangePosture =>
        var postureType := TextParam(args, "posture_type", DefaultPosture);
        if postureType.None? {
          return Failed;
        }
        var outcome := robot.ChangePosture(postureType.value);
        r := if outcome.Done? then PostureChanged(postureType.value) else Failed;
      case PlayAnimation =>
        var animation := TextParam(args, "animation", DefaultAnimation);
        if animation.None? {
          return Failed;
        }
        var outcome := robot.PlayAnimation(animation.value);
        r := if outcome.Done? then AnimationPlaying(animation.value) else Failed;
    }

    /**
     * `call_tool`. `linkUp` is whether a connect attempt's handshake succeeds;
     * `picture` is what the library's camera retrieval yields.
     */
    method CallTool(name: string, args: map<string, Arg>, linkUp: bool, picture: Option<seq<Byte>>)
      returns (r: ToolResult)
      requires Valid()
      modifies this, Footprint()
      ensures Valid()
      // connect_robot and disconnect_robot tear down the previous session
      ensures ToolNamed(name) == Some(ConnectRobot) || ToolNamed(name) == Some(DisconnectRobot) ==>
                retired == old(retired) + (if old(robot) == null then {} else {old(robot)})
                && (old(robot) != null ==> old(robot).controller == null)
                && (old(robot) != null && old(robot.controller) != null ==>
                      old(robot.controller).State()
                      == old(robot.controller.State()).(motions := old(robot.controller.motions) + [StopMotion]))
      ensures ToolNamed(name) == Some(ConnectRobot) ==>
                robot != null && fresh(robot)
                && (linkUp ==> robot.controller != null && fresh(robot.controller))
                && robot.View() == (if linkUp then Some(FreshController) else None)
                && r == (if linkUp then Connected else ConnectFailed)
      ensures ToolNamed(name) == Some(DisconnectRobot) ==>
                robot == null && r == (if old(robot) == null then NoConnectionActive else Disconnected)
      // get_connection_status changes nothing
      ensures ToolNamed(name) == Some(GetConnectionStatus) ==>
                robot == old(robot) && retired == old(retired)
                && (robot == null ==> r == NoSession)
                && (robot != null ==>
                      r == Status(robot.IsConnected())
                      && robot.controller == old(robot.controller) && robot.View() == old(robot.View()))
      // everything else: the session guard comes first, then the tool
      ensures (ToolNamed(name).None? || ToolNamed(name).value.NeedsSession()) && old(robot) == null ==>
                r == RobotNotConnected && robot == null && retired == old(retired)
      ensures (ToolNamed(name).None? || ToolNamed(name).value.NeedsSession()) && old(robot) != null ==>
                robot == old(robot) && retired == old(retired) && robot.controller == old(robot.controller)
      ensures (ToolNamed(name).None? || ToolNamed(name).value.NeedsSession())
              && old(robot) != null && !old(robot.IsConnected()) ==>
                r == ConnectionLost && robot.View() == old(robot.View())
      ensures ToolNamed(name).None? && old(robot) != null && old(robot.IsConnected()) ==>
                r == UnknownTool && robot.View() == old(robot.View())
      ensures ToolNamed(name).Some? && ToolNamed(name).value.NeedsSession()
              && old(robot) != null && old(robot.IsConnected()) ==>
                robot.controller != null
                && Reply(r, robot.View().value) == Guarded(ToolNamed(name).value, args, picture, old(robot.View().value))
    {
      var tool := ToolNamed(name);
      if tool == Some(ConnectRobot) {
        if robot != null {
          robot.Disconnect();
          retired := retired + {robot};
        }
        robot := new SumoWrapper(linkUp);
        r := if robot.IsConnected() then Connected else ConnectFailed;
      } else if tool == Some(DisconnectRobot) {
        if robot == null {
          return NoConnectionActive;
        }
        robot.Disconnect();
        retired := retired + {robot};
        robot := null;
        r := Disconnected;
      } else if tool == Some(GetConnectionStatus) {
        if robot == null {
          return NoSession;
        }
        r := Status(robot.IsConnected());
      } else if robot == null {
        r := RobotNotConnected;
      } else if !robot.IsConnected() {
        r := ConnectionLost;
      } else if tool.None? {
        r := UnknownTool;
      } else {
        r := RunGuarded(tool.value, args, picture);
      }
    }
  }

  /**
   * The client's test sequence: status, connect, status, then `Drive`, then
   * disconnect. `sent` is the controller's command list just before the
   * disconnect.
   */
  method ClientSequence(picture: Option<seq<Byte>>) returns (results: seq<ToolResult>, sent: seq<Frame>)
    ensures results ==
              [NoSession, Connected, Status(true), Moving(Forward, Straight, Motion(30.0, 0.0, 1.0)),
               AnimationPlaying("spin"), if picture.None? then NoFrameYet else CameraFrame(picture.value),
               Jumping(false), Disconnected]
    ensures sent == [FabCmd(4, 11, 3, 2, 4, [1, 0, 0, 0]), FabCmd(4, 11, 3, 2, 3, [1, 0, 0, 0])]
  {
    var server := new ToolServer();
    ToolNamedName(GetConnectionStatus);
    ToolNamedName(ConnectRobot);
    ToolNamedName(DisconnectRobot);
    var status0 := server.CallTool("get_connection_status", map[], true, picture);
    var connect := server.CallTool("connect_robot", map["sumo_ip" := Text("192.168.2.1")], true, picture);
    var status1 := server.CallTool("get_connection_status", map[], true, picture);
    var driven;
    driven, sent := Drive(server, picture);
    var disconnect := server.CallTool("disconnect_robot", map[], true, picture);
    results := [status0, connect, status1] + driven + [disconnect];
  }

  /** One call of a session tool by its name on a live session. */
  method LiveCall(server: ToolServer, tool: Tool, args: map<string, Arg>, picture: Option<seq<Byte>>)
    returns (r: ToolResult)
    requires tool.NeedsSession()
    requires server.Valid() && server.robot != null && server.robot.IsConnected()
    modifies server, server.robot, server.robot.controller
    ensures server.Valid() && server.robot == old(server.robot) && server.retired == old(server.retired)
    ensures server.robot.controller == old(server.robot.controller)
    ensures Reply(r, server.robot.View().value) == Guarded(tool, args, picture, old(server.robot.View().value))
  {
    ToolNamedName(tool);
    r := server.CallTool(ToolName(tool), args, true, picture);
  }

  /**
   * The driving part of the client's test sequence on a fresh live session:
   * forward at 30 for 1 s, spin animation, camera, high jump.
   */
  method Drive(server: ToolServer, picture: Option<seq<Byte>>) returns (results: seq<ToolResult>, sent: seq<Frame>)
    requires server.Valid() && server.robot != null && server.robot.View() == Some(FreshController)
    modifies server, server.Footprint()
    ensures server.Valid() && server.robot == old(server.robot) && server.robot.controller == old(server.robot.controller)
    ensures results ==
              [Moving(Forward, Straight, Motion(30.0, 0.0, 1.0)), AnimationPlaying("spin"),
               if picture.None? then NoFrameYet else CameraFrame(picture.value), Jumping(false)]
    ensures sent == server.robot.controller.commands
    ensures sent == [FabCmd(4, 11, 3, 2, 4, [1, 0, 0, 0]), FabCmd(4, 11, 3, 2, 3, [1, 0, 0, 0])]
  {
    var first := ForwardThenSpin(server, picture);
    var second := CameraThenJump(server, picture);
    sent := server.robot.controller.commands;
    results := first + second;
  }

  /** Move forward at 30 for 1 s, then the spin animation. */
  method ForwardThenSpin(server: ToolServer, picture: Option<seq<Byte>>) returns (results: seq<ToolResult>)
    requires server.Valid() && server.robot != null && server.robot.View() == Some(FreshController)
    modifies server, server.robot, server.robot.controller
    ensures server.Valid() && server.robot == old(server.robot) && server.robot.controller == old(server.robot.controller)
    ensures results == [Moving(Forward, Straight, Motion(30.0, 0.0, 1.0)), AnimationPlaying("spin")]
    ensures server.robot.View() == Some(AfterSpin)
  {
    ForwardStep(picture);
    SpinStep(picture);
    var move := LiveCall(server, MoveRobot, ForwardArgs, picture);
    var animation := LiveCall(server, PlayAnimation, map["animation" := Text("spin")], picture);
    results := [move, animation];
  }

  /** The camera, then the high jump, after `ForwardThenSpin`. */
  method CameraThenJump(server: ToolServer, picture: Option<seq<Byte>>) returns (results: seq<ToolResult>)
    requires server.Valid() && server.robot != null && server.robot.View() == Some(AfterSpin)
    modifies server, server.robot, server.robot.controller
    ensures server.Valid() && server.robot == old(server.robot) && server.robot.controller == old(server.robot.controller)
    ensures results == [if picture.None? then NoFrameYet else CameraFrame(picture.value), Jumping(false)]
    ensures server.robot.controller.commands
            == [FabCmd(4, 11, 3, 2, 4, [1, 0, 0, 0]), FabCmd(4, 11, 3, 2, 3, [1, 0, 0, 0])]
  {
    HighJumpStep(picture);
    var camera := LiveCall(server, GetCameraFrame, map[], picture);
    var jump := LiveCall(server, JumpRobot, map["jump_type" := Text("high")], picture);
    results := [camera, jump];
  }

  const ForwardArgs := map["speed" := Number(30.0), "turn" := Number(0.0), "duration" := Number(1.0)]
  const AfterMove := ControllerState(true, [], [Motion(30.0, 0.0, 1.0)], 0)
  const AfterSpin := ControllerState(true, [FabCmd(4, 11, 3, 2, 4, [1, 0, 0, 0])], [Motion(30.0, 0.0, 1.0)], 0)

  /** Forward at 30 for 1 s on a fresh controller records that one motion. */
  lemma ForwardStep(picture: Option<seq<Byte>>)
    ensures Guarded(MoveRobot, ForwardArgs, picture, FreshController)
            == Reply(Moving(Forward, Straight, Motion(30.0, 0.0, 1.0)), AfterMove)
  {
    assert MoveRequest(ForwardArgs) == Some(Motion(30.0, 0.0, 1.0));
    GuardedMove(ForwardArgs, picture, FreshController, Motion(30.0, 0.0, 1.0));
    assert HeadingOf(30.0) == Forward && SideOf(0.0) == Straight;
    assert FreshController.(motions := FreshController.motions + [Motion(30.0, 0.0, 1.0)]) == AfterMove;
  }

  /** The spin animation queues SimpleAnimation with value 1. */
  lemma SpinStep(picture: Option<seq<Byte>>)
    ensures Guarded(PlayAnimation, map["animation" := Text("spin")], picture, AfterMove)
            == Reply(AnimationPlaying("spin"), AfterSpin)
  {
    AnimationValues();
    SmallPayload(1);
    GuardedAnimation(map["animation" := Text("spin")], picture, AfterMove, "spin");
  }

  /** The high jump queues Jump with value 1. */
  lemma HighJumpStep(picture: Option<seq<Byte>>)
    ensures Guarded(JumpRobot, map["jump_type" := Text("high")], picture, AfterSpin)
            == Reply(Jumping(false), AfterSpin.(commands := AfterSpin.commands + [FabCmd(4, 11, 3, 2, 3, [1, 0, 0, 0])]))
  {
    JumpValues();
    SmallPayload(1);
    GuardedJump(map["jump_type" := Text("high")], picture, AfterSpin, "high");
  }

  /** The camera before any connect: the not-connected error, no frame. */
  method CameraBeforeConnect(picture: Option<seq<Byte>>) returns (r: ToolResult)
    ensures r == RobotNotConnected
  {
    var server := new ToolServer();
    ToolNamedName(GetCameraFrame);
    r := server.CallTool("get_camera_frame", map[], true, picture);
  }
}
