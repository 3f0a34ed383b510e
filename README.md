# Jumping Sumo MCP server: command frames, session guard and tool dispatcher

This project models the core of an MCP server that drives a Parrot Jumping Sumo
robot, and proves properties of that model. The core has two layers.

- **`SumoWrapper`** turns each robot action into one command descriptor
  `(ack = 4, channel, project = 3, class, offset, payload)` and appends it to
  the controller's outbound command list.
  - The payload is either empty or one little-endian unsigned 32-bit enum value.
  - Every command first requires a live controller.
  - It then range-checks or table-checks its arguments and only then queues.
  - A refused call changes nothing.
- **`call_tool`** is the dispatcher over one process-wide optional session.
  - `connect_robot` tears down any previous session and opens a new one.
  - `disconnect_robot` is safe with no session.
  - `get_connection_status` changes nothing.
  - Every other tool passes the session guard first: no session, then a lost link.
  - Omitted arguments take their defaults.
  - Any exception raised below the dispatcher becomes an error result.

Files:

- `wrappers.dfy`: the `Option` type.
- `frames.dfy` (module `Frames`):
  - the descriptor datatype and `struct.pack('<I', v)` with its inverse;
  - the enum tables;
  - the six logical commands, with an encoder and a decoder that are proved
    to be mutual inverses.
- `session.dfy` (module `Session`):
  - a class `SumoController` standing for the library's controller. It holds
    the link flag, the `_commands` list, the `move` calls made and the
    `store_pic` count.
  - the class `SumoWrapper`, whose field `controller` is null or a controller.
    Every method states its whole new state.
- `server.dfy` (module `Server`):
  - JSON arguments and argument defaults;
  - the parse of a tool name into a closed `Tool` type;
  - a pure reference function `Guarded` for the session tools;
  - the class `ToolServer` holding the global `robot`, with `CallTool`;
  - the test client's own call sequence, proved end to end.

Foreign results are parameters:

- `linkUp` is whether the library's handshake succeeds.
- `picture` is what the library's `get_pic` yields, or None when it failed.

The invariant `ToolServer.Valid` keeps a ghost set of every session torn down
so far. Each has dropped its controller, so at most one wrapper holds a
controller at any time. `disconnect` closes nothing in the library itself; it
only drops the wrapper's reference after the stop motion.

Two details follow the code exactly:

- Every enum payload, the jump's included, is the 4-byte `struct.pack('<I', ...)` (sumopy_wrapper.py:161-164).
- An unrecognised tool name reaches the "unknown tool" branch only after the
  session guard (server.py:254-270, 452-453). With no live session it gets the
  not-connected or connection-lost result instead.

## Model

| member | source | states |
|---|---|---|
| `Frames.PackU32` | sumopy_wrapper.py:161-164 | `struct.pack('<I', v)` yields exactly 4 bytes, low byte first |
| `Frames.UnpackU32` | sumopy_wrapper.py:161-164 | reading 4 little-endian bytes gives a value below 2^32 whose low byte is the first byte |
| `Frames.UnpackPack` | sumopy_wrapper.py:161-164 | unpacking a packed u32 gives back the value |
| `Frames.PackUnpack` | sumopy_wrapper.py:161-164 | packing an unpacked 4-byte payload gives back the bytes, so the encoding is a bijection |
| `Frames.SmallPayload` | sumopy_wrapper.py:161-164 | an enum value below 256 packs as itself followed by three zero bytes |
| `Frames.JumpValue` | sumopy_wrapper.py:143-153 | a jump type is accepted iff it is 'long' or 'high', and its value is its position in that list |
| `Frames.JumpValues` | sumopy_wrapper.py:150-153 | 'long' is 0 and 'high' is 1 |
| `Frames.PostureValue` | sumopy_wrapper.py:263-275 | a posture is accepted iff it is a key of the posture table, and its value is below 3 |
| `Frames.PostureValues` | sumopy_wrapper.py:263-267 | standing, jumper and kicker are 0, 1 and 2, and there is no other posture |
| `Frames.AnimationValue` | sumopy_wrapper.py:314-333 | an animation is accepted iff it is a key of the animation table, and its value is below 10 |
| `Frames.AnimationValues` | sumopy_wrapper.py:314-325 | stop through slalom are 0 through 9 in table order, and there is no other animation |
| `Frames.Encode` | sumopy_wrapper.py:150-347 | every frame has ack 4 and project 3, and its payload is empty or 4 bytes |
| `Frames.Decode` | sumopy_wrapper.py:150-165 | a frame that decodes denotes a command whose enum value is in its table |
| `Frames.DecodeEncode` | sumopy_wrapper.py:150-347 | decoding the frame of any valid command gives that command back |
| `Frames.EncodeDecode` | sumopy_wrapper.py:150-347 | a frame that decodes is exactly the frame of the command it decodes to |
| `Frames.EncodeInjective` | sumopy_wrapper.py:150-347 | distinct commands never share a frame |
| `Session.Queued` | sumopy_wrapper.py:166 | appending a descriptor adds exactly it at the end, keeps every earlier entry, and changes nothing else |
| `Session.SumoController.constructor` | sumopy_wrapper.py:42-46 | a successful handshake gives a live controller with no commands, motions or photos |
| `Session.SumoController.Move` | sumopy_wrapper.py:94 | a `move` call is recorded at the end of the motion list, and nothing else changes |
| `Session.SumoController.StorePic` | sumopy_wrapper.py:128 | a `store_pic` call adds one stored photo, and nothing else changes |
| `Session.SumoWrapper.constructor` | sumopy_wrapper.py:26-36 | a new wrapper holds a fresh controller exactly when the handshake succeeds, and none otherwise |
| `Session.SumoWrapper.Connect` | sumopy_wrapper.py:38-53 | a timeout or any other failure leaves no controller; success leaves a fresh live one |
| `Session.SumoWrapper.IsConnected` | sumopy_wrapper.py:55-68 | false with no controller; otherwise the controller's own link flag |
| `Session.SumoWrapper.Move` | sumopy_wrapper.py:70-94 | refused if not connected, then if speed or turn is outside [-100, 100], then if duration < 0.025, in that order, each refusal sending nothing; a call that succeeds records exactly that motion (range test `Session.InPercentRange`) |
| `Session.SumoWrapper.GetCameraFrame` | sumopy_wrapper.py:96-114 | refused with no frame when not connected; otherwise the library's picture or None |
| `Session.SumoWrapper.CapturePhoto` | sumopy_wrapper.py:116-128 | refused when not connected and changes nothing; otherwise exactly one stored photo more |
| `Session.SumoWrapper.Jump` | sumopy_wrapper.py:130-166 | refused when not connected or for a type other than 'long'/'high', appending nothing; otherwise appends exactly the frame (4, 11, 3, 2, 3, u32 of the value) at the end and keeps the earlier ones |
| `Session.SumoWrapper.LoadJump` | sumopy_wrapper.py:168-193 | refused when not connected; otherwise appends exactly (4, 11, 3, 2, 2) with an empty payload |
| `Session.SumoWrapper.CancelJump` | sumopy_wrapper.py:195-219 | refused when not connected; otherwise appends exactly (4, 11, 3, 2, 1) with an empty payload |
| `Session.SumoWrapper.StopJump` | sumopy_wrapper.py:221-245 | refused when not connected; otherwise appends exactly (4, 11, 3, 2, 0) with an empty payload |
| `Session.SumoWrapper.ChangePosture` | sumopy_wrapper.py:247-289 | refused when not connected or for an unknown posture, before anything is encoded; otherwise appends exactly (4, 10, 3, 0, 1, u32 of the value) |
| `Session.SumoWrapper.PlayAnimation` | sumopy_wrapper.py:291-347 | refused when not connected or for an unknown animation, appending nothing; otherwise appends exactly (4, 11, 3, 2, 4, u32 of the value) |
| `Session.SumoWrapper.Disconnect` | sumopy_wrapper.py:349-359 | the controller is dropped; with none it is a no-op; otherwise the old controller receives the stop motion (0, 0, 0.1) first |
| `Server.NumericValue` | sumopy_wrapper.py:86-91 | only numbers and booleans compare with the range bounds; any other JSON value raises |
| `Server.ToolNamed` | server.py:188-453 | a name selects the branch of the tool it names, and an unknown name selects none |
| `Server.ToolNamedName` | server.py:188-453 | every declared tool is reached by its own name |
| `Server.HeadingOf` | server.py:281 | forward iff speed > 0, backward iff speed < 0 |
| `Server.SideOf` | server.py:282-286 | turning right iff turn > 0, left iff turn < 0 |
| `Server.MoveRequest` | server.py:273-275 | `speed` is required; `turn` and `duration` are the values the caller supplies, or 0 and 1.0 when omitted; a request exists iff all three are numeric, and its motion carries exactly those numbers |
| `Server.TextParam` | server.py:348 | an omitted enum argument is its default; a present one is usable iff it is text, and then it is exactly the caller's string |
| `Server.Param` | server.py:274-275 | `arguments.get(key, default)`: the caller's value for a present key, the default for an absent one |
| `Server.Guarded` | server.py:272-450 | a session tool (`Server.Tool.NeedsSession`) never writes the link flag, adds at most one frame at the end (one that decodes) and at most one motion; an error changes nothing |
| `Server.GuardedMove` | server.py:272-293 | `move_robot` with numeric arguments records exactly one motion when they are in range, and fails changing nothing otherwise |
| `Server.GuardedJump` | server.py:347-362 | `jump_robot` queues exactly the Jump frame of a known type and fails changing nothing otherwise |
| `Server.GuardedAnimation` | server.py:425-450 | `play_animation` queues exactly the SimpleAnimation frame of a known name and fails changing nothing otherwise |
| `Server.OmittedArgumentsDefault` | server.py:273-426 | an omitted turn, duration, jump_type, posture_type or animation behaves exactly like turn=0, duration=1.0, 'long', 'standing' or 'spin' |
| `Server.GuardedKeepsQueue` | sumopy_wrapper.py:166 | a session tool keeps every frame of the outbound list decodable to a command |
| `Server.RunKeepsQueue` | server.py:254-453 | over any run of session-tool calls the wrapper never writes the link flag, earlier frames are never rewritten, each call adds at most one frame, and every queued frame still denotes a command |
| `Server.ToolServer.constructor` | server.py:25 | the server starts with no session |
| `Server.ToolServer.RunGuarded` | server.py:272-450 | on a live session each session tool makes the wrapper call that `Guarded` describes |
| `Server.ToolServer.CallTool` | server.py:183-462 | connect tears down the old session before opening a fresh one, so at most one wrapper holds a controller; disconnect with no session reports none active; status changes nothing; every other name (`Server.Tool.NeedsSession`, or an unknown one) gets not-connected or connection-lost, with no robot call, unless the session is live; then an unknown name is reported and a known tool behaves as `Guarded` |
| `Server.LiveCall` | server.py:254-272 | a declared session tool called by name on a live session behaves as `Guarded` and keeps the session |
| `Server.CameraBeforeConnect` | server.py:254-261 | the camera before any connect gets the not-connected error |
| `Server.ClientSequence` | test_mcp_client.py:72-115 | the client's test run gives no session, connected, status live, moving forward, spin, the camera result, high jump, disconnected, and sends exactly the spin and high-jump frames |
| `Server.Drive` | test_mcp_client.py:87-111 | on a fresh session the four driving calls give their results and leave exactly the spin and high-jump frames queued |
| `Server.ForwardThenSpin` | test_mcp_client.py:87-101 | forward at 30 for 1 s, then spin, leave one motion and the spin frame |
| `Server.CameraThenJump` | test_mcp_client.py:103-111 | the camera changes nothing; the high jump appends (4, 11, 3, 2, 3, [1, 0, 0, 0]) |
| `Server.ForwardStep` | test_mcp_client.py:91-95 | the reference result of that move call |
| `Server.SpinStep` | test_mcp_client.py:101 | the reference result of the spin call: SimpleAnimation with value 1 |
| `Server.HighJumpStep` | test_mcp_client.py:111 | the reference result of the high jump: Jump with value 1 |

## Left out

- The robot's address `sumo_ip` and the connect timeout are left out. Only the library uses them, and the status text prints the address; the library's verdict is the parameter `linkUp`.
- How the library's link flag changes after connecting (socket loss) belongs to the library. The model takes the flag as it finds it.
- `Session.SumoController.Move`: the library's `move` never raises in the model. In the source an exception from it (sumopy_wrapper.py:94) reaches the dispatcher's handler and becomes an error result (server.py:455-462). So a `move_robot` call with valid arguments on a live session always gives `Moving` here.
- `Session.SumoController.StorePic`: the library's `store_pic` never raises in the model. In the source an exception from it (sumopy_wrapper.py:128) becomes an error result the same way. So `capture_photo` on a live session always gives `PhotoStored` here.
- `Session.FreshController` assumes two things about the library's outbound `_commands` list: it is empty right after the handshake, and only the wrapper appends to it. The library owns that list and starts the video stream (sumopy_wrapper.py:42-46). That it sends nothing of its own is not modelled. So `Server.ClientSequence`'s "exactly the spin and high-jump frames" counts only the frames the wrapper queues.
- The blocking sleep inside `move(..., block=True)` is time owned by the library.
- `Session.SumoWrapper.GetCameraFrame`: the five `get_pic` retries, and the exception swallowed there, are folded into the parameter `picture`.
- `Session.SumoWrapper.IsConnected`: an exception raised while reading the library's flag (which yields false) is not modelled; the flag is read directly.
- `Session.SumoWrapper.Disconnect`: a failure of the best-effort stop (ignored by the source) is not modelled; the stop motion is always recorded.
- `__del__` (sumopy_wrapper.py:361-363) is left out: finalisation timing belongs to the Python runtime.
- `Server.ToolServer.CallTool`: the error result `Failed` is deliberately weaker than the source. It records that an exception was turned into an error result, not its message. The wrapper layer keeps the cause as a `Fault`.
- Camera frame saving to disk, base64 encoding and timestamps (server.py:309-319) are filesystem I/O; the frame is returned as bytes.
- The `TOOLS` schema declarations and all response text and emoji are presentation; results are an abstract `ToolResult`.
- MCP server startup, the stdio transport and the asyncio loop (server.py:465-477) are transport.
- The other client scripts are console and network I/O with no assertions. Only the call sequence of test_mcp_client.py is modelled, as `Server.ClientSequence`, with the optional jump taken.
- `duration` is a Python float; it is a Dafny `real`, compared only against 0.025.
