/**
 * Command frame encoder of the Jumping Sumo wrapper (sumopy_wrapper.py).
 *
 * Every robot action becomes one command descriptor built by the library's
 * `fab_cmd(ack, channel, project, class, offset, payload)`. That constructor is
 * foreign, so a descriptor is modelled as the tuple it is built from. The
 * payload is either empty or one little-endian unsigned 32-bit enum value.
 */
module Frames {
  import opened Wrappers

  type Byte = x: int | 0 <= x < 256

  const U32Limit: nat := 0x1_0000_0000

  /** Buffer id for commands that require an acknowledgment. */
  const Ack: nat := 4
  const PilotingChannel: nat := 10
  const CommandChannel: nat := 11
  /** Project id of the Jumping Sumo. */
  const JumpingSumoProject: nat := 3
  const PilotingClass: nat := 0
  const AnimationsClass: nat := 2

  /** Command offsets inside the Animations class. */
  const JumpStopOffset: nat := 0
  const JumpCancelOffset: nat := 1
  const JumpLoadOffset: nat := 2
  const JumpOffset: nat := 3
  const SimpleAnimationOffset: nat := 4
  /** Command offset of Posture inside the Piloting class. */
  const PostureOffset: nat := 1

  /** One command descriptor, as handed to `fab_cmd`. */
  datatype Frame = FabCmd(ack: nat, channel: nat, project: nat, classId: nat, offset: nat, payload: seq<Byte>)

  // ---------------------------------------------------------------------
  // struct.pack('<I', v) and its inverse

  function PackU32(v: nat): (b: seq<Byte>)
    requires v < U32Limit
    ensures |b| == 4
    ensures b[0] == v % 256
  {
    [v % 256, v / 0x100 % 256, v / 0x1_0000 % 256, v / 0x100_0000]
  }

  function UnpackU32(b: seq<Byte>): (v: nat)
    requires |b| == 4
    ensures v < U32Limit
    ensures v % 256 == b[0]
  {
    b[0] as int + 0x100 * b[1] as int + 0x1_0000 * b[2] as int + 0x100_0000 * b[3] as int
  }

  lemma UnpackPack(v: nat)
    requires v < U32Limit
    ensures UnpackU32(PackU32(v)) == v
  {
    var q1 := v / 0x100;
    var q2 := q1 / 0x100;
    var q3 := q2 / 0x100;
    assert v == v % 256 + 0x100 * q1;
    assert q1 == q1 % 256 + 0x100 * q2;
    assert q2 == q2 % 256 + 0x100 * q3;
    assert q2 == v / 0x1_0000;
    assert q3 == v / 0x100_0000;
  }

  /** Splitting off the low byte of `lo + 256 * hi`. */
  lemma LowByte(lo: int, hi: nat)
    requires 0 <= lo < 256
    ensures (lo + 0x100 * hi) / 0x100 == hi && (lo + 0x100 * hi) % 0x100 == lo
  {
  }

  lemma PackUnpack(b: seq<Byte>)
    requires |b| == 4
    ensures PackU32(UnpackU32(b)) == b
  {
    var v := UnpackU32(b);
    var h3: nat := b[3];
    var h2: nat := b[2] as int + 0x100 * h3;
    var h1: nat := b[1] as int + 0x100 * h2;
    assert v == b[0] as int + 0x100 * h1;
    LowByte(b[0], h1);
    LowByte(b[1], h2);
    LowByte(b[2], h3);
    assert v / 0x1_0000 == h1 / 0x100;
    assert v / 0x100_0000 == h2 / 0x100;
  }

  // ---------------------------------------------------------------------
  // Enum tables, as the source's list and dict literals

  const JumpTypes: seq<string> := ["long", "high"]
  const PostureTypes: map<string, nat> := map["standing" := 0, "jumper" := 1, "kicker" := 2]
  const Animations: map<string, nat> :=
    map["stop" := 0, "spin" := 1, "tap" := 2, "slowshake" := 3, "metronome" := 4,
        "ondulation" := 5, "spinjump" := 6, "spintoposture" := 7, "spiral" := 8, "slalom" := 9]

  /** Number of values of each enum. */
  const JumpTypeCount: nat := 2
  const PostureCount: nat := 3
  const AnimationCount: nat := 10

  /** `jump`: a membership test against ['long', 'high'], then 0 for 'long', 1 otherwise. */
  function JumpValue(jumpType: string): (r: Option<nat>)
    ensures r.Some? <==> jumpType in JumpTypes
    ensures r.Some? ==> r.value < JumpTypeCount && JumpTypes[r.value] == jumpType
  {
    if jumpType !in JumpTypes then None
    else Some(if jumpType == "long" then 0 else 1)
  }

  /** `change_posture`: lookup in the posture dict. */
  function PostureValue(postureType: string): (r: Option<nat>)
    ensures r.Some? <==> postureType in PostureTypes
    ensures r.Some? ==> r.value < PostureCount
  {
    if postureType in PostureTypes then Some(PostureTypes[postureType]) else None
  }

  /** `play_animation`: lookup in the animation dict. */
  function AnimationValue(animationName: string): (r: Option<nat>)
    ensures r.Some? <==> animationName in Animations
    ensures r.Some? ==> r.value < AnimationCount
  {
    if animationName in Animations then Some(Animations[animationName]) else None
  }

  /** 'long' is 0, 'high' is 1. */
  lemma JumpValues()
    ensures JumpValue("long") == Some(0) && JumpValue("high") == Some(1)
  {
  }

  /** standing, jumper, kicker are 0, 1, 2; nothing else is a posture. */
  lemma PostureValues()
    ensures PostureValue("standing") == Some(0)
    ensures PostureValue("jumper") == Some(1)
    ensures PostureValue("kicker") == Some(2)
    ensures PostureTypes.Keys == {"standing", "jumper", "kicker"}
  {
  }

  /** The ten animations are numbered 0 to 9 in table order; nothing else is an animation. */
  lemma AnimationValues()
    ensures AnimationValue("stop") == Some(0)
    ensures AnimationValue("spin") == Some(1)
    ensures AnimationValue("tap") == Some(2)
    ensures AnimationValue("slowshake") == Some(3)
    ensures AnimationValue("metronome") == Some(4)
    ensures AnimationValue("ondulation") == Some(5)
    ensures AnimationValue("spinjump") == Some(6)
    ensures AnimationValue("spintoposture") == Some(7)
    ensures AnimationValue("spiral") == Some(8)
    ensures AnimationValue("slalom") == Some(9)
    ensures Animations.Keys ==
              {"stop", "spin", "tap", "slowshake", "metronome",
               "ondulation", "spinjump", "spintoposture", "spiral", "slalom"}
  {
  }

  /** An enum value below 256 is its own low byte followed by three zero bytes. */
  lemma SmallPayload(v: nat)
    requires v < 256
    ensures PackU32(v) == [v, 0, 0, 0]
  {
  }

  // ---------------------------------------------------------------------
  // Logical commands and their frames

  /** The six commands the wrapper builds frames for, with their enum value. */
  datatype Command =
    | JumpStop
    | JumpCancel
    | JumpLoad
    | Jump(jumpType: nat)
    | SimpleAnimation(animation: nat)
    | Posture(posture: nat)
  {
    /** The enum value is one the table defines. */
    predicate Valid() {
      match this
      case Jump(v) => v < JumpTypeCount
      case SimpleAnimation(v) => v < AnimationCount
      case Posture(v) => v < PostureCount
      case _ => true
    }
  }

  /** The frame of each command (channel, class, offset, payload). */
  function Encode(c: Command): (f: Frame)
    requires c.Valid()
    ensures f.ack == Ack && f.project == JumpingSumoProject
    ensures |f.payload| == 0 || |f.payload| == 4
  {
    match c
    case JumpStop => FabCmd(Ack, CommandChannel, JumpingSumoProject, AnimationsClass, JumpStopOffset, [])
    case JumpCancel => FabCmd(Ack, CommandChannel, JumpingSumoProject, AnimationsClass, JumpCancelOffset, [])
    case JumpLoad => FabCmd(Ack, CommandChannel, JumpingSumoProject, AnimationsClass, JumpLoadOffset, [])
    case Jump(v) => FabCmd(Ack, CommandChannel, JumpingSumoProject, AnimationsClass, JumpOffset, PackU32(v))
    case SimpleAnimation(v) =>
      FabCmd(Ack, CommandChannel, JumpingSumoProject, AnimationsClass, SimpleAnimationOffset, PackU32(v))
    case Posture(v) => FabCmd(Ack, PilotingChannel, JumpingSumoProject, PilotingClass, PostureOffset, PackU32(v))
  }

  /** How the robot reads a frame back: the command it denotes, if any. */
  function Decode(f: Frame): (r: Option<Command>)
    ensures r.Some? ==> r.value.Valid()
  {
    if f.ack != Ack || f.project != JumpingSumoProject then None
    else if f.channel == CommandChannel && f.classId == AnimationsClass then
      if f.payload == [] then
        if f.offset == JumpStopOffset then Some(JumpStop)
        else if f.offset == JumpCancelOffset then Some(JumpCancel)
        else if f.offset == JumpLoadOffset then Some(JumpLoad)
        else None
      else if |f.payload| == 4 then
        var v := UnpackU32(f.payload);
        if f.offset == JumpOffset && v < JumpTypeCount then Some(Jump(v))
        else if f.offset == SimpleAnimationOffset && v < AnimationCount then Some(SimpleAnimation(v))
        else None
      else None
    else if f.channel == PilotingChannel && f.classId == PilotingClass
            && f.offset == PostureOffset && |f.payload| == 4 && UnpackU32(f.payload) < PostureCount then
      Some(Posture(UnpackU32(f.payload)))
    else None
  }

  lemma DecodeEncode(c: Command)
    requires c.Valid()
    ensures Decode(Encode(c)) == Some(c)
  {
    match c
    case Jump(v) => UnpackPack(v);
    case SimpleAnimation(v) => UnpackPack(v);
    case Posture(v) => UnpackPack(v);
    case _ =>
  }

  lemma EncodeDecode(f: Frame)
    requires Decode(f).Some?
    ensures Encode(Decode(f).value) == f
  {
    if |f.payload| == 4 {
      PackUnpack(f.payload);
    }
  }

  /** Distinct commands never share a frame. */
  lemma EncodeInjective(c: Command, d: Command)
    requires c.Valid() && d.Valid()
    ensures Encode(c) == Encode(d) ==> c == d
  {
    DecodeEncode(c);
    DecodeEncode(d);
  }
}
