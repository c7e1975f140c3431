/**
 * The Android method-channel handler (`onMethodCall` of the Kotlin plugin).
 *
 * The pure part, `Decide`, turns a method name and its argument map into
 * either an immediate answer (at most one native call plus the reply) or a
 * request for the muted load. The imperative part, the class
 * `FlutterMidiProPlugin`, performs the load branch step by step against the
 * music stream volume of the AudioManager and records every native call and
 * volume change in an effect log. The native library behind the `external`
 * declarations is not this component: its calls are recorded as they are
 * declared in Kotlin and the id a native load returns is a parameter.
 */
module AndroidPlugin {
  import opened Wrappers

  /**
   * A method call from Dart: its name and its non-null arguments, split by
   * the type under which the handler reads them.
   */
  datatype MethodCall = MethodCall(name: string, ints: map<string, int>, strings: map<string, string>)

  /** `call.argument<Int>(key)`: null when the key is absent. */
  function IntArgument(call: MethodCall, key: string): (r: Option<int>)
    ensures r.Some? <==> key in call.ints
    ensures r.Some? ==> r.value == call.ints[key]
  {
    if key in call.ints then Some(call.ints[key]) else None
  }

  /** A call of one of the plugin's `external` functions, with the arguments Kotlin passes. */
  datatype NativeCall =
    | LoadSoundfont(path: string, bank: int, program: int)
    | SelectInstrument(sfId: int, channel: int, bank: int, program: int)
    | PlayNote(channel: int, key: int, velocity: int, sfId: int)
    | StopNote(channel: int, key: int, sfId: int)
    | UnloadSoundfont(sfId: int)
    | Dispose

  /**
   * What the handler sends back: `result.success(value)` (null is None),
   * `result.error(code, message, null)`, `result.notImplemented()`, or no
   * reply at all because an exception escapes the handler.
   */
  datatype Reply =
    | Success(value: Option<int>)
    | Error(code: string, message: string)
    | NotImplemented
    | Uncaught(exception: string)

  const InvalidArgument := "INVALID_ARGUMENT"
  const LoadFailedMessage := "Something went wrong. Check the path of the template soundfont"
  const PlayNoteMessage := "channel, key, and velocity are required"
  const StopNoteMessage := "channel and key are required"
  const UnloadMessage := "sfId is required"

  /** The outcome of the pure part of the handler. */
  datatype Decision =
    | Respond(native: Option<NativeCall>, reply: Reply)
    | MutedLoad(path: string, bank: int, program: int)

  /** `m[key]` if present, `default` otherwise (Kotlin's `?:` on an argument). */
  function IntOr(call: MethodCall, key: string, default: int): int
  {
    IntArgument(call, key).GetOr(default)
  }

  /** The argument checks, defaults and replies of `onMethodCall`, branch by branch. */
  function Decide(call: MethodCall): (d: Decision)
    // loadSoundfont: bank and program default to 0; a missing path makes `as String` throw
    ensures call.name == "loadSoundfont" ==>
      if "path" in call.strings then
        d == MutedLoad(call.strings["path"],
                       if "bank" in call.ints then call.ints["bank"] else 0,
                       if "program" in call.ints then call.ints["program"] else 0)
      else d == Respond(None, Uncaught("NullPointerException"))
    // selectInstrument never fails; sfId defaults to 1, the others to 0
    ensures call.name == "selectInstrument" ==>
      d.Respond? && d.reply == Success(None) && d.native.Some? &&
      d.native.value == SelectInstrument(
        if "sfId" in call.ints then call.ints["sfId"] else 1,
        if "channel" in call.ints then call.ints["channel"] else 0,
        if "bank" in call.ints then call.ints["bank"] else 0,
        if "program" in call.ints then call.ints["program"] else 0)
    // playNote needs all four arguments
    ensures call.name == "playNote" ==>
      d.Respond? &&
      if {"channel", "key", "velocity", "sfId"} <= call.ints.Keys then
        d.native == Some(PlayNote(call.ints["channel"], call.ints["key"], call.ints["velocity"], call.ints["sfId"])) &&
        d.reply == Success(None)
      else d.native == None && d.reply == Error(InvalidArgument, PlayNoteMessage)
    // stopNote needs channel, key and sfId
    ensures call.name == "stopNote" ==>
      d.Respond? &&
      if {"channel", "key", "sfId"} <= call.ints.Keys then
        d.native == Some(StopNote(call.ints["channel"], call.ints["key"], call.ints["sfId"])) &&
        d.reply == Success(None)
      else d.native == None && d.reply == Error(InvalidArgument, StopNoteMessage)
    // unloadSoundfont needs sfId
    ensures call.name == "unloadSoundfont" ==>
      d.Respond? &&
      if "sfId" in call.ints then d.native == Some(UnloadSoundfont(call.ints["sfId"])) && d.reply == Success(None)
      else d.native == None && d.reply == Error(InvalidArgument, UnloadMessage)
    // dispose always succeeds
    ensures call.name == "dispose" ==> d == Respond(Some(Dispose), Success(None))
    // every other name
    ensures call.name !in {"loadSoundfont", "selectInstrument", "playNote", "stopNote", "unloadSoundfont", "dispose"} ==>
      d == Respond(None, NotImplemented)
  {
    match call.name
    case "loadSoundfont" =>
      if "path" !in call.strings then Respond(None, Uncaught("NullPointerException"))
      else MutedLoad(call.strings["path"], IntOr(call, "bank", 0), IntOr(call, "program", 0))
    case "selectInstrument" =>
      Respond(Some(SelectInstrument(IntOr(call, "sfId", 1), IntOr(call, "channel", 0),
                                    IntOr(call, "bank", 0), IntOr(call, "program", 0))),
              Success(None))
    case "playNote" =>
      var channel, key, velocity, sfId :=
        IntArgument(call, "channel"), IntArgument(call, "key"), IntArgument(call, "velocity"), IntArgument(call, "sfId");
      if channel.Some? && key.Some? && velocity.Some? && sfId.Some? then
        Respond(Some(PlayNote(channel.value, key.value, velocity.value, sfId.value)), Success(None))
      else Respond(None, Error(InvalidArgument, PlayNoteMessage))
    case "stopNote" =>
      var channel, key, sfId := IntArgument(call, "channel"), IntArgument(call, "key"), IntArgument(call, "sfId");
      if channel.Some? && key.Some? && sfId.Some? then
        Respond(Some(StopNote(channel.value, key.value, sfId.value)), Success(None))
      else Respond(None, Error(InvalidArgument, StopNoteMessage))
    case "unloadSoundfont" =>
      var sfId := IntArgument(call, "sfId");
      if sfId.Some? then Respond(Some(UnloadSoundfont(sfId.value)), Success(None))
      else Respond(None, Error(InvalidArgument, UnloadMessage))
    case "dispose" => Respond(Some(Dispose), Success(None))
    case _ => Respond(None, NotImplemented)
  }

  /** An error reply never comes with a native call, and an immediate native call is always answered with success(null). */
  lemma NativeCallOnlyWhenArgumentsPresent(call: MethodCall)
    ensures Decide(call).Respond? && Decide(call).reply.Error? ==> Decide(call).native == None
    ensures Decide(call).Respond? && Decide(call).native.Some? ==> Decide(call).reply == Success(None)
  {
  }

  /** The reply to a load once the native call returned `sfId`: a failure exactly when it is -1. */
  function LoadReply(sfId: int): (r: Reply)
    ensures r.Error? <==> sfId == -1
    ensures r.Error? ==> r == Error(InvalidArgument, LoadFailedMessage)
    ensures !r.Error? ==> r == Success(Some(sfId))
  {
    if sfId == -1 then Error(InvalidArgument, LoadFailedMessage) else Success(Some(sfId))
  }

  /** One observable step of the handler. */
  datatype Effect = Native(call: NativeCall) | SetStreamVolume(level: int)

  /** The music stream volume after `effects`, starting from `initial`: the last level set. */
  function VolumeAfter(initial: int, effects: seq<Effect>): (r: int)
    ensures r == initial || SetStreamVolume(r) in effects
    ensures (forall i :: 0 <= i < |effects| ==> effects[i].Native?) ==> r == initial
  {
    if effects == [] then initial
    else match effects[|effects| - 1]
      case SetStreamVolume(level) => level
      case Native(_) => VolumeAfter(initial, effects[..|effects| - 1])
  }

  /** Replaying a log in two pieces gives the same volume as replaying it at once. */
  lemma {:induction false} VolumeAfterConcat(initial: int, a: seq<Effect>, b: seq<Effect>)
    ensures VolumeAfter(initial, a + b) == VolumeAfter(VolumeAfter(initial, a), b)
    decreases |b|
  {
    if b == [] {
      assert a + b == a;
    } else {
      var b' := b[..|b| - 1];
      assert (a + b)[..|a + b| - 1] == a + b';
      assert (a + b)[|a + b| - 1] == b[|b| - 1];
      VolumeAfterConcat(initial, a, b');
    }
  }

  /** The effects of the load branch when the volume before it was `restored`. */
  function LoadEffects(path: string, bank: int, program: int, restored: int): (r: seq<Effect>)
    ensures |r| == 3 && r[1] == Native(LoadSoundfont(path, bank, program))
    ensures forall i :: 0 <= i < |r| && r[i].Native? ==> i == 1
    ensures forall v :: VolumeAfter(v, r[..2]) == 0
    ensures forall v :: VolumeAfter(v, r) == restored
  {
    [SetStreamVolume(0), Native(LoadSoundfont(path, bank, program)), SetStreamVolume(restored)]
  }

  /**
   * The quiet swap: whatever happened before, the native load runs while the
   * volume is 0, and afterwards the volume is back to what it was before.
   */
  lemma QuietSwap(initial: int, before: seq<Effect>, path: string, bank: int, program: int)
    ensures var w := LoadEffects(path, bank, program, VolumeAfter(initial, before));
      && w[1] == Native(LoadSoundfont(path, bank, program))
      && VolumeAfter(initial, before + w[..1]) == 0
      && VolumeAfter(initial, before + w) == VolumeAfter(initial, before)
  {
    var w := LoadEffects(path, bank, program, VolumeAfter(initial, before));
    VolumeAfterConcat(initial, before, w[..1]);
    VolumeAfterConcat(initial, before, w);
  }

  class FlutterMidiProPlugin {
    /** The STREAM_MUSIC volume the AudioManager reports. */
    var streamVolume: int
    /** Everything the handler did, in order. */
    var effects: seq<Effect>
    /** The volume when the log was started. */
    ghost const initialVolume: int

    ghost predicate Valid()
      reads this
    {
      streamVolume == VolumeAfter(initialVolume, effects)
    }

    constructor (volume: int)
      ensures Valid() && streamVolume == volume && effects == []
    {
      streamVolume := volume;
      effects := [];
      initialVolume := volume;
    }

    /** `audioManager.setStreamVolume(STREAM_MUSIC, level, 0)`. */
    method SetVolume(level: int)
      requires Valid()
      modifies this
      ensures Valid() && streamVolume == level
      ensures effects == old(effects) + [SetStreamVolume(level)]
    {
      streamVolume := level;
      effects := effects + [SetStreamVolume(level)];
    }

    /** One call of an `external` function. */
    method CallNative(call: NativeCall)
      requires Valid()
      modifies this
      ensures Valid() && streamVolume == old(streamVolume)
      ensures effects == old(effects) + [Native(call)]
    {
      effects := effects + [Native(call)];
    }

    /**
     * `onMethodCall`. `loadResult` is what the native `loadSoundfont`
     * returns when the load branch calls it (unused otherwise). The load
     * branch captures the volume, mutes, loads, waits (not modelled) and
     * restores the captured volume before replying.
     */
    method OnMethodCall(call: MethodCall, loadResult: int) returns (reply: Reply)
      requires Valid()
      modifies this
      ensures Valid() && streamVolume == old(streamVolume)
      ensures match Decide(call)
        case Respond(native, r) =>
          && effects == old(effects) + (if native.Some? then [Native(native.value)] else [])
          && reply == r
        case MutedLoad(path, bank, program) =>
          && effects == old(effects) + LoadEffects(path, bank, program, old(streamVolume))
          && reply == LoadReply(loadResult)
    {
      var d := Decide(call);
      match d
      case Respond(native, r) =>
        if native.Some? {
          CallNative(native.value);
        }
        reply := r;
      case MutedLoad(path, bank, program) =>
        var currentVolume := streamVolume;
        SetVolume(0);
        CallNative(LoadSoundfont(path, bank, program));
        var sfId := loadResult;
        // delay(1000L)
        SetVolume(currentVolume);
        reply := LoadReply(sfId);
    }
  }
}
