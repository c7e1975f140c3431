/**
 * The macOS method-channel handler: an AVAudioEngine with one
 * AVAudioUnitSampler, driven by three commands. The engine and the sampler
 * are not modelled; what the handler asks of them is appended to an event
 * log, and whether `audioEngine.start()` throws is a parameter. A Swift
 * runtime trap (a failed `!` unwrap, a failed `as!` cast, an integer that
 * does not fit `UInt8`) ends the call with `Trap`.
 */
module MacosPlugin {
  import opened Wrappers
  import Decimal

  /**
   * An argument value as Dart sends it. `IntValue` is any value `as! Int`
   * accepts: a Dart int, and also a Dart double whose value is a whole
   * number, since both arrive as an NSNumber. `OtherValue` is everything
   * else, including a double with a fractional part.
   */
  datatype Value = IntValue(number: int) | StringValue(str: string) | OtherValue

  /** A method call: its name and its arguments, `None` when they are not a dictionary. */
  datatype MethodCall = MethodCall(name: string, arguments: Option<map<string, Value>>)

  /** A request to the engine or the sampler. */
  datatype EngineEvent =
    | Attach
    | Connect
    | Start
    | LoadSoundBankInstrument(url: string, program: nat, bankMSB: nat, bankLSB: nat)
    | StartNote(note: nat, velocity: nat, channel: nat)
    | StopNote(note: nat, channel: nat)

  datatype HandleResult = Text(text: string) | MethodNotImplemented | Trap

  /** `kAUSampler_DefaultMelodicBankMSB` and `kAUSampler_DefaultBankLSB`. */
  const DefaultMelodicBankMSB: nat := 0x79
  const DefaultBankLSB: nat := 0x00

  const PreparedSoundFont := "Prepared Sound Font"

  /** `call.arguments as? Dictionary<String, String>`: a dictionary whose every value is a string. */
  function AsStringDictionary(arguments: Option<map<string, Value>>): (r: Option<map<string, string>>)
    ensures r.Some? <==> arguments.Some? && forall k :: k in arguments.value ==> arguments.value[k].StringValue?
    ensures r.Some? ==> (r.value.Keys == arguments.value.Keys &&
      forall k :: k in r.value ==> arguments.value[k] == StringValue(r.value[k]))
  {
    if arguments.Some? && forall k :: k in arguments.value ==> arguments.value[k].StringValue? then
      Some(map k | k in arguments.value :: arguments.value[k].str)
    else None
  }

  /** `map?["path"]` in the load branch; `None` makes the following `data!` trap. */
  function LoadPath(arguments: Option<map<string, Value>>): (r: Option<string>)
    ensures r.Some? <==> (arguments.Some? && "path" in arguments.value &&
      forall k :: k in arguments.value ==> arguments.value[k].StringValue?)
    ensures r.Some? ==> arguments.value["path"] == StringValue(r.value)
  {
    var m := AsStringDictionary(arguments);
    if m.Some? && "path" in m.value then Some(m.value["path"]) else None
  }

  /** `UInt8(arguments[key] as! Int)`; `None` when the cast or the conversion traps. */
  function UInt8Argument(arguments: map<string, Value>, key: string): (r: Option<nat>)
    ensures r.Some? <==> key in arguments && arguments[key].IntValue? && 0 <= arguments[key].number < 256
    ensures r.Some? ==> r.value == arguments[key].number
  {
    if key in arguments && arguments[key].IntValue? && 0 <= arguments[key].number < 256 then Some(arguments[key].number)
    else None
  }

  /** What the load branch asks of the engine: attach, connect, start, and the bank load if start did not throw. */
  function LoadEvents(path: string, startFails: bool): (r: seq<EngineEvent>)
    ensures |r| >= 3 && r[..3] == [Attach, Connect, Start]
    ensures startFails ==> |r| == 3
    ensures !startFails ==> |r| == 4 && r[3] == LoadSoundBankInstrument(path, 0, 0x79, 0)
  {
    [Attach, Connect, Start] +
    if startFails then [] else [LoadSoundBankInstrument(path, 0, DefaultMelodicBankMSB, DefaultBankLSB)]
  }

  class SwiftFlutterMidiProPlugin {
    /** Declared and initialised, never assigned (the branches use a local of the same name). */
    var message: string
    /** `_arguments`: the argument dictionary of the last note command. */
    var arguments: map<string, Value>
    /** Every request made to the engine and the sampler. */
    var events: seq<EngineEvent>

    constructor ()
      ensures message == "Please Send Message" && arguments == map[] && events == []
    {
      message := "Please Send Message";
      arguments := map[];
      events := [];
    }

    /**
     * `handle(call, result)`. `startFails` says whether `audioEngine.start()`
     * throws; a throwing bank load changes nothing the handler reports.
     */
    method Handle(call: MethodCall, startFails: bool) returns (r: HandleResult)
      modifies this`arguments, this`events
      ensures call.name == "load_soundfont" ==>
        && arguments == old(arguments)
        && match LoadPath(call.arguments)
          case None => r == Trap && events == old(events)
          case Some(path) => r == Text(PreparedSoundFont) && events == old(events) + LoadEvents(path, startFails)
      ensures call.name == "play_midi_note" ==>
        match call.arguments
        case None => r == Trap && arguments == old(arguments) && events == old(events)
        case Some(args) =>
          && arguments == args
          && var note, velocity := UInt8Argument(args, "note"), UInt8Argument(args, "velocity");
          if note.Some? && velocity.Some? then
            r == Text("Playing: " + Decimal.DecimalString(note.value)) &&
            events == old(events) + [StartNote(note.value, velocity.value, 0)]
          else r == Trap && events == old(events)
      ensures call.name == "stop_midi_note" ==>
        match call.arguments
        case None => r == Trap && arguments == old(arguments) && events == old(events)
        case Some(args) =>
          && arguments == args
          && var note := UInt8Argument(args, "note");
          if note.Some? then
            r == Text("Stopped: " + Decimal.DecimalString(note.value)) &&
            events == old(events) + [StopNote(note.value, 0)]
          else r == Trap && events == old(events)
      ensures call.name !in {"load_soundfont", "play_midi_note", "stop_midi_note"} ==>
        r == MethodNotImplemented && arguments == old(arguments) && events == old(events)
    {
      match call.name
      case "load_soundfont" =>
        var data := LoadPath(call.arguments);
        if data.None? {
          return Trap;
        }
        events := events + [Attach];
        events := events + [Connect];
        events := events + [Start];
        if !startFails {
          events := events + [LoadSoundBankInstrument(data.value, 0, DefaultMelodicBankMSB, DefaultBankLSB)];
        }
        r := Text(PreparedSoundFont);
      case "play_midi_note" =>
        if call.arguments.None? {
          return Trap;
        }
        arguments := call.arguments.value;
        var note := UInt8Argument(arguments, "note");
        if note.None? {
          return Trap;
        }
        var velocity := UInt8Argument(arguments, "velocity");
        if velocity.None? {
          return Trap;
        }
        events := events + [StartNote(note.value, velocity.value, 0)];
        r := Text("Playing: " + Decimal.DecimalString(note.value));
      case "stop_midi_note" =>
        if call.arguments.None? {
          return Trap;
        }
        arguments := call.arguments.value;
        var note := UInt8Argument(arguments, "note");
        if note.None? {
          return Trap;
        }
        events := events + [StopNote(note.value, 0)];
        r := Text("Stopped: " + Decimal.DecimalString(note.value));
      case _ =>
        r := MethodNotImplemented;
    }
  }

  /** The reply text of a note command ("Playing: " or "Stopped: " and the note) tells the note apart. */
  lemma {:induction false} NoteReplyNamesNote(prefix: string, m: nat, n: nat)
    requires prefix + Decimal.DecimalString(m) == prefix + Decimal.DecimalString(n)
    ensures m == n
  {
    var dm, dn := Decimal.DecimalString(m), Decimal.DecimalString(n);
    assert dm == (prefix + dm)[|prefix|..];
    assert dn == (prefix + dn)[|prefix|..];
    Decimal.DecimalStringInjective(m, n);
  }
}
