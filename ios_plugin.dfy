/**
 * The iOS method-channel handler. `handle` reads three fields of the plugin
 * (`synth`, `isInitialized`, `isDisposed`) and never writes them, so it is
 * modelled as a function of those fields and the method name.
 */
module IosPlugin {

  /** The fields `handle` reads; `hasSynth` is `synth != nil`. */
  datatype PluginState = PluginState(hasSynth: bool, isInitialized: bool, isDisposed: bool)

  /** The field values of a freshly registered plugin; nothing in the class changes them. */
  const Registered := PluginState(false, false, false)

  /** What `handle` passes to `result`. */
  datatype HandleResult =
    | FlutterError(code: string, message: string)
    | Text(text: string)
    | Flag(flag: bool)
    | MethodNotImplemented

  const NotInitialized := FlutterError("NOT_INITIALIZED", "Synthesizer is not initialized")

  /** The guard in front of the switch. */
  function Rejects(s: PluginState, name: string): (r: bool)
    ensures r ==> name != "loadSoundfont" && !s.hasSynth
    ensures s.isInitialized && !s.isDisposed ==> !r
    ensures s == Registered ==> (r <==> name != "loadSoundfont")
  {
    (s.isDisposed || !s.isInitialized) && (name != "loadSoundfont" && !s.hasSynth)
  }

  /** The methods that answer with a fixed confirmation text. */
  const Confirming: set<string> := {"loadSoundfont", "changeSoundfont", "getInstruments", "playMidiNote", "stopMidiNote", "dispose"}

  /** The confirmation text of each method in `Confirming`. */
  function Confirmation(name: string): (r: string)
    requires name in Confirming
    ensures r != ""
  {
    match name
    case "loadSoundfont" => "Soundfont loaded successfully"
    case "changeSoundfont" => "Soundfont changed successfully"
    case "getInstruments" => "Instruments fetched successfully"
    case "playMidiNote" => "MIDI note played successfully"
    case "stopMidiNote" => "MIDI note stopped successfully"
    case "dispose" => "Synthesizer disposed"
  }

  /** `handle(call, result)`: the guard, then the switch on the method name. */
  function Handle(s: PluginState, name: string): (r: HandleResult)
    ensures r == NotInitialized <==> Rejects(s, name)
    ensures r.Flag? <==> !Rejects(s, name) && name == "isInitialized"
    ensures r.Flag? ==> r.flag == s.hasSynth
    ensures r.Text? <==> !Rejects(s, name) && name in Confirming
    ensures r.Text? ==> r.text == Confirmation(name)
    ensures r == MethodNotImplemented <==> !Rejects(s, name) && name != "isInitialized" && name !in Confirming
  {
    if Rejects(s, name) then NotInitialized
    else if name == "isInitialized" then Flag(s.hasSynth)
    else if name in Confirming then Text(Confirmation(name))
    else MethodNotImplemented
  }

  /** `loadSoundfont` is never rejected, and nothing is rejected while a synthesizer exists. */
  lemma GuardExemptions(s: PluginState, name: string)
    ensures Handle(s, "loadSoundfont") == Text("Soundfont loaded successfully")
    ensures s.hasSynth ==> Handle(s, name) != NotInitialized
  {
  }

  /** The answers to a series of calls; the state is the same for each, because `handle` writes no field. */
  function Session(s: PluginState, names: seq<string>): (r: seq<HandleResult>)
    ensures |r| == |names|
    ensures forall i :: 0 <= i < |names| ==> r[i] == Handle(s, names[i])
  {
    if names == [] then [] else [Handle(s, names[0])] + Session(s, names[1..])
  }

  /**
   * From the registered state, every call in any series except `loadSoundfont`
   * (including `isInitialized`) answers NOT_INITIALIZED, and `loadSoundfont`
   * does not change that for the later calls.
   */
  lemma {:induction false} RegisteredSession(names: seq<string>)
    ensures forall i :: 0 <= i < |names| ==>
      Session(Registered, names)[i] ==
        if names[i] == "loadSoundfont" then Text("Soundfont loaded successfully") else NotInitialized
  {
    forall i | 0 <= i < |names|
      ensures Session(Registered, names)[i] ==
        if names[i] == "loadSoundfont" then Text("Soundfont loaded successfully") else NotInitialized
    {
      assert Session(Registered, names)[i] == Handle(Registered, names[i]);
    }
  }
}
