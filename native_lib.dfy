/**
 * The JNI side of the Android plugin: one global FluidSynth synthesizer
 * (`synth`), its audio driver (`adriver`) and a `std::map<int, int>` named
 * `soundfonts` from soundfont id to the id FluidSynth assigned.
 *
 * FluidSynth itself is not modelled: every call into it is appended to an
 * event log (`calls`), and the values it returns (the id produced by
 * `fluid_synth_sfload`, the channel count of the synthesizer, the handles
 * produced by `new_fluid_synth`/`new_fluid_audio_driver`) are parameters.
 */
module NativeLib {
  import opened Wrappers

  /** An opaque pointer value returned by FluidSynth. */
  type Handle = nat

  /** One call into FluidSynth, in the order it was issued. */
  datatype FluidCall =
    | NewSynth(synth: Option<Handle>)
    | NewAudioDriver(driver: Option<Handle>, onSynth: Option<Handle>)
    | SfLoad(path: string, resetPresets: bool)
    | NoteOn(chan: int, key: int, vel: int)
    | NoteOff(chan: int, key: int)
    | ProgramSelect(chan: int, sfontId: int, bankNum: int, presetNum: int)
    | SfUnload(sfontId: int, resetPresets: bool)
    | DeleteAudioDriver(deletedDriver: Option<Handle>)
    | DeleteSynth(deletedSynth: Option<Handle>)

  /** The key of the first, second and third note of the trace played after a load. */
  const DemoKeys: seq<int> := [60, 62, 64]

  /** Note-on at full velocity, then note-off, of `key` on channel 0. */
  function Chime(key: int): (r: seq<FluidCall>)
    ensures |r| == 2 && r[0].NoteOn? && r[1].NoteOff?
    ensures r[0].chan == 0 && r[0].key == key && r[0].vel == 127
    ensures r[1].chan == 0 && r[1].key == key
  {
    [NoteOn(0, key, 127), NoteOff(0, key)]
  }

  /** The fixed trace `loadSoundfont` plays once the soundfont is loaded. */
  function DemoTrace(): (r: seq<FluidCall>)
    ensures |r| == 2 * |DemoKeys|
    ensures forall k :: 0 <= k < |DemoKeys| ==> r[2 * k] == NoteOn(0, DemoKeys[k], 127) && r[2 * k + 1] == NoteOff(0, DemoKeys[k])
  {
    Chime(DemoKeys[0]) + Chime(DemoKeys[1]) + Chime(DemoKeys[2])
  }

  /**
   * The map after `m[key]` has been evaluated with `std::map::operator[]`:
   * an absent key is inserted with the value-initialised int 0.
   */
  function Indexed(m: map<int, int>, key: int): (r: map<int, int>)
    ensures key in r && r[key] == (if key in m then m[key] else 0)
    ensures r.Keys == m.Keys + {key}
    ensures forall k :: k in m ==> r[k] == m[k]
  {
    if key in m then m else m[key := 0]
  }

  /** Evaluating `operator[]` a second time on the same key changes nothing more. */
  lemma IndexedIdempotent(m: map<int, int>, key: int)
    ensures Indexed(Indexed(m, key), key) == Indexed(m, key)
  {
  }

  /** One program-select per channel 0 .. count-1, all with the same font, bank and preset. */
  function ProgramSelects(sfontId: int, bank: int, program: int, count: int): (r: seq<FluidCall>)
    ensures |r| == if count <= 0 then 0 else count
    ensures forall i :: 0 <= i < |r| ==> r[i] == ProgramSelect(i, sfontId, bank, program)
    decreases count
  {
    if count <= 0 then [] else ProgramSelects(sfontId, bank, program, count - 1) + [ProgramSelect(count - 1, sfontId, bank, program)]
  }

  /**
   * Unloading (operator[] followed by erase) a key that was absent leaves the
   * map as it was; unloading a present key removes it and nothing else.
   */
  lemma UnloadEffect(m: map<int, int>, key: int)
    ensures Indexed(m, key) - {key} == m - {key}
    ensures key !in m ==> Indexed(m, key) - {key} == m
    ensures forall k :: k in m && k != key ==> k in Indexed(m, key) - {key} && (Indexed(m, key) - {key})[k] == m[k]
  {
    if key !in m {
      assert Indexed(m, key) - {key} == m;
    }
  }

  class NativeSynth {
    /** `fluid_synth_t* synth`, NULL until initialised and again after dispose. */
    var synth: Option<Handle>
    /** `fluid_audio_driver_t* adriver`. */
    var adriver: Option<Handle>
    /** `std::map<int, int> soundfonts`. */
    var soundfonts: map<int, int>
    /** Every FluidSynth call issued so far. */
    var calls: seq<FluidCall>

    /** The state of the globals when the library is loaded. */
    constructor ()
      ensures synth == None && adriver == None && soundfonts == map[] && calls == []
    {
      synth := None;
      adriver := None;
      soundfonts := map[];
      calls := [];
    }

    /**
     * `fluidsynthInit`: creates the synthesizer and then its audio driver on
     * that synthesizer. `newSynth` and `newDriver` are what
     * `new_fluid_synth` and `new_fluid_audio_driver` hand back, None (NULL)
     * when creation fails; either is stored as it is, without a check.
     */
    method FluidsynthInit(newSynth: Option<Handle>, newDriver: Option<Handle>)
      modifies this
      ensures synth == newSynth && adriver == newDriver
      ensures soundfonts == old(soundfonts)
      ensures calls == old(calls) + [NewSynth(newSynth), NewAudioDriver(newDriver, newSynth)]
    {
      synth := newSynth;
      calls := calls + [NewSynth(newSynth)];
      adriver := newDriver;
      calls := calls + [NewAudioDriver(newDriver, synth)];
    }

    /** `soundfonts[key]` read through `operator[]`. */
    method Subscript(key: int) returns (v: int)
      modifies this`soundfonts
      ensures soundfonts == Indexed(old(soundfonts), key)
      ensures v == (if key in old(soundfonts) then old(soundfonts)[key] else 0)
    {
      if key !in soundfonts {
        soundfonts := soundfonts[key := 0];
      }
      v := soundfonts[key];
    }

    /**
     * `loadSoundfont(path)`: `loaded` is what `fluid_synth_sfload` returns
     * (an id, or FLUID_FAILED). It is stored under itself without any check,
     * the demo trace is played, and it is returned.
     */
    method LoadSoundfont(path: string, loaded: int) returns (sfId: int)
      modifies this`soundfonts, this`calls
      ensures sfId == loaded
      ensures soundfonts == old(soundfonts)[loaded := loaded]
      ensures calls == old(calls) + [SfLoad(path, true)] + DemoTrace()
    {
      sfId := loaded;
      calls := calls + [SfLoad(path, true)];
      soundfonts := soundfonts[sfId := sfId];
      calls := calls + [NoteOn(0, 60, 127)];
      // sleep(1)
      calls := calls + [NoteOff(0, 60)];
      calls := calls + [NoteOn(0, 62, 127)];
      calls := calls + [NoteOff(0, 62)];
      calls := calls + [NoteOn(0, 64, 127)];
      calls := calls + [NoteOff(0, 64)];
    }

    /**
     * `selectInstrument(sfId, bank, program)`: for each channel index below
     * `channelCount` (what `fluid_synth_count_midi_channels` reports), selects
     * the font `soundfonts[sfId]`. The read happens inside the loop, so an
     * absent id is inserted with value 0 only when at least one channel exists.
     */
    method SelectInstrument(sfId: int, bank: int, program: int, channelCount: int)
      modifies this`soundfonts, this`calls
      ensures soundfonts == if channelCount > 0 then Indexed(old(soundfonts), sfId) else old(soundfonts)
      ensures calls == old(calls) + ProgramSelects(
        if sfId in old(soundfonts) then old(soundfonts)[sfId] else 0, bank, program, channelCount)
    {
      ghost var font := if sfId in soundfonts then soundfonts[sfId] else 0;
      var i := 0;
      while i < channelCount
        invariant 0 <= i && (if channelCount > 0 then i <= channelCount else i == 0)
        invariant soundfonts == if i == 0 then old(soundfonts) else Indexed(old(soundfonts), sfId)
        invariant calls == old(calls) + ProgramSelects(font, bank, program, i)
      {
        var f := Subscript(sfId);
        calls := calls + [ProgramSelect(i, f, bank, program)];
        i := i + 1;
      }
    }

    /** `playNote`: forwards channel, key and velocity as they are. */
    method PlayNote(channel: int, key: int, velocity: int)
      modifies this`calls
      ensures calls == old(calls) + [NoteOn(channel, key, velocity)]
    {
      calls := calls + [NoteOn(channel, key, velocity)];
    }

    /** `stopNote`: forwards channel and key as they are. */
    method StopNote(channel: int, key: int)
      modifies this`calls
      ensures calls == old(calls) + [NoteOff(channel, key)]
    {
      calls := calls + [NoteOff(channel, key)];
    }

    /**
     * `unloadSoundfont(sfId)`: unloads the font `soundfonts[sfId]` (0 for an
     * absent id, inserted on the way) and then erases the entry.
     */
    method UnloadSoundfont(sfId: int)
      modifies this`soundfonts, this`calls
      ensures soundfonts == old(soundfonts) - {sfId}
      ensures calls == old(calls) + [SfUnload(if sfId in old(soundfonts) then old(soundfonts)[sfId] else 0, false)]
    {
      var f := Subscript(sfId);
      calls := calls + [SfUnload(f, false)];
      UnloadEffect(old(soundfonts), sfId);
      soundfonts := soundfonts - {sfId};
    }

    /**
     * `dispose`: deletes the driver and the synthesizer, resets `synth` to
     * NULL and clears the map. `adriver` is not reset, so a second call
     * deletes the same driver pointer again.
     */
    method Dispose()
      modifies this`synth, this`soundfonts, this`calls
      ensures synth == None && soundfonts == map[]
      ensures calls == old(calls) + [DeleteAudioDriver(adriver), DeleteSynth(old(synth))]
    {
      calls := calls + [DeleteAudioDriver(adriver)];
      calls := calls + [DeleteSynth(synth)];
      synth := None;
      soundfonts := map[];
    }

    /**
     * Two `dispose` calls in a row: the second deletes the same driver
     * pointer as the first (it was never reset) and a NULL synthesizer.
     */
    method DisposeTwice()
      modifies this`synth, this`soundfonts, this`calls
      ensures synth == None && soundfonts == map[] && adriver == old(adriver)
      ensures calls == old(calls) + [DeleteAudioDriver(adriver), DeleteSynth(old(synth)), DeleteAudioDriver(adriver), DeleteSynth(None)]
      ensures calls[|old(calls)|] == calls[|old(calls)| + 2] == DeleteAudioDriver(old(adriver))
    {
      Dispose();
      Dispose();
    }
  }

}
