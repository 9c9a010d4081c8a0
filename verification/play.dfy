/** `play_chord_async` and `play_melody_async`: each picks a table entry from a
    load reading, records what it picked in the voice's `system_state` entry,
    and hands one play request to the sound engine. The request is kept as an
    `Emission` appended to a log instead of being forked onto a thread. */
module Play {
  import opened PyOps
  import opened Tables
  import opened MusicState

  /** A request given to the sound engine. `voice` names the instrument part
      (0 classical guitar, 1 jazz guitar, 2 piano, 3 electric piano). */
  datatype Emission =
    | ChordEvent(voice: nat, notes: seq<int>, volume: real, duration: real)
    | NoteEvent(voice: nat, pitch: int, volume: real, duration: real)

  /** The voices' entries together with the requests issued so far. */
  datatype Stage = Stage(voices: seq<Voice>, log: seq<Emission>)

  const ChordDuration: real := 0.9
  const NoteDuration: real := 0.2

  /** The level `play_chord_async` selects, as a position in the chord tables. */
  function ChordLevel(usage: real): int {
    Position(MapValue(usage, 8), 8)
  }

  /** The level `play_melody_async` selects, as a position in the melody table. */
  function MelodyLevel(usage: real): int {
    Position(MapValue(usage, 15), 15)
  }

  /** The label shown for a melody note. */
  function NoteLabel(pitch: int): string {
    "Note " + IntString(pitch)
  }

  /** `play_chord_async(inst, usage, core)`. */
  function PlayChord(g: Stage, usage: real, core: nat): (r: Result<Stage>)
    requires core < |g.voices|
    ensures r.Ok? <==> -8 <= MapValue(usage, 8) < 8
    ensures Percent(usage) ==> r.Ok? && ChordLevel(usage) == MapValue(usage, 8)
    ensures r.Ok? ==>
      var k := ChordLevel(usage);
      && 0 <= k < 8
      && r.value.voices == g.voices[core := g.voices[core].(note := ChordNames[k], active := true)]
      && r.value.log == g.log + [ChordEvent(core, Chords[k], BaseVol, ChordDuration)]
  {
    var idx := MapValue(usage, 8);
    var notes :- Index(Chords, idx);
    var name :- Index(ChordNames, idx);
    Ok(Stage(g.voices[core := g.voices[core].(note := name, active := true)],
             g.log + [ChordEvent(core, notes, BaseVol, ChordDuration)]))
  }

  /** `play_melody_async(inst, usage, core)`. */
  function PlayMelody(g: Stage, usage: real, core: nat): (r: Result<Stage>)
    requires core < |g.voices|
    ensures r.Ok? <==> -15 <= MapValue(usage, 15) < 15
    ensures Percent(usage) ==> r.Ok? && MelodyLevel(usage) == MapValue(usage, 15)
    ensures r.Ok? ==>
      var k := MelodyLevel(usage);
      && 0 <= k < 15
      && r.value.voices == g.voices[core := g.voices[core].(note := NoteLabel(MelodyNotes[k]), active := true)]
      && r.value.log == g.log + [NoteEvent(core, MelodyNotes[k], BaseVol + 0.1, NoteDuration)]
  {
    var idx := MapValue(usage, 15);
    var note :- Index(MelodyNotes, idx);
    Ok(Stage(g.voices[core := g.voices[core].(note := NoteLabel(note), active := true)],
             g.log + [NoteEvent(core, note, BaseVol + 0.1, NoteDuration)]))
  }

  /** The label a voice shows names what it played: a chord label determines
      the chord, and a melody label can be read back into the pitch. */
  lemma LabelsIdentifyPlayed(g: Stage, usage: real, core: nat)
    requires core < |g.voices|
    ensures PlayChord(g, usage, core).Ok? ==>
      forall k :: 0 <= k < |ChordNames| && ChordNames[k] == PlayChord(g, usage, core).value.voices[core].note ==>
        Chords[k] == PlayChord(g, usage, core).value.log[|g.log|].notes
    ensures PlayMelody(g, usage, core).Ok? ==>
      var shown := PlayMelody(g, usage, core).value.voices[core].note;
      && shown[..5] == "Note "
      && Numeral(shown[5..])
      && ParseInt(shown[5..]) == PlayMelody(g, usage, core).value.log[|g.log|].pitch
  {
    ChordNamesMatchRoots();
    var m := PlayMelody(g, usage, core);
    if m.Ok? {
      var p := MelodyNotes[MelodyLevel(usage)];
      IntStringRoundTrip(p);
      assert m.value.voices[core].note[5..] == IntString(p);
    }
  }
}
