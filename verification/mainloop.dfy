/** One pass of the body of `main`'s loop, as a pure step: select the four
    target cores' readings, slide every history by one sample, let the chord
    voices (0 and 2) play on every fourth tick and the melody voices (1 and 3)
    play when the middle sample of their window is a strict peak or trough,
    advance the tick counter, and render the table.

    The operating system reports per-core loads between 0 and 100, and the
    loop is modelled only for such readings. Outside that range the program
    behaves in two ways, neither modelled here: some readings (100.1 and
    above, or far enough below 0) make the loop raise `IndexError`, exactly
    where `PlayChord`, `PlayMelody` and `Sparkline` fail; others (such as
    -5.0 or 100.05) are accepted and played or drawn without error. */
module MainLoop {
  import opened PyOps
  import opened Tables
  import opened MusicState
  import opened Play
  import opened Display

  /** The readings of the cores listed in `targets`, in that order; a core the
      machine does not have reads as 0.0. */
  function SelectFrom(targets: seq<nat>, cpuAll: seq<real>): (r: seq<real>)
    ensures |r| == |targets|
    ensures forall i :: 0 <= i < |targets| ==>
      r[i] == if targets[i] < |cpuAll| then cpuAll[targets[i]] else 0.0
  {
    if targets == [] then []
    else
      var c := targets[|targets| - 1];
      SelectFrom(targets[..|targets| - 1], cpuAll) + [if c < |cpuAll| then cpuAll[c] else 0.0]
  }

  /** `current_vals`: the readings that drive the four voices. */
  function SelectCores(cpuAll: seq<real>): (r: seq<real>)
    ensures |r| == 4
  {
    SelectFrom(TargetCores, cpuAll)
  }

  /** Every per-core reading is a load percentage. */
  predicate Readings(cpuAll: seq<real>) {
    forall k :: 0 <= k < |cpuAll| ==> Percent(cpuAll[k])
  }

  /** On a machine with at least ten cores the voices follow cores 1, 4, 7 and
      10; with fewer, the missing cores read as idle, and whatever the machine,
      the selected values are load percentages when the readings are. */
  lemma SelectCoresReadings(cpuAll: seq<real>)
    ensures 10 <= |cpuAll| ==> SelectCores(cpuAll) == [cpuAll[0], cpuAll[3], cpuAll[6], cpuAll[9]]
    ensures |cpuAll| <= 9 ==> SelectCores(cpuAll)[3] == 0.0
    ensures |cpuAll| == 0 ==> SelectCores(cpuAll) == [0.0, 0.0, 0.0, 0.0]
    ensures Readings(cpuAll) ==> forall i :: 0 <= i < 4 ==> Percent(SelectCores(cpuAll)[i])
  {
    var r := SelectCores(cpuAll);
    assert forall i :: 0 <= i < 4 ==> r[i] == if TargetCores[i] < |cpuAll| then cpuAll[TargetCores[i]] else 0.0;
  }

  /** The first half of a tick: every voice's window and graph history take the
      new reading, and its `cpu` entry shows it. */
  function Record(st: State, vals: seq<real>): (st': State)
    requires Valid(st) && |vals| == 4
    ensures Valid(st') && st'.tick == st.tick
    ensures forall i :: 0 <= i < 4 ==>
      && st'.logic[i] == Window(st.logic[i].middle, st.logic[i].newest, vals[i])
      && st'.vis[i].items == st.vis[i].items[1..] + [vals[i]]
      && st'.voices[i] == st.voices[i].(cpu := vals[i])
  {
    var l, h, v := st.logic, st.vis, st.voices;
    st.(logic := [Slide(l[0], vals[0]), Slide(l[1], vals[1]), Slide(l[2], vals[2]), Slide(l[3], vals[3])],
        vis := [Append(h[0], vals[0]), Append(h[1], vals[1]), Append(h[2], vals[2]), Append(h[3], vals[3])],
        voices := [v[0].(cpu := vals[0]), v[1].(cpu := vals[1]), v[2].(cpu := vals[2]), v[3].(cpu := vals[3])])
  }

  /** Recording load percentages keeps every stored reading a load
      percentage. */
  lemma RecordSane(st: State, vals: seq<real>)
    requires Valid(st) && Sane(st) && |vals| == 4
    requires forall i :: 0 <= i < 4 ==> Percent(vals[i])
    ensures Sane(Record(st, vals))
  {
  }

  /** The melody trigger: the middle sample is strictly above both neighbours
      or strictly below both. */
  predicate IsPeakOrTrough(w: Window) {
    (w.middle > w.oldest && w.middle > w.newest) || (w.middle < w.oldest && w.middle < w.newest)
  }

  /** The trigger fires exactly when the middle sample differs from both
      neighbours and lies on the same side of each; in particular a
      non-decreasing, non-increasing or tied window never fires. */
  lemma PeakOrTroughIff(w: Window)
    ensures IsPeakOrTrough(w) <==>
      w.middle != w.oldest && w.middle != w.newest && (w.oldest < w.middle <==> w.newest < w.middle)
    ensures (w.oldest <= w.middle <= w.newest) || (w.oldest >= w.middle >= w.newest) ==> !IsPeakOrTrough(w)
  {
  }

  /** A chord voice on tick `tick`: plays the chord for `usage` on every fourth
      tick and leaves everything alone otherwise. */
  function ChordVoice(g: Stage, tick: nat, usage: real, core: nat): (r: Stage)
    requires core < |g.voices| && Percent(usage)
    ensures tick % 4 != 0 ==> r == g
    ensures |r.voices| == |g.voices|
    ensures forall j :: 0 <= j < |g.voices| && j != core ==> r.voices[j] == g.voices[j]
    ensures tick % 4 == 0 ==>
      && r.voices[core] == g.voices[core].(note := ChordNames[MapValue(usage, 8)], active := true)
      && r.log == g.log + [ChordEvent(core, Chords[MapValue(usage, 8)], BaseVol, ChordDuration)]
  {
    if tick % 4 == 0 then PlayChord(g, usage, core).value else g
  }

  /** A melody voice with trigger window `w`: plays the note for the middle
      sample when it is a peak or a trough, and otherwise shows "-". */
  function MelodyVoice(g: Stage, w: Window, core: nat): (r: Stage)
    requires core < |g.voices| && Percent(w.middle)
    ensures |r.voices| == |g.voices|
    ensures forall j :: 0 <= j < |g.voices| && j != core ==> r.voices[j] == g.voices[j]
    ensures !IsPeakOrTrough(w) ==> r == g.(voices := g.voices[core := g.voices[core].(note := "-")])
    ensures IsPeakOrTrough(w) ==>
      && r.voices[core] == g.voices[core].(note := NoteLabel(MelodyNotes[MapValue(w.middle, 15)]), active := true)
      && r.log == g.log + [NoteEvent(core, MelodyNotes[MapValue(w.middle, 15)], BaseVol + 0.1, NoteDuration)]
  {
    if IsPeakOrTrough(w) then PlayMelody(g, w.middle, core).value
    else g.(voices := g.voices[core := g.voices[core].(note := "-")])
  }

  /** The voices that issued the requests of `log`, in order. */
  function Voices(log: seq<Emission>): (vs: seq<nat>)
    ensures |vs| == |log| && forall k :: 0 <= k < |log| ==> vs[k] == log[k].voice
  {
    seq(|log|, k requires 0 <= k < |log| => log[k].voice)
  }

  /** The voice `v`, as a list of voices that played, if it `fires`. */
  function Fired(fires: bool, v: nat): seq<nat> {
    if fires then [v] else []
  }

  /** A chord voice adds its own request to the log exactly on a beat. */
  lemma ChordVoiceFires(g: Stage, tick: nat, usage: real, core: nat)
    requires core < |g.voices| && Percent(usage)
    ensures Voices(ChordVoice(g, tick, usage, core).log) == Voices(g.log) + Fired(tick % 4 == 0, core)
  {
  }

  /** A melody voice adds its own request to the log exactly when its window
      peaks or dips. */
  lemma MelodyVoiceFires(g: Stage, w: Window, core: nat)
    requires core < |g.voices| && Percent(w.middle)
    ensures Voices(MelodyVoice(g, w, core).log) == Voices(g.log) + Fired(IsPeakOrTrough(w), core)
  {
  }

  /** What the `# Logic` block relies on: four voices, four selected
      readings and four windows, with the readings the chord voices use and the
      middle samples the melody voices use being load percentages. */
  predicate Playable(voices: seq<Voice>, vals: seq<real>, logic: seq<Window>) {
    && |voices| == 4 && |vals| == 4 && |logic| == 4
    && Percent(vals[0]) && Percent(vals[2])
    && Percent(logic[1].middle) && Percent(logic[3].middle)
  }

  /** The `# Logic` block of the loop body on tick `tick`: chord voice 0,
      melody voice 1, chord voice 2 and melody voice 3 take their turns in
      that order, starting from the voices as recording left them. */
  function Logic(voices: seq<Voice>, tick: nat, vals: seq<real>, logic: seq<Window>): (g: Stage)
    requires Playable(voices, vals, logic)
    ensures |g.voices| == 4
    ensures forall j :: 0 <= j < 4 ==> g.voices[j].role == voices[j].role && g.voices[j].cpu == voices[j].cpu
  {
    var g1 := ChordVoice(Stage(voices, []), tick, vals[0], 0);
    var g2 := MelodyVoice(g1, logic[1], 1);
    var g3 := ChordVoice(g2, tick, vals[2], 2);
    MelodyVoice(g3, logic[3], 3)
  }

  /** Which voices play, and in which order: chord voices 0 and 2 exactly on
      ticks divisible by 4, melody voices 1 and 3 exactly when their window
      peaks or dips, in voice order, each at most once. */
  lemma LogicFiring(voices: seq<Voice>, tick: nat, vals: seq<real>, logic: seq<Window>)
    requires Playable(voices, vals, logic)
    ensures var beat := tick % 4 == 0;
      Voices(Logic(voices, tick, vals, logic).log) ==
        Fired(beat, 0) + Fired(IsPeakOrTrough(logic[1]), 1) + Fired(beat, 2) + Fired(IsPeakOrTrough(logic[3]), 3)
  {
    var g1 := ChordVoice(Stage(voices, []), tick, vals[0], 0);
    var g2 := MelodyVoice(g1, logic[1], 1);
    var g3 := ChordVoice(g2, tick, vals[2], 2);
    ChordVoiceFires(Stage(voices, []), tick, vals[0], 0);
    MelodyVoiceFires(g1, logic[1], 1);
    ChordVoiceFires(g2, tick, vals[2], 2);
    MelodyVoiceFires(g3, logic[3], 3);
  }

  /** What each voice shows afterwards: a chord voice shows its chord's name
      and turns active on every fourth tick and is untouched otherwise; a
      melody voice shows "Note n" for the pitch of its window's middle sample
      and turns active when that sample is a peak or trough, and shows "-"
      otherwise. */
  lemma LogicVoices(voices: seq<Voice>, tick: nat, vals: seq<real>, logic: seq<Window>)
    requires Playable(voices, vals, logic)
    ensures var g := Logic(voices, tick, vals, logic);
      var beat := tick % 4 == 0;
      && (forall c :: (c == 0 || c == 2) && beat ==>
            && g.voices[c].note == ChordNames[MapValue(vals[c], 8)]
            && g.voices[c].active)
      && (forall c :: (c == 0 || c == 2) && !beat ==>
            && g.voices[c].note == voices[c].note
            && g.voices[c].active == voices[c].active)
      && (forall m :: (m == 1 || m == 3) && IsPeakOrTrough(logic[m]) ==>
            && g.voices[m].note == NoteLabel(MelodyNotes[MapValue(logic[m].middle, 15)])
            && g.voices[m].active)
      && (forall m :: (m == 1 || m == 3) && !IsPeakOrTrough(logic[m]) ==>
            && g.voices[m].note == "-"
            && g.voices[m].active == voices[m].active)
  {
  }

  /** Starting with no voice active, afterwards exactly the voices that
      played are active. */
  lemma LogicLightsPlayers(voices: seq<Voice>, tick: nat, vals: seq<real>, logic: seq<Window>)
    requires Playable(voices, vals, logic)
    requires forall v :: 0 <= v < 4 ==> !voices[v].active
    ensures var g := Logic(voices, tick, vals, logic);
      forall v :: 0 <= v < 4 ==> (g.voices[v].active <==> v in Voices(g.log))
  {
    LogicFiring(voices, tick, vals, logic);
    LogicVoices(voices, tick, vals, logic);
    var beat := tick % 4 == 0;
    var p1, p3 := IsPeakOrTrough(logic[1]), IsPeakOrTrough(logic[3]);
    var played := Fired(beat, 0) + Fired(p1, 1) + Fired(beat, 2) + Fired(p3, 3);
    forall v | 0 <= v < 4
      ensures v in played <==> (if v == 0 || v == 2 then beat else if v == 1 then p1 else p3)
    {
    }
  }

  /** In the firing order of the `# Logic` block, each chord voice occurs
      exactly once on a beat and not at all otherwise. */
  lemma FiredChordCount(beat: bool, p1: bool, p3: bool, c: nat)
    requires c == 0 || c == 2
    ensures Count(Fired(beat, 0) + Fired(p1, 1) + Fired(beat, 2) + Fired(p3, 3), c) == if beat then 1 else 0
  {
    CountAppend(Fired(beat, 0) + Fired(p1, 1) + Fired(beat, 2), Fired(p3, 3), c);
    CountAppend(Fired(beat, 0) + Fired(p1, 1), Fired(beat, 2), c);
    CountAppend(Fired(beat, 0), Fired(p1, 1), c);
  }

  /** A request as the `# Logic` block with selected readings `vals` and
      windows `logic` should issue it: a chord voice plays the triad for its
      reading at volume 0.6 for 0.9 s, a melody voice the pitch for its
      window's middle sample at volume 0.7 for 0.2 s. */
  predicate Proper(e: Emission, vals: seq<real>, logic: seq<Window>)
    requires |vals| == 4 && |logic| == 4
  {
    if e.voice == 0 || e.voice == 2 then
      && 0 <= MapValue(vals[e.voice], 8) < 8
      && e == ChordEvent(e.voice, Chords[MapValue(vals[e.voice], 8)], 0.6, 0.9)
    else
      && (e.voice == 1 || e.voice == 3)
      && 0 <= MapValue(logic[e.voice].middle, 15) < 15
      && e == NoteEvent(e.voice, MelodyNotes[MapValue(logic[e.voice].middle, 15)], 0.7, 0.2)
  }

  /** Every request of `log` is the one its voice's rule prescribes. */
  predicate AllProper(log: seq<Emission>, vals: seq<real>, logic: seq<Window>)
    requires |vals| == 4 && |logic| == 4
  {
    forall k :: 0 <= k < |log| ==> Proper(log[k], vals, logic)
  }

  /** A chord voice's turn adds only a properly formed request. */
  lemma ChordVoiceProper(g: Stage, tick: nat, vals: seq<real>, logic: seq<Window>, core: nat)
    requires core < |g.voices| && (core == 0 || core == 2) && |vals| == 4 && |logic| == 4
    requires Percent(vals[core]) && AllProper(g.log, vals, logic)
    ensures AllProper(ChordVoice(g, tick, vals[core], core).log, vals, logic)
  {
  }

  /** A melody voice's turn adds only a properly formed request. */
  lemma MelodyVoiceProper(g: Stage, vals: seq<real>, logic: seq<Window>, core: nat)
    requires core < |g.voices| && (core == 1 || core == 3) && |vals| == 4 && |logic| == 4
    requires Percent(logic[core].middle) && AllProper(g.log, vals, logic)
    ensures AllProper(MelodyVoice(g, logic[core], core).log, vals, logic)
  {
  }

  /** Every request issued is the one its voice's rule prescribes. */
  lemma LogicRequests(voices: seq<Voice>, tick: nat, vals: seq<real>, logic: seq<Window>)
    requires Playable(voices, vals, logic)
    ensures AllProper(Logic(voices, tick, vals, logic).log, vals, logic)
  {
    var g1 := ChordVoice(Stage(voices, []), tick, vals[0], 0);
    var g2 := MelodyVoice(g1, logic[1], 1);
    var g3 := ChordVoice(g2, tick, vals[2], 2);
    ChordVoiceProper(Stage(voices, []), tick, vals, logic, 0);
    MelodyVoiceProper(g1, vals, logic, 1);
    ChordVoiceProper(g2, tick, vals, logic, 2);
    MelodyVoiceProper(g3, vals, logic, 3);
  }

  /** What one or more passes leave behind: the state and the requests
      issued, oldest first. */
  datatype Outcome = Outcome(state: State, log: seq<Emission>)

  /** The body of `main`'s loop up to `tick_count += 1`, for the per-core
      readings `cpuAll`: recording, then the `# Logic` block. */
  function Tick(st: State, cpuAll: seq<real>): (r: Outcome)
    requires Valid(st) && Sane(st) && Readings(cpuAll)
    ensures Valid(r.state) && Sane(r.state) && r.state.tick == st.tick + 1
  {
    var vals := SelectCores(cpuAll);
    var rec := Record(st, vals);
    TickPlayable(st, cpuAll);
    RecordSane(st, vals);
    var g := Logic(rec.voices, st.tick, vals, rec.logic);
    Outcome(rec.(voices := g.voices, tick := st.tick + 1), g.log)
  }

  /** The recorded state satisfies what the `# Logic` block relies on. */
  lemma TickPlayable(st: State, cpuAll: seq<real>)
    requires Valid(st) && Sane(st) && Readings(cpuAll)
    ensures var vals := SelectCores(cpuAll);
      var rec := Record(st, vals);
      Playable(rec.voices, vals, rec.logic)
  {
    SelectCoresReadings(cpuAll);
  }

  /** Every tick keeps the windows at three samples, shifting the two newest
      down and appending the new reading, keeps the graph histories at 30
      samples ending in the new reading, and shows the new reading in `cpu`. */
  lemma TickHistories(st: State, cpuAll: seq<real>)
    requires Valid(st) && Sane(st) && Readings(cpuAll)
    ensures var st' := Tick(st, cpuAll).state;
      var vals := SelectCores(cpuAll);
      forall i :: 0 <= i < 4 ==>
        && st'.logic[i] == Window(st.logic[i].middle, st.logic[i].newest, vals[i])
        && Items(st'.logic[i]) == Items(st.logic[i])[1..] + [vals[i]]
        && |st'.vis[i].items| == GraphWidth
        && st'.vis[i].items == st.vis[i].items[1..] + [vals[i]]
        && st'.voices[i].cpu == vals[i]
        && st'.voices[i].role == st.voices[i].role
  {
    TickPlayable(st, cpuAll);
  }

  /** A tick's requests and voices are those of the `# Logic` block run on the
      recorded state, with the windows the tick leaves behind. */
  lemma TickRunsLogic(st: State, cpuAll: seq<real>)
    requires Valid(st) && Sane(st) && Readings(cpuAll)
    ensures var out := Tick(st, cpuAll);
      var vals := SelectCores(cpuAll);
      var rec := Record(st, vals);
      && Playable(rec.voices, vals, out.state.logic)
      && (forall i :: 0 <= i < 4 ==> rec.voices[i].note == st.voices[i].note && rec.voices[i].active == st.voices[i].active)
      && out.state.voices == Logic(rec.voices, st.tick, vals, out.state.logic).voices
      && out.log == Logic(rec.voices, st.tick, vals, out.state.logic).log
  {
    TickPlayable(st, cpuAll);
  }

  /** One pass of `main`'s loop: the tick, then `live.update(generate_table())`,
      which clears the `active` flags. The rows it shows are `GenerateTable` of
      the tick's state (see `StepShowsTable`). */
  function Step(st: State, cpuAll: seq<real>): (r: Outcome)
    requires Valid(st) && Sane(st) && Readings(cpuAll)
    ensures Valid(r.state) && Sane(r.state) && r.state.tick == st.tick + 1
    ensures forall i :: 0 <= i < 4 ==> !r.state.voices[i].active
  {
    var t := Tick(st, cpuAll);
    Outcome(ClearActive(t.state), t.log)
  }

  /** The table drawn after the tick can be drawn, and the pass leaves the
      state that drawing it leaves. */
  lemma StepShowsTable(st: State, cpuAll: seq<real>)
    requires Valid(st) && Sane(st) && Readings(cpuAll)
    ensures GenerateTable(Tick(st, cpuAll).state).Ok?
    ensures Step(st, cpuAll).state == GenerateTable(Tick(st, cpuAll).state).value.state
    ensures Step(st, cpuAll).log == Tick(st, cpuAll).log
  {
    SaneDrawable(Tick(st, cpuAll).state);
  }

  /** When no voice is active as a pass begins, which is so after every pass,
      the table drawn after the tick lights exactly the voices that played in
      it. */
  lemma StepLightsPlayedVoices(st: State, cpuAll: seq<real>)
    requires Valid(st) && Sane(st) && Readings(cpuAll)
    requires forall i :: 0 <= i < 4 ==> !st.voices[i].active
    ensures var t := Tick(st, cpuAll);
      GenerateTable(t.state).Ok? &&
      forall v :: 0 <= v < 4 ==> (GenerateTable(t.state).value.rows[v].icon == ActiveIcon <==> v in Voices(t.log))
  {
    var t := Tick(st, cpuAll);
    SaneDrawable(t.state);
    TickRunsLogic(st, cpuAll);
    var vals := SelectCores(cpuAll);
    LogicLightsPlayers(Record(st, vals).voices, st.tick, vals, t.state.logic);
  }

  /** Every reading of every sample is a load percentage. */
  predicate AllReadings(samples: seq<seq<real>>) {
    forall n :: 0 <= n < |samples| ==> Readings(samples[n])
  }

  /** Successive passes of the loop over the readings `samples`, one pass per
      element: `while True` cut off after the last sample. */
  function Run(st: State, samples: seq<seq<real>>): (r: Outcome)
    requires Valid(st) && Sane(st) && AllReadings(samples)
    ensures Valid(r.state) && Sane(r.state) && r.state.tick == st.tick + |samples|
    decreases |samples|, 2
  {
    if samples == [] then Outcome(st, []) else Next(st, samples)
  }

  /** The readings that remain after the first sample are readings too. */
  lemma AllReadingsTail(samples: seq<seq<real>>)
    requires AllReadings(samples) && samples != []
    ensures AllReadings(samples[1..])
  {
    forall n | 0 <= n < |samples[1..]| ensures Readings(samples[1..][n]) {
      assert samples[1..][n] == samples[n + 1];
    }
  }

  /** The top of the loop when a sample remains: `psutil` delivers it, and the
      pass runs on it with the remaining samples still to come. */
  function Next(st: State, samples: seq<seq<real>>): (r: Outcome)
    requires Valid(st) && Sane(st) && AllReadings(samples) && samples != []
    ensures Valid(r.state) && Sane(r.state) && r.state.tick == st.tick + |samples|
    decreases |samples|, 1
  {
    AllReadingsTail(samples);
    Pass(st, samples[0], samples[1..])
  }

  /** One pass on the readings `cpuAll`, then the run over the samples
      `later`; the pass's requests come before the later ones. */
  function Pass(st: State, cpuAll: seq<real>, later: seq<seq<real>>): (r: Outcome)
    requires Valid(st) && Sane(st) && Readings(cpuAll) && AllReadings(later)
    ensures Valid(r.state) && Sane(r.state) && r.state.tick == st.tick + 1 + |later|
    decreases |later| + 1, 0
  {
    var f := Step(st, cpuAll);
    var rest := Run(f.state, later);
    Outcome(rest.state, f.log + rest.log)
  }

  /** How many times voice `v` occurs in `vs`. */
  function Count(vs: seq<nat>, v: nat): nat {
    if vs == [] then 0 else Count(vs[1..], v) + (if vs[0] == v then 1 else 0)
  }

  lemma {:induction false} CountAppend(a: seq<nat>, b: seq<nat>, v: nat)
    ensures Count(a + b, v) == Count(a, v) + Count(b, v)
  {
    if a != [] {
      assert (a + b)[1..] == a[1..] + b;
      CountAppend(a[1..], b, v);
    } else {
      assert a + b == b;
    }
  }

  lemma CountLogs(a: seq<Emission>, b: seq<Emission>, c: nat)
    ensures Count(Voices(a + b), c) == Count(Voices(a), c) + Count(Voices(b), c)
  {
    assert Voices(a + b) == Voices(a) + Voices(b);
    CountAppend(Voices(a), Voices(b), c);
  }

  /** The number of ticks among `n` ticks starting at `t` that are divisible
      by 4, i.e. on which the chord voices play. */
  function ChordTicks(t: nat, n: nat): nat
    decreases n
  {
    if n == 0 then 0 else (if t % 4 == 0 then 1 else 0) + ChordTicks(t + 1, n - 1)
  }

  /** One pass issues exactly one request from each chord voice on a tick
      divisible by 4 and none otherwise. */
  lemma StepChordCount(st: State, cpuAll: seq<real>, c: nat)
    requires Valid(st) && Sane(st) && Readings(cpuAll) && (c == 0 || c == 2)
    ensures Count(Voices(Step(st, cpuAll).log), c) == if st.tick % 4 == 0 then 1 else 0
  {
    TickRunsLogic(st, cpuAll);
    var vals := SelectCores(cpuAll);
    var logic := Tick(st, cpuAll).state.logic;
    LogicFiring(Record(st, vals).voices, st.tick, vals, logic);
    FiredChordCount(st.tick % 4 == 0, IsPeakOrTrough(logic[1]), IsPeakOrTrough(logic[3]), c);
  }

  /** The first pass of a run, on tick `st.tick`, adds one request of chord
      voice `c` to those of the rest of the run when the tick is divisible by
      4, and none otherwise; the rest of the run starts from `next`, the state
      that first pass leaves, one tick later. */
  lemma FirstPassChordCount(st: State, samples: seq<seq<real>>, c: nat) returns (next: State)
    requires Valid(st) && Sane(st) && AllReadings(samples) && samples != [] && (c == 0 || c == 2)
    ensures AllReadings(samples[1..])
    ensures Valid(next) && Sane(next) && next.tick == st.tick + 1
    ensures next == Run(st, samples[..1]).state
    ensures Count(Voices(Run(st, samples).log), c) ==
      (if st.tick % 4 == 0 then 1 else 0) + Count(Voices(Run(next, samples[1..]).log), c)
  {
    AllReadingsTail(samples);
    var f := Step(st, samples[0]);
    next := f.state;
    assert Run(st, samples) == Pass(st, samples[0], samples[1..]);
    assert samples[..1][0] == samples[0] && samples[..1][1..] == [];
    assert Run(st, samples[..1]) == Pass(st, samples[0], []);
    StepChordCount(st, samples[0], c);
    CountLogs(f.log, Run(next, samples[1..]).log, c);
  }

  /** Over any run of passes, each chord voice plays once per tick divisible
      by 4. */
  lemma {:induction false} RunChordCadence(st: State, samples: seq<seq<real>>, c: nat)
    requires Valid(st) && Sane(st) && AllReadings(samples) && (c == 0 || c == 2)
    ensures Count(Voices(Run(st, samples).log), c) == ChordTicks(st.tick, |samples|)
    decreases |samples|
  {
    if samples != [] {
      var next := FirstPassChordCount(st, samples, c);
      RunChordCadence(next, samples[1..], c);
    }
  }

  /** In any four consecutive passes each chord voice plays exactly once. */
  lemma FourPassesOneChord(st: State, samples: seq<seq<real>>, c: nat)
    requires Valid(st) && Sane(st) && AllReadings(samples) && |samples| == 4 && (c == 0 || c == 2)
    ensures Count(Voices(Run(st, samples).log), c) == 1
  {
    RunChordCadence(st, samples, c);
    ChordTicksFour(st.tick);
  }

  lemma {:induction false} ChordTicksSplit(t: nat, a: nat, b: nat)
    ensures ChordTicks(t, a + b) == ChordTicks(t, a) + ChordTicks(t + a, b)
    decreases a
  {
    if a > 0 {
      ChordTicksSplit(t + 1, a - 1, b);
    }
  }

  /** Any four consecutive ticks hold exactly one chord tick. */
  lemma ChordTicksFour(t: nat)
    ensures ChordTicks(t, 4) == 1
  {
    var b0, b1, b2, b3 := t % 4 == 0, (t + 1) % 4 == 0, (t + 2) % 4 == 0, (t + 3) % 4 == 0;
    assert ChordTicks(t + 3, 1) == if b3 then 1 else 0;
    assert ChordTicks(t + 2, 2) == (if b2 then 1 else 0) + ChordTicks(t + 3, 1);
    assert ChordTicks(t + 1, 3) == (if b1 then 1 else 0) + ChordTicks(t + 2, 2);
    assert ChordTicks(t, 4) == (if b0 then 1 else 0) + ChordTicks(t + 1, 3);
    assert (if b0 then 1 else 0) + (if b1 then 1 else 0) + (if b2 then 1 else 0) + (if b3 then 1 else 0) == 1;
  }

  /** Ticks strictly between two beats hold no chord tick. */
  lemma {:induction false} ChordTicksOffBeat(t: nat, n: nat)
    requires t % 4 != 0 && t % 4 + n <= 4
    ensures ChordTicks(t, n) == 0
    decreases n
  {
    if n > 1 {
      assert (t + 1) % 4 == t % 4 + 1;
      ChordTicksOffBeat(t + 1, n - 1);
    }
  }

  /** Starting from a chord tick, `n` ticks hold one chord tick per started
      group of four. */
  lemma {:induction false} ChordTicksFromBeat(t: nat, n: nat)
    requires t % 4 == 0
    ensures ChordTicks(t, n) == (n + 3) / 4
    decreases n
  {
    if n >= 4 {
      ChordTicksSplit(t, 4, n - 4);
      ChordTicksFour(t);
      assert (t + 4) % 4 == 0;
      ChordTicksFromBeat(t + 4, n - 4);
    } else if n > 0 {
      assert (t + 1) % 4 == 1;
      ChordTicksOffBeat(t + 1, n - 1);
    }
  }

  /** The whole program: the initial table, drawn before the first sample,
      then one pass per sample. */
  function Main(samples: seq<seq<real>>): (r: Outcome)
    requires AllReadings(samples)
    ensures Valid(r.state) && Sane(r.state) && r.state.tick == |samples|
  {
    SaneDrawable(Init());
    var first := GenerateTable(Init()).value;
    Run(first.state, samples)
  }

  /** After `n` ticks each chord voice has played once per started group of
      four ticks, the first on tick 0. */
  lemma MainCadence(samples: seq<seq<real>>)
    requires AllReadings(samples)
    ensures Count(Voices(Main(samples).log), 0) == (|samples| + 3) / 4
    ensures Count(Voices(Main(samples).log), 2) == (|samples| + 3) / 4
  {
    SaneDrawable(Init());
    var first := GenerateTable(Init()).value;
    RunChordCadence(first.state, samples, 0);
    RunChordCadence(first.state, samples, 2);
    ChordTicksFromBeat(0, |samples|);
  }
}
