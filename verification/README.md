# CPU music: a verified model of the sonification loop

`cpu_music.py` turns per-core CPU load into music. Every tick it reads the
load of four cores, slides each voice's three-sample trigger window and
30-sample graph history, and lets four voices play:

- the two chord voices, a guitar and a piano, play a triad on every fourth tick;
- the two melody voices play a note when the middle sample of their window is a strict peak or trough.

Chords come from `CHORDS`/`CHORD_NAMES` and notes from `MELODY_NOTES`, each
indexed by `map_value`, the quantizer `int(v / 100.1 * steps)`. Each play
call records its label and an `active` flag in `system_state` and forks one
sound request. After each tick a live table shows a block-glyph sparkline of
every history and the `active` flags, and clearing those flags is its one
effect on the state.

The model is a set of pure Dafny functions over immutable state:

- `PyOps`: the Python semantics the code relies on. These are `int()` as
  truncation toward zero, list and str subscripts, where negative indices
  count from the end and anything else raises `IndexError`, and `str()` of
  an int.
- `Tables`: the constants and `map_value`. Pitches are MIDI numbers.
- `MusicState`: the program state, with `system_state` as four `Voice`s,
  `vis_history` as bounded deques, `logic_history` as three-sample windows,
  and `tick_count`. It also holds the initial state.
- `Play`: `play_chord_async` and `play_melody_async`. Instead of forking,
  each appends one `Emission` to a log.
- `Display`: `get_sparkline` and the state effect of `generate_table`.
- `MainLoop`: one pass of `main`'s `while True` loop as a step function.
  This covers core selection, recording, the `# Logic` block,
  `tick_count += 1` and the table update. A run over a finite sequence of
  per-core samples, and the whole program, are then proved to keep the chord
  cadence.

Operations that can raise return a `Result`, whose only failure is
`IndexError`. This applies to `PlayChord`, `PlayMelody`, `Sparkline` and
`GenerateTable`. Each failure condition is stated exactly: the level must
lie outside what Python accepts as an index. For example, `PlayChord`
succeeds exactly when `-8 <= map_value(usage, 8) < 8`. The operating system
reports loads between 0 and 100. The loop is modelled for such readings, and
for them every one of these calls is proved to succeed.

The quantizer `map_value` divides by 100.1 and does not clamp its result,
and a core the machine does not have reads as 0.0; the model follows both.
`Tables.MapValueEnds` shows that with this divisor idle gives the lowest
level and full load the top level for every level count up to 1001, which
covers the 8 and 15 levels the program uses.

## Model

| member | source | states |
|---|---|---|
| PyOps.Index | cpu_music.py:75-76 | A list or str subscript succeeds exactly when `-len <= i < len`; it yields the element `i` places from the start, or `-i` places from the end when `i` is negative; otherwise it is an `IndexError` |
| PyOps.Trunc | cpu_music.py:70 | `int()` of a float is the integer within one unit of the argument, on the side closer to zero |
| PyOps.TruncMonotone | cpu_music.py:70 | Truncation toward zero never reverses the order of two numbers |
| PyOps.ParseNatString | cpu_music.py:84 | The decimal digits `str()` writes for a natural number read back as that number |
| PyOps.IntStringRoundTrip | cpu_music.py:84 | `str()` of any int, negative ones included, is a well-formed numeral that parses back to the int, so the "Note n" label determines the pitch |
| Tables.MapValue | cpu_music.py:69-71 | For a load between 0 and 100 and at least one step, `map_value` yields a level in `0 .. steps-1`, a valid non-negative index into a table of `steps` entries |
| Tables.MapValueMonotone | cpu_music.py:69-71 | A higher load never yields a lower level |
| Tables.MapValueEnds | cpu_music.py:69-71 | Idle load gives level 0, and full load gives the top level `steps-1` for every level count up to 1001, so 7 for chords and 14 for melody notes |
| Tables.TableShapes | cpu_music.py:39-49 | Four target cores, eight chords and eight chord names, fifteen melody notes, and every chord a three-note triad |
| Tables.MelodyFollowsScale | cpu_music.py:44 | The melody table is the C major scale climbing step by step from middle C over two octaves, checked against an independent scale-degree formula |
| Tables.ChordsFollowScale | cpu_music.py:45-48 | Chord `i` is the root-position triad (root, third, fifth) on scale degree `i` of C major from C3 |
| Tables.MelodyAscending | cpu_music.py:44 | Melody pitches strictly increase, so a higher level always sounds higher |
| Tables.TablesInCMajor | cpu_music.py:44-48 | Every pitch in the melody table and in every chord has a pitch class in C major {0, 2, 4, 5, 7, 9, 11} |
| Tables.ChordNamesMatchRoots | cpu_music.py:45-49 | Each chord name starts with the letter of its triad's root, and no two chord names are equal |
| MusicState.Append | cpu_music.py:163 | Appending to a deque with `maxlen` keeps at most `maxlen` items: it grows by one until full, and from then on drops the oldest; the contents are always the newest items, ending with the new one |
| MusicState.Slide | cpu_music.py:161-162 | `pop(0)` followed by `append(v)` on a window's list drops its first sample and appends `v`, and the list keeps its three samples |
| MusicState.Init | cpu_music.py:55-67 | The starting state is well formed and holds only load percentages. It has four voices with their roles, reading 0, note "-" and not active; four full 30-sample histories of zeros; all-zero windows; and tick 0 |
| Play.PlayChord | cpu_music.py:73-79 | Succeeds exactly when the 8-step level is a valid Python index into the chord tables, which every load percentage gives. Then only voice `core` changes: its note becomes the chord's name and it turns active. Exactly one request is added: the chord's triad at volume 0.6 for 0.9 s |
| Play.PlayMelody | cpu_music.py:81-86 | Succeeds exactly when the 15-step level is a valid Python index into the melody table, which every load percentage gives. Then only voice `core` changes: it shows "Note n" for the chosen pitch and turns active. Exactly one request is added: that pitch at volume 0.6 + 0.1 for 0.2 s |
| Play.LabelsIdentifyPlayed | cpu_music.py:76-84 | The label a play call leaves shows what was played. A chord name identifies the chord sent, and the number in "Note n" parses back to the pitch sent |
| Display.Sparkline | cpu_music.py:91-97 | The graph fails exactly when some sample's 8-step level is not a valid index into the nine glyphs. Otherwise it has one glyph per sample, glyph `k` being the glyph at sample `k`'s level (counted from the end for a negative level) |
| Display.SparklineOfPercents | cpu_music.py:91-97 | For load percentages the graph never fails and draws glyph `map_value(v, 8)` for sample `v`. Its levels stay at most 7, so the full-height block, the ninth glyph, is never drawn |
| Display.DrawableIff | cpu_music.py:111-118 | The table can be drawn exactly when none of the four voices' graphs fails |
| Display.SaneDrawable | cpu_music.py:111-118 | Histories that hold only load percentages can always be drawn |
| Display.ClearActive | cpu_music.py:121-123 | Rendering clears every voice's `active` flag and changes nothing else |
| Display.GenerateTable | cpu_music.py:102-133 | Fails exactly when some graph fails. Otherwise it gives four rows in voice order: "Core n" for the real core number, role, graph, reading and note. A row shows the activity icon exactly when its voice was active. It leaves every flag cleared and the rest of the state unchanged |
| MainLoop.SelectFrom | cpu_music.py:152-157 | One value per target core, in target order: that core's reading when the machine has it, 0.0 otherwise |
| MainLoop.SelectCoresReadings | cpu_music.py:152-157 | With ten or more cores the voices follow cores 1, 4, 7 and 10; with fewer, the missing cores read 0.0. Load percentages in give load percentages out |
| MainLoop.Record | cpu_music.py:159-164 | Each voice's window slides to take the new reading, and its graph history drops its oldest sample and ends with the new reading. Its `cpu` entry shows the reading, and the state stays well formed |
| MainLoop.RecordSane | cpu_music.py:159-164 | Recording load percentages keeps every stored reading a load percentage |
| MainLoop.PeakOrTroughIff | cpu_music.py:171-172 | The melody trigger holds exactly when the middle sample differs from both neighbours and lies on the same side of each; non-decreasing, non-increasing or tied windows never fire |
| MainLoop.ChordVoice | cpu_music.py:167-168 | On a tick divisible by 4, the chord voice shows its chord's name, turns active and adds that chord's request. On any other tick nothing changes. Other voices are never touched |
| MainLoop.MelodyVoice | cpu_music.py:170-175 | When the window peaks or dips, the voice shows "Note n" for the pitch of the middle sample (not the newest reading), turns active and adds that note's request. Otherwise only its note becomes "-". Other voices are never touched |
| MainLoop.Logic | cpu_music.py:166-185 | The `# Logic` block keeps four voices and never changes a voice's role or reading |
| MainLoop.LogicFiring | cpu_music.py:166-185 | The requests come from chord voice 0 and chord voice 2 exactly on ticks divisible by 4, and from melody voices 1 and 3 exactly when their windows peak or dip. They appear in voice order, at most one per voice |
| MainLoop.LogicVoices | cpu_music.py:166-185 | Afterwards each voice shows what its rule prescribes. A chord voice shows its chord's name and is active on a beat, and otherwise keeps its note and flag. A melody voice shows the pitch label of its middle sample and is active when the window peaks or dips, and otherwise shows "-" with its flag unchanged |
| MainLoop.LogicLightsPlayers | cpu_music.py:166-185 | Starting with no voice active, afterwards a voice is active exactly when it issued a request |
| MainLoop.FiredChordCount | cpu_music.py:166-185 | In the block's firing order, each chord voice occurs exactly once on a beat and never otherwise |
| MainLoop.LogicRequests | cpu_music.py:166-185 | Every request issued is the prescribed one. A chord voice sends the triad for its own reading's level at volume 0.6 for 0.9 s. A melody voice sends the pitch for its window's middle sample at volume 0.7 for 0.2 s |
| MainLoop.Tick | cpu_music.py:148-187 | A tick keeps the state well formed, keeps every stored reading a load percentage, and advances the tick counter by exactly one |
| MainLoop.TickHistories | cpu_music.py:159-164 | After a tick each window's list is the old list without its first sample, followed by the new reading. Each graph history still holds 30 samples, its 29 newest old ones followed by the new reading. Each voice shows the new reading and keeps its role |
| MainLoop.TickRunsLogic | cpu_music.py:159-187 | A tick's voices and requests are those of the `# Logic` block run on the freshly recorded state. Recording leaves notes and flags as they were |
| MainLoop.Step | cpu_music.py:145-188 | A pass of the loop keeps the state well formed with load percentages, advances the tick by one, and leaves no voice active |
| MainLoop.StepShowsTable | cpu_music.py:188 | The table drawn after each tick can always be drawn, and the pass leaves exactly the state that drawing it leaves |
| MainLoop.StepLightsPlayedVoices | cpu_music.py:166-188 | In the table drawn after a tick that started with no voice active, a voice shows the activity icon exactly when it played during that tick |
| MainLoop.StepChordCount | cpu_music.py:166-187 | One pass issues exactly one request from each chord voice on a tick divisible by 4 and none otherwise |
| MainLoop.Run | cpu_music.py:144-188 | Passes over any finite sequence of samples keep the state well formed with load percentages, and advance the tick by the number of samples |
| MainLoop.Next | cpu_music.py:144-148 | Taking the next sample and running the rest keeps the state well formed and advances the tick by the number of samples |
| MainLoop.Pass | cpu_music.py:145-188 | One pass followed by the remaining passes advances the tick by one more than the number of remaining samples |
| MainLoop.FirstPassChordCount | cpu_music.py:144-188 | A run's chord requests are the first pass's, one on a beat and none otherwise, plus those of the rest of the run, which starts from the state the first pass leaves, one tick later |
| MainLoop.RunChordCadence | cpu_music.py:144-188 | Over any run, each chord voice plays exactly once per tick divisible by 4 |
| MainLoop.FourPassesOneChord | cpu_music.py:167-187 | In any four consecutive passes each chord voice plays exactly once |
| MainLoop.ChordTicksFour | cpu_music.py:167-187 | Any four consecutive ticks contain exactly one tick divisible by 4 |
| MainLoop.ChordTicksFromBeat | cpu_music.py:140-187 | Starting on a tick divisible by 4, `n` consecutive ticks contain `ceil(n / 4)` ticks divisible by 4 |
| MainLoop.Main | cpu_music.py:138-188 | The program draws the initial table and then runs one pass per sample. The final state is well formed and its tick counter equals the number of samples |
| MainLoop.MainCadence | cpu_music.py:138-188 | After `n` passes each chord voice has played `ceil(n / 4)` times, the first on tick 0 |

## Left out

- Reading the load: the sampling call, its interval, `time.sleep(0.25)` and
  the refresh rate. The readings are an input sequence, one per pass.
- The audio engine: the session, its thread limit, creating the instrument
  parts, and forking onto threads. Each fork becomes one `Emission`
  appended in call order, naming its instrument by voice index 0–3 in the
  pairing `main` uses. Playback, timing and failures of a forked request are
  outside the model.
- Rendering: the table title, column styles and widths, the colour chosen
  from the load, the `{cpu:.1f}%` number format, the panel, and the initial
  console banner. Rows keep the raw reading and the uncoloured graph.
- Suppressing logging and stdout during start-up, and the `KeyboardInterrupt`
  exit. A run ends when its samples end.
- Floating point: readings and the quantizer are exact reals, so rounding in
  `/ 100.1`, `* steps` and `base_vol + 0.1` is not modelled.
- `check_cpu.py` and `check_scamp.py` are diagnostic scripts and are not part
  of this model.
- MainLoop.Tick: requires every reading to be between 0 and 100, which is
  what the operating system reports, and so do `Step`, `Run`, `Next`, `Pass`
  and `Main`. Readings outside that range are not modelled in the loop. Some
  of them (100.1 and above, or far enough below 0) make the loop raise
  `IndexError`, exactly where `PlayChord`, `PlayMelody`, `Sparkline` and
  `GenerateTable` fail. Others (such as -5.0 or 100.05) are accepted by the
  program and played and drawn without error.
- MainLoop.Run: covers any finite prefix of the endless loop, one pass per
  sample, rather than a non-terminating loop.
- Integer widths: `tick_count` is unbounded in Python and in the model, so
  there is no wrap-around to model.
