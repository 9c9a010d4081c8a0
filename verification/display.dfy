/** The live table: `get_sparkline`, which draws a voice's load history as a
    row of block characters, and `generate_table`, whose one effect on the
    state is to clear every voice's `active` flag once it has been shown.
    Colours, column widths and the number format of the load cell are
    presentation only and are not modelled. */
module Display {
  import opened PyOps
  import opened Tables
  import opened MusicState

  /** The nine glyphs of the graph, lowest first: two blanks, then the block
      elements from one quarter up to full height. */
  const Levels: string := "  \U{2582}\U{2583}\U{2584}\U{2585}\U{2586}\U{2587}\U{2588}"

  /** The full-height block, the last glyph of `Levels`. */
  const FullBlock: char := '\U{2588}'

  /** The glyph shown in the activity column of a voice that has played. */
  const ActiveIcon: string := "\U{25CF}"

  /** `get_sparkline(data)`: one glyph per sample, the glyph chosen by the
      8-step quantization of the sample. */
  function Sparkline(data: seq<real>): (r: Result<string>)
    ensures r.Ok? <==> forall k :: 0 <= k < |data| ==> -9 <= MapValue(data[k], 8) < 9
    ensures r.Ok? ==> |r.value| == |data|
    ensures r.Ok? ==> forall k :: 0 <= k < |data| ==> r.value[k] == Levels[Position(MapValue(data[k], 8), 9)]
  {
    if data == [] then Ok("")
    else
      var front :- Sparkline(data[..|data| - 1]);
      var glyph :- Index(Levels, MapValue(data[|data| - 1], 8));
      Ok(front + [glyph])
  }

  /** For load percentages the graph never fails, draws glyph `MapValue(v, 8)`
      for sample `v`, and so never reaches the full-height block: the ninth
      glyph of `Levels` is unreachable. */
  lemma SparklineOfPercents(data: seq<real>)
    requires forall k :: 0 <= k < |data| ==> Percent(data[k])
    ensures Sparkline(data).Ok?
    ensures forall k :: 0 <= k < |data| ==> Sparkline(data).value[k] == Levels[MapValue(data[k], 8)]
    ensures FullBlock !in Sparkline(data).value
  {
    assert forall j :: 0 <= j < 8 ==> Levels[j] != FullBlock;
    forall k | 0 <= k < |data|
      ensures 0 <= MapValue(data[k], 8) < 8
    {
    }
    var s := Sparkline(data).value;
    forall k | 0 <= k < |data|
      ensures s[k] != FullBlock
    {
      var j := MapValue(data[k], 8);
      assert s[k] == Levels[j];
    }
  }

  /** One line of the table. `core` is the 1-based core number label. */
  datatype Row = Row(core: string, role: string, graph: string, cpu: real, note: string, icon: string)

  /** The rendered rows and the state left behind by rendering. */
  datatype Table = Table(rows: seq<Row>, state: State)

  /** Every sample of every voice's history selects a glyph of `Levels`, so
      that `get_sparkline` raises for none of them (see `DrawableIff`). */
  predicate Drawable(st: State)
    requires Valid(st)
  {
    forall i, k :: 0 <= i < 4 && 0 <= k < |st.vis[i].items| ==> -9 <= MapValue(st.vis[i].items[k], 8) < 9
  }

  /** The table can be drawn exactly when no voice's graph fails. */
  lemma DrawableIff(st: State)
    requires Valid(st)
    ensures Drawable(st) <==> forall i :: 0 <= i < 4 ==> Sparkline(st.vis[i].items).Ok?
  {
    if !Drawable(st) {
      var i, k :| 0 <= i < 4 && 0 <= k < |st.vis[i].items| && !(-9 <= MapValue(st.vis[i].items[k], 8) < 9);
      assert !Sparkline(st.vis[i].items).Ok?;
    }
  }

  /** Histories of load percentages can always be drawn. */
  lemma SaneDrawable(st: State)
    requires Valid(st)
    ensures Sane(st) ==> Drawable(st)
  {
    forall i, k | 0 <= i < 4 && 0 <= k < |st.vis[i].items| && Sane(st)
      ensures 0 <= MapValue(st.vis[i].items[k], 8) < 8
    {
    }
  }

  /** The state effect of `generate_table()`: every `active` flag is read and
      then cleared. */
  function ClearActive(st: State): (st': State)
    requires Valid(st)
    ensures Valid(st') && st'.logic == st.logic && st'.vis == st.vis && st'.tick == st.tick
    ensures forall i :: 0 <= i < 4 ==> st'.voices[i] == st.voices[i].(active := false)
  {
    var v := st.voices;
    st.(voices := [v[0].(active := false), v[1].(active := false), v[2].(active := false), v[3].(active := false)])
  }

  /** The row `generate_table()` shows for voice `i`. */
  function RowOf(st: State, i: nat): Row
    requires Valid(st) && i < 4 && Sparkline(st.vis[i].items).Ok?
  {
    var v := st.voices[i];
    Row("Core " + IntString(TargetCores[i] + 1), v.role, Sparkline(st.vis[i].items).value,
        v.cpu, v.note, if v.active then ActiveIcon else " ")
  }

  /** `generate_table()`: one row per voice, reading each `active` flag into
      the activity column and then clearing it. */
  function GenerateTable(st: State): (r: Result<Table>)
    requires Valid(st)
    ensures r.Ok? <==> Drawable(st)
    ensures r.Ok? ==>
      && |r.value.rows| == 4
      && r.value.state == ClearActive(st)
      && forall i :: 0 <= i < 4 ==>
        && !r.value.state.voices[i].active
        && r.value.rows[i].core == "Core " + IntString(TargetCores[i] + 1)
        && r.value.rows[i].role == st.voices[i].role
        && r.value.rows[i].graph == Sparkline(st.vis[i].items).value
        && r.value.rows[i].cpu == st.voices[i].cpu
        && r.value.rows[i].note == st.voices[i].note
        && (r.value.rows[i].icon == ActiveIcon <==> st.voices[i].active)
  {
    if !Drawable(st) then IndexError
    else Ok(Table(seq(4, i requires 0 <= i < 4 => RowOf(st, i)), ClearActive(st)))
  }
}
