/** The program's mutable state, as one immutable record: the per-voice
    `system_state` entries, the 30-sample graph histories `vis_history`, the
    3-sample trigger windows `logic_history` and `tick_count`. */
module MusicState {
  import opened Tables

  /** One entry of `system_state`: the voice's role label, its latest CPU
      reading, the label of what it last played and whether it played since
      the display last showed it. */
  datatype Voice = Voice(role: string, cpu: real, note: string, active: bool)

  /** A `collections.deque` with a `maxlen`: items oldest first. */
  datatype Deque = Deque(items: seq<real>, maxlen: nat)

  predicate DequeOk(d: Deque) {
    |d.items| <= d.maxlen
  }

  /** `d.append(v)`: adds `v` on the right; a full deque first drops its
      leftmost item, and a deque of `maxlen` 0 stays empty. The result is the
      longest suffix of the old items followed by `v` that fits. */
  function Append(d: Deque, v: real): (r: Deque)
    requires DequeOk(d)
    ensures DequeOk(r) && r.maxlen == d.maxlen
    ensures |r.items| == if |d.items| < d.maxlen then |d.items| + 1 else d.maxlen
    ensures r.items == (d.items + [v])[|d.items| + 1 - |r.items|..]
  {
    if |d.items| < d.maxlen then Deque(d.items + [v], d.maxlen)
    else if d.maxlen == 0 then d
    else Deque(d.items[1..] + [v], d.maxlen)
  }

  /** One of the `logic_history` lists, which always holds exactly three
      samples, oldest first. */
  datatype Window = Window(oldest: real, middle: real, newest: real)

  /** The samples of a window as the Python list holds them, oldest first. */
  function Items(w: Window): seq<real> {
    [w.oldest, w.middle, w.newest]
  }

  /** `w.pop(0); w.append(v)` on the list: the first sample is dropped, `v`
      is appended, and the list keeps its three samples. */
  function Slide(w: Window, v: real): (r: Window)
    ensures |Items(r)| == |Items(w)| == 3
    ensures Items(r) == Items(w)[1..] + [v]
  {
    Window(w.middle, w.newest, v)
  }

  datatype State = State(logic: seq<Window>, vis: seq<Deque>, voices: seq<Voice>, tick: nat)

  /** The shape the program's state always has: four voices, each with a
      window and a full 30-sample graph history. */
  predicate Valid(st: State) {
    && |st.logic| == 4
    && |st.vis| == 4
    && |st.voices| == 4
    && (forall i :: 0 <= i < 4 ==> st.vis[i].maxlen == GraphWidth && |st.vis[i].items| == GraphWidth)
  }

  /** Every stored reading is a load percentage. */
  predicate Sane(st: State) {
    && (forall i :: 0 <= i < |st.logic| ==>
          Percent(st.logic[i].oldest) && Percent(st.logic[i].middle) && Percent(st.logic[i].newest))
    && (forall i, k :: 0 <= i < |st.vis| && 0 <= k < |st.vis[i].items| ==> Percent(st.vis[i].items[k]))
  }

  const Roles: seq<string> := ["Guitar Chord", "Guitar Melody", "Piano Chord", "Piano Melody"]

  /** The state before the first tick: zero readings everywhere, no note, no
      activity, tick 0. */
  function Init(): (st: State)
    ensures Valid(st) && Sane(st) && st.tick == 0
    ensures forall i :: 0 <= i < 4 ==> st.voices[i] == Voice(Roles[i], 0.0, "-", false)
    ensures forall i :: 0 <= i < 4 ==> st.logic[i] == Window(0.0, 0.0, 0.0)
    ensures forall i, k :: 0 <= i < 4 && 0 <= k < GraphWidth ==> st.vis[i].items[k] == 0.0
  {
    var zeros := seq(GraphWidth, _ => 0.0);
    State(seq(4, _ => Window(0.0, 0.0, 0.0)),
          seq(4, _ => Deque(zeros, GraphWidth)),
          seq(4, i requires 0 <= i < 4 => Voice(Roles[i], 0.0, "-", false)),
          0)
  }
}
