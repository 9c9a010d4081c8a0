/** The musical data of the generator and the quantizer that indexes it:
    `TARGET_CORES`, `MELODY_NOTES`, `CHORDS`, `CHORD_NAMES`, `base_vol`,
    `GRAPH_WIDTH` and `map_value`. Pitches are MIDI note numbers (60 is
    middle C). */
module Tables {
  import opened PyOps

  /** Indices, into the per-core CPU reading list, of the four cores that drive
      the four voices. */
  const TargetCores: seq<nat> := [0, 3, 6, 9]

  /** Melody pitches: the C major scale from middle C up two octaves. */
  const MelodyNotes: seq<int> := [60, 62, 64, 65, 67, 69, 71, 72, 74, 76, 77, 79, 81, 83, 84]

  /** Chord voicings, one root-position triad per level. */
  const Chords: seq<seq<int>> := [
    [48, 52, 55], [50, 53, 57], [52, 55, 59], [53, 57, 60],
    [55, 59, 62], [57, 60, 64], [59, 62, 65], [60, 64, 67]
  ]

  const ChordNames: seq<string> := ["C", "Dm", "Em", "F", "G", "Am", "Bdim", "C (High)"]

  /** Volume of a chord; a melody note is played 0.1 louder. */
  const BaseVol: real := 0.6

  /** Number of samples the history graph of each voice shows. */
  const GraphWidth: nat := 30

  /** A CPU load reading in the range the operating system reports. */
  predicate Percent(v: real) {
    0.0 <= v <= 100.0
  }

  /** `map_value`: the level, out of `steps`, of a load percentage. The divisor
      100.1 (not 100) keeps a full 100% reading below `steps`. */
  function MapValue(value: real, steps: int): (idx: int)
    ensures Percent(value) && 1 <= steps ==> 0 <= idx < steps
  {
    ScaledBelowSteps(value, steps);
    Trunc(value / 100.1 * steps as real)
  }

  lemma ScaledBelowSteps(value: real, steps: int)
    ensures Percent(value) && 1 <= steps ==> 0.0 <= value / 100.1 * steps as real < steps as real
  {
    if Percent(value) && 1 <= steps {
      var f := value / 100.1;
      assert 0.0 <= f < 1.0;
      assert f * steps as real < 1.0 * steps as real;
    }
  }

  /** A higher load never selects a lower level. */
  lemma MapValueMonotone(v: real, w: real, steps: int)
    requires v <= w && 0 <= steps
    ensures MapValue(v, steps) <= MapValue(w, steps)
  {
    ScaleMonotone(v / 100.1, w / 100.1, steps as real);
    TruncMonotone(v / 100.1 * steps as real, w / 100.1 * steps as real);
  }

  lemma ScaleMonotone(a: real, b: real, s: real)
    requires a <= b && 0.0 <= s
    ensures a * s <= b * s
  {
    assert b * s - a * s == (b - a) * s;
  }

  /** Idle maps to the lowest level and full load to the highest, for every
      level count up to 1001 (the program uses 8 and 15). */
  lemma MapValueEnds(steps: int)
    requires 1 <= steps <= 1001
    ensures MapValue(0.0, steps) == 0
    ensures MapValue(100.0, steps) == steps - 1
  {
    var s := steps as real;
    var x := 100.0 / 100.1 * s;
    assert x == 1000.0 * s / 1001.0;
    assert (steps - 1) as real <= x < s;
  }

  /** The C major scale, as semitone offsets above its root. */
  const MajorSteps: seq<int> := [0, 2, 4, 5, 7, 9, 11]

  /** Pitch of the `d`-th note of the C major scale counted up from C3
      (MIDI 48). */
  function Degree(d: nat): int {
    48 + 12 * (d / 7) + MajorSteps[d % 7]
  }

  /** A pitch whose pitch class belongs to C major. */
  predicate InCMajor(p: int) {
    p % 12 in MajorSteps
  }

  lemma DegreeInCMajor(d: nat)
    ensures InCMajor(Degree(d))
  {
    var k := d % 7;
    assert Degree(d) == 12 * (4 + d / 7) + MajorSteps[k];
    assert 0 <= MajorSteps[k] < 12;
  }

  /** Every table has the length its quantizer needs, and every chord is a
      triad. */
  lemma TableShapes()
    ensures |TargetCores| == 4
    ensures |Chords| == 8 && |ChordNames| == 8
    ensures |MelodyNotes| == 15
    ensures forall i :: 0 <= i < |Chords| ==> |Chords[i]| == 3
  {
  }

  /** The melody table is the scale from C4 upwards, step by step. */
  lemma MelodyFollowsScale()
    ensures forall i :: 0 <= i < |MelodyNotes| ==> MelodyNotes[i] == Degree(i + 7)
  {
    forall i | 0 <= i < |MelodyNotes|
      ensures MelodyNotes[i] == Degree(i + 7)
    {
      if i < 7 {
        assert (i + 7) / 7 == 1 && (i + 7) % 7 == i;
      } else if i < 14 {
        assert (i + 7) / 7 == 2 && (i + 7) % 7 == i - 7;
      } else {
        assert (i + 7) / 7 == 3 && (i + 7) % 7 == 0;
      }
    }
  }

  /** Chord `i` is the triad built on scale degree `i` counted from C3: root,
      third and fifth. */
  lemma ChordsFollowScale()
    ensures forall i :: 0 <= i < |Chords| ==> Chords[i] == [Degree(i), Degree(i + 2), Degree(i + 4)]
  {
  }

  /** Climbing the scale always raises the pitch. */
  lemma {:induction false} DegreeAscending(d: nat, e: nat)
    requires d < e
    ensures Degree(d) < Degree(e)
    decreases e - d
  {
    if d % 7 == 6 {
      assert (d + 1) / 7 == d / 7 + 1 && (d + 1) % 7 == 0;
    } else {
      assert (d + 1) / 7 == d / 7 && (d + 1) % 7 == d % 7 + 1;
    }
    if d + 1 < e {
      DegreeAscending(d + 1, e);
    }
  }

  /** Melody notes ascend strictly, so a higher level always sounds higher. */
  lemma MelodyAscending()
    ensures forall i, j :: 0 <= i < j < |MelodyNotes| ==> MelodyNotes[i] < MelodyNotes[j]
  {
    MelodyFollowsScale();
    forall i, j | 0 <= i < j < |MelodyNotes|
      ensures MelodyNotes[i] < MelodyNotes[j]
    {
      DegreeAscending(i + 7, j + 7);
    }
  }

  /** No pitch the program can play falls outside C major. */
  lemma TablesInCMajor()
    ensures forall i :: 0 <= i < |MelodyNotes| ==> InCMajor(MelodyNotes[i])
    ensures forall i, j :: 0 <= i < |Chords| && 0 <= j < |Chords[i]| ==> InCMajor(Chords[i][j])
  {
    MelodyFollowsScale();
    ChordsFollowScale();
    forall i | 0 <= i < |MelodyNotes|
      ensures InCMajor(MelodyNotes[i])
    {
      DegreeInCMajor(i + 7);
    }
    forall i, j | 0 <= i < |Chords| && 0 <= j < |Chords[i]|
      ensures InCMajor(Chords[i][j])
    {
      var triad := [Degree(i), Degree(i + 2), Degree(i + 4)];
      assert Chords[i] == triad;
      assert triad[j] == Degree(i + 2 * j);
      DegreeInCMajor(i + 2 * j);
    }
  }

  /** Each chord's name starts with the letter of its root, and no two chords
      share a name. */
  lemma ChordNamesMatchRoots()
    ensures forall i :: 0 <= i < |ChordNames| ==> |ChordNames[i]| > 0 && ChordNames[i][0] == "CDEFGAB"[i % 7]
    ensures forall i, j :: 0 <= i < j < |ChordNames| ==> ChordNames[i] != ChordNames[j]
  {
  }
}
