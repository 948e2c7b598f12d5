/**
 * The converter from a USC chart (a list of typed objects placed by beat and lane)
 * to the game's chart format.
 */
module UscConvert {
  import opened Optional
  import opened ChartTypes

  /** One point of a slide: its beat and its lane. */
  datatype Connection = Connection(beat: real, lane: real)

  /** A USC object, told apart by its `type` field; an absent `critical` flag reads as false. */
  datatype UscObject =
    | BpmChange(bpm: real)
    | Single(beat: real, lane: real, critical: bool)
    | Slide(connections: Option<seq<Connection>>, critical: bool)
    | OtherObject(kind: string)

  /** The `usc` part of the input: its objects and its optional offset in seconds. */
  datatype Usc = Usc(objects: seq<UscObject>, offset: Option<real>)

  /** `60000 / bpm` with a zero bpm raises in the source. */
  datatype ConvertError = ZeroDivision

  /** The bpm used when the chart has no bpm object. */
  const DefaultBpm: real := 160.0

  /** `LANE_TO_POSITION`: USC lane centre to game position; any other lane has no position. */
  function LanePosition(lane: real): (r: Option<int>)
    ensures r.Some? <==> lane == -4.5 || lane == -1.5 || lane == 1.5 || lane == 4.5
    ensures r.Some? ==> InLanes(r.value)
  {
    if lane == -4.5 then Some(0)
    else if lane == -1.5 then Some(1)
    else if lane == 1.5 then Some(2)
    else if lane == 4.5 then Some(3)
    else None
  }

  /** Distinct USC lanes map to distinct positions, and every position has a lane. */
  lemma LanePositionBijective(a: real, b: real)
    requires LanePosition(a).Some? && LanePosition(b).Some?
    ensures LanePosition(a) == LanePosition(b) <==> a == b
    ensures LanePosition(-4.5) == Some(0) && LanePosition(-1.5) == Some(1)
    ensures LanePosition(1.5) == Some(2) && LanePosition(4.5) == Some(3)
  {
  }

  /** No object before index `k` is a bpm object. */
  predicate NoBpmBefore(objects: seq<UscObject>, k: int)
    requires k <= |objects|
  {
    forall m :: 0 <= m < k ==> !objects[m].BpmChange?
  }

  /** The value of the first bpm object, or 160 when there is none. */
  function FirstBpm(objects: seq<UscObject>): (bpm: real)
    ensures NoBpmBefore(objects, |objects|) ==> bpm == DefaultBpm
    ensures forall k :: (0 <= k < |objects| && objects[k].BpmChange? && NoBpmBefore(objects, k)) ==> bpm == objects[k].bpm
  {
    if objects == [] then DefaultBpm
    else if objects[0].BpmChange? then objects[0].bpm
    else FirstBpm(objects[1..])
  }

  /** Python's `round` on an exact value: nearest integer, ties to the even one. */
  function RoundHalfEven(x: real): int {
    var f := x.Floor;
    var frac := x - f as real;
    if frac < 0.5 then f
    else if frac > 0.5 then f + 1
    else if f % 2 == 0 then f
    else f + 1
  }

  /** The rounded value is within one half of `x`, and a tie goes to the even integer. */
  lemma RoundHalfEvenNearest(x: real)
    ensures RoundHalfEven(x) as real - x <= 0.5 && x - RoundHalfEven(x) as real <= 0.5
    ensures (RoundHalfEven(x) as real - x == 0.5 || x - RoundHalfEven(x) as real == 0.5) ==> RoundHalfEven(x) % 2 == 0
  {
  }

  lemma RoundHalfEvenExamples()
    ensures RoundHalfEven(2.5) == 2 && RoundHalfEven(3.5) == 4 && RoundHalfEven(-0.5) == 0
    ensures RoundHalfEven(1374.6) == 1375 && RoundHalfEven(7.0) == 7
  {
  }

  /** A beat's time in ms, rounded as the converter rounds it. */
  function RoundedTime(beat: real, msPerBeat: real): int {
    RoundHalfEven(beat * msPerBeat)
  }

  /** Rounding a product computed beforehand is `RoundedTime`. */
  lemma RoundedTimeOf(beat: real, msPerBeat: real, timeMs: real)
    requires timeMs == beat * msPerBeat
    ensures RoundHalfEven(timeMs) == RoundedTime(beat, msPerBeat)
  {
  }

  /** `'critical'` exactly when the object's critical flag is set. */
  function TypeOf(critical: bool): (t: NoteType)
    ensures t == Critical <==> critical
  {
    if critical then Critical else Normal
  }

  /** The note a single object contributes, if any. */
  function NoteOf(obj: UscObject, msPerBeat: real): Option<Note> {
    if obj.Single? && LanePosition(obj.lane).Some? then
      Some(Note(RoundedTime(obj.beat, msPerBeat), TypeOf(obj.critical), LanePosition(obj.lane).value))
    else None
  }

  /** The hold a slide object contributes, if any: two connections, the first on a known lane. */
  function HoldOf(obj: UscObject, msPerBeat: real): Option<Hold> {
    if obj.Slide? && obj.connections.Some? && |obj.connections.value| == 2
       && LanePosition(obj.connections.value[0].lane).Some?
    then
      var start := obj.connections.value[0];
      var end := obj.connections.value[1];
      Some(Hold(RoundedTime(start.beat, msPerBeat), RoundedTime(end.beat, msPerBeat),
                LanePosition(start.lane).value, TypeOf(obj.critical)))
    else None
  }

  /** The notes of `objects`, in input order. */
  function NotesOf(objects: seq<UscObject>, msPerBeat: real): seq<Note> {
    if objects == [] then []
    else
      var last := objects[|objects| - 1];
      NotesOf(objects[..|objects| - 1], msPerBeat) + (if NoteOf(last, msPerBeat).Some? then [NoteOf(last, msPerBeat).value] else [])
  }

  /** The holds of `objects`, in input order. */
  function HoldsOf(objects: seq<UscObject>, msPerBeat: real): seq<Hold> {
    if objects == [] then []
    else
      var last := objects[|objects| - 1];
      HoldsOf(objects[..|objects| - 1], msPerBeat) + (if HoldOf(last, msPerBeat).Some? then [HoldOf(last, msPerBeat).value] else [])
  }

  lemma PrefixStep(objects: seq<UscObject>, i: nat, msPerBeat: real)
    requires i < |objects|
    ensures NotesOf(objects[..i + 1], msPerBeat)
      == NotesOf(objects[..i], msPerBeat) + (if NoteOf(objects[i], msPerBeat).Some? then [NoteOf(objects[i], msPerBeat).value] else [])
    ensures HoldsOf(objects[..i + 1], msPerBeat)
      == HoldsOf(objects[..i], msPerBeat) + (if HoldOf(objects[i], msPerBeat).Some? then [HoldOf(objects[i], msPerBeat).value] else [])
  {
    assert objects[..i + 1][..i] == objects[..i];
  }

  /** The body of the conversion loop for one object: a single on a known lane gives a note, a
      slide of two connections whose first is on a known lane gives a hold, anything else is
      skipped. */
  method ConvertObject(obj: UscObject, msPerBeat: real) returns (note: Option<Note>, hold: Option<Hold>)
    ensures note == NoteOf(obj, msPerBeat) && hold == HoldOf(obj, msPerBeat)
  {
    note, hold := None, None;
    match obj {
      case Single(beat, lane, critical) =>
        var position := LanePosition(lane);
        if position.None? {
          return;
        }
        var timeMs := beat * msPerBeat;
        var noteType := if critical then Critical else Normal;
        RoundedTimeOf(beat, msPerBeat, timeMs);
        SingleConverted(beat, lane, critical, msPerBeat);
        note := Some(Note(RoundHalfEven(timeMs), noteType, position.value));
      case Slide(connections, critical) =>
        if connections.None? || |connections.value| != 2 {
          return;
        }
        var start := connections.value[0];
        var end := connections.value[1];
        var position := LanePosition(start.lane);
        if position.None? {
          return;
        }
        var startTime := start.beat * msPerBeat;
        var endTime := end.beat * msPerBeat;
        var holdType := if critical then Critical else Normal;
        assert connections.value == [start, end];
        RoundedTimeOf(start.beat, msPerBeat, startTime);
        RoundedTimeOf(end.beat, msPerBeat, endTime);
        SlideConverted(start, end, critical, msPerBeat);
        hold := Some(Hold(RoundHalfEven(startTime), RoundHalfEven(endTime), position.value, holdType));
      case _ =>
    }
  }

  /** `convert_usc_to_custom_chart`. */
  method ConvertUscToCustomChart(usc: Usc) returns (r: Result<Chart, ConvertError>)
    ensures r.Failure? <==> FirstBpm(usc.objects) == 0.0
    ensures r.Success? ==>
      var bpm := FirstBpm(usc.objects);
      var offset := if usc.offset.Some? then usc.offset.value else 0.0;
      && r.value.meta == MetaData("Unknown Title", "Unknown Artist", "Unknown", bpm, RoundHalfEven(offset * 1000.0))
      && r.value.notes == NotesOf(usc.objects, 60000.0 / bpm)
      && r.value.holds == HoldsOf(usc.objects, 60000.0 / bpm)
  {
    var objects := usc.objects;
    var bpm := FirstBpm(objects);
    var offset := if usc.offset.Some? then usc.offset.value else 0.0;
    if bpm == 0.0 {
      return Failure(ZeroDivision);
    }
    var msPerBeat := 60000.0 / bpm;

    var notes: seq<Note> := [];
    var holds: seq<Hold> := [];
    for i := 0 to |objects|
      invariant notes == NotesOf(objects[..i], msPerBeat)
      invariant holds == HoldsOf(objects[..i], msPerBeat)
    {
      PrefixStep(objects, i, msPerBeat);
      var note, hold := ConvertObject(objects[i], msPerBeat);
      if note.Some? {
        notes := notes + [note.value];
      }
      if hold.Some? {
        holds := holds + [hold.value];
      }
    }
    assert objects[..|objects|] == objects;
    var meta := MetaData("Unknown Title", "Unknown Artist", "Unknown", bpm, RoundHalfEven(offset * 1000.0));
    return Success(Chart(meta, notes, holds));
  }

  // ---------------------------------------------------------------------------
  // Properties of the conversion.

  /** Converting a concatenation converts each part in turn: input order is kept. */
  lemma {:induction false} ConvertDistributes(a: seq<UscObject>, b: seq<UscObject>, msPerBeat: real)
    ensures NotesOf(a + b, msPerBeat) == NotesOf(a, msPerBeat) + NotesOf(b, msPerBeat)
    ensures HoldsOf(a + b, msPerBeat) == HoldsOf(a, msPerBeat) + HoldsOf(b, msPerBeat)
    decreases |b|
  {
    if b == [] {
      assert a + b == a;
    } else {
      var b' := b[..|b| - 1];
      assert (a + b)[..|a + b| - 1] == a + b';
      assert (a + b)[|a + b| - 1] == b[|b| - 1];
      ConvertDistributes(a, b', msPerBeat);
    }
  }

  /** Each object contributes its own note or hold, and nothing else; other object types contribute nothing. */
  lemma ConvertOne(obj: UscObject, msPerBeat: real)
    ensures NotesOf([obj], msPerBeat) == (if NoteOf(obj, msPerBeat).Some? then [NoteOf(obj, msPerBeat).value] else [])
    ensures HoldsOf([obj], msPerBeat) == (if HoldOf(obj, msPerBeat).Some? then [HoldOf(obj, msPerBeat).value] else [])
    ensures !obj.Single? ==> NotesOf([obj], msPerBeat) == []
    ensures !obj.Slide? ==> HoldsOf([obj], msPerBeat) == []
    ensures NotesOf([obj], msPerBeat) == [] || HoldsOf([obj], msPerBeat) == []
  {
    assert [obj][..0] == [];
  }

  /** A single on a known lane becomes one note at the rounded time, critical exactly when flagged. */
  lemma SingleConverted(beat: real, lane: real, critical: bool, msPerBeat: real)
    requires LanePosition(lane).Some?
    ensures NoteOf(Single(beat, lane, critical), msPerBeat)
      == Some(Note(RoundedTime(beat, msPerBeat), if critical then Critical else Normal, LanePosition(lane).value))
  {
    var n := NoteOf(Single(beat, lane, critical), msPerBeat);
    assert n.Some?;
    assert n.value.time == RoundedTime(beat, msPerBeat);
    assert n.value.noteType == TypeOf(critical);
    assert n.value.position == LanePosition(lane).value;
  }

  /** A slide of two connections, the first on a known lane, becomes one hold from the first
      connection's rounded time to the second's, on the first connection's lane. */
  lemma SlideConverted(start: Connection, end: Connection, critical: bool, msPerBeat: real)
    requires LanePosition(start.lane).Some?
    ensures HoldOf(Slide(Some([start, end]), critical), msPerBeat)
      == Some(Hold(RoundedTime(start.beat, msPerBeat), RoundedTime(end.beat, msPerBeat),
                   LanePosition(start.lane).value, if critical then Critical else Normal))
  {
    var connections := [start, end];
    assert |connections| == 2 && connections[0] == start && connections[1] == end;
    var h := HoldOf(Slide(Some(connections), critical), msPerBeat);
    assert h.Some?;
    assert h.value.startTime == RoundedTime(start.beat, msPerBeat);
    assert h.value.endTime == RoundedTime(end.beat, msPerBeat);
    assert h.value.holdType == TypeOf(critical);
    assert h.value.position == LanePosition(start.lane).value;
  }

  /** A slide without connections, or with a count other than two, yields no hold. */
  lemma SlideNeedsTwoConnections(connections: Option<seq<Connection>>, critical: bool, msPerBeat: real)
    requires connections.None? || |connections.value| != 2
    ensures HoldOf(Slide(connections, critical), msPerBeat).None?
  {
  }

  /** Every note and hold the converter emits lies in lanes 0..3, and each input object yields at most one entry. */
  lemma {:induction false} ConvertedInLanes(objects: seq<UscObject>, msPerBeat: real)
    ensures forall k :: 0 <= k < |NotesOf(objects, msPerBeat)| ==> InLanes(NotesOf(objects, msPerBeat)[k].position)
    ensures forall k :: 0 <= k < |HoldsOf(objects, msPerBeat)| ==> InLanes(HoldsOf(objects, msPerBeat)[k].position)
    ensures |NotesOf(objects, msPerBeat)| + |HoldsOf(objects, msPerBeat)| <= |objects|
  {
    if objects != [] {
      ConvertedInLanes(objects[..|objects| - 1], msPerBeat);
    }
  }

  /** Nothing checks that a hold ends after it starts: a slide whose second connection is
      earlier than its first converts to a hold of negative length. */
  lemma ReversedSlideConverts()
    ensures HoldOf(Slide(Some([Connection(2.0, -4.5), Connection(1.0, 1.5)]), false), 1000.0)
      == Some(Hold(2000, 1000, 0, Normal))
    ensures !HoldsHavePositiveDuration(
      Chart(MetaData("Unknown Title", "Unknown Artist", "Unknown", 60.0, 0), [], [Hold(2000, 1000, 0, Normal)]))
  {
    assert RoundHalfEven(2000.0) == 2000 && RoundHalfEven(1000.0) == 1000;
    var c := Chart(MetaData("Unknown Title", "Unknown Artist", "Unknown", 60.0, 0), [], [Hold(2000, 1000, 0, Normal)]);
    assert c.holds[0].startTime >= c.holds[0].endTime;
  }
}
