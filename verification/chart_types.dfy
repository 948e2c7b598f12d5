/**
 * The chart file format: a song's metadata, its tap notes and its hold notes.
 * Times are milliseconds from the start of the song; positions are lane indices.
 */
module ChartTypes {
  import opened Optional

  /** Number of lanes (keys D, F, J, K). */
  const LaneCount: int := 4

  /** A note's kind: the source's string union `'normal' | 'critical'`. */
  datatype NoteType = Normal | Critical

  /** A tap note. */
  datatype Note = Note(time: int, noteType: NoteType, position: int)

  /** A hold note: pressed at `startTime`, kept down until `endTime`. */
  datatype Hold = Hold(startTime: int, endTime: int, position: int, holdType: NoteType)

  /** Song metadata; `offset` is in milliseconds. */
  datatype MetaData = MetaData(title: string, artist: string, difficulty: string, bpm: real, offset: int)

  /** A chart is exactly its metadata, its notes and its holds. */
  datatype Chart = Chart(meta: MetaData, notes: seq<Note>, holds: seq<Hold>)

  /** The documented range of a position: an integer lane 0-3. */
  predicate InLanes(position: int) {
    0 <= position < LaneCount
  }

  /** The string spelling of a note type. */
  function TypeName(t: NoteType): string {
    match t
    case Normal => "normal"
    case Critical => "critical"
  }

  /** Reads a note type back from its spelling; anything else is not a note type. */
  function ParseNoteType(s: string): (r: Option<NoteType>)
    ensures r.Some? <==> s == "normal" || s == "critical"
  {
    if s == "normal" then Some(Normal)
    else if s == "critical" then Some(Critical)
    else None
  }

  /** The two spellings are distinct and each reads back as the type it spells. */
  lemma TypeNameRoundTrip(t: NoteType)
    ensures ParseNoteType(TypeName(t)) == Some(t)
    ensures TypeName(Normal) != TypeName(Critical)
  {
  }

  // ---------------------------------------------------------------------------
  // Data invariants a chart may satisfy (the built-in charts do; fetched and
  // converted charts are not checked against them).

  /** Every note and hold lies in one of the four lanes. */
  predicate ChartInLanes(c: Chart) {
    && (forall i :: 0 <= i < |c.notes| ==> InLanes(c.notes[i].position))
    && (forall j :: 0 <= j < |c.holds| ==> InLanes(c.holds[j].position))
  }

  /** Every hold lasts a positive time. */
  predicate HoldsHavePositiveDuration(c: Chart) {
    forall j :: 0 <= j < |c.holds| ==> c.holds[j].startTime < c.holds[j].endTime
  }

  /** Notes are listed in non-decreasing time. */
  predicate NotesInTimeOrder(notes: seq<Note>) {
    forall i, j :: 0 <= i < j < |notes| ==> notes[i].time <= notes[j].time
  }

  /** No two notes share a (time, position) pair; in particular simultaneous notes use different lanes. */
  predicate NoteKeysDistinct(notes: seq<Note>) {
    forall i, j :: 0 <= i < j < |notes| ==>
      notes[i].time != notes[j].time || notes[i].position != notes[j].position
  }

  /** No note sits at the (time, position) of a hold's start. */
  predicate NotesAvoidHoldStarts(c: Chart) {
    forall i, j :: 0 <= i < |c.notes| && 0 <= j < |c.holds| ==>
      c.notes[i].time != c.holds[j].startTime || c.notes[i].position != c.holds[j].position
  }

  /** No two holds start at the same (time, position). */
  predicate HoldKeysDistinct(holds: seq<Hold>) {
    forall i, j :: 0 <= i < j < |holds| ==>
      holds[i].startTime != holds[j].startTime || holds[i].position != holds[j].position
  }

  /** All of the above. */
  predicate WellFormedChart(c: Chart) {
    && ChartInLanes(c)
    && HoldsHavePositiveDuration(c)
    && NotesInTimeOrder(c.notes)
    && NoteKeysDistinct(c.notes)
    && NotesAvoidHoldStarts(c)
    && HoldKeysDistinct(c.holds)
  }
}
