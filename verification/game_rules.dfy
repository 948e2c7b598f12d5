/**
 * The timing and judgment rules of the play scene, as functions of an engine snapshot:
 * key handling, note judgment, hold start and release, spawning, note expiry and the
 * per-tick hold update. The class in game_engine.dfy is proved against these functions.
 */
module GameRules {
  import opened Optional
  import opened ChartTypes

  // ---------------------------------------------------------------------------
  // Constants of the play field.

  const JudgmentLineY: real := 550.0
  /** Pixels per second. */
  const NoteSpeed: real := 400.0
  /** Milliseconds a note travels from its spawn to the judgment line: 550 / 400 * 1000. */
  const SpawnLead: int := 1375
  /** A chart entity is spawned while the clock is at most this many ms past its spawn time. */
  const SpawnWindow: int := 100
  /** Height of a note; a spawned note starts just above the top edge, at y = -NoteHeight. */
  const NoteHeight: real := 20.0
  /** A note whose y passes this line is removed. */
  const MissY: real := 650.0
  /** A press judges only notes closer than this to the judgment line. */
  const HitRange: real := 50.0
  /** A hold is removed this many ms after its end time. */
  const RemovalGrace: int := 100

  /** The spawn lead is the travel time from the top of the field to the judgment line. */
  lemma SpawnLeadIsTravelTime()
    ensures JudgmentLineY / NoteSpeed * 1000.0 == SpawnLead as real
  {
  }

  // ---------------------------------------------------------------------------
  // Runtime entities.

  /** An active note: its chart data and the y coordinate of its graphic. */
  datatype GameNote = GameNote(note: Note, y: real)

  /** `holdProgress`: a ratio, or the NaN that 0/0 yields for a zero-length hold at its start. */
  datatype Progress = Ratio(value: real) | NaN

  /** An active hold and its flags. */
  datatype GameHold = GameHold(
    hold: Hold,
    isActive: bool,
    isStartHit: bool,
    progress: Progress,
    keyHeldDown: bool,
    scoreAwarded: bool)

  datatype Tier = Just | Great | Good

  /** The outcome of a judged press. */
  datatype Judgment = Judgment(tier: Tier, noteType: NoteType, points: int)

  /** Everything the judgment engine reads and writes. */
  datatype Engine = Engine(
    notes: seq<GameNote>,
    holds: seq<GameHold>,
    keys: seq<bool>,
    score: int,
    combo: int)

  // ---------------------------------------------------------------------------
  // Keys.

  /** D, F, J and K select lanes 0 to 3; every other key code selects -1. */
  function LaneOfKey(code: string): (lane: int)
    ensures -1 <= lane < LaneCount
    ensures lane >= 0 <==> code in {"KeyD", "KeyF", "KeyJ", "KeyK"}
  {
    match code
    case "KeyD" => 0
    case "KeyF" => 1
    case "KeyJ" => 2
    case "KeyK" => 3
    case _ => -1
  }

  /** The four lane keys select four different lanes. */
  lemma LaneKeysDistinct()
    ensures LaneOfKey("KeyD") == 0 && LaneOfKey("KeyF") == 1
    ensures LaneOfKey("KeyJ") == 2 && LaneOfKey("KeyK") == 3
  {
  }

  /** `keysHeld[pos]`; an index outside the array reads `undefined`, which is falsy. */
  predicate KeyAt(keys: seq<bool>, pos: int) {
    0 <= pos < |keys| && keys[pos]
  }

  // ---------------------------------------------------------------------------
  // Judging a press.

  /** Distance of a note from the judgment line. */
  function Distance(y: real): (d: real)
    ensures d >= 0.0
    ensures d == y - JudgmentLineY || d == JudgmentLineY - y
  {
    if y >= JudgmentLineY then y - JudgmentLineY else JudgmentLineY - y
  }

  /** A note a press in `lane` may judge. */
  predicate Qualifies(g: GameNote, lane: int) {
    g.note.position == lane && Distance(g.y) < HitRange
  }

  /** The index a downward scan from `k - 1` stops at: the highest qualifying index below `k`. */
  function PickBelow(notes: seq<GameNote>, lane: int, k: nat): (r: Option<nat>)
    requires k <= |notes|
    ensures r.Some? ==> r.value < k && Qualifies(notes[r.value], lane)
    ensures r.Some? ==> forall j :: r.value < j < k ==> !Qualifies(notes[j], lane)
    ensures r.None? <==> forall j :: 0 <= j < k ==> !Qualifies(notes[j], lane)
  {
    if k == 0 then None
    else if Qualifies(notes[k - 1], lane) then Some(k - 1)
    else PickBelow(notes, lane, k - 1)
  }

  /** The note a press in `lane` judges: the last one in the list that qualifies. */
  function PickNote(notes: seq<GameNote>, lane: int): Option<nat> {
    PickBelow(notes, lane, |notes|)
  }

  /** JUST below 20 px, GREAT below 34 px, GOOD otherwise. */
  function TierOf(distance: real): (t: Tier)
    ensures t == Just <==> distance < 20.0
    ensures t == Great <==> 20.0 <= distance < 34.0
    ensures t == Good <==> distance >= 34.0
  {
    if distance < 20.0 then Just
    else if distance < 34.0 then Great
    else Good
  }

  /** The points of a tier for a normal or a critical note. */
  function Points(tier: Tier, noteType: NoteType): int {
    match tier
    case Just => if noteType == Critical then 200 else 100
    case Great => if noteType == Critical then 150 else 75
    case Good => if noteType == Critical then 100 else 50
  }

  /** The table of points, and a nearer tier is never worth less. */
  lemma PointsTable(tier: Tier, noteType: NoteType)
    ensures Points(tier, Critical) == 2 * Points(tier, Normal)
    ensures Points(Just, Normal) == 100 && Points(Just, Critical) == 200
    ensures Points(Great, Normal) == 75 && Points(Great, Critical) == 150
    ensures Points(Good, Normal) == 50 && Points(Good, Critical) == 100
    ensures Points(Good, noteType) < Points(Great, noteType) < Points(Just, noteType)
  {
  }

  /** A nearer note never scores fewer points than a farther note of the same type. */
  lemma NearerScoresMore(d1: real, d2: real, noteType: NoteType)
    requires 0.0 <= d1 <= d2
    ensures Points(TierOf(d1), noteType) >= Points(TierOf(d2), noteType)
  {
  }

  function Judge(g: GameNote): (j: Judgment)
    ensures j.tier == TierOf(Distance(g.y)) && j.noteType == g.note.noteType
    ensures j.points == Points(j.tier, j.noteType)
  {
    var tier := TierOf(Distance(g.y));
    Judgment(tier, g.note.noteType, Points(tier, g.note.noteType))
  }

  function RemoveAt<T>(s: seq<T>, k: nat): (r: seq<T>)
    requires k < |s|
    ensures |r| == |s| - 1
    ensures forall j :: 0 <= j < k ==> r[j] == s[j]
    ensures forall j :: k <= j < |r| ==> r[j] == s[j + 1]
  {
    s[..k] + s[k + 1..]
  }

  // ---------------------------------------------------------------------------
  // Starting and releasing holds.

  /** Which hold a scan over `gameHolds` looks for. */
  datatype HoldQuery =
    | StartQuery(lane: int, time: int)   // checkHoldStart: not yet started, on the lane, at the judged time
    | ReleaseQuery(lane: int)            // releaseHold: started, on the lane

  predicate Matches(h: GameHold, q: HoldQuery) {
    match q
    case StartQuery(lane, time) => h.hold.position == lane && !h.isStartHit && h.hold.startTime == time
    case ReleaseQuery(lane) => h.hold.position == lane && h.isStartHit
  }

  /** The first index from `i` on whose hold matches `q`. */
  function FirstMatch(holds: seq<GameHold>, q: HoldQuery, i: nat): (r: Option<nat>)
    requires i <= |holds|
    ensures r.Some? ==> i <= r.value < |holds| && Matches(holds[r.value], q)
    ensures r.Some? ==> forall j :: i <= j < r.value ==> !Matches(holds[j], q)
    ensures r.None? <==> forall j :: i <= j < |holds| ==> !Matches(holds[j], q)
    decreases |holds| - i
  {
    if i == |holds| then None
    else if Matches(holds[i], q) then Some(i)
    else FirstMatch(holds, q, i + 1)
  }

  /** Marks a hold started; it is active exactly when its lane key is down. */
  function StartHold(h: GameHold, held: bool): GameHold {
    h.(isStartHit := true, isActive := held, keyHeldDown := held)
  }

  function ReleaseHold(h: GameHold): GameHold {
    h.(isActive := false, keyHeldDown := false)
  }

  /** `checkHoldStart(lane, time)`: starts at most one hold, the first that matches. */
  function CheckHoldStart(holds: seq<GameHold>, lane: int, time: int, keys: seq<bool>): seq<GameHold> {
    match FirstMatch(holds, StartQuery(lane, time), 0)
    case None => holds
    case Some(i) => holds[i := StartHold(holds[i], KeyAt(keys, lane))]
  }

  /** `releaseHold(lane)`: releases at most one hold, the first started one on the lane. */
  function ReleaseLane(holds: seq<GameHold>, lane: int): seq<GameHold> {
    match FirstMatch(holds, ReleaseQuery(lane), 0)
    case None => holds
    case Some(i) => holds[i := ReleaseHold(holds[i])]
  }

  /** Starting a hold leaves every other hold as it was, and every hold's chart data too. */
  lemma CheckHoldStartEffect(holds: seq<GameHold>, lane: int, time: int, keys: seq<bool>)
    ensures var r := CheckHoldStart(holds, lane, time, keys);
      && |r| == |holds|
      && (forall j :: 0 <= j < |r| ==> r[j].hold == holds[j].hold && r[j].scoreAwarded == holds[j].scoreAwarded)
      && (forall j :: 0 <= j < |r| && r[j] != holds[j] ==>
            && FirstMatch(holds, StartQuery(lane, time), 0) == Some(j)
            && r[j] == StartHold(holds[j], KeyAt(keys, lane)))
  {
  }

  // ---------------------------------------------------------------------------
  // Key events.

  /** `hitNote(lane)`: judges the picked note, then starts the hold that begins with it. */
  function Hit(e: Engine, lane: int): (Engine, Option<Judgment>) {
    match PickNote(e.notes, lane)
    case None => (e, None)
    case Some(k) =>
      var g := e.notes[k];
      var j := Judge(g);
      (e.(notes := RemoveAt(e.notes, k),
          holds := CheckHoldStart(e.holds, lane, g.note.time, e.keys),
          score := e.score + j.points,
          combo := e.combo + 1),
       Some(j))
  }

  /** `handleKeyPress`: a lane key that is not already held is marked held and judged. */
  function Press(e: Engine, code: string): (Engine, Option<Judgment>)
    requires |e.keys| == LaneCount
  {
    var lane := LaneOfKey(code);
    if lane < 0 || e.keys[lane] then (e, None)
    else Hit(e.(keys := e.keys[lane := true]), lane)
  }

  /** `handleKeyRelease`: a lane key is marked up and the lane's started hold released. */
  function Release(e: Engine, code: string): Engine
    requires |e.keys| == LaneCount
  {
    var lane := LaneOfKey(code);
    if lane < 0 then e
    else e.(keys := e.keys[lane := false], holds := ReleaseLane(e.holds, lane))
  }

  // ---------------------------------------------------------------------------
  // Spawning.

  /** A chart entity at `time` is due while the clock lies in [time - 1375, time - 1275]. */
  predicate Due(time: int, now: int) {
    time - SpawnLead <= now <= time - SpawnLead + SpawnWindow
  }

  predicate NoteSpawned(notes: seq<GameNote>, n: Note) {
    exists i :: 0 <= i < |notes| && notes[i].note.time == n.time && notes[i].note.position == n.position
  }

  predicate HoldSpawned(holds: seq<GameHold>, h: Hold) {
    exists i :: 0 <= i < |holds| && holds[i].hold.startTime == h.startTime && holds[i].hold.position == h.position
  }

  /** `spawnNote`: a new note starts just above the field. */
  function NewNote(n: Note): GameNote {
    GameNote(n, -NoteHeight)
  }

  /** `spawnHold`: a new hold is neither started, active nor scored. */
  function NewHold(h: Hold): GameHold {
    GameHold(h, false, false, Ratio(0.0), false, false)
  }

  /** The note a hold's start is spawned as. */
  function StartNoteOf(h: Hold): Note {
    Note(h.startTime, h.holdType, h.position)
  }

  /** One step of the note spawn loop. */
  function SpawnNoteStep(e: Engine, n: Note, now: int): Engine {
    if Due(n.time, now) && !NoteSpawned(e.notes, n) then e.(notes := e.notes + [NewNote(n)]) else e
  }

  /** The note spawn loop over `chartNotes`, in order. */
  function SpawnNotes(e: Engine, chartNotes: seq<Note>, now: int): Engine
    decreases |chartNotes|
  {
    if chartNotes == [] then e
    else SpawnNoteStep(SpawnNotes(e, chartNotes[..|chartNotes| - 1], now), chartNotes[|chartNotes| - 1], now)
  }

  /** One step of the hold spawn loop: a due, new hold adds its start note and its body. */
  function SpawnHoldStep(e: Engine, h: Hold, now: int): Engine {
    if Due(h.startTime, now) && !HoldSpawned(e.holds, h) then
      e.(notes := e.notes + [NewNote(StartNoteOf(h))], holds := e.holds + [NewHold(h)])
    else e
  }

  /** The hold spawn loop over `chartHolds`, in order. */
  function SpawnHolds(e: Engine, chartHolds: seq<Hold>, now: int): Engine
    decreases |chartHolds|
  {
    if chartHolds == [] then e
    else SpawnHoldStep(SpawnHolds(e, chartHolds[..|chartHolds| - 1], now), chartHolds[|chartHolds| - 1], now)
  }

  /** `spawnNotesFromChart`: nothing without a chart; notes first, then holds. */
  function SpawnFromChart(e: Engine, chart: Option<Chart>, now: int): Engine {
    if chart.None? then e
    else SpawnHolds(SpawnNotes(e, chart.value.notes, now), chart.value.holds, now)
  }

  // ---------------------------------------------------------------------------
  // Moving and expiring notes.

  /** How far notes fall in a tick of `deltaTime` frames. */
  function Fall(deltaTime: real): real {
    NoteSpeed * deltaTime / 60.0
  }

  predicate Expires(g: GameNote, dy: real) {
    g.y + dy > MissY
  }

  /** The notes left after each has moved by `dy`, in their order, without the ones past the line. */
  function Survivors(notes: seq<GameNote>, dy: real): seq<GameNote>
    decreases |notes|
  {
    if notes == [] then []
    else (if Expires(notes[0], dy) then [] else [notes[0].(y := notes[0].y + dy)]) + Survivors(notes[1..], dy)
  }

  /** Whether any note passes the line in this tick. */
  predicate AnyExpires(notes: seq<GameNote>, dy: real)
    decreases |notes|
  {
    notes != [] && (Expires(notes[0], dy) || AnyExpires(notes[1..], dy))
  }

  /** A miss resets a positive combo and leaves a zero (or negative) one alone. */
  function ComboAfter(combo: int, missed: bool): int {
    if missed && combo > 0 then 0 else combo
  }

  // ---------------------------------------------------------------------------
  // Holds on each tick.

  function Clamp01(x: real): (r: real)
    ensures 0.0 <= r <= 1.0
    ensures 0.0 <= x <= 1.0 ==> r == x
  {
    if x < 0.0 then 0.0 else if x > 1.0 then 1.0 else x
  }

  /** `max(0, min(1, (now - start) / (end - start)))` with the JavaScript results for a zero length. */
  function ProgressAt(h: Hold, now: int): Progress {
    var duration := h.endTime - h.startTime;
    var elapsed := now - h.startTime;
    if duration != 0 then Ratio(Clamp01(elapsed as real / duration as real))
    else if elapsed > 0 then Ratio(1.0)      // +Infinity, clamped
    else if elapsed == 0 then NaN            // 0 / 0
    else Ratio(0.0)                          // -Infinity, clamped
  }

  /** The points a completed hold is worth. */
  function HoldValue(t: NoteType): int {
    if t == Critical then 300 else 150
  }

  /** Whether this tick awards the hold's points. */
  predicate Awards(h: GameHold, now: int) {
    h.isStartHit && now >= h.hold.endTime && !h.scoreAwarded
  }

  /** One hold on one tick: a started hold follows its lane key, updates its progress, and is
      scored once it reaches its end. A hold not yet started is left as it is. */
  function HoldStep(h: GameHold, keys: seq<bool>, now: int): GameHold {
    if !h.isStartHit then h
    else
      var held := KeyAt(keys, h.hold.position);
      h.(keyHeldDown := held,
         isActive := held,
         progress := if now >= h.hold.startTime then ProgressAt(h.hold, now) else h.progress,
         scoreAwarded := h.scoreAwarded || now >= h.hold.endTime)
  }

  function AwardOf(h: GameHold, now: int): int {
    if Awards(h, now) then HoldValue(h.hold.holdType) else 0
  }

  predicate Removed(h: GameHold, now: int) {
    now >= h.hold.endTime + RemovalGrace
  }

  /** The holds left after a tick, each updated, in their order. */
  function HoldsAfter(holds: seq<GameHold>, keys: seq<bool>, now: int): seq<GameHold>
    decreases |holds|
  {
    if holds == [] then []
    else (if Removed(holds[0], now) then [] else [HoldStep(holds[0], keys, now)]) + HoldsAfter(holds[1..], keys, now)
  }

  /** The points all holds award in a tick, removed ones included. */
  function HoldPoints(holds: seq<GameHold>, now: int): int
    decreases |holds|
  {
    if holds == [] then 0 else AwardOf(holds[0], now) + HoldPoints(holds[1..], now)
  }

  // ---------------------------------------------------------------------------
  // A whole tick.

  /** The note part of `update`. */
  function MoveNotes(e: Engine, dy: real): Engine {
    e.(notes := Survivors(e.notes, dy), combo := ComboAfter(e.combo, AnyExpires(e.notes, dy)))
  }

  /** The hold part of `update`. */
  function TickHolds(e: Engine, now: int): Engine {
    e.(holds := HoldsAfter(e.holds, e.keys, now), score := e.score + HoldPoints(e.holds, now))
  }

  /** `update` on the engine state: spawn, move and expire notes, then update holds. */
  function Tick(e: Engine, chart: Option<Chart>, deltaTime: real, now: int): Engine {
    TickHolds(MoveNotes(SpawnFromChart(e, chart, now), Fall(deltaTime)), now)
  }
}
