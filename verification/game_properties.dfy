/**
 * What the judgment engine promises: a stray press is never a miss, a press judges at most
 * one note and scores it by its tier, spawning never duplicates an entity, expiry only ever
 * resets the combo, hold progress stays in [0, 1] and never runs backwards, and a hold is
 * scored exactly once.
 */
module GameProperties {
  import opened Optional
  import opened ChartTypes
  import opened GameRules

  // ---------------------------------------------------------------------------
  // Key presses and releases.

  /** A key that selects no lane, or whose lane is already held, changes nothing. */
  lemma StrayKeyIgnored(e: Engine, code: string)
    requires |e.keys| == LaneCount
    requires LaneOfKey(code) < 0 || e.keys[LaneOfKey(code)]
    ensures Press(e, code) == (e, None)
  {
  }

  /** A press with no note of its lane within 50 px of the line marks the key held and does
      nothing else: no miss, no combo change, no note or hold touched. */
  lemma PressWithoutCandidate(e: Engine, code: string)
    requires |e.keys| == LaneCount
    requires LaneOfKey(code) >= 0 && !e.keys[LaneOfKey(code)]
    requires forall j :: 0 <= j < |e.notes| ==> !Qualifies(e.notes[j], LaneOfKey(code))
    ensures Press(e, code).1 == None
    ensures Press(e, code).0 == e.(keys := e.keys[LaneOfKey(code) := true])
  {
    var lane := LaneOfKey(code);
    assert PickBelow(e.notes, lane, |e.notes|).None?;
  }

  /** A judged press takes the last qualifying note in the list, removes exactly that note,
      adds one to the combo and the note's tier points to the score, and sets the lane key. */
  lemma PressJudgesOneNote(e: Engine, code: string)
    requires |e.keys| == LaneCount
    requires LaneOfKey(code) >= 0 && !e.keys[LaneOfKey(code)]
    requires exists j :: 0 <= j < |e.notes| && Qualifies(e.notes[j], LaneOfKey(code))
    ensures var lane := LaneOfKey(code);
      var (e', j) := Press(e, code);
      exists k ::
        && 0 <= k < |e.notes|
        && Qualifies(e.notes[k], lane)
        && (forall m :: k < m < |e.notes| ==> !Qualifies(e.notes[m], lane))
        && e'.notes == e.notes[..k] + e.notes[k + 1..]
        && j == Some(Judgment(TierOf(Distance(e.notes[k].y)), e.notes[k].note.noteType,
                              Points(TierOf(Distance(e.notes[k].y)), e.notes[k].note.noteType)))
        && e'.score == e.score + j.value.points
        && e'.combo == e.combo + 1
        && e'.keys == e.keys[lane := true]
        && e'.holds == CheckHoldStart(e.holds, lane, e.notes[k].note.time, e'.keys)
  {
    var lane := LaneOfKey(code);
    var e1 := e.(keys := e.keys[lane := true]);
    var r := PickBelow(e1.notes, lane, |e1.notes|);
    assert r.Some?;
    var k := r.value;
    assert Qualifies(e.notes[k], lane);
  }

  /** Whatever a press does, the score and combo never decrease and at most one note goes. */
  lemma PressNeverLoses(e: Engine, code: string)
    requires |e.keys| == LaneCount
    ensures Press(e, code).0.score >= e.score && Press(e, code).0.combo >= e.combo
    ensures |Press(e, code).0.notes| + 1 >= |e.notes|
    ensures Press(e, code).1.Some? <==> |Press(e, code).0.notes| < |e.notes|
    ensures Press(e, code).1.Some? ==> Press(e, code).0.combo == e.combo + 1
  {
    var lane := LaneOfKey(code);
    if lane >= 0 && !e.keys[lane] {
      var e1 := e.(keys := e.keys[lane := true]);
      var r := PickNote(e1.notes, lane);
      if r.Some? {
        assert Points(TierOf(Distance(e1.notes[r.value].y)), e1.notes[r.value].note.noteType) > 0;
      }
    }
  }

  /** The scan does not look for the nearest note: with a note on the line listed before a note
      40 px past it, a press judges the farther one as GOOD. */
  lemma HitIsNotNearest()
    ensures var near := GameNote(Note(1000, Normal, 0), 550.0);
      var far := GameNote(Note(900, Normal, 0), 590.0);
      var e := Engine([near, far], [], [false, false, false, false], 0, 0);
      Press(e, "KeyD") == (Engine([near], [], [true, false, false, false], 50, 1), Some(Judgment(Good, Normal, 50)))
  {
    var near := GameNote(Note(1000, Normal, 0), 550.0);
    var far := GameNote(Note(900, Normal, 0), 590.0);
    var e := Engine([near, far], [], [false, false, false, false], 0, 0);
    assert LaneOfKey("KeyD") == 0;
    assert Qualifies(far, 0);
    assert PickNote([near, far], 0) == Some(1);
    assert Judge(far) == Judgment(Good, Normal, 50);
    assert RemoveAt([near, far], 1) == [near];
    assert CheckHoldStart([], 0, 900, [true, false, false, false]) == [];
    assert e.keys[0 := true] == [true, false, false, false];
  }

  /** A release marks the key up and releases at most the first started hold of the lane;
      notes, score and combo are untouched. */
  lemma ReleaseEffect(e: Engine, code: string)
    requires |e.keys| == LaneCount
    ensures var e' := Release(e, code);
      && e'.notes == e.notes && e'.score == e.score && e'.combo == e.combo
      && |e'.holds| == |e.holds|
      && (LaneOfKey(code) < 0 ==> e' == e)
      && (LaneOfKey(code) >= 0 ==> e'.keys == e.keys[LaneOfKey(code) := false])
      && (forall i :: 0 <= i < |e.holds| && e'.holds[i] != e.holds[i] ==>
            && e.holds[i].hold.position == LaneOfKey(code) && e.holds[i].isStartHit
            && (forall m :: 0 <= m < i ==> !(e.holds[m].hold.position == LaneOfKey(code) && e.holds[m].isStartHit))
            && e'.holds[i] == e.holds[i].(isActive := false, keyHeldDown := false))
  {
  }

  // ---------------------------------------------------------------------------
  // Spawning.

  /** No two active notes share a time and a position. */
  predicate UniqueNoteKeys(notes: seq<GameNote>) {
    forall i, j :: 0 <= i < j < |notes| ==>
      notes[i].note.time != notes[j].note.time || notes[i].note.position != notes[j].note.position
  }

  /** No two active holds share a start time and a position. */
  predicate UniqueHoldKeys(holds: seq<GameHold>) {
    forall i, j :: 0 <= i < j < |holds| ==>
      holds[i].hold.startTime != holds[j].hold.startTime || holds[i].hold.position != holds[j].hold.position
  }

  /** The note spawn loop appends a note only when no note before it in the list has its time
      and position, whether or not the list held duplicates before. */
  lemma {:induction false} SpawnNotesFresh(e: Engine, chartNotes: seq<Note>, now: int)
    ensures var r := SpawnNotes(e, chartNotes, now);
      && e.notes <= r.notes
      && forall k :: |e.notes| <= k < |r.notes| ==> !NoteSpawned(r.notes[..k], r.notes[k].note)
    decreases |chartNotes|
  {
    if chartNotes != [] {
      var init := chartNotes[..|chartNotes| - 1];
      var last := chartNotes[|chartNotes| - 1];
      SpawnNotesFresh(e, init, now);
      var r0 := SpawnNotes(e, init, now);
      var r := SpawnNotes(e, chartNotes, now);
      if r != r0 {
        assert r.notes == r0.notes + [NewNote(last)];
        forall k | |e.notes| <= k < |r.notes|
          ensures !NoteSpawned(r.notes[..k], r.notes[k].note)
        {
          if k < |r0.notes| {
            assert r.notes[..k] == r0.notes[..k] && r.notes[k] == r0.notes[k];
          } else {
            assert r.notes[..k] == r0.notes;
          }
        }
      }
    }
  }

  /** The note spawn loop only appends notes: each new one is a due chart note that was not yet
      active, placed just above the field; holds, keys, score and combo are untouched. */
  lemma {:induction false} SpawnNotesAppendsDue(e: Engine, chartNotes: seq<Note>, now: int)
    ensures var r := SpawnNotes(e, chartNotes, now);
      && r == e.(notes := r.notes)
      && |e.notes| <= |r.notes| <= |e.notes| + |chartNotes|
      && r.notes[..|e.notes|] == e.notes
      && (forall k :: |e.notes| <= k < |r.notes| ==>
            && r.notes[k].y == -NoteHeight
            && Due(r.notes[k].note.time, now)
            && !NoteSpawned(r.notes[..k], r.notes[k].note)
            && exists m :: 0 <= m < |chartNotes| && chartNotes[m] == r.notes[k].note)
    decreases |chartNotes|
  {
    SpawnNotesFresh(e, chartNotes, now);
    if chartNotes != [] {
      var init := chartNotes[..|chartNotes| - 1];
      SpawnNotesAppendsDue(e, init, now);
      var r0 := SpawnNotes(e, init, now);
      var r := SpawnNotes(e, chartNotes, now);
      forall k | |e.notes| <= k < |r.notes|
        ensures exists m :: 0 <= m < |chartNotes| && chartNotes[m] == r.notes[k].note
      {
        if k < |r0.notes| {
          var m :| 0 <= m < |init| && init[m] == r0.notes[k].note;
          assert chartNotes[m] == r.notes[k].note;
        } else {
          assert chartNotes[|chartNotes| - 1] == r.notes[k].note;
        }
      }
    }
  }

  /** The note spawn loop never makes two active notes with one time and position. */
  lemma {:induction false} SpawnNotesKeepsUnique(e: Engine, chartNotes: seq<Note>, now: int)
    requires UniqueNoteKeys(e.notes)
    ensures UniqueNoteKeys(SpawnNotes(e, chartNotes, now).notes)
    decreases |chartNotes|
  {
    if chartNotes != [] {
      SpawnNotesKeepsUnique(e, chartNotes[..|chartNotes| - 1], now);
    }
  }

  /** After the note spawn loop, every due chart note is active. */
  lemma {:induction false} DueNotesSpawned(e: Engine, chartNotes: seq<Note>, now: int)
    ensures forall m :: 0 <= m < |chartNotes| && Due(chartNotes[m].time, now) ==>
      NoteSpawned(SpawnNotes(e, chartNotes, now).notes, chartNotes[m])
    decreases |chartNotes|
  {
    if chartNotes != [] {
      var init := chartNotes[..|chartNotes| - 1];
      DueNotesSpawned(e, init, now);
      var r0 := SpawnNotes(e, init, now);
      var r := SpawnNotes(e, chartNotes, now);
      var last := chartNotes[|chartNotes| - 1];
      assert r0.notes <= r.notes;
      forall m | 0 <= m < |chartNotes| && Due(chartNotes[m].time, now)
        ensures NoteSpawned(r.notes, chartNotes[m])
      {
        if m < |init| {
          assert init[m] == chartNotes[m];
          var i :| 0 <= i < |r0.notes| && r0.notes[i].note.time == chartNotes[m].time
                   && r0.notes[i].note.position == chartNotes[m].position;
          assert r.notes[i] == r0.notes[i];
        } else if !NoteSpawned(r0.notes, last) {
          assert r.notes[|r0.notes|].note == last;
        } else {
          var i :| 0 <= i < |r0.notes| && r0.notes[i].note.time == last.time
                   && r0.notes[i].note.position == last.position;
          assert r.notes[i] == r0.notes[i];
        }
      }
    }
  }

  /** The hold spawn loop only appends: for each new hold, its start note is appended to the
      notes; keys, score and combo are untouched. */
  lemma {:induction false} SpawnHoldsAppendsDue(e: Engine, chartHolds: seq<Hold>, now: int)
    ensures var r := SpawnHolds(e, chartHolds, now);
      && r.keys == e.keys && r.score == e.score && r.combo == e.combo
      && e.holds <= r.holds && e.notes <= r.notes
      && |r.holds| - |e.holds| == |r.notes| - |e.notes| >= 0
      && |r.holds| <= |e.holds| + |chartHolds|
      && (forall k :: |e.holds| <= k < |r.holds| ==>
            && r.holds[k] == NewHold(r.holds[k].hold)
            && Due(r.holds[k].hold.startTime, now)
            && r.notes[k - |e.holds| + |e.notes|] == NewNote(StartNoteOf(r.holds[k].hold))
            && exists m :: 0 <= m < |chartHolds| && chartHolds[m] == r.holds[k].hold)
    decreases |chartHolds|
  {
    if chartHolds != [] {
      var init := chartHolds[..|chartHolds| - 1];
      SpawnHoldsAppendsDue(e, init, now);
      var r0 := SpawnHolds(e, init, now);
      var r := SpawnHolds(e, chartHolds, now);
      forall k | |e.holds| <= k < |r.holds|
        ensures exists m :: 0 <= m < |chartHolds| && chartHolds[m] == r.holds[k].hold
      {
        if k < |r0.holds| {
          var m :| 0 <= m < |init| && init[m] == r0.holds[k].hold;
          assert chartHolds[m] == r.holds[k].hold;
        } else {
          assert chartHolds[|chartHolds| - 1] == r.holds[k].hold;
        }
      }
    }
  }

  /** After the hold spawn loop, every due chart hold is active. */
  lemma {:induction false} DueHoldsSpawned(e: Engine, chartHolds: seq<Hold>, now: int)
    ensures forall m :: 0 <= m < |chartHolds| && Due(chartHolds[m].startTime, now) ==>
      HoldSpawned(SpawnHolds(e, chartHolds, now).holds, chartHolds[m])
    decreases |chartHolds|
  {
    if chartHolds != [] {
      var init := chartHolds[..|chartHolds| - 1];
      DueHoldsSpawned(e, init, now);
      var r0 := SpawnHolds(e, init, now);
      var r := SpawnHolds(e, chartHolds, now);
      var last := chartHolds[|chartHolds| - 1];
      assert r0.holds <= r.holds;
      forall m | 0 <= m < |chartHolds| && Due(chartHolds[m].startTime, now)
        ensures HoldSpawned(r.holds, chartHolds[m])
      {
        if m < |init| {
          assert init[m] == chartHolds[m];
          var i :| 0 <= i < |r0.holds| && r0.holds[i].hold.startTime == chartHolds[m].startTime
                   && r0.holds[i].hold.position == chartHolds[m].position;
          assert r.holds[i] == r0.holds[i];
        } else if !HoldSpawned(r0.holds, last) {
          assert r.holds[|r0.holds|].hold == last;
        } else {
          var i :| 0 <= i < |r0.holds| && r0.holds[i].hold.startTime == last.startTime
                   && r0.holds[i].hold.position == last.position;
          assert r.holds[i] == r0.holds[i];
        }
      }
    }
  }

  /** On the round's clock, which starts at 0, a chart note or hold before 1275 ms is never
      due, so spawning never adds one: every note and hold it appends starts at 1275 ms or later. */
  lemma EarlyEntitiesNeverSpawn(e: Engine, chart: Option<Chart>, now: int)
    requires now >= 0
    ensures var r := SpawnFromChart(e, chart, now);
      && e.notes <= r.notes && e.holds <= r.holds
      && (forall k :: |e.notes| <= k < |r.notes| ==> r.notes[k].note.time >= SpawnLead - SpawnWindow)
      && (forall k :: |e.holds| <= k < |r.holds| ==> r.holds[k].hold.startTime >= SpawnLead - SpawnWindow)
  {
    if chart.Some? {
      var e1 := SpawnNotes(e, chart.value.notes, now);
      SpawnNotesAppendsDue(e, chart.value.notes, now);
      SpawnHoldsAppendsDue(e1, chart.value.holds, now);
      var r := SpawnHolds(e1, chart.value.holds, now);
      forall k | |e.notes| <= k < |r.notes|
        ensures r.notes[k].note.time >= SpawnLead - SpawnWindow
      {
        if k >= |e1.notes| {
          var h := r.holds[k - |e1.notes| + |e1.holds|].hold;
          assert r.notes[k] == NewNote(StartNoteOf(h));
        } else {
          assert r.notes[k] == e1.notes[k];
        }
      }
    }
  }

  /** The hold spawn loop never makes two active holds with one start time and position. */
  lemma {:induction false} SpawnHoldsKeepsUnique(e: Engine, chartHolds: seq<Hold>, now: int)
    requires UniqueHoldKeys(e.holds)
    ensures UniqueHoldKeys(SpawnHolds(e, chartHolds, now).holds)
    decreases |chartHolds|
  {
    if chartHolds != [] {
      SpawnHoldsKeepsUnique(e, chartHolds[..|chartHolds| - 1], now);
    }
  }

  // ---------------------------------------------------------------------------
  // Moving and expiring notes.

  /** Expiring distributes over concatenation: the survivors of a list keep the list's order. */
  lemma {:induction false} SurvivorsAppend(a: seq<GameNote>, b: seq<GameNote>, dy: real)
    ensures Survivors(a + b, dy) == Survivors(a, dy) + Survivors(b, dy)
    decreases |a|
  {
    if a != [] {
      var ab := a + b;
      assert ab[0] == a[0];
      assert ab[1..] == a[1..] + b;
      SurvivorsAppend(a[1..], b, dy);
      var head := if Expires(a[0], dy) then [] else [a[0].(y := a[0].y + dy)];
      var tail := Survivors(a[1..], dy);
      assert Survivors(a, dy) == head + tail;
      assert Survivors(ab, dy) == head + (tail + Survivors(b, dy));
      assert head + (tail + Survivors(b, dy)) == (head + tail) + Survivors(b, dy);
    } else {
      assert a + b == b;
    }
  }

  /** A note that stays on screen survives, moved, at the position that counts the survivors
      before it; so notes that stay keep their relative order. */
  lemma SurvivorsInOrder(notes: seq<GameNote>, dy: real)
    ensures forall m :: 0 <= m < |notes| && !Expires(notes[m], dy) ==>
      && |Survivors(notes[..m], dy)| < |Survivors(notes, dy)|
      && Survivors(notes, dy)[|Survivors(notes[..m], dy)|] == notes[m].(y := notes[m].y + dy)
    ensures forall m1, m2 :: 0 <= m1 < m2 <= |notes| && !Expires(notes[m1], dy) ==>
      |Survivors(notes[..m1], dy)| < |Survivors(notes[..m2], dy)|
  {
    forall m | 0 <= m < |notes| && !Expires(notes[m], dy)
      ensures |Survivors(notes[..m], dy)| < |Survivors(notes, dy)|
      ensures Survivors(notes, dy)[|Survivors(notes[..m], dy)|] == notes[m].(y := notes[m].y + dy)
    {
      assert notes == notes[..m] + notes[m..];
      SurvivorsAppend(notes[..m], notes[m..], dy);
      assert notes[m..][0] == notes[m];
    }
    forall m1, m2 | 0 <= m1 < m2 <= |notes| && !Expires(notes[m1], dy)
      ensures |Survivors(notes[..m1], dy)| < |Survivors(notes[..m2], dy)|
    {
      assert notes[..m2] == notes[..m1] + notes[m1..m2];
      SurvivorsAppend(notes[..m1], notes[m1..m2], dy);
      assert notes[m1..m2][0] == notes[m1];
    }
  }

  /** Every survivor is a moved note that stays on screen, and notes are lost exactly when one expires. */
  lemma {:induction false} SurvivorsSound(notes: seq<GameNote>, dy: real)
    ensures |Survivors(notes, dy)| <= |notes|
    ensures |Survivors(notes, dy)| < |notes| <==> AnyExpires(notes, dy)
    ensures forall k :: 0 <= k < |Survivors(notes, dy)| ==> Survivors(notes, dy)[k].y <= MissY
    ensures forall k :: 0 <= k < |Survivors(notes, dy)| ==>
      exists m :: 0 <= m < |notes| && !Expires(notes[m], dy) && Survivors(notes, dy)[k] == notes[m].(y := notes[m].y + dy)
    decreases |notes|
  {
    if notes != [] {
      var rest := notes[1..];
      SurvivorsSound(rest, dy);
      var head := if Expires(notes[0], dy) then [] else [notes[0].(y := notes[0].y + dy)];
      var r := Survivors(notes, dy);
      assert r == head + Survivors(rest, dy);
      forall k | 0 <= k < |r|
        ensures exists m :: 0 <= m < |notes| && !Expires(notes[m], dy) && r[k] == notes[m].(y := notes[m].y + dy)
      {
        if k < |head| {
          assert r[k] == notes[0].(y := notes[0].y + dy);
        } else {
          var m :| 0 <= m < |rest| && !Expires(rest[m], dy) && Survivors(rest, dy)[k - |head|] == rest[m].(y := rest[m].y + dy);
          assert notes[m + 1] == rest[m];
        }
      }
    }
  }

  /** Expiry keeps exactly the notes that stay on screen, moved and in their order: every
      survivor is a moved note at or above the miss line, every note that stays survives, the
      survivors keep their order, and notes are lost exactly when one expires. */
  lemma SurvivorsFacts(notes: seq<GameNote>, dy: real)
    ensures |Survivors(notes, dy)| <= |notes|
    ensures |Survivors(notes, dy)| < |notes| <==> AnyExpires(notes, dy)
    ensures forall k :: 0 <= k < |Survivors(notes, dy)| ==> Survivors(notes, dy)[k].y <= MissY
    ensures forall k :: 0 <= k < |Survivors(notes, dy)| ==>
      exists m :: 0 <= m < |notes| && !Expires(notes[m], dy) && Survivors(notes, dy)[k] == notes[m].(y := notes[m].y + dy)
    ensures forall m :: 0 <= m < |notes| && !Expires(notes[m], dy) ==>
      && |Survivors(notes[..m], dy)| < |Survivors(notes, dy)|
      && Survivors(notes, dy)[|Survivors(notes[..m], dy)|] == notes[m].(y := notes[m].y + dy)
    ensures forall m1, m2 :: 0 <= m1 < m2 <= |notes| && !Expires(notes[m1], dy) ==>
      |Survivors(notes[..m1], dy)| < |Survivors(notes[..m2], dy)|
  {
    SurvivorsSound(notes, dy);
    SurvivorsInOrder(notes, dy);
  }

  /** When no note passes the line, every note survives, moved by `dy`. */
  lemma {:induction false} NoExpiryMovesAll(notes: seq<GameNote>, dy: real)
    requires !AnyExpires(notes, dy)
    ensures |Survivors(notes, dy)| == |notes|
    ensures forall k :: 0 <= k < |notes| ==> Survivors(notes, dy)[k] == notes[k].(y := notes[k].y + dy)
    decreases |notes|
  {
    if notes != [] {
      NoExpiryMovesAll(notes[1..], dy);
    }
  }

  /** A note expires in a tick exactly when its moved position is past the line. */
  lemma {:induction false} AnyExpiresMeansSome(notes: seq<GameNote>, dy: real)
    ensures AnyExpires(notes, dy) <==> exists m :: 0 <= m < |notes| && notes[m].y + dy > MissY
    decreases |notes|
  {
    if notes != [] {
      AnyExpiresMeansSome(notes[1..], dy);
      if AnyExpires(notes[1..], dy) {
        var m :| 0 <= m < |notes[1..]| && notes[1..][m].y + dy > MissY;
        assert notes[m + 1].y + dy > MissY;
      }
      if exists m :: 0 <= m < |notes| && notes[m].y + dy > MissY {
        var m :| 0 <= m < |notes| && notes[m].y + dy > MissY;
        if m > 0 {
          assert notes[1..][m - 1].y + dy > MissY;
        }
      }
    }
  }

  // ---------------------------------------------------------------------------
  // Hold progress and scoring.

  /** Progress is a ratio in [0, 1], except the NaN of a zero-length hold at its start time. */
  lemma ProgressInRange(h: Hold, now: int)
    ensures ProgressAt(h, now).Ratio? ==> 0.0 <= ProgressAt(h, now).value <= 1.0
    ensures ProgressAt(h, now).NaN? <==> h.startTime == h.endTime && now == h.startTime
  {
  }

  /** Dividing by a positive number keeps the order. */
  lemma DivMonotone(a: real, b: real, d: real)
    requires d > 0.0 && a <= b
    ensures a / d <= b / d
  {
    var q1 := a / d;
    var q2 := b / d;
    assert q1 * d == a;
    assert q2 * d == b;
    assert (q2 - q1) * d == b - a;
  }

  /** A non-negative number over a negative one is at most zero. */
  lemma DivByNegative(a: real, d: real)
    requires d < 0.0 && a >= 0.0
    ensures a / d <= 0.0
  {
    var q := a / d;
    assert q * d == a;
  }

  /** For a positive duration, progress between start and end is the elapsed fraction, and it is
      1 from the end on. */
  lemma ProgressIsElapsedFraction(h: Hold, now: int)
    requires h.startTime < h.endTime
    ensures h.startTime <= now <= h.endTime ==>
      ProgressAt(h, now) == Ratio((now - h.startTime) as real / (h.endTime - h.startTime) as real)
    ensures now >= h.endTime ==> ProgressAt(h, now) == Ratio(1.0)
  {
    var d := (h.endTime - h.startTime) as real;
    var el := (now - h.startTime) as real;
    assert d / d == 1.0;
    if h.startTime <= now <= h.endTime {
      DivMonotone(0.0, el, d);
      DivMonotone(el, d, d);
    }
    if now >= h.endTime {
      DivMonotone(d, el, d);
    }
  }

  /** Progress never decreases as time moves on from the start. */
  lemma ProgressMonotone(h: Hold, t1: int, t2: int)
    requires h.startTime <= t1 <= t2
    requires ProgressAt(h, t1).Ratio?
    ensures ProgressAt(h, t2).Ratio?
    ensures ProgressAt(h, t1).value <= ProgressAt(h, t2).value
  {
    var d := (h.endTime - h.startTime) as real;
    var a := (t1 - h.startTime) as real;
    var b := (t2 - h.startTime) as real;
    if d > 0.0 {
      DivMonotone(a, b, d);
    } else if d < 0.0 {
      DivByNegative(a, d);
      DivByNegative(b, d);
    }
  }

  /** The tick does not freeze a released hold: its progress and scoring are the same whether or
      not its lane key is down; only `isActive` and `keyHeldDown` follow the key. */
  lemma ProgressIgnoresKey(h: GameHold, keys1: seq<bool>, keys2: seq<bool>, now: int)
    ensures HoldStep(h, keys1, now).progress == HoldStep(h, keys2, now).progress
    ensures HoldStep(h, keys1, now).scoreAwarded == HoldStep(h, keys2, now).scoreAwarded
    ensures h.isStartHit ==> HoldStep(h, keys1, now).isActive == KeyAt(keys1, h.hold.position)
    ensures h.isStartHit ==> HoldStep(h, keys1, now).keyHeldDown == KeyAt(keys1, h.hold.position)
  {
  }

  /** The state a hold sees on one tick. */
  datatype TickInput = TickInput(keys: seq<bool>, now: int)

  /** A hold run through successive ticks, with the points it awards on the way. */
  function RunHold(h: GameHold, ticks: seq<TickInput>): (GameHold, int)
    decreases |ticks|
  {
    if ticks == [] then (h, 0)
    else
      var pts := AwardOf(h, ticks[0].now);
      var (h', rest) := RunHold(HoldStep(h, ticks[0].keys, ticks[0].now), ticks[1..]);
      (h', pts + rest)
  }

  /** Over any run of ticks a hold awards its points exactly once if it was started, not yet
      scored, and some tick reaches its end time; otherwise it awards nothing. The key state
      plays no part. */
  lemma {:induction false} HoldScoredExactlyOnce(h: GameHold, ticks: seq<TickInput>)
    ensures RunHold(h, ticks).1 ==
      if h.isStartHit && !h.scoreAwarded && (exists i :: 0 <= i < |ticks| && ticks[i].now >= h.hold.endTime)
      then HoldValue(h.hold.holdType) else 0
    ensures RunHold(h, ticks).0.scoreAwarded == (h.scoreAwarded ||
      (h.isStartHit && exists i :: 0 <= i < |ticks| && ticks[i].now >= h.hold.endTime))
    decreases |ticks|
  {
    if ticks != [] {
      var h1 := HoldStep(h, ticks[0].keys, ticks[0].now);
      HoldScoredExactlyOnce(h1, ticks[1..]);
      assert h1.hold == h.hold && h1.isStartHit == h.isStartHit;
      if exists i :: 0 <= i < |ticks[1..]| && ticks[1..][i].now >= h.hold.endTime {
        var i :| 0 <= i < |ticks[1..]| && ticks[1..][i].now >= h.hold.endTime;
        assert ticks[i + 1].now >= h.hold.endTime;
      }
      if exists i :: 0 <= i < |ticks| && ticks[i].now >= h.hold.endTime {
        var i :| 0 <= i < |ticks| && ticks[i].now >= h.hold.endTime;
        if i > 0 {
          assert ticks[1..][i - 1].now >= h.hold.endTime;
        }
      }
    }
  }

  /** A started hold is scored no later than the tick that removes it. */
  lemma StartedHoldScoredBeforeRemoval(h: GameHold, keys: seq<bool>, now: int)
    requires h.isStartHit && Removed(h, now)
    ensures HoldStep(h, keys, now).scoreAwarded
    ensures !h.scoreAwarded ==> AwardOf(h, now) == HoldValue(h.hold.holdType)
  {
  }

  /** The hold update distributes over concatenation: the holds left keep the list's order. */
  lemma {:induction false} HoldsAfterAppend(a: seq<GameHold>, b: seq<GameHold>, keys: seq<bool>, now: int)
    ensures HoldsAfter(a + b, keys, now) == HoldsAfter(a, keys, now) + HoldsAfter(b, keys, now)
    decreases |a|
  {
    if a != [] {
      var ab := a + b;
      assert ab[0] == a[0];
      assert ab[1..] == a[1..] + b;
      HoldsAfterAppend(a[1..], b, keys, now);
      var head := if Removed(a[0], now) then [] else [HoldStep(a[0], keys, now)];
      var tail := HoldsAfter(a[1..], keys, now);
      assert HoldsAfter(a, keys, now) == head + tail;
      assert HoldsAfter(ab, keys, now) == head + (tail + HoldsAfter(b, keys, now));
      assert head + (tail + HoldsAfter(b, keys, now)) == (head + tail) + HoldsAfter(b, keys, now);
    } else {
      assert a + b == b;
    }
  }

  /** A hold not yet past its removal time is kept, updated, at the position that counts the
      holds kept before it; so kept holds keep their relative order. */
  lemma HoldsAfterInOrder(holds: seq<GameHold>, keys: seq<bool>, now: int)
    ensures forall m :: 0 <= m < |holds| && !Removed(holds[m], now) ==>
      && |HoldsAfter(holds[..m], keys, now)| < |HoldsAfter(holds, keys, now)|
      && HoldsAfter(holds, keys, now)[|HoldsAfter(holds[..m], keys, now)|] == HoldStep(holds[m], keys, now)
    ensures forall m1, m2 :: 0 <= m1 < m2 <= |holds| && !Removed(holds[m1], now) ==>
      |HoldsAfter(holds[..m1], keys, now)| < |HoldsAfter(holds[..m2], keys, now)|
  {
    forall m | 0 <= m < |holds| && !Removed(holds[m], now)
      ensures |HoldsAfter(holds[..m], keys, now)| < |HoldsAfter(holds, keys, now)|
      ensures HoldsAfter(holds, keys, now)[|HoldsAfter(holds[..m], keys, now)|] == HoldStep(holds[m], keys, now)
    {
      assert holds == holds[..m] + holds[m..];
      HoldsAfterAppend(holds[..m], holds[m..], keys, now);
      assert holds[m..][0] == holds[m];
    }
    forall m1, m2 | 0 <= m1 < m2 <= |holds| && !Removed(holds[m1], now)
      ensures |HoldsAfter(holds[..m1], keys, now)| < |HoldsAfter(holds[..m2], keys, now)|
    {
      assert holds[..m2] == holds[..m1] + holds[m1..m2];
      HoldsAfterAppend(holds[..m1], holds[m1..m2], keys, now);
      assert holds[m1..m2][0] == holds[m1];
    }
  }

  /** Every hold left after a tick is an updated hold not yet past its removal time. */
  lemma {:induction false} HoldsAfterSound(holds: seq<GameHold>, keys: seq<bool>, now: int)
    ensures |HoldsAfter(holds, keys, now)| <= |holds|
    ensures forall k :: 0 <= k < |HoldsAfter(holds, keys, now)| ==>
      exists m :: 0 <= m < |holds| && !Removed(holds[m], now) && HoldsAfter(holds, keys, now)[k] == HoldStep(holds[m], keys, now)
    ensures forall k :: 0 <= k < |HoldsAfter(holds, keys, now)| ==>
      now < HoldsAfter(holds, keys, now)[k].hold.endTime + RemovalGrace
    decreases |holds|
  {
    if holds != [] {
      var rest := holds[1..];
      HoldsAfterSound(rest, keys, now);
      var head := if Removed(holds[0], now) then [] else [HoldStep(holds[0], keys, now)];
      var r := HoldsAfter(holds, keys, now);
      assert r == head + HoldsAfter(rest, keys, now);
      forall k | 0 <= k < |r|
        ensures exists m :: 0 <= m < |holds| && !Removed(holds[m], now) && r[k] == HoldStep(holds[m], keys, now)
      {
        if k >= |head| {
          var m :| 0 <= m < |rest| && !Removed(rest[m], now) && HoldsAfter(rest, keys, now)[k - |head|] == HoldStep(rest[m], keys, now);
          assert holds[m + 1] == rest[m];
        }
      }
    }
  }

  /** The holds left after a tick are exactly the updated holds not yet past their removal
      time, in their order: every hold left is such a hold, and every such hold is left. */
  lemma HoldsAfterFacts(holds: seq<GameHold>, keys: seq<bool>, now: int)
    ensures |HoldsAfter(holds, keys, now)| <= |holds|
    ensures forall k :: 0 <= k < |HoldsAfter(holds, keys, now)| ==>
      exists m :: 0 <= m < |holds| && !Removed(holds[m], now) && HoldsAfter(holds, keys, now)[k] == HoldStep(holds[m], keys, now)
    ensures forall k :: 0 <= k < |HoldsAfter(holds, keys, now)| ==>
      now < HoldsAfter(holds, keys, now)[k].hold.endTime + RemovalGrace
    ensures forall m :: 0 <= m < |holds| && !Removed(holds[m], now) ==>
      && |HoldsAfter(holds[..m], keys, now)| < |HoldsAfter(holds, keys, now)|
      && HoldsAfter(holds, keys, now)[|HoldsAfter(holds[..m], keys, now)|] == HoldStep(holds[m], keys, now)
    ensures forall m1, m2 :: 0 <= m1 < m2 <= |holds| && !Removed(holds[m1], now) ==>
      |HoldsAfter(holds[..m1], keys, now)| < |HoldsAfter(holds[..m2], keys, now)|
  {
    HoldsAfterSound(holds, keys, now);
    HoldsAfterInOrder(holds, keys, now);
  }

  /** A tick never makes two active holds share a start time and position. */
  lemma {:induction false} HoldsAfterKeepsUnique(holds: seq<GameHold>, keys: seq<bool>, now: int)
    requires UniqueHoldKeys(holds)
    ensures UniqueHoldKeys(HoldsAfter(holds, keys, now))
    decreases |holds|
  {
    if holds != [] {
      var rest := holds[1..];
      assert UniqueHoldKeys(rest) by {
        forall i, j | 0 <= i < j < |rest|
          ensures rest[i].hold.startTime != rest[j].hold.startTime || rest[i].hold.position != rest[j].hold.position
        {
          assert rest[i] == holds[i + 1] && rest[j] == holds[j + 1];
        }
      }
      HoldsAfterKeepsUnique(rest, keys, now);
      HoldsAfterSound(rest, keys, now);
      var tail := HoldsAfter(rest, keys, now);
      if !Removed(holds[0], now) {
        var r := HoldsAfter(holds, keys, now);
        assert r == [HoldStep(holds[0], keys, now)] + tail;
        forall i, j | 0 <= i < j < |r|
          ensures r[i].hold.startTime != r[j].hold.startTime || r[i].hold.position != r[j].hold.position
        {
          if i == 0 {
            var m :| 0 <= m < |rest| && !Removed(rest[m], now) && tail[j - 1] == HoldStep(rest[m], keys, now);
            assert rest[m] == holds[m + 1];
          } else {
            assert r[i] == tail[i - 1] && r[j] == tail[j - 1];
          }
        }
      }
    }
  }

  /** Hold points are never negative. */
  lemma {:induction false} HoldPointsNonNegative(holds: seq<GameHold>, now: int)
    ensures HoldPoints(holds, now) >= 0
    decreases |holds|
  {
    if holds != [] {
      HoldPointsNonNegative(holds[1..], now);
    }
  }

  // ---------------------------------------------------------------------------
  // A whole tick.

  /** Spawning touches neither keys, score nor combo, and never duplicates an active hold. */
  lemma SpawnFromChartEffect(e: Engine, chart: Option<Chart>, now: int)
    ensures var r := SpawnFromChart(e, chart, now);
      && r.keys == e.keys && r.score == e.score && r.combo == e.combo
      && e.notes <= r.notes && e.holds <= r.holds
      && (chart.None? ==> r == e)
      && (UniqueHoldKeys(e.holds) ==> UniqueHoldKeys(r.holds))
  {
    if chart.Some? {
      var e1 := SpawnNotes(e, chart.value.notes, now);
      SpawnNotesAppendsDue(e, chart.value.notes, now);
      SpawnHoldsAppendsDue(e1, chart.value.holds, now);
      if UniqueHoldKeys(e.holds) {
        SpawnHoldsKeepsUnique(e1, chart.value.holds, now);
      }
    }
  }

  /** A tick never lowers the score: it adds only hold points, and only a miss touches the combo,
      setting a positive combo to 0. Afterwards no note is past the miss line and no hold is past
      its removal time, and active holds still have distinct keys. */
  lemma TickEffect(e: Engine, chart: Option<Chart>, deltaTime: real, now: int)
    ensures var s := SpawnFromChart(e, chart, now);
      var r := Tick(e, chart, deltaTime, now);
      && r.keys == e.keys
      && r.score == e.score + HoldPoints(s.holds, now) >= e.score
      && r.combo == ComboAfter(e.combo, AnyExpires(s.notes, Fall(deltaTime)))
      && (r.combo == e.combo || r.combo == 0)
      && (forall k :: 0 <= k < |r.notes| ==> r.notes[k].y <= MissY)
      && (forall k :: 0 <= k < |r.holds| ==> now < r.holds[k].hold.endTime + RemovalGrace)
      && (UniqueHoldKeys(e.holds) ==> UniqueHoldKeys(r.holds))
  {
    var s := SpawnFromChart(e, chart, now);
    SpawnFromChartEffect(e, chart, now);
    SurvivorsSound(s.notes, Fall(deltaTime));
    HoldsAfterSound(s.holds, s.keys, now);
    HoldPointsNonNegative(s.holds, now);
    if UniqueHoldKeys(e.holds) {
      HoldsAfterKeepsUnique(s.holds, s.keys, now);
    }
  }

  /** Starting or releasing a hold changes only its flags, so hold keys stay distinct. */
  lemma KeyEventsKeepHoldKeys(e: Engine, code: string)
    requires |e.keys| == LaneCount
    requires UniqueHoldKeys(e.holds)
    ensures UniqueHoldKeys(Press(e, code).0.holds)
    ensures UniqueHoldKeys(Release(e, code).holds)
  {
    var lane := LaneOfKey(code);
    if lane >= 0 && !e.keys[lane] {
      var e1 := e.(keys := e.keys[lane := true]);
      var r := PickNote(e1.notes, lane);
      if r.Some? {
        CheckHoldStartEffect(e1.holds, lane, e1.notes[r.value].note.time, e1.keys);
      }
    }
  }

  // ---------------------------------------------------------------------------
  // Complete scenarios.

  /** One note, moved by `dy` without passing the line, survives alone. */
  lemma SurvivorsOfOne(g: GameNote, dy: real)
    requires !Expires(g, dy)
    ensures Survivors([g], dy) == [g.(y := g.y + dy)]
    ensures !AnyExpires([g], dy)
  {
    assert [g][1..] == [];
  }

  /** A chart of one critical note at 2000 ms in lane 0. The three lemmas that follow take it
      from its spawn at 625 ms on the round's clock, through 85.5 frames (1425 ms at 60 frames
      per second, 570 px) of falling, to a JUST judgment. */
  function OneNoteChart(): Option<Chart> {
    Some(Chart(MetaData("t", "a", "Normal", 120.0, 0), [Note(2000, Critical, 0)], []))
  }

  /** At 625 ms, 1375 ms before its time, the note is due and spawns just above the field. */
  lemma OneNoteSpawns()
    ensures Tick(Engine([], [], [false, false, false, false], 0, 0), OneNoteChart(), 0.0, 625)
      == Engine([GameNote(Note(2000, Critical, 0), -20.0)], [], [false, false, false, false], 0, 0)
  {
    var n := Note(2000, Critical, 0);
    var e0 := Engine([], [], [false, false, false, false], 0, 0);
    var g := GameNote(n, -20.0);
    assert [n][..0] == [];
    assert Due(2000, 625) && !NoteSpawned([], n);
    var sn := SpawnNotes(e0, [n], 625);
    assert sn == SpawnNoteStep(SpawnNotes(e0, [], 625), n, 625);
    assert sn == e0.(notes := [g]);
    var s1 := SpawnFromChart(e0, OneNoteChart(), 625);
    assert s1 == SpawnHolds(sn, [], 625);
    SurvivorsOfOne(g, Fall(0.0));
    assert MoveNotes(s1, Fall(0.0)) == s1;
  }

  /** 85.5 frames later, at 2050 ms, the note has fallen 570 px onto the line and is not spawned
      again: it reaches the line 50 ms after its time, because it starts 20 px above the field. */
  lemma OneNoteReachesLine()
    ensures Tick(Engine([GameNote(Note(2000, Critical, 0), -20.0)], [], [false, false, false, false], 0, 0), OneNoteChart(), 85.5, 2050)
      == Engine([GameNote(Note(2000, Critical, 0), 550.0)], [], [false, false, false, false], 0, 0)
  {
    var n := Note(2000, Critical, 0);
    var g := GameNote(n, -20.0);
    var e1 := Engine([g], [], [false, false, false, false], 0, 0);
    assert [n][..0] == [];
    assert !Due(2000, 2050);
    assert SpawnNotes(e1, [n], 2050) == SpawnNoteStep(SpawnNotes(e1, [], 2050), n, 2050);
    assert SpawnFromChart(e1, OneNoteChart(), 2050) == e1;
    assert Fall(85.5) == 570.0;
    SurvivorsOfOne(g, 570.0);
    assert MoveNotes(e1, 570.0) == Engine([GameNote(n, 550.0)], [], [false, false, false, false], 0, 0);
  }

  /** Pressed with D on the line, the critical note is judged JUST for 200 points and a combo of 1. */
  lemma OneNoteJudgedJust()
    ensures Press(Engine([GameNote(Note(2000, Critical, 0), 550.0)], [], [false, false, false, false], 0, 0), "KeyD")
      == (Engine([], [], [true, false, false, false], 200, 1), Some(Judgment(Just, Critical, 200)))
  {
    var g := GameNote(Note(2000, Critical, 0), 550.0);
    assert LaneOfKey("KeyD") == 0;
    assert PickNote([g], 0) == Some(0);
    assert RemoveAt([g], 0) == [];
    assert [false, false, false, false][0 := true] == [true, false, false, false];
  }

  /** A hold's start note is appended without the note check: a chart with a note and a hold
      both at 2000 ms in lane 0 gets two active notes with that time and lane at 625 ms. */
  lemma HoldStartDuplicatesNote()
    ensures var n := Note(2000, Normal, 0);
      var h := Hold(2000, 3000, 0, Normal);
      var chart := Some(Chart(MetaData("t", "a", "Normal", 120.0, 0), [n], [h]));
      var r := SpawnFromChart(Engine([], [], [false, false, false, false], 0, 0), chart, 625);
      && r.notes == [NewNote(n), NewNote(n)]
      && r.holds == [NewHold(h)]
      && !UniqueNoteKeys(r.notes)
  {
    var n := Note(2000, Normal, 0);
    var h := Hold(2000, 3000, 0, Normal);
    var e0 := Engine([], [], [false, false, false, false], 0, 0);
    assert [n][..0] == [] && [h][..0] == [];
    var e1 := SpawnNotes(e0, [n], 625);
    assert e1 == SpawnNoteStep(SpawnNotes(e0, [], 625), n, 625);
    assert e1 == e0.(notes := [NewNote(n)]);
    assert !HoldSpawned([], h);
    var e2 := SpawnHolds(e1, [h], 625);
    assert e2 == SpawnHoldStep(SpawnHolds(e1, [], 625), h, 625);
    assert StartNoteOf(h) == n;
    assert e2 == e1.(notes := [NewNote(n), NewNote(n)], holds := [NewHold(h)]);
    assert e2 == SpawnFromChart(e0, Some(Chart(MetaData("t", "a", "Normal", 120.0, 0), [n], [h])), 625);
    assert e2.notes[0].note == e2.notes[1].note;
  }

  /** The hold from 6000 to 7000 ms in lane 0, held from its start note on, reaches progress 1 at
      7000 ms and scores 150 once: a later tick adds nothing. */
  lemma HeldHoldScenario()
    ensures var h := Hold(6000, 7000, 0, Normal);
      var e0 := Engine([NewNote(StartNoteOf(h)).(y := 550.0)], [NewHold(h)], [false, false, false, false], 0, 0);
      var (e1, j) := Press(e0, "KeyD");
      var e2 := Tick(e1, None, 0.0, 7000);
      var e3 := Tick(e2, None, 0.0, 7050);
      && j == Some(Judgment(Just, Normal, 100))
      && e1.holds == [GameHold(h, true, true, Ratio(0.0), true, false)]
      && e2.holds == [GameHold(h, true, true, Ratio(1.0), true, true)]
      && e2.score == 250
      && e3.score == 250
  {
    var h := Hold(6000, 7000, 0, Normal);
    var g := NewNote(StartNoteOf(h)).(y := 550.0);
    var e0 := Engine([g], [NewHold(h)], [false, false, false, false], 0, 0);
    assert PickNote([g], 0) == Some(0);
    assert FirstMatch([NewHold(h)], StartQuery(0, 6000), 0) == Some(0);
    var e1 := Press(e0, "KeyD").0;
    assert e1.holds == [GameHold(h, true, true, Ratio(0.0), true, false)];
    assert e1.notes == [];
    assert ProgressAt(h, 7000) == Ratio(1.0);
    var e2 := Tick(e1, None, 0.0, 7000);
    assert HoldsAfter(e1.holds, e1.keys, 7000) == [GameHold(h, true, true, Ratio(1.0), true, true)];
    assert HoldPoints(e1.holds, 7000) == 150;
    assert HoldPoints(e2.holds, 7050) == 0;
  }

  /** The same hold released at 6500 ms is not frozen: at 6800 ms its progress is 0.8, and at
      7000 ms it still scores its full 150 points. */
  lemma ReleasedHoldScenario()
    ensures var h := Hold(6000, 7000, 0, Normal);
      var e1 := Engine([], [GameHold(h, true, true, Ratio(0.0), true, false)], [true, false, false, false], 100, 1);
      var e2 := Release(e1, "KeyD");
      var e3 := Tick(e2, None, 0.0, 6800);
      var e4 := Tick(e3, None, 0.0, 7000);
      && e3.holds == [GameHold(h, false, true, Ratio(0.8), false, false)]
      && e4.score == 250
  {
    var h := Hold(6000, 7000, 0, Normal);
    var e1 := Engine([], [GameHold(h, true, true, Ratio(0.0), true, false)], [true, false, false, false], 100, 1);
    var e2 := Release(e1, "KeyD");
    assert e2.holds == [GameHold(h, false, true, Ratio(0.0), false, false)];
    assert e2.keys == [false, false, false, false];
    assert ProgressAt(h, 6800) == Ratio(0.8) by {
      assert (6800 - 6000) as real / (7000 - 6000) as real == 0.8;
    }
    var e3 := Tick(e2, None, 0.0, 6800);
    assert HoldStep(e2.holds[0], e2.keys, 6800) == GameHold(h, false, true, Ratio(0.8), false, false);
    assert e2.holds[1..] == [];
    assert HoldsAfter(e2.holds, e2.keys, 6800) == [GameHold(h, false, true, Ratio(0.8), false, false)];
    assert HoldPoints(e3.holds, 7000) == 150;
  }
}
