/**
 * The play scene as an object: note and hold list fields reassigned with an entry spliced out
 * or appended, a fixed per-lane key
 * buffer, and the score and combo counters. Every method is proved to move the engine
 * snapshot exactly as the functions of GameRules say.
 */
module GameEngine {
  import opened Optional
  import opened ChartTypes
  import ChartLoader
  import opened GameRules
  import opened GameProperties

  /** Length of a round without a BGM, in seconds. */
  const DefaultDuration: real := 15.0

  class GameScene {
    var gameNotes: seq<GameNote>
    var gameHolds: seq<GameHold>
    var score: int
    var combo: int
    /** Whether each lane's key is down. */
    const keysHeld: array<bool>
    var chart: Option<Chart>
    var chartIndex: int
    /** Seconds played, counted as frames / 60. */
    var gameTimer: real
    var gameDuration: real
    var gameReady: bool

    /** Four lane keys, counters never negative, and no two holds with one start and lane. */
    ghost predicate Valid()
      reads this, keysHeld
    {
      && keysHeld.Length == LaneCount
      && score >= 0
      && combo >= 0
      && UniqueHoldKeys(gameHolds)
    }

    /** The part of the scene the judgment rules read and write. */
    function Snapshot(): Engine
      reads this, keysHeld
    {
      Engine(gameNotes, gameHolds, keysHeld[..], score, combo)
    }

    constructor ()
      ensures Valid()
      ensures Snapshot() == Engine([], [], [false, false, false, false], 0, 0)
      ensures chart == None && chartIndex == 0
      ensures gameTimer == 0.0 && gameDuration == DefaultDuration && !gameReady
      ensures fresh(keysHeld)
    {
      gameNotes := [];
      gameHolds := [];
      score := 0;
      combo := 0;
      keysHeld := new bool[LaneCount](_ => false);
      chart := None;
      chartIndex := 0;
      gameTimer := 0.0;
      gameDuration := DefaultDuration;
      gameReady := false;
      new;
      assert keysHeld[..] == [false, false, false, false];
    }

    /** `setChartIndex`: selects a built-in chart; an index out of range selects none. */
    method SetChartIndex(index: int)
      modifies this
      ensures chartIndex == index && chart == ChartLoader.GetChart(index)
      ensures Snapshot() == old(Snapshot())
      ensures gameTimer == old(gameTimer) && gameDuration == old(gameDuration) && gameReady == old(gameReady)
    {
      chartIndex := index;
      chart := ChartLoader.GetChart(index);
    }

    /** A chart obtained elsewhere. */
    method SetChart(c: Option<Chart>)
      modifies this
      ensures chart == c
      ensures Snapshot() == old(Snapshot()) && chartIndex == old(chartIndex)
      ensures gameTimer == old(gameTimer) && gameDuration == old(gameDuration) && gameReady == old(gameReady)
    {
      chart := c;
    }

    /** Loading the BGM: a positive duration becomes the length of the round. */
    method ApplyBgmDuration(duration: real)
      modifies this
      ensures gameDuration == if duration > 0.0 then duration else old(gameDuration)
      ensures Snapshot() == old(Snapshot()) && chart == old(chart) && chartIndex == old(chartIndex)
      ensures gameTimer == old(gameTimer) && gameReady == old(gameReady)
    {
      if duration > 0.0 {
        gameDuration := duration;
      }
    }

    /** `start`: once set up (and the BGM, if any, has loaded) the scene is ready. */
    method Start()
      modifies this
      ensures gameReady
      ensures Snapshot() == old(Snapshot()) && chart == old(chart) && chartIndex == old(chartIndex)
      ensures gameTimer == old(gameTimer) && gameDuration == old(gameDuration)
    {
      gameReady := true;
    }

    // -------------------------------------------------------------------------
    // Key events.

    /** `handleKeyPress`. */
    method HandleKeyPress(code: string) returns (judgment: Option<Judgment>)
      requires Valid()
      modifies this, keysHeld
      ensures Valid()
      ensures (Snapshot(), judgment) == Press(old(Snapshot()), code)
      ensures chart == old(chart) && chartIndex == old(chartIndex)
      ensures gameTimer == old(gameTimer) && gameDuration == old(gameDuration) && gameReady == old(gameReady)
    {
      var lane := LaneOfKey(code);
      if lane < 0 || keysHeld[lane] {
        return None;
      }
      keysHeld[lane] := true;
      judgment := HitNote(lane);
      KeyEventsKeepHoldKeys(old(Snapshot()), code);
      PressNeverLoses(old(Snapshot()), code);
    }

    /** `handleKeyRelease`. */
    method HandleKeyRelease(code: string)
      requires Valid()
      modifies this, keysHeld
      ensures Valid()
      ensures Snapshot() == Release(old(Snapshot()), code)
      ensures chart == old(chart) && chartIndex == old(chartIndex)
      ensures gameTimer == old(gameTimer) && gameDuration == old(gameDuration) && gameReady == old(gameReady)
    {
      var lane := LaneOfKey(code);
      if lane >= 0 {
        keysHeld[lane] := false;
        ReleaseHold(lane);
        KeyEventsKeepHoldKeys(old(Snapshot()), code);
      }
    }

    /** `hitNote`: scans the notes from the last one down and judges the first in the lane
        within range of the line. */
    method HitNote(lane: int) returns (judgment: Option<Judgment>)
      modifies this
      ensures (Snapshot(), judgment) == Hit(old(Snapshot()), lane)
      ensures chart == old(chart) && chartIndex == old(chartIndex)
      ensures gameTimer == old(gameTimer) && gameDuration == old(gameDuration) && gameReady == old(gameReady)
    {
      var i := |gameNotes|;
      while i > 0
        invariant 0 <= i <= |gameNotes|
        invariant PickNote(gameNotes, lane) == PickBelow(gameNotes, lane, i)
        invariant unchanged(this)
      {
        i := i - 1;
        var gameNote := gameNotes[i];
        if gameNote.note.position != lane {
          continue;
        }
        var distance := Distance(gameNote.y);
        if distance < HitRange {
          judgment := JudgeNoteAt(i, lane);
          return;
        }
      }
      return None;
    }

    /** The body of `hitNote` once the scan has found the note at `i`: the note is removed, its
        tier and points follow from its distance and type, the combo grows, and a hold starting
        at the note is started. */
    method JudgeNoteAt(i: nat, lane: int) returns (judgment: Option<Judgment>)
      requires PickNote(gameNotes, lane) == Some(i)
      modifies this
      ensures (Snapshot(), judgment) == Hit(old(Snapshot()), lane)
      ensures chart == old(chart) && chartIndex == old(chartIndex)
      ensures gameTimer == old(gameTimer) && gameDuration == old(gameDuration) && gameReady == old(gameReady)
    {
      var gameNote := gameNotes[i];
      var distance := Distance(gameNote.y);
      gameNotes := gameNotes[..i] + gameNotes[i + 1..];
      var critical := gameNote.note.noteType == Critical;
      var points: int;
      var tier: Tier;
      if distance < 20.0 {
        points := if critical then 200 else 100;
        tier := Just;
      } else if distance < 34.0 {
        points := if critical then 150 else 75;
        tier := Great;
      } else {
        points := if critical then 100 else 50;
        tier := Good;
      }
      assert Judgment(tier, gameNote.note.noteType, points) == Judge(gameNote);
      combo := combo + 1;
      score := score + points;
      CheckHoldStart(lane, gameNote.note.time);
      return Some(Judgment(tier, gameNote.note.noteType, points));
    }

    /** `checkHoldStart`: starts the first hold in the lane that is not yet started and begins
        at the judged note's time. */
    method CheckHoldStart(lane: int, noteTime: int)
      modifies this
      ensures gameHolds == GameRules.CheckHoldStart(old(gameHolds), lane, noteTime, keysHeld[..])
      ensures gameNotes == old(gameNotes) && score == old(score) && combo == old(combo)
      ensures chart == old(chart) && chartIndex == old(chartIndex)
      ensures gameTimer == old(gameTimer) && gameDuration == old(gameDuration) && gameReady == old(gameReady)
    {
      ghost var q := StartQuery(lane, noteTime);
      for i := 0 to |gameHolds|
        invariant FirstMatch(gameHolds, q, 0) == FirstMatch(gameHolds, q, i)
        invariant unchanged(this)
      {
        var gameHold := gameHolds[i];
        if gameHold.hold.position == lane && !gameHold.isStartHit {
          if gameHold.hold.startTime == noteTime {
            var held := KeyAt(keysHeld[..], lane);
            gameHolds := gameHolds[i := gameHold.(isStartHit := true, isActive := held, keyHeldDown := held)];
            return;
          }
        }
      }
    }

    /** `releaseHold`: releases the first started hold in the lane. */
    method ReleaseHold(lane: int)
      modifies this
      ensures gameHolds == ReleaseLane(old(gameHolds), lane)
      ensures gameNotes == old(gameNotes) && score == old(score) && combo == old(combo)
      ensures chart == old(chart) && chartIndex == old(chartIndex)
      ensures gameTimer == old(gameTimer) && gameDuration == old(gameDuration) && gameReady == old(gameReady)
    {
      ghost var q := ReleaseQuery(lane);
      for i := 0 to |gameHolds|
        invariant FirstMatch(gameHolds, q, 0) == FirstMatch(gameHolds, q, i)
        invariant unchanged(this)
      {
        var gameHold := gameHolds[i];
        if gameHold.hold.position == lane && gameHold.isStartHit {
          gameHolds := gameHolds[i := gameHold.(isActive := false, keyHeldDown := false)];
          return;
        }
      }
    }

    // -------------------------------------------------------------------------
    // Ticks.

    /** `update`: a scene that is not ready ignores the tick. Otherwise the timer advances by
        `deltaTime / 60` seconds, due chart entities spawn, notes fall and expire, holds update,
        and the round ends once the timer reaches its duration. `currentTime` is the ms elapsed
        since `start` stamped the round's start, which it does before any tick can do work, so it
        is never negative. */
    method Update(deltaTime: real, currentTime: int) returns (ended: bool)
      requires Valid()
      requires currentTime >= 0
      modifies this
      ensures Valid()
      ensures !old(gameReady) ==> Snapshot() == old(Snapshot()) && gameTimer == old(gameTimer) && !ended
      ensures old(gameReady) ==> Snapshot() == Tick(old(Snapshot()), chart, deltaTime, currentTime)
      ensures old(gameReady) ==> gameTimer == old(gameTimer) + deltaTime / 60.0 && ended == (gameTimer >= gameDuration)
      ensures chart == old(chart) && chartIndex == old(chartIndex)
      ensures gameDuration == old(gameDuration) && gameReady == old(gameReady)
    {
      if !gameReady {
        return false;
      }
      gameTimer := gameTimer + deltaTime / 60.0;
      TickEffect(old(Snapshot()), chart, deltaTime, currentTime);
      SpawnNotesFromChart(currentTime);
      UpdateNotes(deltaTime);
      UpdateHolds(currentTime);
      ended := gameTimer >= gameDuration;
    }

    /** `spawnNotesFromChart`. */
    method SpawnNotesFromChart(currentTime: int)
      modifies this
      ensures Snapshot() == SpawnFromChart(old(Snapshot()), chart, currentTime)
      ensures chart == old(chart) && chartIndex == old(chartIndex)
      ensures gameTimer == old(gameTimer) && gameDuration == old(gameDuration) && gameReady == old(gameReady)
    {
      if chart.None? {
        return;
      }
      var notes := chart.value.notes;
      for i := 0 to |notes|
        invariant Snapshot() == SpawnNotes(old(Snapshot()), notes[..i], currentTime)
        invariant chart == old(chart) && chartIndex == old(chartIndex)
        invariant gameTimer == old(gameTimer) && gameDuration == old(gameDuration) && gameReady == old(gameReady)
      {
        assert notes[..i + 1][..i] == notes[..i];
        var note := notes[i];
        var spawnTime := note.time - SpawnLead;
        if currentTime >= spawnTime && currentTime <= spawnTime + SpawnWindow {
          var alreadySpawned := NoteSpawned(gameNotes, note);
          if !alreadySpawned {
            SpawnNote(note);
          }
        }
      }
      assert notes[..|notes|] == notes;
      ghost var afterNotes := Snapshot();
      var holds := chart.value.holds;
      for i := 0 to |holds|
        invariant Snapshot() == SpawnHolds(afterNotes, holds[..i], currentTime)
        invariant chart == old(chart) && chartIndex == old(chartIndex)
        invariant gameTimer == old(gameTimer) && gameDuration == old(gameDuration) && gameReady == old(gameReady)
      {
        assert holds[..i + 1][..i] == holds[..i];
        var hold := holds[i];
        var spawnTime := hold.startTime - SpawnLead;
        if currentTime >= spawnTime && currentTime <= spawnTime + SpawnWindow {
          var alreadySpawned := HoldSpawned(gameHolds, hold);
          if !alreadySpawned {
            SpawnNote(Note(hold.startTime, hold.holdType, hold.position));
            SpawnHold(hold);
          }
        }
      }
      assert holds[..|holds|] == holds;
    }

    /** `spawnNote`: a new note enters just above the field. */
    method SpawnNote(noteData: Note)
      modifies this
      ensures gameNotes == old(gameNotes) + [GameNote(noteData, -NoteHeight)]
      ensures gameHolds == old(gameHolds) && score == old(score) && combo == old(combo)
      ensures chart == old(chart) && chartIndex == old(chartIndex)
      ensures gameTimer == old(gameTimer) && gameDuration == old(gameDuration) && gameReady == old(gameReady)
    {
      gameNotes := gameNotes + [GameNote(noteData, -NoteHeight)];
    }

    /** `spawnHold`: a new hold enters neither started, active nor scored. */
    method SpawnHold(holdData: Hold)
      modifies this
      ensures gameHolds == old(gameHolds) + [GameHold(holdData, false, false, Ratio(0.0), false, false)]
      ensures gameNotes == old(gameNotes) && score == old(score) && combo == old(combo)
      ensures chart == old(chart) && chartIndex == old(chartIndex)
      ensures gameTimer == old(gameTimer) && gameDuration == old(gameDuration) && gameReady == old(gameReady)
    {
      gameHolds := gameHolds + [GameHold(holdData, false, false, Ratio(0.0), false, false)];
    }

    /** The note loop of `update`: from the last note down, each note falls, and one past the
        miss line is removed, resetting a positive combo. */
    method UpdateNotes(deltaTime: real)
      modifies this
      ensures Snapshot() == MoveNotes(old(Snapshot()), Fall(deltaTime))
      ensures chart == old(chart) && chartIndex == old(chartIndex)
      ensures gameTimer == old(gameTimer) && gameDuration == old(gameDuration) && gameReady == old(gameReady)
    {
      var dy := NoteSpeed * deltaTime / 60.0;
      var notes, newCombo := MoveAndExpire(gameNotes, combo, dy);
      gameNotes, combo := notes, newCombo;
    }

    /** The hold loop of `update`: from the last hold down, a started hold follows its lane key
        and updates its progress and score, and a hold past its removal time is removed. */
    method UpdateHolds(currentTime: int)
      modifies this
      ensures Snapshot() == TickHolds(old(Snapshot()), currentTime)
      ensures chart == old(chart) && chartIndex == old(chartIndex)
      ensures gameTimer == old(gameTimer) && gameDuration == old(gameDuration) && gameReady == old(gameReady)
    {
      var holds, newScore := TickHoldList(gameHolds, keysHeld[..], currentTime, score);
      gameHolds, score := holds, newScore;
    }
  }

  /** The note loop of `update` on the note list and the combo: from the last note down, each
      note falls by `dy`, and one past the miss line is removed, resetting a positive combo. */
  method MoveAndExpire(notes0: seq<GameNote>, combo0: int, dy: real) returns (notes: seq<GameNote>, combo: int)
    ensures notes == Survivors(notes0, dy)
    ensures combo == ComboAfter(combo0, AnyExpires(notes0, dy))
  {
    notes, combo := notes0, combo0;
    var i := |notes|;
    ghost var done: seq<GameNote> := [];
    ghost var missed := false;
    assert notes0[i..] == [];
    while i > 0
      invariant 0 <= i <= |notes0|
      invariant done == Survivors(notes0[i..], dy) && missed == AnyExpires(notes0[i..], dy)
      invariant notes == notes0[..i] + done
      invariant combo == ComboAfter(combo0, missed)
    {
      i := i - 1;
      NoteStep(notes0, i, dy);
      var gameNote := notes[i];
      gameNote := gameNote.(y := gameNote.y + dy);
      Splice(notes0[..i], notes0[i], gameNote, done);
      notes := notes[i := gameNote];
      if gameNote.y > MissY {
        if combo > 0 {
          combo := 0;
        }
        notes := notes[..i] + notes[i + 1..];
        missed := true;
      } else {
        done := [gameNote] + done;
      }
    }
    assert notes0[0..] == notes0;
  }

  /** The hold loop of `update` on the hold list and the score, with the lane keys as they
      are during the tick: from the last hold down, each hold is updated, and one past its end
      time plus the grace period is removed. */
  method TickHoldList(holds0: seq<GameHold>, keys: seq<bool>, currentTime: int, score0: int)
    returns (holds: seq<GameHold>, score: int)
    ensures holds == HoldsAfter(holds0, keys, currentTime)
    ensures score == score0 + HoldPoints(holds0, currentTime)
  {
    holds, score := holds0, score0;
    var i := |holds|;
    ghost var done: seq<GameHold> := [];
    ghost var points := 0;
    assert holds0[i..] == [];
    while i > 0
      invariant 0 <= i <= |holds0|
      invariant done == HoldsAfter(holds0[i..], keys, currentTime) && points == HoldPoints(holds0[i..], currentTime)
      invariant holds == holds0[..i] + done
      invariant score == score0 + points
    {
      i := i - 1;
      HoldStepAt(holds0, i, keys, currentTime);
      var gameHold;
      gameHold, score := UpdateHold(holds[i], keys, currentTime, score);
      Splice(holds0[..i], holds0[i], gameHold, done);
      holds := holds[i := gameHold];
      points := AwardOf(holds0[i], currentTime) + points;
      var shouldRemove := currentTime >= gameHold.hold.endTime + RemovalGrace;
      assert shouldRemove == Removed(holds0[i], currentTime);
      if shouldRemove {
        holds := holds[..i] + holds[i + 1..];
      } else {
        done := [gameHold] + done;
      }
    }
    assert holds0[0..] == holds0;
  }

  /** The body of the hold loop before the removal check: a started hold follows its lane key
      and then has its progress and score updated; a hold not yet started only moves. */
  method UpdateHold(gameHold: GameHold, keys: seq<bool>, currentTime: int, score0: int)
    returns (updated: GameHold, score: int)
    ensures updated == HoldStep(gameHold, keys, currentTime)
    ensures score == score0 + AwardOf(gameHold, currentTime)
  {
    updated, score := gameHold, score0;
    if updated.isStartHit {
      var held := KeyAt(keys, updated.hold.position);
      updated := updated.(keyHeldDown := held);
      updated := updated.(isActive := updated.keyHeldDown);
      updated, score := UpdateHoldProgress(updated, currentTime, score);
    }
  }

  /** `updateHoldProgress`: progress follows the clock from the hold's start, whether the key is
      held or not, and the hold's points are added to the score once its end time is reached. */
  method UpdateHoldProgress(gameHold: GameHold, currentTime: int, score0: int) returns (updated: GameHold, score: int)
    ensures updated == gameHold.(
      progress := if (gameHold.isActive || gameHold.isStartHit) && currentTime >= gameHold.hold.startTime
                  then ProgressAt(gameHold.hold, currentTime) else gameHold.progress,
      scoreAwarded := gameHold.scoreAwarded || currentTime >= gameHold.hold.endTime)
    ensures score == score0 + (if currentTime >= gameHold.hold.endTime && !gameHold.scoreAwarded
                               then HoldValue(gameHold.hold.holdType) else 0)
  {
    updated, score := gameHold, score0;
    var holdStartTime := gameHold.hold.startTime;
    var holdEndTime := gameHold.hold.endTime;
    if updated.isActive && currentTime >= holdStartTime {
      updated := updated.(progress := ProgressAt(updated.hold, currentTime));
    } else {
      if updated.isStartHit && currentTime >= holdStartTime {
        updated := updated.(progress := ProgressAt(updated.hold, currentTime));
      }
    }
    if currentTime >= holdEndTime && !updated.scoreAwarded {
      var holdScore := if updated.hold.holdType == Critical then 300 else 150;
      score := score + holdScore;
      updated := updated.(scoreAwarded := true);
    }
  }

  /** One step of the note loop, read backwards: the notes from `i` on are the note at `i`
      followed by the rest. */
  lemma NoteStep(notes: seq<GameNote>, i: nat, dy: real)
    requires i < |notes|
    ensures Expires(notes[i], dy) ==> Survivors(notes[i..], dy) == Survivors(notes[i + 1..], dy)
    ensures !Expires(notes[i], dy) ==>
      Survivors(notes[i..], dy) == [notes[i].(y := notes[i].y + dy)] + Survivors(notes[i + 1..], dy)
    ensures AnyExpires(notes[i..], dy) == (Expires(notes[i], dy) || AnyExpires(notes[i + 1..], dy))
    ensures notes[..i + 1] == notes[..i] + [notes[i]]
  {
    assert notes[i..][1..] == notes[i + 1..];
  }

  /** One step of the hold loop, read backwards. */
  lemma HoldStepAt(holds: seq<GameHold>, i: nat, keys: seq<bool>, now: int)
    requires i < |holds|
    ensures Removed(holds[i], now) ==> HoldsAfter(holds[i..], keys, now) == HoldsAfter(holds[i + 1..], keys, now)
    ensures !Removed(holds[i], now) ==>
      HoldsAfter(holds[i..], keys, now) == [HoldStep(holds[i], keys, now)] + HoldsAfter(holds[i + 1..], keys, now)
    ensures HoldPoints(holds[i..], now) == AwardOf(holds[i], now) + HoldPoints(holds[i + 1..], now)
    ensures holds[..i + 1] == holds[..i] + [holds[i]]
  {
    assert holds[i..][1..] == holds[i + 1..];
  }

  /** Replacing the element `x` between `pre` and `rest` by `y`, and cutting it out. */
  lemma Splice<T>(pre: seq<T>, x: T, y: T, rest: seq<T>)
    ensures (pre + [x] + rest)[|pre|] == x
    ensures (pre + [x] + rest)[|pre| := y] == pre + [y] + rest
    ensures (pre + [y] + rest)[..|pre|] == pre
    ensures (pre + [y] + rest)[|pre| + 1..] == rest
    ensures pre + [y] + rest == pre + ([y] + rest)
  {
    var s := pre + [y] + rest;
    assert s[..|pre|] == pre;
    assert s[|pre| + 1..] == rest;
  }
}
