/**
 * The song-select screen: the scroll position of the song list, the colour of each
 * difficulty, and the song list built from the sample charts when the music list
 * cannot be fetched.
 */
module SongSelect {
  import opened ChartTypes
  import ChartLoader

  /** Pixels moved by one arrow key press or one wheel step. */
  const ScrollSpeed: int := 50
  /** Height of the visible part of the song list. */
  const VisibleHeight: int := 400
  /** Vertical distance between two song buttons. */
  const ButtonSpacing: int := 120

  /** One entry of the song list. */
  datatype MusicData = MusicData(
    id: string, title: string, artist: string, bpm: real,
    difficulty: string, rating: int, chartIndex: int)

  /** The largest scroll offset for a list of `songCount` songs. */
  function MaxScrollY(songCount: nat): (m: int)
    ensures m >= 0
    ensures m >= songCount * ButtonSpacing - VisibleHeight
    ensures m == 0 || m == songCount * ButtonSpacing - VisibleHeight
    ensures m > 0 <==> songCount >= 4
  {
    var totalHeight := songCount * ButtonSpacing;
    if totalHeight - VisibleHeight > 0 then totalHeight - VisibleHeight else 0
  }

  /** The new scroll offset: `scrollY + deltaY` clamped into `[0, maxScrollY]`. */
  function ClampScroll(scrollY: int, maxScrollY: int, deltaY: int): (r: int)
    requires maxScrollY >= 0
    ensures 0 <= r <= maxScrollY
    ensures 0 <= scrollY + deltaY <= maxScrollY ==> r == scrollY + deltaY
    ensures scrollY + deltaY < 0 ==> r == 0
    ensures scrollY + deltaY > maxScrollY ==> r == maxScrollY
  {
    var lower := if maxScrollY < scrollY + deltaY then maxScrollY else scrollY + deltaY;
    if 0 < lower then lower else 0
  }

  /** Scrolling up at the top, or down at the bottom, stays put. */
  lemma ScrollStopsAtEdges(maxScrollY: int)
    requires maxScrollY > 0
    ensures ClampScroll(0, maxScrollY, -ScrollSpeed) == 0
    ensures ClampScroll(maxScrollY, maxScrollY, ScrollSpeed) == maxScrollY
  {
  }

  /** The song-select screen's scroll state. */
  class SelectScene {
    var scrollY: int
    var maxScrollY: int
    /** The song list container's vertical offset. */
    var containerY: int

    ghost predicate Valid()
      reads this
    {
      0 <= scrollY <= maxScrollY && containerY == -scrollY
    }

    /** Construction followed by the layout part of `start`, for a list of `songCount` songs. */
    constructor Start(songCount: nat)
      ensures Valid()
      ensures scrollY == 0 && containerY == 0 && maxScrollY == MaxScrollY(songCount)
    {
      scrollY := 0;
      containerY := 0;
      maxScrollY := MaxScrollY(songCount);
    }

    /** `scroll`: nothing when the list fits; otherwise move by `deltaY`, clamped, and move the container with it. */
    method Scroll(deltaY: int)
      requires Valid()
      modifies this
      ensures Valid()
      ensures maxScrollY == old(maxScrollY)
      ensures old(maxScrollY) <= 0 ==> scrollY == old(scrollY) && containerY == old(containerY)
      ensures old(maxScrollY) > 0 ==>
        scrollY == ClampScroll(old(scrollY), maxScrollY, deltaY) && containerY == -scrollY
    {
      if maxScrollY <= 0 {
        return;
      }
      scrollY := ClampScroll(scrollY, maxScrollY, deltaY);
      containerY := -scrollY;
    }

    /** Arrow keys: ArrowUp scrolls up by 50, ArrowDown down by 50, other keys do nothing. */
    method HandleKeyDown(key: string)
      requires Valid()
      modifies this
      ensures Valid()
      ensures maxScrollY == old(maxScrollY)
      ensures key == "ArrowUp" && maxScrollY > 0 ==> scrollY == ClampScroll(old(scrollY), maxScrollY, -ScrollSpeed)
      ensures key == "ArrowDown" && maxScrollY > 0 ==> scrollY == ClampScroll(old(scrollY), maxScrollY, ScrollSpeed)
      ensures (key != "ArrowUp" && key != "ArrowDown") || maxScrollY <= 0 ==>
        scrollY == old(scrollY) && containerY == old(containerY)
    {
      if key == "ArrowUp" {
        Scroll(-ScrollSpeed);
      } else if key == "ArrowDown" {
        Scroll(ScrollSpeed);
      }
    }

    /** Mouse wheel: a positive `deltaY` scrolls down by 50, anything else up by 50. */
    method HandleWheel(deltaY: real)
      requires Valid()
      modifies this
      ensures Valid()
      ensures maxScrollY == old(maxScrollY)
      ensures maxScrollY > 0 ==>
        scrollY == ClampScroll(old(scrollY), maxScrollY, if deltaY > 0.0 then ScrollSpeed else -ScrollSpeed)
      ensures maxScrollY <= 0 ==> scrollY == old(scrollY)
    {
      Scroll(if deltaY > 0.0 then ScrollSpeed else -ScrollSpeed);
    }
  }

  /** `getDifficultyColor`: one colour per known difficulty, white for anything else. */
  function DifficultyColor(difficulty: string): (color: int)
    ensures difficulty == "Normal" ==> color == 0x00ff00
    ensures difficulty == "Hard" ==> color == 0xffff00
    ensures difficulty == "Expert" ==> color == 0xff0000
    ensures difficulty == "Extend" ==> color == 0xff00ff
    ensures color == 0xffffff <==> difficulty !in {"Normal", "Hard", "Expert", "Extend"}
  {
    match difficulty
    case "Normal" => 0x00ff00
    case "Hard" => 0xffff00
    case "Expert" => 0xff0000
    case "Extend" => 0xff00ff
    case _ => 0xffffff
  }

  /** The four known difficulties get four different colours. */
  lemma DifficultyColorsDistinct()
    ensures |{DifficultyColor("Normal"), DifficultyColor("Hard"), DifficultyColor("Expert"), DifficultyColor("Extend")}| == 4
  {
  }

  /** A decimal digit. */
  function DigitChar(d: nat): (c: char)
    requires d < 10
    ensures '0' <= c <= '9'
  {
    "0123456789"[d]
  }

  /** The number a string of decimal digits spells. */
  function DigitsValue(s: string): nat
    requires forall k :: 0 <= k < |s| ==> '0' <= s[k] <= '9'
    decreases |s|
  {
    if s == [] then 0 else DigitsValue(s[..|s| - 1]) * 10 + (s[|s| - 1] as int - '0' as int)
  }

  /** Appending a digit multiplies the value by ten and adds the digit. */
  lemma DigitsValueSnoc(s: string, d: nat)
    requires d < 10
    requires forall k :: 0 <= k < |s| ==> '0' <= s[k] <= '9'
    ensures forall k :: 0 <= k < |s + [DigitChar(d)]| ==> '0' <= (s + [DigitChar(d)])[k] <= '9'
    ensures DigitsValue(s + [DigitChar(d)]) == DigitsValue(s) * 10 + d
  {
    var t := s + [DigitChar(d)];
    assert t[..|t| - 1] == s;
    assert DigitChar(d) as int - '0' as int == d;
  }

  /** The decimal spelling of `n`, as a template literal writes it: digits without a leading
      zero that spell `n`. */
  function NatToString(n: nat): (s: string)
    ensures |s| >= 1
    ensures forall k :: 0 <= k < |s| ==> '0' <= s[k] <= '9'
    ensures n >= 10 ==> s[0] != '0'
    ensures DigitsValue(s) == n
    decreases n
  {
    if n < 10 then [DigitChar(n)]
    else
      DigitsValueSnoc(NatToString(n / 10), n % 10);
      NatToString(n / 10) + [DigitChar(n % 10)]
  }

  /** The song list entry built for sample chart `index`. */
  function FallbackEntry(chart: Chart, index: nat): MusicData {
    MusicData(
      "chart_" + NatToString(index),
      chart.meta.title,
      if chart.meta.artist == "" then "Unknown" else chart.meta.artist,
      if chart.meta.bpm == 0.0 then 120.0 else chart.meta.bpm,
      chart.meta.difficulty,
      1,
      index)
  }

  /** The song list built from the charts when the music list cannot be fetched: one entry per chart, in order. */
  function FallbackMusicData(charts: seq<Chart>): (r: seq<MusicData>)
    ensures |r| == |charts|
    ensures forall i :: 0 <= i < |r| ==>
      && r[i].id == "chart_" + NatToString(i)
      && r[i].chartIndex == i && r[i].rating == 1
      && r[i].title == charts[i].meta.title && r[i].difficulty == charts[i].meta.difficulty
      && (charts[i].meta.artist == "" ==> r[i].artist == "Unknown")
      && (charts[i].meta.artist != "" ==> r[i].artist == charts[i].meta.artist)
      && (charts[i].meta.bpm == 0.0 ==> r[i].bpm == 120.0)
      && (charts[i].meta.bpm != 0.0 ==> r[i].bpm == charts[i].meta.bpm)
  {
    seq(|charts|, i requires 0 <= i < |charts| => FallbackEntry(charts[i], i))
  }

  /** Different entries of the fallback list get different ids. */
  lemma FallbackIdsDistinct(charts: seq<Chart>, i: nat, j: nat)
    requires i < j < |charts|
    ensures FallbackMusicData(charts)[i].id != FallbackMusicData(charts)[j].id
  {
    var r := FallbackMusicData(charts);
    assert NatToString(i) != NatToString(j) by {
      assert DigitsValue(NatToString(i)) != DigitsValue(NatToString(j));
    }
    assert r[i].id[6..] == NatToString(i) && r[j].id[6..] == NatToString(j);
  }

  /** With the sample charts, the fallback list has four songs, keeps every artist and bpm,
      shows four distinct difficulty colours, and needs scrolling. */
  lemma FallbackForSampleCharts()
    ensures |FallbackMusicData(ChartLoader.GetAllCharts())| == 4
    ensures forall i :: 0 <= i < 4 ==>
      FallbackMusicData(ChartLoader.GetAllCharts())[i].artist == ChartLoader.GetAllCharts()[i].meta.artist
    ensures forall i, j :: 0 <= i < j < 4 ==>
      DifficultyColor(FallbackMusicData(ChartLoader.GetAllCharts())[i].difficulty)
        != DifficultyColor(FallbackMusicData(ChartLoader.GetAllCharts())[j].difficulty)
    ensures MaxScrollY(|FallbackMusicData(ChartLoader.GetAllCharts())|) == 80
  {
    var charts := ChartLoader.GetAllCharts();
    var list := FallbackMusicData(charts);
    assert charts == ChartLoader.SampleCharts();
    assert charts[0].meta.artist == "Artist 1" && charts[1].meta.artist == "Artist 2";
    assert charts[2].meta.artist == "Artist 3" && charts[3].meta.artist == "Artist 4";
  }
}
