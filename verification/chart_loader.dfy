/**
 * The built-in sample charts and the index lookup over them.
 */
module ChartLoader {
  import opened Optional
  import opened ChartTypes

  /** The four built-in charts, in the order the song list shows them. */
  function SampleCharts(): seq<Chart> {
    [ Chart(Meta1(), Notes1(), Holds1()), Chart(Meta2(), Notes2(), Holds2()),
      Chart(Meta3(), Notes3(), Holds3()), Chart(Meta4(), Notes4(), Holds4()) ]
  }

  /** `ChartLoader.getChart`: the sample chart at `index`, or null when there is none. */
  function GetChart(index: int): (r: Option<Chart>)
    ensures r.Some? <==> 0 <= index < 4
    ensures r.Some? ==> r.value == GetAllCharts()[index] && WellFormedChart(r.value)
  {
    SampleChartsWellFormed();
    if 0 <= index < |SampleCharts()| then Some(SampleCharts()[index]) else None
  }

  /** `ChartLoader.getAllCharts`: the four sample charts, in order and unmodified. */
  function GetAllCharts(): (r: seq<Chart>)
    ensures |r| == 4
    ensures forall c <- r :: WellFormedChart(c)
    ensures r[0].meta.difficulty == "Normal" && r[1].meta.difficulty == "Hard"
    ensures r[2].meta.difficulty == "Expert" && r[3].meta.difficulty == "Extend"
  {
    SampleChartsWellFormed();
    SampleCharts()
  }

  function Meta1(): MetaData { MetaData("楽曲1", "Artist 1", "Normal", 120.0, 0) }
  function Notes1(): seq<Note> {
    [ Note(1000, Normal, 0), Note(1500, Normal, 1), Note(2000, Normal, 2), Note(2500, Normal, 3),
      Note(3000, Critical, 1), Note(3500, Normal, 0), Note(4000, Normal, 2), Note(4500, Critical, 3),
      Note(5000, Normal, 1), Note(5500, Normal, 2) ]
  }
  function Holds1(): seq<Hold> { [ Hold(6000, 7000, 0, Normal), Hold(7500, 8500, 2, Critical) ] }

  function Meta2(): MetaData { MetaData("楽曲2", "Artist 2", "Hard", 140.0, 100) }
  function Notes2(): seq<Note> {
    [ Note(800, Normal, 0), Note(1000, Normal, 1), Note(1200, Normal, 2), Note(1400, Normal, 3),
      Note(1600, Critical, 1), Note(1800, Critical, 2), Note(2000, Normal, 0), Note(2200, Normal, 3),
      Note(2400, Critical, 1), Note(2600, Normal, 2), Note(2800, Normal, 0), Note(3000, Critical, 3) ]
  }
  function Holds2(): seq<Hold> { [ Hold(3500, 4500, 1, Normal), Hold(5000, 6000, 2, Critical) ] }

  function Meta3(): MetaData { MetaData("楽曲3", "Artist 3", "Expert", 160.0, 50) }
  function Notes3(): seq<Note> {
    [ Note(500, Normal, 0), Note(600, Normal, 1), Note(700, Normal, 2), Note(800, Normal, 3),
      Note(1000, Critical, 0), Note(1100, Critical, 1), Note(1200, Critical, 2), Note(1300, Critical, 3),
      Note(1500, Normal, 1), Note(1600, Normal, 2), Note(1700, Critical, 0), Note(1800, Critical, 3),
      Note(2000, Normal, 0), Note(2000, Normal, 3) ]
  }
  function Holds3(): seq<Hold> {
    [ Hold(2500, 3500, 1, Normal), Hold(4000, 5000, 2, Critical), Hold(5500, 6500, 0, Normal) ]
  }

  function Meta4(): MetaData { MetaData("楽曲4", "Artist 4", "Extend", 180.0, 0) }
  function Notes4(): seq<Note> {
    [ Note(400, Normal, 0), Note(500, Normal, 1), Note(600, Normal, 2), Note(700, Normal, 3),
      Note(800, Critical, 1), Note(900, Critical, 2), Note(1000, Normal, 0), Note(1100, Normal, 3),
      Note(1200, Critical, 0), Note(1200, Critical, 3), Note(1400, Normal, 1), Note(1500, Normal, 2),
      Note(1600, Critical, 0), Note(1700, Critical, 1), Note(1800, Critical, 2), Note(1900, Critical, 3) ]
  }
  function Holds4(): seq<Hold> {
    [ Hold(2200, 3200, 0, Critical), Hold(2400, 3400, 2, Critical), Hold(4000, 5500, 1, Normal) ]
  }

  // ---------------------------------------------------------------------------
  // Linear-size facts about the data, from which the pairwise invariants follow.

  /** `a` comes strictly before `b` in (time, position) order. */
  predicate KeyBefore(a: Note, b: Note) {
    a.time < b.time || (a.time == b.time && a.position < b.position)
  }

  /** Each note comes strictly before the next one in (time, position) order. */
  predicate NotesStrictlyOrdered(ns: seq<Note>) {
    forall i :: 0 <= i < |ns| - 1 ==> KeyBefore(ns[i], ns[i + 1])
  }

  /** Each hold starts strictly before the next one. */
  predicate HoldStartsIncreasing(hs: seq<Hold>) {
    forall j :: 0 <= j < |hs| - 1 ==> hs[j].startTime < hs[j + 1].startTime
  }

  /** Every hold starts after the last note. */
  predicate HoldsAfterNotes(c: Chart) {
    |c.notes| > 0 ==> forall j :: 0 <= j < |c.holds| ==> c.notes[|c.notes| - 1].time < c.holds[j].startTime
  }

  lemma {:induction false} NotesChain(ns: seq<Note>, i: nat, j: nat)
    requires NotesStrictlyOrdered(ns)
    requires i < j < |ns|
    ensures KeyBefore(ns[i], ns[j])
    decreases j - i
  {
    if i + 1 < j {
      NotesChain(ns, i + 1, j);
    }
  }

  /** Strict (time, position) order gives time order, distinct keys, and puts the last note latest. */
  lemma OrderedNotesFacts(ns: seq<Note>)
    requires NotesStrictlyOrdered(ns)
    ensures NotesInTimeOrder(ns) && NoteKeysDistinct(ns)
    ensures forall i :: 0 <= i < |ns| ==> ns[i].time <= ns[|ns| - 1].time
  {
    forall i, j | 0 <= i < j < |ns|
      ensures KeyBefore(ns[i], ns[j])
    {
      NotesChain(ns, i, j);
    }
  }

  lemma {:induction false} HoldsChain(hs: seq<Hold>, i: nat, j: nat)
    requires HoldStartsIncreasing(hs)
    requires i < j < |hs|
    ensures hs[i].startTime < hs[j].startTime
    decreases j - i
  {
    if i + 1 < j {
      HoldsChain(hs, i + 1, j);
    }
  }

  /** The linear facts imply every chart invariant. */
  lemma LinearFactsSuffice(c: Chart)
    requires ChartInLanes(c) && HoldsHavePositiveDuration(c)
    requires NotesStrictlyOrdered(c.notes) && HoldStartsIncreasing(c.holds) && HoldsAfterNotes(c)
    ensures WellFormedChart(c)
  {
    OrderedNotesFacts(c.notes);
    forall i, j | 0 <= i < j < |c.holds|
      ensures c.holds[i].startTime < c.holds[j].startTime
    {
      HoldsChain(c.holds, i, j);
    }
  }

  /** Every built-in chart is well formed: lanes 0..3, positive hold durations, notes in
      time order with distinct keys, no note at a hold start, and distinct hold starts. */
  lemma SampleChartsWellFormed()
    ensures forall c <- SampleCharts() :: WellFormedChart(c)
  {
    SampleChart1WellFormed();
    SampleChart2WellFormed();
    SampleChart3WellFormed();
    SampleChart4WellFormed();
  }

  lemma SampleChart1WellFormed()
    ensures WellFormedChart(Chart(Meta1(), Notes1(), Holds1()))
  {
    Chart1InLanes();
    Notes1Ordered();
    Chart1HoldsAfterNotes();
    LinearFactsSuffice(Chart(Meta1(), Notes1(), Holds1()));
  }

  lemma Chart1InLanes()
    ensures ChartInLanes(Chart(Meta1(), Notes1(), Holds1()))
  {
  }

  lemma Notes1Ordered()
    ensures NotesStrictlyOrdered(Notes1())
  {
  }

  lemma Chart1HoldsAfterNotes()
    ensures HoldsAfterNotes(Chart(Meta1(), Notes1(), Holds1()))
  {
  }

  lemma SampleChart2WellFormed()
    ensures WellFormedChart(Chart(Meta2(), Notes2(), Holds2()))
  {
    Chart2InLanes();
    Notes2Ordered();
    Chart2HoldsAfterNotes();
    LinearFactsSuffice(Chart(Meta2(), Notes2(), Holds2()));
  }

  lemma Chart2InLanes()
    ensures ChartInLanes(Chart(Meta2(), Notes2(), Holds2()))
  {
  }

  lemma Notes2Ordered()
    ensures NotesStrictlyOrdered(Notes2())
  {
  }

  lemma Chart2HoldsAfterNotes()
    ensures HoldsAfterNotes(Chart(Meta2(), Notes2(), Holds2()))
  {
  }

  lemma SampleChart3WellFormed()
    ensures WellFormedChart(Chart(Meta3(), Notes3(), Holds3()))
  {
    Chart3InLanes();
    Notes3Ordered();
    Chart3HoldsAfterNotes();
    LinearFactsSuffice(Chart(Meta3(), Notes3(), Holds3()));
  }

  lemma Chart3InLanes()
    ensures ChartInLanes(Chart(Meta3(), Notes3(), Holds3()))
  {
  }

  lemma Notes3Ordered()
    ensures NotesStrictlyOrdered(Notes3())
  {
  }

  lemma Chart3HoldsAfterNotes()
    ensures HoldsAfterNotes(Chart(Meta3(), Notes3(), Holds3()))
  {
  }

  lemma SampleChart4WellFormed()
    ensures WellFormedChart(Chart(Meta4(), Notes4(), Holds4()))
  {
    Chart4InLanes();
    Notes4Ordered();
    Chart4HoldsAfterNotes();
    LinearFactsSuffice(Chart(Meta4(), Notes4(), Holds4()));
  }

  lemma Chart4InLanes()
    ensures ChartInLanes(Chart(Meta4(), Notes4(), Holds4()))
  {
  }

  lemma Notes4Ordered()
    ensures NotesStrictlyOrdered(Notes4())
  {
  }

  lemma Chart4HoldsAfterNotes()
    ensures HoldsAfterNotes(Chart(Meta4(), Notes4(), Holds4()))
  {
  }
}
