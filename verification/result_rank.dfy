/**
 * The result screen's rank rule and rank colours.
 */
module ResultRank {

  /** The values the result screen is constructed with; they are set once and never change. */
  datatype ResultScene = ResultScene(score: int, missCount: int, goodCount: int)

  /** The result screen's constructor: counts that are not supplied default to 0. */
  function NewResultScene(score: int := 0, missCount: int := 0, goodCount: int := 0): (r: ResultScene)
    ensures r.score == score && r.missCount == missCount && r.goodCount == goodCount
  {
    ResultScene(score, missCount, goodCount)
  }

  /** `calculateRank`: A for at most 3 misses and goods together, B for at most 20, C otherwise. */
  function CalculateRank(miss: int, good: int): (r: string)
    ensures r == "A" <==> miss + good <= 3
    ensures r == "B" <==> 4 <= miss + good <= 20
    ensures r == "C" <==> miss + good > 20
  {
    var totalBadJudgments := miss + good;
    if totalBadJudgments <= 3 then "A"
    else if totalBadJudgments <= 20 then "B"
    else "C"
  }

  /** Position of a rank in the order A, B, C (anything else sorts last). */
  function RankOrder(rank: string): nat {
    if rank == "A" then 0 else if rank == "B" then 1 else if rank == "C" then 2 else 3
  }

  /** More misses and goods never give a better rank. */
  lemma RankNeverImproves(miss1: int, good1: int, miss2: int, good2: int)
    requires miss1 + good1 <= miss2 + good2
    ensures RankOrder(CalculateRank(miss1, good1)) <= RankOrder(CalculateRank(miss2, good2))
  {
  }

  /** `getRankColor`: gold for A, blue for B, green for C, white for anything else. */
  function RankColor(rank: string): (color: int)
    ensures rank == "A" ==> color == 0xFFD700
    ensures rank == "B" ==> color == 0x00BFFF
    ensures rank == "C" ==> color == 0x32CD32
    ensures rank != "A" && rank != "B" && rank != "C" ==> color == 0xffffff
  {
    match rank
    case "A" => 0xFFD700
    case "B" => 0x00BFFF
    case "C" => 0x32CD32
    case _ => 0xffffff
  }

  /** A screen built from the score alone has zero misses and goods and so shows rank A, in gold. */
  lemma DefaultRankIsA(score: int)
    ensures NewResultScene(score).missCount == 0 && NewResultScene(score).goodCount == 0
    ensures CalculateRank(NewResultScene(score).missCount, NewResultScene(score).goodCount) == "A"
    ensures RankColor(CalculateRank(NewResultScene(score).missCount, NewResultScene(score).goodCount)) == 0xFFD700
  {
  }

  /** The three ranks have three different colours, none of them the fallback white. */
  lemma RankColorsDistinct()
    ensures RankColor("A") != RankColor("B") && RankColor("B") != RankColor("C") && RankColor("A") != RankColor("C")
    ensures RankColor(CalculateRank(0, 0)) != 0xffffff
  {
  }
}
