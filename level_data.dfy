/** Level progress data: a level's best time and the four time thresholds that turn
    a completion time into a letter rank. Times are exact reals; the global difficulty
    enters as `easy`, whether it is currently the easiest one. */
module LevelRecords {

  datatype Levels = L0_1 | L1_1 | L1_2

  datatype LevelData = LevelData(
    level: Levels,
    avaliable: bool,
    record: real,
    recordForSRank: real,
    recordForARank: real,
    recordForBRank: real,
    recordForCRank: real,
    secretTutorialUnlockedAfterPassing: bool)

  /** Every text a rank can be shown as: the letters best first, then "-" for no time. */
  const RankTexts: seq<string> := ["S", "A", "B", "C", "D", "-"]

  /** Level data as the game creates it; the secret tutorial starts locked. */
  function NewLevelData(level: Levels, avaliable: bool, record: real, recordForSRank: real,
                        recordForARank: real, recordForBRank: real, recordForCRank: real): (d: LevelData)
    ensures d.level == level && d.avaliable == avaliable && d.record == record
    ensures d.recordForSRank == recordForSRank && d.recordForARank == recordForARank
    ensures d.recordForBRank == recordForBRank && d.recordForCRank == recordForCRank
    ensures !d.secretTutorialUnlockedAfterPassing
  {
    LevelData(level, avaliable, record, recordForSRank, recordForARank, recordForBRank, recordForCRank, false)
  }

  /** S is withheld while playing a level on the easiest difficulty. */
  predicate SRankAllowed(inLevel: bool, easy: bool) {
    !inLevel || !easy
  }

  /** The rank text for a completion time: the first of the S, A, B and C checks
      that the time passes, D when it passes none, and "-" for a zero time. */
  function GetRankTextByTime(d: LevelData, time: real, inLevel: bool, easy: bool): (r: string)
    ensures r in RankTexts
    ensures r == "-" <==> time == 0.0
    ensures inLevel && easy ==> r != "S"
  {
    if time == 0.0 then "-"
    else if time <= d.recordForSRank && SRankAllowed(inLevel, easy) then "S"
    else if time <= d.recordForARank then "A"
    else if time <= d.recordForBRank then "B"
    else if time <= d.recordForCRank then "C"
    else "D"
  }

  /** The rank of the level's best time; a level without a record shows "-". */
  function GetRankTextByRecord(d: LevelData, inLevel: bool, easy: bool): (r: string)
    ensures r == GetRankTextByTime(d, d.record, inLevel, easy)
    ensures d.record == 0.0 ==> r == "-"
  {
    GetRankTextByTime(d, d.record, inLevel, easy)
  }

  /** Position of a rank text in `RankTexts`: 0 for S up to 4 for D (lower is better). */
  function Position(r: string): (k: nat)
    requires r in RankTexts
    ensures k < |RankTexts| && RankTexts[k] == r
  {
    if r == "S" then 0 else if r == "A" then 1 else if r == "B" then 2
    else if r == "C" then 3 else if r == "D" then 4 else 5
  }

  /** The k-th check of the rank ladder, S first. */
  predicate Passes(d: LevelData, time: real, inLevel: bool, easy: bool, k: nat)
    requires k < 4
  {
    if k == 0 then time <= d.recordForSRank && SRankAllowed(inLevel, easy)
    else if k == 1 then time <= d.recordForARank
    else if k == 2 then time <= d.recordForBRank
    else time <= d.recordForCRank
  }

  /** For a nonzero time the rank is decided by the first check that passes, and is
      D exactly when no check passes. */
  lemma FirstPassingCheckDecides(d: LevelData, time: real, inLevel: bool, easy: bool)
    requires time != 0.0
    ensures Position(GetRankTextByTime(d, time, inLevel, easy)) <= 4
    ensures forall k :: 0 <= k < 4 ==>
              (Position(GetRankTextByTime(d, time, inLevel, easy)) == k <==>
                 Passes(d, time, inLevel, easy, k) && forall j :: 0 <= j < k ==> !Passes(d, time, inLevel, easy, j))
    ensures GetRankTextByTime(d, time, inLevel, easy) == "D" <==>
              forall j :: 0 <= j < 4 ==> !Passes(d, time, inLevel, easy, j)
  {
    var r := GetRankTextByTime(d, time, inLevel, easy);
    assert Passes(d, time, inLevel, easy, 0) <==> time <= d.recordForSRank && SRankAllowed(inLevel, easy);
    assert Passes(d, time, inLevel, easy, 1) <==> time <= d.recordForARank;
    assert Passes(d, time, inLevel, easy, 2) <==> time <= d.recordForBRank;
    assert Passes(d, time, inLevel, easy, 3) <==> time <= d.recordForCRank;
  }

  /** A faster (or equal) nonzero time never earns a worse rank. */
  lemma RankMonotoneInTime(d: LevelData, t1: real, t2: real, inLevel: bool, easy: bool)
    requires t1 != 0.0 && t2 != 0.0 && t1 <= t2
    ensures Position(GetRankTextByTime(d, t1, inLevel, easy)) <= Position(GetRankTextByTime(d, t2, inLevel, easy))
  {
  }

  /** Loosening every threshold never worsens the rank of a time. */
  lemma RankMonotoneInThresholds(d: LevelData, e: LevelData, time: real, inLevel: bool, easy: bool)
    requires d.recordForSRank <= e.recordForSRank && d.recordForARank <= e.recordForARank
    requires d.recordForBRank <= e.recordForBRank && d.recordForCRank <= e.recordForCRank
    ensures Position(GetRankTextByTime(e, time, inLevel, easy)) <= Position(GetRankTextByTime(d, time, inLevel, easy))
  {
  }

  /** The easy-difficulty exception only withholds S: any other rank, and every rank
      outside a level, is the same whatever the difficulty. */
  lemma DifficultyOnlyWithholdsS(d: LevelData, time: real, inLevel: bool)
    ensures GetRankTextByTime(d, time, inLevel, false) != "S" ==>
              GetRankTextByTime(d, time, inLevel, true) == GetRankTextByTime(d, time, inLevel, false)
    ensures !inLevel ==> GetRankTextByTime(d, time, inLevel, true) == GetRankTextByTime(d, time, inLevel, false)
    ensures GetRankTextByTime(d, time, inLevel, false) == "S" && inLevel ==>
              GetRankTextByTime(d, time, inLevel, true) in ["A", "B", "C", "D"]
  {
  }
}
