/**
 * The end screen: a status message, one high-score line and one "this run" line per level,
 * and two totals, all derived from the score record. A text label is an Option<string> slot:
 * None is an unassigned (null) label, Some(t) a label currently showing t. Number formatting
 * (`{x:F2}`) is the parameter fmt.
 */
module EndScreen {
  import opened Wrappers
  import opened Decimal
  import opened Progress

  const DiedMessage: string := "You Died!"
  const AllCompleteMessage: string := "All Levels Complete!"
  const LevelCompleteMessage: string := "Level Complete!"
  const NotAvailable: string := "N/A"

  /** A run that ended with no time recorded is a death. */
  predicate Died(runTime: real) { runTime <= 0.0 }

  /** The level counter has moved past the last level. */
  predicate FinishedAll(level: int, levels: nat) { level > levels }

  /** The status message; death takes priority over completing every level. */
  function StatusText(died: bool, finishedAll: bool): (m: string)
    ensures m == DiedMessage <==> died
    ensures m == AllCompleteMessage <==> !died && finishedAll
    ensures m == LevelCompleteMessage <==> !died && !finishedAll
  {
    if died then DiedMessage
    else if finishedAll then AllCompleteMessage
    else LevelCompleteMessage
  }

  /** A time as the screen shows it: the formatted number followed by "s". */
  function Seconds(x: real, fmt: real -> string): (t: string)
    ensures t != NotAvailable
    ensures |t| >= 1 && t[|t| - 1] == 's'
  {
    var t := fmt(x) + "s";
    assert t[|t| - 1] == 's' && NotAvailable[|NotAvailable| - 1] == 'A';
    t
  }

  /** A level's high score: "N/A" exactly for a negative (absent) score. */
  function HighScoreText(high: real, fmt: real -> string): (t: string)
    ensures t == NotAvailable <==> high < 0.0
  {
    if high < 0.0 then NotAvailable else Seconds(high, fmt)
  }

  /** The label of the i-th level (numbered from 1). */
  function LevelLabel(i: nat): string { "Level " + NatToString(i + 1) }

  function HighScoreLine(i: nat, high: real, fmt: real -> string): string
  {
    LevelLabel(i) + " High Score: " + HighScoreText(high, fmt)
  }

  /** Level i shows this run's time only when the run survived and got past level i + 1. */
  function ThisRunText(died: bool, i: nat, level: int, runTime: real, fmt: real -> string): (t: string)
    ensures t != NotAvailable <==> !died && i + 1 < level
  {
    if !died && i + 1 < level then Seconds(runTime, fmt) else NotAvailable
  }

  /** Every level that shows a time for this run shows the same one, the run's total time. */
  lemma ThisRunTextShared(died: bool, i: nat, j: nat, level: int, runTime: real, fmt: real -> string)
    requires ThisRunText(died, i, level, runTime, fmt) != NotAvailable
    requires ThisRunText(died, j, level, runTime, fmt) != NotAvailable
    ensures ThisRunText(died, i, level, runTime, fmt) == ThisRunText(died, j, level, runTime, fmt)
    ensures ThisRunText(died, i, level, runTime, fmt) == Seconds(runTime, fmt)
  {
  }

  function ThisRunLine(died: bool, i: nat, level: int, runTime: real, fmt: real -> string): string
  {
    LevelLabel(i) + " This Run: " + ThisRunText(died, i, level, runTime, fmt)
  }

  /** The sum of the non-negative entries, accumulated from the front. */
  function SumNonNegative(s: seq<real>): real
  {
    if |s| == 0 then 0.0
    else SumNonNegative(s[..|s| - 1]) + (if s[|s| - 1] >= 0.0 then s[|s| - 1] else 0.0)
  }

  predicate HasNonNegative(s: seq<real>) { exists i :: 0 <= i < |s| && s[i] >= 0.0 }

  /** The total is never negative, and it is 0 when no entry is non-negative. */
  lemma {:induction false} SumNonNegativeBounds(s: seq<real>)
    ensures SumNonNegative(s) >= 0.0
    ensures !HasNonNegative(s) ==> SumNonNegative(s) == 0.0
  {
    if |s| > 0 {
      var init := s[..|s| - 1];
      SumNonNegativeBounds(init);
      if !HasNonNegative(s) {
        assert !HasNonNegative(init) by {
          forall i | 0 <= i < |init| ensures init[i] < 0.0 { assert init[i] == s[i]; }
        }
      }
    }
  }

  /** Negative entries contribute nothing: the total equals that of the scores with negatives as 0. */
  lemma {:induction false} SumNonNegativeIgnoresNegatives(s: seq<real>, t: seq<real>)
    requires |s| == |t|
    requires forall i :: 0 <= i < |s| ==> t[i] == (if s[i] >= 0.0 then s[i] else 0.0)
    ensures SumNonNegative(s) == SumNonNegative(t)
  {
    if |s| > 0 {
      SumNonNegativeIgnoresNegatives(s[..|s| - 1], t[..|t| - 1]);
    }
  }

  /**
   * The accumulation loop of the end screen: the sum of the non-negative scores, and whether
   * there was any.
   */
  method TotalHigh(scores: seq<real>) returns (total: real, hasHigh: bool)
    ensures total == SumNonNegative(scores)
    ensures hasHigh <==> HasNonNegative(scores)
  {
    total, hasHigh := 0.0, false;
    var i := 0;
    while i < |scores|
      invariant 0 <= i <= |scores|
      invariant total == SumNonNegative(scores[..i])
      invariant hasHigh <==> HasNonNegative(scores[..i])
    {
      assert scores[..i + 1][..i] == scores[..i];
      if scores[i] >= 0.0 {
        total := total + scores[i];
        hasHigh := true;
      }
      assert hasHigh <==> HasNonNegative(scores[..i + 1]) by {
        if HasNonNegative(scores[..i + 1]) && !HasNonNegative(scores[..i]) {
          var k :| 0 <= k < i + 1 && scores[..i + 1][k] >= 0.0;
          assert k == i;
        }
        if HasNonNegative(scores[..i]) {
          var k :| 0 <= k < i && scores[..i][k] >= 0.0;
          assert scores[..i + 1][k] >= 0.0;
        }
        if scores[i] >= 0.0 { assert scores[..i + 1][i] >= 0.0; }
      }
      i := i + 1;
    }
    assert scores[..i] == scores;
  }

  function TotalHighText(total: real, hasHigh: bool, fmt: real -> string): (t: string)
    ensures t == NotAvailable <==> !hasHigh
  {
    if hasHigh then Seconds(total, fmt) else NotAvailable
  }

  /** "Died" for a death, "N/A" without accumulated time, else the accumulated time. */
  function TotalCurrentText(died: bool, totalTime: real, fmt: real -> string): (t: string)
    ensures t == "Died" <==> died
    ensures t == NotAvailable <==> !died && totalTime <= 0.0
  {
    if died then "Died"
    else if totalTime > 0.0 then Seconds(totalTime, fmt)
    else NotAvailable
  }

  class EndScreenManager {
    const levelHighScoreTexts: array<Option<string>>
    const levelCurrentScoreTexts: array<Option<string>>
    var totalHighScoreText: Option<string>
    var totalCurrentScoreText: Option<string>
    var statusMessage: Option<string>

    constructor (highTexts: array<Option<string>>, currentTexts: array<Option<string>>,
                 totalHigh: Option<string>, totalCurrent: Option<string>, status: Option<string>)
      ensures levelHighScoreTexts == highTexts && levelCurrentScoreTexts == currentTexts
      ensures totalHighScoreText == totalHigh && totalCurrentScoreText == totalCurrent
      ensures statusMessage == status
    {
      levelHighScoreTexts := highTexts;
      levelCurrentScoreTexts := currentTexts;
      totalHighScoreText := totalHigh;
      totalCurrentScoreText := totalCurrent;
      statusMessage := status;
    }

    /** The per-level loop: write every assigned label below the number of levels. */
    method FillLevelTexts(scores: seq<real>, died: bool, level: int, runTime: real, fmt: real -> string)
      requires levelHighScoreTexts != levelCurrentScoreTexts
      modifies levelHighScoreTexts, levelCurrentScoreTexts
      ensures forall i :: 0 <= i < levelHighScoreTexts.Length ==>
        levelHighScoreTexts[i] == if i < |scores| && old(levelHighScoreTexts[i]).Some?
          then Some(HighScoreLine(i, scores[i], fmt)) else old(levelHighScoreTexts[i])
      ensures forall i :: 0 <= i < levelCurrentScoreTexts.Length ==>
        levelCurrentScoreTexts[i] == if i < |scores| && old(levelCurrentScoreTexts[i]).Some?
          then Some(ThisRunLine(died, i, level, runTime, fmt)) else old(levelCurrentScoreTexts[i])
    {
      var highs, currents := levelHighScoreTexts, levelCurrentScoreTexts;
      var i := 0;
      while i < |scores|
        invariant 0 <= i <= |scores|
        invariant forall k :: 0 <= k < highs.Length ==>
          highs[k] == if k < i && old(highs[k]).Some? then Some(HighScoreLine(k, scores[k], fmt)) else old(highs[k])
        invariant forall k :: 0 <= k < currents.Length ==>
          currents[k] == if k < i && old(currents[k]).Some?
            then Some(ThisRunLine(died, k, level, runTime, fmt)) else old(currents[k])
      {
        if i < highs.Length && highs[i].Some? {
          highs[i] := Some(HighScoreLine(i, scores[i], fmt));
        }
        if i < currents.Length && currents[i].Some? {
          currents[i] := Some(ThisRunLine(died, i, level, runTime, fmt));
        }
        i := i + 1;
      }
    }

    /** Fill every assigned label from the score record. */
    method Start(data: GameData, fmt: real -> string)
      requires data.highScores != null
      requires levelHighScoreTexts != levelCurrentScoreTexts
      modifies this, levelHighScoreTexts, levelCurrentScoreTexts
      ensures statusMessage == if old(statusMessage).Some?
        then Some(StatusText(Died(data.currentRunTime), FinishedAll(data.currentLevel, data.highScores.Length)))
        else None
      ensures forall i :: 0 <= i < levelHighScoreTexts.Length ==>
        levelHighScoreTexts[i] == if i < data.highScores.Length && old(levelHighScoreTexts[i]).Some?
          then Some(HighScoreLine(i, data.highScores[i], fmt)) else old(levelHighScoreTexts[i])
      ensures forall i :: 0 <= i < levelCurrentScoreTexts.Length ==>
        levelCurrentScoreTexts[i] == if i < data.highScores.Length && old(levelCurrentScoreTexts[i]).Some?
          then Some(ThisRunLine(Died(data.currentRunTime), i, data.currentLevel, data.currentRunTime, fmt))
          else old(levelCurrentScoreTexts[i])
      ensures totalHighScoreText == if old(totalHighScoreText).Some?
        then Some("Total High Score: " + TotalHighText(SumNonNegative(data.highScores[..]),
                                                      HasNonNegative(data.highScores[..]), fmt))
        else None
      ensures totalCurrentScoreText == if old(totalCurrentScoreText).Some?
        then Some("Total Current: " + TotalCurrentText(Died(data.currentRunTime), data.totalTime, fmt))
        else None
    {
      var scores := data.highScores[..];
      var died := Died(data.currentRunTime);
      var finishedAll := FinishedAll(data.currentLevel, |scores|);

      if statusMessage.Some? {
        statusMessage := Some(StatusText(died, finishedAll));
      }

      FillLevelTexts(scores, died, data.currentLevel, data.currentRunTime, fmt);

      var totalHigh, hasHigh := TotalHigh(scores);
      if totalHighScoreText.Some? {
        totalHighScoreText := Some("Total High Score: " + TotalHighText(totalHigh, hasHigh, fmt));
      }
      if totalCurrentScoreText.Some? {
        totalCurrentScoreText := Some("Total Current: " + TotalCurrentText(died, data.totalTime, fmt));
      }
    }
  }
}
