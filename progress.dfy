/**
 * The persistent score record (the GameData asset): current level, accumulated time,
 * one high score per level with -1 meaning "none yet", and the time of the current run.
 * PlayerPrefs is a key-value store of reals; an integer is stored as its real value.
 */
module Progress {
  import opened Decimal

  /** float.MaxValue, the largest finite single-precision value. */
  const FloatMax: real := 340282346638528859811704183484516925440.0
  const NoScore: real := -1.0

  const CurrentLevelKey: string := "CurrentLevel"
  const TotalTimeKey: string := "TotalTime"
  const ScoreKeyPrefix: string := "HighScore_Level_"

  /** The key of level i + 1's high score ($"HighScore_Level_{i + 1}"). */
  function ScoreKey(i: nat): (k: string)
    ensures |k| > |ScoreKeyPrefix| && k[..|ScoreKeyPrefix|] == ScoreKeyPrefix
  {
    ScoreKeyPrefix + NatToString(i + 1)
  }

  lemma ScoreKeyInjective(i: nat, j: nat)
    requires ScoreKey(i) == ScoreKey(j)
    ensures i == j
  {
    var n := |ScoreKeyPrefix|;
    assert NatToString(i + 1) == ScoreKey(i)[n..];
    assert NatToString(j + 1) == ScoreKey(j)[n..];
    NatToStringInjective(i + 1, j + 1);
  }

  /** No score key is one of the two scalar keys. */
  lemma ScoreKeyNotScalar(i: nat)
    ensures ScoreKey(i) != CurrentLevelKey && ScoreKey(i) != TotalTimeKey
  {
    assert ScoreKey(i)[0] == 'H';
  }

  // ---------------------------------------------------------------------------
  // Initialize's clean-up of placeholder entries

  /** An entry that stands for "no score": 0 (a fresh array) or float.MaxValue. */
  predicate IsPlaceholder(x: real) { x == 0.0 || x == FloatMax }

  function CleanScores(s: seq<real>): (r: seq<real>)
    ensures |r| == |s|
  {
    seq(|s|, i requires 0 <= i < |s| => if IsPlaceholder(s[i]) then NoScore else s[i])
  }

  /** Clean-up rewrites exactly the placeholders to -1 and leaves every other entry alone. */
  lemma CleanScoresAt(s: seq<real>, i: nat)
    requires i < |s|
    ensures IsPlaceholder(s[i]) ==> CleanScores(s)[i] == NoScore
    ensures !IsPlaceholder(s[i]) ==> CleanScores(s)[i] == s[i]
    ensures !IsPlaceholder(CleanScores(s)[i])
  {
  }

  /** A second clean-up changes nothing. */
  lemma CleanScoresIdempotent(s: seq<real>)
    ensures CleanScores(CleanScores(s)) == CleanScores(s)
  {
  }

  /** A freshly allocated array (all zeros) is cleaned to all -1. */
  lemma CleanFreshScores(n: nat)
    ensures CleanScores(seq(n, _ => 0.0)) == seq(n, _ => NoScore)
  {
  }

  // ---------------------------------------------------------------------------
  // The PlayerPrefs mapping

  /** PlayerPrefs.GetFloat(key, default). */
  function GetFloat(m: map<string, real>, key: string, default: real): (v: real)
    ensures key !in m ==> v == default
  {
    if key in m then m[key] else default
  }

  /** PlayerPrefs.GetInt(key, default), reading back a value stored by SetInt. */
  function GetInt(m: map<string, real>, key: string, default: int): (v: int)
    ensures key !in m ==> v == default
  {
    if key in m then m[key].Floor else default
  }

  /** The value SaveToPrefs stores for a score: every negative score becomes -1. */
  function SavedScore(x: real): (v: real)
    ensures v >= 0.0 || v == NoScore
    ensures x >= 0.0 ==> v == x
  {
    if x < 0.0 then NoScore else x
  }

  /** The store after writing the scores of s in index order. */
  function WriteScores(m: map<string, real>, s: seq<real>): map<string, real>
  {
    if |s| == 0 then m
    else WriteScores(m, s[..|s| - 1])[ScoreKey(|s| - 1) := SavedScore(s[|s| - 1])]
  }

  /** The store after SaveToPrefs of (level, total, scores). */
  function SavedPrefs(m: map<string, real>, level: int, total: real, s: seq<real>): map<string, real>
  {
    WriteScores(m[CurrentLevelKey := level as real][TotalTimeKey := total], s)
  }

  /** The scores LoadFromPrefs reads into an array of length n. */
  function LoadedScores(m: map<string, real>, n: nat): (r: seq<real>)
    ensures |r| == n
  {
    seq(n, i requires 0 <= i < n => GetFloat(m, ScoreKey(i), NoScore))
  }

  lemma {:induction false} WriteScoresAt(m: map<string, real>, s: seq<real>, i: nat)
    requires i < |s|
    ensures ScoreKey(i) in WriteScores(m, s)
    ensures WriteScores(m, s)[ScoreKey(i)] == SavedScore(s[i])
  {
    if i < |s| - 1 {
      WriteScoresAt(m, s[..|s| - 1], i);
      if ScoreKey(i) == ScoreKey(|s| - 1) {
        ScoreKeyInjective(i, |s| - 1);
      }
    }
  }

  lemma {:induction false} WriteScoresElsewhere(m: map<string, real>, s: seq<real>, key: string)
    requires forall i: nat :: i < |s| ==> key != ScoreKey(i)
    ensures key in WriteScores(m, s) <==> key in m
    ensures key in m ==> WriteScores(m, s)[key] == m[key]
  {
    if |s| > 0 {
      assert key != ScoreKey(|s| - 1);
      WriteScoresElsewhere(m, s[..|s| - 1], key);
    }
  }

  /**
   * Save followed by Load restores the level, the total time and every non-negative score,
   * and turns every negative score into -1, whatever the store held before.
   */
  lemma SaveLoadRoundTrip(m: map<string, real>, level: int, total: real, s: seq<real>)
    ensures GetInt(SavedPrefs(m, level, total, s), CurrentLevelKey, 1) == level
    ensures GetFloat(SavedPrefs(m, level, total, s), TotalTimeKey, 0.0) == total
    ensures forall i :: 0 <= i < |s| ==>
      LoadedScores(SavedPrefs(m, level, total, s), |s|)[i] == (if s[i] < 0.0 then NoScore else s[i])
  {
    var m0 := m[CurrentLevelKey := level as real][TotalTimeKey := total];
    forall i: nat | i < |s| ensures CurrentLevelKey != ScoreKey(i) && TotalTimeKey != ScoreKey(i) {
      ScoreKeyNotScalar(i);
    }
    WriteScoresElsewhere(m0, s, CurrentLevelKey);
    WriteScoresElsewhere(m0, s, TotalTimeKey);
    forall i | 0 <= i < |s|
      ensures LoadedScores(SavedPrefs(m, level, total, s), |s|)[i] == (if s[i] < 0.0 then NoScore else s[i])
    {
      WriteScoresAt(m0, s, i);
    }
  }

  // ---------------------------------------------------------------------------
  // The objects

  /** Unity's PlayerPrefs: the live key-value table and what Save() last flushed to disk. */
  class PlayerPrefs {
    var entries: map<string, real>
    var onDisk: map<string, real>

    constructor (stored: map<string, real>)
      ensures entries == stored && onDisk == stored
    {
      entries := stored;
      onDisk := stored;
    }
  }

  class GameData {
    var currentLevel: int
    var totalTime: real
    var highScores: array?<real>
    var currentRunTime: real

    /** A new asset: level 1, no time, no score array yet. */
    constructor ()
      ensures currentLevel == 1 && totalTime == 0.0 && highScores == null && currentRunTime == 0.0
    {
      currentLevel := 1;
      totalTime := 0.0;
      highScores := null;
      currentRunTime := 0.0;
    }

    /** Make the score array maxLevels long and replace every placeholder by -1. */
    method Initialize(maxLevels: nat)
      modifies this, highScores
      ensures highScores != null && highScores.Length == maxLevels
      ensures old(highScores) != null && old(highScores.Length) == maxLevels ==>
        highScores == old(highScores) && highScores[..] == CleanScores(old(highScores[..]))
      ensures old(highScores) == null || old(highScores.Length) != maxLevels ==>
        fresh(highScores) && highScores[..] == seq(maxLevels, _ => NoScore)
      ensures currentLevel == old(currentLevel) && totalTime == old(totalTime)
      ensures currentRunTime == old(currentRunTime)
    {
      if highScores == null || highScores.Length != maxLevels {
        highScores := new real[maxLevels](_ => 0.0);
      }
      var scores := highScores;
      ghost var before := scores[..];
      var i := 0;
      while i < scores.Length
        modifies scores
        invariant 0 <= i <= scores.Length
        invariant forall k :: 0 <= k < i ==> scores[k] == CleanScores(before)[k]
        invariant forall k :: i <= k < scores.Length ==> scores[k] == before[k]
      {
        if scores[i] == 0.0 || scores[i] == FloatMax {
          scores[i] := NoScore;
        }
        i := i + 1;
      }
      assert scores[..] == scores[..scores.Length];
      CleanFreshScores(maxLevels);
    }

    /** Read level, total time and scores from the store, with defaults 1, 0 and -1. */
    method LoadFromPrefs(prefs: PlayerPrefs)
      modifies this, highScores
      ensures highScores != null
      ensures old(highScores) != null ==> highScores == old(highScores)
      ensures old(highScores) == null ==> fresh(highScores) && highScores.Length == 2
      ensures currentLevel == GetInt(prefs.entries, CurrentLevelKey, 1)
      ensures totalTime == GetFloat(prefs.entries, TotalTimeKey, 0.0)
      ensures highScores[..] == LoadedScores(prefs.entries, highScores.Length)
      ensures currentRunTime == old(currentRunTime)
    {
      currentLevel := GetInt(prefs.entries, CurrentLevelKey, 1);
      totalTime := GetFloat(prefs.entries, TotalTimeKey, 0.0);
      if highScores == null {
        highScores := new real[2](_ => 0.0);
      }
      var scores := highScores;
      var i := 0;
      while i < scores.Length
        modifies scores
        invariant 0 <= i <= scores.Length
        invariant scores[..i] == LoadedScores(prefs.entries, scores.Length)[..i]
      {
        scores[i] := GetFloat(prefs.entries, ScoreKey(i), NoScore);
        i := i + 1;
      }
      assert scores[..] == scores[..scores.Length];
    }

    /** Write level, total time and every score (negatives as -1), then flush to disk. */
    method SaveToPrefs(prefs: PlayerPrefs)
      requires highScores != null
      modifies prefs
      ensures prefs.entries == SavedPrefs(old(prefs.entries), currentLevel, totalTime, highScores[..])
      ensures prefs.onDisk == prefs.entries
    {
      prefs.entries := prefs.entries[CurrentLevelKey := currentLevel as real];
      prefs.entries := prefs.entries[TotalTimeKey := totalTime];
      ghost var start := prefs.entries;
      var i := 0;
      while i < highScores.Length
        invariant 0 <= i <= highScores.Length
        invariant prefs.entries == WriteScores(start, highScores[..i])
      {
        var value := if highScores[i] < 0.0 then NoScore else highScores[i];
        assert highScores[..i + 1][..i] == highScores[..i];
        prefs.entries := prefs.entries[ScoreKey(i) := value];
        i := i + 1;
      }
      assert highScores[..] == highScores[..highScores.Length];
      prefs.onDisk := prefs.entries;
    }

    /** Back to level 1 with no time and no scores; the array keeps its length (2 if absent). */
    method ResetData()
      modifies this, highScores
      ensures currentLevel == 1 && totalTime == 0.0 && currentRunTime == 0.0
      ensures highScores != null
      ensures old(highScores) != null ==> highScores == old(highScores)
      ensures old(highScores) == null ==> fresh(highScores) && highScores.Length == 2
      ensures highScores[..] == seq(highScores.Length, _ => NoScore)
    {
      currentLevel := 1;
      totalTime := 0.0;
      if highScores == null {
        highScores := new real[2](_ => 0.0);
      }
      var scores := highScores;
      var i := 0;
      while i < scores.Length
        modifies scores
        invariant 0 <= i <= scores.Length
        invariant forall k :: 0 <= k < i ==> scores[k] == NoScore
      {
        scores[i] := NoScore;
        i := i + 1;
      }
      currentRunTime := 0.0;
    }
  }

  /** Saving then loading through the same store restores the record, negative scores as -1. */
  method SaveThenLoad(data: GameData, prefs: PlayerPrefs)
    requires data.highScores != null
    modifies prefs, data, data.highScores
    ensures data.highScores == old(data.highScores)
    ensures data.currentLevel == old(data.currentLevel) && data.totalTime == old(data.totalTime)
    ensures data.currentRunTime == old(data.currentRunTime)
    ensures forall i :: 0 <= i < data.highScores.Length ==>
      data.highScores[i] == old(if data.highScores[i] < 0.0 then NoScore else data.highScores[i])
  {
    ghost var s := data.highScores[..];
    data.SaveToPrefs(prefs);
    data.LoadFromPrefs(prefs);
    SaveLoadRoundTrip(old(prefs.entries), old(data.currentLevel), old(data.totalTime), s);
  }
}
