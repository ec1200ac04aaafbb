/**
 * Turning already-parsed level records into levels (handler/LevelReader.java):
 * the enemy-type fallback, the wave-by-wave conversion with the wave
 * constructor's checks, and the default levels used when no level is read.
 */
module LevelReading {
  import opened Wrappers
  import opened Waves
  import opened Levels

  /** One wave record as the JSON reader fills it; a missing type is null, a missing number 0. */
  datatype WaveData = WaveData(enemyType: Option<string>, count: int, spawnDelay: int)

  /** One level record: its cooldown and its wave records in file order. */
  datatype LevelData = LevelData(waveCooldown: int, waves: seq<WaveData>)

  /**
   * What reading the level file gave: no file or an I/O error (the reader
   * falls back to the default levels), malformed JSON (the exception reaches
   * the board), or the list of level records.
   */
  datatype LevelSource = NoFile | Malformed | Parsed(levels: seq<LevelData>)

  /** Why no level list came out: malformed JSON, or a wave the wave constructor refused. */
  datatype LoadError = SyntaxError | BadWave(cause: WaveError)

  /** A level's content: its cooldown and its waves. */
  datatype LevelPlan = LevelPlan(waveCooldown: int, waves: seq<Wave>)

  /**
   * isValidEnemyType's scan over `kinds` from index `from` on, returning the
   * kind it stops at (the one `valueOf` then gives back), or BASIC when no
   * kind has the name `s`.
   */
  function KindFrom(kinds: seq<EnemyType>, from: nat, s: string): EnemyType
    requires from <= |kinds|
    decreases |kinds| - from
  {
    if from == |kinds| then Basic
    else if Name(kinds[from]) == s then kinds[from]
    else KindFrom(kinds, from + 1, s)
  }

  /** The scan stops at a kind with the name, and finds none only if there is none. */
  lemma {:induction false} KindFromSpec(kinds: seq<EnemyType>, from: nat, s: string)
    requires from <= |kinds|
    ensures (exists i :: from <= i < |kinds| && Name(kinds[i]) == s) ==> Name(KindFrom(kinds, from, s)) == s
    ensures (forall i :: from <= i < |kinds| ==> Name(kinds[i]) != s) ==> KindFrom(kinds, from, s) == Basic
    decreases |kinds| - from
  {
    if from < |kinds| && Name(kinds[from]) != s {
      KindFromSpec(kinds, from + 1, s);
      if exists i :: from <= i < |kinds| && Name(kinds[i]) == s {
        var i :| from <= i < |kinds| && Name(kinds[i]) == s;
        assert i != from;
      }
    }
  }

  /**
   * getValidEnemyType: BASIC for null or the empty string, otherwise the
   * scan's kind.
   */
  function ValidEnemyType(s: Option<string>): (t: EnemyType)
  {
    if s.None? || s.value == "" then Basic
    else KindFrom(AllEnemyTypes, 0, s.value)
  }

  /** The kind whose name is exactly the string; BASIC for null and any other string. */
  lemma ValidEnemyTypeSpec(s: Option<string>)
    ensures forall k :: s == Some(Name(k)) ==> ValidEnemyType(s) == k
    ensures (forall k :: s != Some(Name(k))) ==> ValidEnemyType(s) == Basic
  {
    if s.Some? && s.value != "" {
      KindFromSpec(AllEnemyTypes, 0, s.value);
      forall k | s == Some(Name(k))
        ensures ValidEnemyType(s) == k
      {
        AllEnemyTypesComplete(k);
        var i :| 0 <= i < |AllEnemyTypes| && AllEnemyTypes[i] == k;
        NamesDistinct(ValidEnemyType(s), k);
      }
      if forall k :: s != Some(Name(k)) {
        forall i | 0 <= i < |AllEnemyTypes|
          ensures Name(AllEnemyTypes[i]) != s.value
        {
          assert s != Some(Name(AllEnemyTypes[i]));
        }
      }
    }
  }

  /** A kind's own name reads back as that kind. */
  lemma EnemyTypeRoundTrip(t: EnemyType)
    ensures ValidEnemyType(Some(Name(t))) == t
  {
    ValidEnemyTypeSpec(Some(Name(t)));
  }

  /** The wave a record describes, or the constructor's reason to refuse it. */
  function ConvertedWave(w: WaveData): Result<Wave, WaveError>
  {
    NewWave(Some(ValidEnemyType(w.enemyType)), w.count, w.spawnDelay)
  }

  /**
   * createLevelFromData's loop on values: the records' waves in order, or
   * the first refusal.
   */
  function ConvertedWaves(ws: seq<WaveData>): Result<seq<Wave>, WaveError>
    decreases |ws|
  {
    if ws == [] then Success([])
    else
      var n := |ws| - 1;
      var done := ConvertedWaves(ws[..n]);
      if done.Failure? then done
      else
        var w := ConvertedWave(ws[n]);
        if w.Failure? then Failure(w.error) else Success(done.value + [w.value])
  }

  /** A record the wave constructor refuses: a count of zero or less, or a negative delay. */
  predicate Refused(w: WaveData)
  {
    w.count <= 0 || w.spawnDelay < 0
  }

  /**
   * The records convert exactly when none is refused; the waves then keep
   * the records' order, kinds, counts and delays, and otherwise the error is
   * the one of the first refused record.
   */
  lemma ConvertedWavesSpec(ws: seq<WaveData>)
    ensures ConvertedWaves(ws).Success? <==> forall i :: 0 <= i < |ws| ==> !Refused(ws[i])
    ensures ConvertedWaves(ws).Success? ==>
              var vs := ConvertedWaves(ws).value;
              |vs| == |ws| && forall i :: 0 <= i < |ws| ==>
                vs[i] == Wave(ValidEnemyType(ws[i].enemyType), ws[i].count, ws[i].spawnDelay)
  {
    ConvertsUnlessRefused(ws);
    if ConvertedWaves(ws).Success? {
      ConvertedWaveValues(ws);
    }
  }

  /** The records convert exactly when none is refused. */
  lemma {:induction false} ConvertsUnlessRefused(ws: seq<WaveData>)
    ensures ConvertedWaves(ws).Success? <==> forall i :: 0 <= i < |ws| ==> !Refused(ws[i])
    decreases |ws|
  {
    if ws != [] {
      var n := |ws| - 1;
      ConvertsUnlessRefused(ws[..n]);
      var done := ConvertedWaves(ws[..n]);
      WaveOfRecord(ws[n]);
      if done.Failure? {
        assert ConvertedWaves(ws) == done;
        var i :| 0 <= i < n && Refused(ws[..n][i]);
        assert ws[..n][i] == ws[i];
      } else {
        assert forall i :: 0 <= i < n ==> ws[..n][i] == ws[i];
      }
    }
  }

  /** Converted records keep their order, kinds, counts and delays. */
  lemma {:induction false} ConvertedWaveValues(ws: seq<WaveData>)
    requires ConvertedWaves(ws).Success?
    ensures var vs := ConvertedWaves(ws).value;
      |vs| == |ws| && forall i :: 0 <= i < |ws| ==>
        vs[i] == Wave(ValidEnemyType(ws[i].enemyType), ws[i].count, ws[i].spawnDelay)
    decreases |ws|
  {
    if ws != [] {
      var n := |ws| - 1;
      var done := ConvertedWaves(ws[..n]);
      var w := ConvertedWave(ws[n]);
      assert done.Success? && w.Success?;
      ConvertedWaveValues(ws[..n]);
      WaveOfAcceptedRecord(ws[n]);
      var vs := done.value + [w.value];
      assert ConvertedWaves(ws) == Success(vs);
      forall i | 0 <= i < |ws|
        ensures vs[i] == Wave(ValidEnemyType(ws[i].enemyType), ws[i].count, ws[i].spawnDelay)
      {
        if i < n {
          assert ws[..n][i] == ws[i];
          assert vs[i] == done.value[i];
        }
      }
    }
  }

  /** A refusal is that of the first refused record. */
  lemma {:induction false} FirstRefusal(ws: seq<WaveData>)
    requires ConvertedWaves(ws).Failure?
    ensures exists i :: 0 <= i < |ws| && Refused(ws[i]) && (forall j :: 0 <= j < i ==> !Refused(ws[j])) &&
              ConvertedWaves(ws).error == (if ws[i].count <= 0 then NonPositiveCount else NegativeSpawnDelay)
    decreases |ws|
  {
    var n := |ws| - 1;
    var done := ConvertedWaves(ws[..n]);
    WaveOfRecord(ws[n]);
    if done.Failure? {
      FirstRefusal(ws[..n]);
      assert ConvertedWaves(ws) == done;
      var i :| 0 <= i < n && Refused(ws[..n][i]) && (forall j :: 0 <= j < i ==> !Refused(ws[..n][j])) &&
               done.error == (if ws[..n][i].count <= 0 then NonPositiveCount else NegativeSpawnDelay);
      assert forall j :: 0 <= j <= i ==> ws[..n][j] == ws[j];
      assert Refused(ws[i]) && (forall j :: 0 <= j < i ==> !Refused(ws[j]));
    } else {
      ConvertedWavesSpec(ws[..n]);
      assert forall j :: 0 <= j < n ==> ws[..n][j] == ws[j];
      assert ConvertedWaves(ws) == Failure(ConvertedWave(ws[n]).error);
      assert Refused(ws[n]) && (forall j :: 0 <= j < n ==> !Refused(ws[j]));
    }
  }

  /** A record converts exactly when it is not refused, into the wave it describes. */
  lemma WaveOfRecord(w: WaveData)
    ensures ConvertedWave(w).Success? <==> !Refused(w)
    ensures ConvertedWave(w).Failure? ==>
              ConvertedWave(w).error == (if w.count <= 0 then NonPositiveCount else NegativeSpawnDelay)
  {
  }

  /** A record that converts becomes the wave it describes. */
  lemma WaveOfAcceptedRecord(w: WaveData)
    requires ConvertedWave(w).Success?
    ensures ConvertedWave(w).value == Wave(ValidEnemyType(w.enemyType), w.count, w.spawnDelay)
  {
  }

  /** Once a prefix of the records fails, the whole list fails with the same error. */
  lemma {:induction false} RefusalPersists(ws: seq<WaveData>, k: nat)
    requires k <= |ws| && ConvertedWaves(ws[..k]).Failure?
    ensures ConvertedWaves(ws) == ConvertedWaves(ws[..k])
    decreases |ws| - k
  {
    if k < |ws| {
      assert ws[..k + 1][..k] == ws[..k];
      RefusalPersists(ws, k + 1);
    } else {
      assert ws[..k] == ws;
    }
  }

  /** The level plans of the records, in order, or the first refusal. */
  function ConvertedLevels(ds: seq<LevelData>): Result<seq<LevelPlan>, WaveError>
    decreases |ds|
  {
    if ds == [] then Success([])
    else
      var n := |ds| - 1;
      var done := ConvertedLevels(ds[..n]);
      if done.Failure? then done
      else
        var ws := ConvertedWaves(ds[n].waves);
        if ws.Failure? then Failure(ws.error)
        else Success(done.value + [LevelPlan(ds[n].waveCooldown, ws.value)])
  }

  /** Levels keep the records' order, each with its own cooldown and waves. */
  lemma {:induction false} ConvertedLevelsSpec(ds: seq<LevelData>)
    ensures ConvertedLevels(ds).Success? <==> forall i :: 0 <= i < |ds| ==> ConvertedWaves(ds[i].waves).Success?
    ensures ConvertedLevels(ds).Success? ==>
              var ps := ConvertedLevels(ds).value;
              |ps| == |ds| && forall i :: 0 <= i < |ds| ==>
                ps[i] == LevelPlan(ds[i].waveCooldown, ConvertedWaves(ds[i].waves).value)
    decreases |ds|
  {
    if ds != [] {
      var n := |ds| - 1;
      ConvertedLevelsSpec(ds[..n]);
      assert forall i :: 0 <= i < n ==> ds[..n][i] == ds[i];
      var done := ConvertedLevels(ds[..n]);
      var ws := ConvertedWaves(ds[n].waves);
      if done.Failure? {
        assert ConvertedLevels(ds) == done;
        var i :| 0 <= i < n && !ConvertedWaves(ds[..n][i].waves).Success?;
        assert !ConvertedWaves(ds[i].waves).Success?;
      } else if ws.Failure? {
        assert ConvertedLevels(ds) == Failure(ws.error);
        assert !ConvertedWaves(ds[n].waves).Success?;
      } else {
        var ps := done.value + [LevelPlan(ds[n].waveCooldown, ws.value)];
        assert ConvertedLevels(ds) == Success(ps);
        forall i | 0 <= i < |ds|
          ensures ConvertedWaves(ds[i].waves).Success?
          ensures ps[i] == LevelPlan(ds[i].waveCooldown, ConvertedWaves(ds[i].waves).value)
        {
          if i < n {
            assert ps[i] == done.value[i];
          }
        }
      }
    }
  }

  /** createDefaultLevels: one level, cooldown 1500 ms, ten BASIC 200 ms apart then five FAST 300 ms apart. */
  const DefaultPlan: LevelPlan := LevelPlan(1500, [Wave(Basic, 10, 200), Wave(Fast, 5, 300)])

  /**
   * getLevels, with the board's handling of what escapes it: the default
   * levels when there is no file or nothing converts to a level; a syntax
   * error or a refused wave otherwise passed on.
   */
  function LevelsFrom(src: LevelSource): (r: Result<seq<LevelPlan>, LoadError>)
    ensures r.Success? ==> r.value != []
  {
    match src
    case NoFile => Success([DefaultPlan])
    case Malformed => Failure(SyntaxError)
    case Parsed(ds) =>
      var ps := ConvertedLevels(ds);
      if ps.Failure? then Failure(BadWave(ps.error))
      else if ps.value == [] then Success([DefaultPlan])
      else Success(ps.value)
  }

  /** An empty level file gives the default levels, a non-empty one its own levels. */
  lemma LevelsFromRecords(ds: seq<LevelData>)
    requires forall i :: 0 <= i < |ds| ==> ConvertedWaves(ds[i].waves).Success?
    ensures ds == [] ==> LevelsFrom(Parsed(ds)) == Success([DefaultPlan])
    ensures ConvertedLevels(ds).Success?
    ensures ds != [] ==> LevelsFrom(Parsed(ds)) == Success(ConvertedLevels(ds).value) && |LevelsFrom(Parsed(ds)).value| == |ds|
  {
    ConvertedLevelsSpec(ds);
  }

  /** The content of a level. */
  function PlanOf(l: Level): LevelPlan
    reads l
  {
    LevelPlan(l.waveCooldown, l.waves)
  }

  function PlansOf(ls: seq<Level>): (ps: seq<LevelPlan>)
    reads ls
    ensures |ps| == |ls| && forall i :: 0 <= i < |ls| ==> ps[i] == PlanOf(ls[i])
  {
    if ls == [] then [] else PlansOf(ls[..|ls| - 1]) + [PlanOf(ls[|ls| - 1])]
  }

  /** Levels fresh from the reader: distinct, valid, each at its first wave timed from `now`. */
  ghost predicate NewLevels(ls: seq<Level>, now: int)
    reads ls
  {
    (forall i, j :: 0 <= i < j < |ls| ==> ls[i] != ls[j]) &&
    forall i :: 0 <= i < |ls| ==> ls[i].Valid() && ls[i].Cur() == Cursor(0, 0, now)
  }

  /**
   * createLevelFromData: a new level with the record's cooldown, then its
   * waves in order; the first refused record aborts the conversion.
   */
  method CreateLevelFromData(data: LevelData, now: int) returns (r: Result<Level, WaveError>)
    ensures r.Success? <==> ConvertedWaves(data.waves).Success?
    ensures r.Success? ==> fresh(r.value) && r.value.Valid() && r.value.Cur() == Cursor(0, 0, now) &&
                           PlanOf(r.value) == LevelPlan(data.waveCooldown, ConvertedWaves(data.waves).value)
    ensures r.Failure? ==> r.error == ConvertedWaves(data.waves).error
  {
    var ws := data.waves;
    var level := new Level(data.waveCooldown, now);
    var i := 0;
    while i < |ws|
      invariant 0 <= i <= |ws|
      invariant fresh(level) && level.Valid() && level.Cur() == Cursor(0, 0, now)
      invariant level.waveCooldown == data.waveCooldown
      invariant ConvertedWaves(ws[..i]) == Success(level.waves)
    {
      assert ws[..i + 1][..i] == ws[..i];
      var w := ConvertedWave(ws[i]);
      if w.Failure? {
        RefusalPersists(ws, i + 1);
        return Failure(w.error);
      }
      level.AddWave(Some(w.value));
      i := i + 1;
    }
    assert ws[..i] == ws;
    return Success(level);
  }

  /** createDefaultLevels, timed from `now`. */
  method CreateDefaultLevels(now: int) returns (levels: seq<Level>)
    ensures fresh(levels) && NewLevels(levels, now)
    ensures PlansOf(levels) == [DefaultPlan]
  {
    var level := new Level(1500, now);
    level.AddWave(Some(Wave(Basic, 10, 200)));
    level.AddWave(Some(Wave(Fast, 5, 300)));
    assert PlanOf(level) == DefaultPlan;
    levels := [level];
  }

  /**
   * getLevels: the levels of the records in order, each created at `now`,
   * or the default levels; a malformed file or a refused wave gives the
   * error that leaves the reader.
   */
  method GetLevels(src: LevelSource, now: int) returns (r: Result<seq<Level>, LoadError>)
    ensures r.Success? <==> LevelsFrom(src).Success?
    ensures r.Success? ==> fresh(r.value) && NewLevels(r.value, now) && PlansOf(r.value) == LevelsFrom(src).value
    ensures r.Failure? ==> r.error == LevelsFrom(src).error
  {
    match src
    case NoFile =>
      var levels := CreateDefaultLevels(now);
      return Success(levels);
    case Malformed =>
      return Failure(SyntaxError);
    case Parsed(ds) =>
      var converted := LoadFromJson(ds, now);
      if converted.Failure? {
        return Failure(BadWave(converted.error));
      }
      var levels := converted.value;
      if levels == [] {
        levels := CreateDefaultLevels(now);
      }
      return Success(levels);
  }

  /** loadFromJson's conversion loop: one level per record, in order, until a record is refused. */
  method LoadFromJson(ds: seq<LevelData>, now: int) returns (r: Result<seq<Level>, WaveError>)
    ensures r.Success? <==> ConvertedLevels(ds).Success?
    ensures r.Success? ==> fresh(r.value) && NewLevels(r.value, now) && PlansOf(r.value) == ConvertedLevels(ds).value
    ensures r.Failure? ==> r.error == ConvertedLevels(ds).error
  {
    var levels: seq<Level> := [];
    var i := 0;
    while i < |ds|
      invariant 0 <= i <= |ds|
      invariant fresh(levels) && NewLevels(levels, now)
      invariant ConvertedLevels(ds[..i]) == Success(PlansOf(levels))
    {
      var level := CreateLevelFromData(ds[i], now);
      if level.Failure? {
        LevelRefusedAt(ds, i);
        return Failure(level.error);
      }
      LevelAcceptedAt(ds, i, PlansOf(levels));
      NewLevelsAppend(levels, level.value, now);
      levels := levels + [level.value];
      i := i + 1;
    }
    assert ds[..i] == ds;
    return Success(levels);
  }

  /** A level record that converts extends the plans of the ones before it. */
  lemma LevelAcceptedAt(ds: seq<LevelData>, i: nat, plans: seq<LevelPlan>)
    requires i < |ds| && ConvertedLevels(ds[..i]) == Success(plans)
    requires ConvertedWaves(ds[i].waves).Success?
    ensures ConvertedLevels(ds[..i + 1]) ==
              Success(plans + [LevelPlan(ds[i].waveCooldown, ConvertedWaves(ds[i].waves).value)])
  {
    assert ds[..i + 1][..i] == ds[..i];
  }

  /**
   * A level record that does not convert, after records that do, fails all
   * the records with its own error.
   */
  lemma {:induction false} LevelRefusedAt(ds: seq<LevelData>, k: nat)
    requires k < |ds| && ConvertedLevels(ds[..k]).Success? && ConvertedWaves(ds[k].waves).Failure?
    ensures ConvertedLevels(ds) == Failure(ConvertedWaves(ds[k].waves).error)
    decreases |ds|
  {
    var n := |ds| - 1;
    if k < n {
      assert ds[..n][..k] == ds[..k] && ds[..n][k] == ds[k];
      LevelRefusedAt(ds[..n], k);
    }
  }


  /** A fresh level with its cursor at the start keeps the levels new and distinct. */
  lemma NewLevelsAppend(ls: seq<Level>, l: Level, now: int)
    requires NewLevels(ls, now) && l !in ls && l.Valid() && l.Cur() == Cursor(0, 0, now)
    ensures NewLevels(ls + [l], now) && PlansOf(ls + [l]) == PlansOf(ls) + [PlanOf(l)]
  {
  }
}
