/**
 * Properties of the whole pipeline run on freshly allocated weeks, and of
 * the passes on their own.
 */
module PlanProperties {
  import opened Workouts
  import opened WeeklyPlans
  import opened Passes

  /** Whether the tune-up pass flags week `i` of a plan of `n` weeks for distance `d`. */
  predicate GetsBRace(d: RaceDistance, i: int, n: int)
  {
    d == Marathon && IsTuneUpWeek(i, n)
  }

  /**
   * Every week of a created plan, in full: its index, its flags and its
   * workouts. A tune-up week holds its race only; every other week from 1
   * on holds one volume run; week 0 stays empty.
   */
  lemma {:induction false} CreatedWeek(n: int, d: RaceDistance, distances: seq<int>, i: int)
    requires CanCreate(Allocate(n), d, distances)
    requires 0 <= i < n
    ensures var r := Create(Allocate(n), d, distances);
      |r| == n &&
      r[i].weekIndex == i &&
      r[i].isWithBLevelRace == GetsBRace(d, i, n) &&
      r[i].isRecoveryWeek == EveryThirdFrom(i, FirstRecoveryWeek) &&
      r[i].workouts ==
        if GetsBRace(d, i, n) then [BRaceAt(i, MarathonTuneUps)]
        else if i == 0 then []
        else [VolumeRun(distances[i])]
  {
  }

  /** No week of a created plan is both a recovery week and a tune-up week. */
  lemma {:induction false} RecoveryAndTuneUpDisjoint(n: int, d: RaceDistance, distances: seq<int>, i: int)
    requires CanCreate(Allocate(n), d, distances)
    requires 0 <= i < n
    ensures var r := Create(Allocate(n), d, distances);
      !(r[i].isRecoveryWeek && r[i].isWithBLevelRace)
  {
    CreatedWeek(n, d, distances, i);
  }

  /** Week 0 of a created plan is empty and every later week holds exactly one workout. */
  lemma {:induction false} OneWorkoutPerWeek(n: int, d: RaceDistance, distances: seq<int>, i: int)
    requires CanCreate(Allocate(n), d, distances)
    requires 0 <= i < n
    ensures |Create(Allocate(n), d, distances)[i].workouts| == if i == 0 then 0 else 1
  {
    CreatedWeek(n, d, distances, i);
  }

  /**
   * Only a marathon plan gets tune-up races: for a half-marathon or a 10K
   * no week is flagged and no week holds a race or test.
   */
  lemma {:induction false} TuneUpsOnlyForMarathon(n: int, d: RaceDistance, distances: seq<int>, i: int, k: int)
    requires CanCreate(Allocate(n), d, distances)
    requires 0 <= i < n
    requires d != Marathon
    ensures var r := Create(Allocate(n), d, distances);
      !r[i].isWithBLevelRace &&
      (0 <= k < |r[i].workouts| ==> r[i].workouts[k].workoutType == Volume)
  {
    CreatedWeek(n, d, distances, i);
  }

  /**
   * Right after the tune-up pass on freshly allocated weeks, every week
   * that holds a race or test is flagged as a tune-up week and is not a
   * recovery week.
   */
  lemma {:induction false} RaceWeeksFlagged(n: int, d: RaceDistance, i: int, k: int)
    requires d == Marathon ==> n > BeforeTenseBRaceWeek
    requires 0 <= i < n
    ensures var r := InsertBRaces(Allocate(n), d);
      0 <= k < |r[i].workouts| && r[i].workouts[k].workoutType == RaceOrTest ==>
      r[i].isWithBLevelRace && !r[i].isRecoveryWeek
  {
  }

  /**
   * The volume pass never touches week 0 or a week flagged as a tune-up
   * week, and appends exactly one volume run to every other week.
   */
  lemma {:induction false} VolumeSkipsWeekZeroAndTuneUps(ws: seq<Week>, distances: seq<int>, i: int)
    requires TableCovers(ws, distances)
    requires 0 <= i < |ws|
    ensures var r := InsertVolumeWorkouts(ws, distances);
      (i == 0 || ws[i].isWithBLevelRace ==> r[i] == ws[i]) &&
      (i != 0 && !ws[i].isWithBLevelRace ==> r[i] == WithWorkout(ws[i], VolumeRun(distances[i])))
  {
  }

  /** The recovery pass marks exactly the weeks 6, 9, 12, ... below the horizon. */
  lemma {:induction false} RecoveryWeeksExactly(n: nat, i: int)
    requires 0 <= i < n
    ensures SetRecoveryWeeks(Allocate(n))[i].isRecoveryWeek <==> i >= 6 && i % 3 == 0
  {
  }

  /** A table with an entry for every week of the horizon is enough to create the plan. */
  lemma {:induction false} FullTableSuffices(n: int, d: RaceDistance, distances: seq<int>)
    requires d == Marathon ==> n > BeforeTenseBRaceWeek
    requires n <= |distances|
    ensures CanCreate(Allocate(n), d, distances)
  {
    assert |InsertBRaces(Allocate(n), d)| <= |distances|;
  }

  /**
   * A 20-week marathon plan: tune-ups at 5, 11 and 17 (all 21 km),
   * recovery at 6, 9, 12, 15 and 18, volume runs in the other weeks from 1.
   */
  lemma {:induction false} MarathonTwentyWeeks(n: int, distances: seq<int>)
    requires n == 20 && |distances| >= n
    ensures var r := Create(Allocate(n), Marathon, distances);
      (forall i :: 0 <= i < n ==> (r[i].isWithBLevelRace <==> i == 5 || i == 11 || i == 17)) &&
      (forall i :: 0 <= i < n ==> (r[i].isRecoveryWeek <==> i == 6 || i == 9 || i == 12 || i == 15 || i == 18)) &&
      r[5].workouts == [BRace("Last B level race", 21)] &&
      r[11].workouts == [BRace("Before tense B level race", 21)] &&
      r[17].workouts == [BRace("Baseline B level race", 21)] &&
      (forall i :: 1 <= i < n && i != 5 && i != 11 && i != 17 ==> r[i].workouts == [VolumeRun(distances[i])])
  {
    FullTableSuffices(n, Marathon, distances);
    var r := Create(Allocate(n), Marathon, distances);
    forall i | 0 <= i < n
      ensures (r[i].isWithBLevelRace <==> i == 5 || i == 11 || i == 17)
      ensures (r[i].isRecoveryWeek <==> i == 6 || i == 9 || i == 12 || i == 15 || i == 18)
      ensures 1 <= i && i != 5 && i != 11 && i != 17 ==> r[i].workouts == [VolumeRun(distances[i])]
    {
      CreatedWeek(n, Marathon, distances, i);
      RecoveryBelowTwenty(i);
    }
    CreatedWeek(n, Marathon, distances, 5);
    CreatedWeek(n, Marathon, distances, 11);
    CreatedWeek(n, Marathon, distances, 17);
  }

  /** The indices 6 + 3k below 20. */
  lemma RecoveryBelowTwenty(i: int)
    requires 0 <= i < 20
    ensures EveryThirdFrom(i, FirstRecoveryWeek) <==> i == 6 || i == 9 || i == 12 || i == 15 || i == 18
  {
    if EveryThirdFrom(i, FirstRecoveryWeek) {
      var k := (i - FirstRecoveryWeek) / 3;
      assert i == FirstRecoveryWeek + 3 * k && 0 <= k <= 4;
    }
  }

  /**
   * A 15-week half-marathon plan: the dispatch never selects the
   * half-marathon schedule, so no week gets a tune-up race and weeks 1 to
   * 14 all get a volume run.
   */
  lemma {:induction false} HalfMarathonFifteenWeeks(n: int, distances: seq<int>)
    requires n == 15 && |distances| >= n
    ensures var r := Create(Allocate(n), HalfMarathon, distances);
      (forall i :: 0 <= i < n ==> !r[i].isWithBLevelRace) &&
      (forall i :: 1 <= i < n ==> r[i].workouts == [VolumeRun(distances[i])])
  {
    FullTableSuffices(n, HalfMarathon, distances);
    forall i | 0 <= i < n
      ensures var r := Create(Allocate(n), HalfMarathon, distances);
        !r[i].isWithBLevelRace && (1 <= i ==> r[i].workouts == [VolumeRun(distances[i])])
    {
      CreatedWeek(n, HalfMarathon, distances, i);
    }
  }
}
