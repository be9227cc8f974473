/**
 * The plan builder: it computes the horizon, allocates one weekly plan per
 * week, and runs its passes in place over the weekly plans. Each method is
 * proved to change the weeks exactly as the matching function of Passes.
 */
module Plans {
  import opened WeeklyPlans
  import opened Passes
  import Horizon

  class Plan {
    const raceDate: int
    const raceDistance: RaceDistance
    const fullWeeksTillRace: int
    var weeklyPlanList: seq<WeeklyPlan>

    /** One distinct weekly plan object per week of the horizon. */
    ghost predicate Valid()
      reads this
    {
      |weeklyPlanList| == (if fullWeeksTillRace < 0 then 0 else fullWeeksTillRace) &&
      forall i, j :: 0 <= i < |weeklyPlanList| && 0 <= j < |weeklyPlanList| && i != j ==>
        weeklyPlanList[i] != weeklyPlanList[j]
    }

    /** The current values of the weekly plans, in order. */
    ghost function Weeks(): (ws: seq<Week>)
      reads this, weeklyPlanList
      ensures |ws| == |weeklyPlanList|
    {
      seq(|weeklyPlanList|, i requires 0 <= i < |weeklyPlanList| reads this, weeklyPlanList =>
        weeklyPlanList[i].Value())
    }

    /**
     * Computes the horizon from today (a day number and its weekday) and the
     * race day, then allocates the weeks 0 .. horizon - 1.
     */
    constructor (today: int, weekday: int, raceDate: int, raceDistance: RaceDistance)
      requires 0 <= weekday <= 6
      ensures this.raceDate == raceDate && this.raceDistance == raceDistance
      ensures fullWeeksTillRace == Horizon.FullWeeksTillRace(today, weekday, raceDate)
      ensures Valid()
      ensures Weeks() == Allocate(fullWeeksTillRace)
      ensures forall i :: 0 <= i < |weeklyPlanList| ==> fresh(weeklyPlanList[i])
    {
      this.raceDate := raceDate;
      this.raceDistance := raceDistance;
      var n := Horizon.FullWeeksTillRace(today, weekday, raceDate);
      fullWeeksTillRace := n;
      var list: seq<WeeklyPlan> := [];
      var weekNumber := 0;
      while weekNumber < n
        invariant weekNumber == |list| <= if n < 0 then 0 else n
        invariant forall i, j :: 0 <= i < |list| && 0 <= j < |list| && i != j ==> list[i] != list[j]
        invariant forall i :: 0 <= i < |list| ==> fresh(list[i])
        invariant forall i :: 0 <= i < |list| ==> list[i].Value() == EmptyWeek(i)
      {
        var week := new WeeklyPlan(weekNumber);
        list := list + [week];
        weekNumber := weekNumber + 1;
      }
      weeklyPlanList := list;
      new;
      assert forall i :: 0 <= i < |list| ==> Weeks()[i] == Allocate(n)[i];
    }

    /**
     * Appends a tune-up race to week `week` and flags it as a tune-up week
     * that is not a recovery week.
     */
    method AddBRace(week: nat, name: string, length: int)
      requires Valid() && week < |weeklyPlanList|
      modifies weeklyPlanList[week]
      ensures Weeks() == old(Weeks())[week := WithBRace(old(Weeks())[week], name, length)]
    {
      var plan := weeklyPlanList[week];
      plan.AddWorkout(BRace(name, length));
      plan.isWithBLevelRace := true;
      plan.isRecoveryWeek := false;
    }

    /**
     * Inserts the tune-up races of one schedule into weeks 5, 11 and, when
     * the horizon exceeds 17, 17. Weeks 5 and 11 are indexed unguarded.
     */
    method AddBRaces(lengths: TuneUpLengths)
      requires Valid() && fullWeeksTillRace > BeforeTenseBRaceWeek
      modifies weeklyPlanList
      ensures Weeks() == Passes.AddBRaces(old(Weeks()), lengths)
    {
      AddBRace(LastBRaceWeek, "Last B level race", lengths.last);
      AddBRace(BeforeTenseBRaceWeek, "Before tense B level race", lengths.beforeTense);
      if fullWeeksTillRace > BaselineBRaceWeek {
        AddBRace(BaselineBRaceWeek, "Baseline B level race", lengths.baseline);
      }
    }

    /** The tune-up pass, dispatched on the race distance. */
    method InsertBLevelRacesOrTests()
      requires Valid() && (raceDistance == Marathon ==> fullWeeksTillRace > BeforeTenseBRaceWeek)
      modifies weeklyPlanList
      ensures Weeks() == InsertBRaces(old(Weeks()), raceDistance)
    {
      match TuneUpDispatch(raceDistance)
      case Some(lengths) => AddBRaces(lengths);
      case None =>
    }

    /** Marks weeks 6, 9, 12, ... below the horizon as recovery weeks. */
    method SetRecoveryWeek()
      requires Valid()
      modifies weeklyPlanList
      ensures Weeks() == SetRecoveryWeeks(old(Weeks()))
    {
      ghost var before := Weeks();
      var i := FirstRecoveryWeek;
      while i < fullWeeksTillRace
        invariant EveryThirdFrom(i, FirstRecoveryWeek)
        invariant |Weeks()| == |before|
        invariant forall j :: 0 <= j < |before| ==>
          Weeks()[j] == if EveryThirdFrom(j, FirstRecoveryWeek) && j < i then AsRecovery(before[j]) else before[j]
      {
        weeklyPlanList[i].isRecoveryWeek := true;
        i := i + 3;
      }
    }

    /**
     * Appends a volume run to every week from 1 on that holds no tune-up
     * race, with its length read from the distance table at the week index.
     */
    method InsertVolumeWorkouts(distances: seq<int>)
      requires Valid() && TableCovers(Weeks(), distances)
      modifies weeklyPlanList
      ensures Weeks() == Passes.InsertVolumeWorkouts(old(Weeks()), distances)
    {
      ghost var before := Weeks();
      var i := 1;
      while i < fullWeeksTillRace
        invariant 1 <= i
        invariant |Weeks()| == |before|
        invariant forall j :: 0 <= j < |before| ==>
          Weeks()[j] == if 1 <= j < i && !before[j].isWithBLevelRace
                        then WithWorkout(before[j], VolumeRun(distances[j])) else before[j]
      {
        assert Weeks()[i] == weeklyPlanList[i].Value() == before[i];
        if !weeklyPlanList[i].isWithBLevelRace {
          weeklyPlanList[i].AddWorkout(VolumeRun(distances[i]));
        }
        i := i + 1;
      }
    }

    /**
     * Runs the passes in order: tune-up races, recovery weeks, volume runs.
     * The weeks themselves are never added or removed.
     */
    method Create(distances: seq<int>)
      requires Valid() && CanCreate(Weeks(), raceDistance, distances)
      modifies weeklyPlanList
      ensures weeklyPlanList == old(weeklyPlanList)
      ensures Weeks() == Passes.Create(old(Weeks()), raceDistance, distances)
    {
      InsertBLevelRacesOrTests();
      SetRecoveryWeek();
      InsertVolumeWorkouts(distances);
    }
  }
}
