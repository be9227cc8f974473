/**
 * The insertion passes of the plan builder as functions on the sequence of
 * week values, together with the race-distance enum and the dispatch that
 * selects the tune-up ("B-level") races.
 */
module Passes {
  import opened Workouts
  import opened WeeklyPlans

  datatype RaceDistance = Marathon | HalfMarathon | Km10

  /**
   * The Python objects that take part in the dispatch: an enum member, a
   * one-element tuple of an int, or an int. The members MARATHON and
   * HALF_MARATHON are declared with a trailing comma, so their values are
   * one-element tuples; KM_10's value is the int 3.
   */
  datatype PyValue = Member(member: RaceDistance) | OneTuple(item: int) | Int(i: int)

  /**
   * The `.value` of each enum member: a one-element tuple for the marathon
   * and the half-marathon, an int for the 10K, and never an enum member.
   */
  function EnumValue(d: RaceDistance): (r: PyValue)
    ensures r.OneTuple? <==> d != Km10
    ensures !r.Member?
  {
    match d
    case Marathon => OneTuple(1)
    case HalfMarathon => OneTuple(2)
    case Km10 => Int(3)
  }

  /**
   * `x is m` for an enum member `m`: enum members are singletons, and no
   * tuple or int is the same object as one.
   */
  predicate IsMember(x: PyValue, m: RaceDistance)
  {
    x == Member(m)
  }

  /** The lengths of the three tune-up races, for weeks 5, 11 and 17. */
  datatype TuneUpLengths = TuneUpLengths(last: int, beforeTense: int, baseline: int)

  const MarathonTuneUps := TuneUpLengths(21, 21, 21)
  const HalfMarathonTuneUps := TuneUpLengths(15, 15, 10)

  const LastBRaceWeek := 5
  const BeforeTenseBRaceWeek := 11
  const BaselineBRaceWeek := 17

  /**
   * Which tune-up schedule the plan inserts. The first test compares the
   * member itself; the second compares the member's tuple value with a
   * member, which never holds, so only the marathon gets tune-up races.
   */
  function TuneUpDispatch(d: RaceDistance): (r: Option<TuneUpLengths>)
    ensures r.Some? <==> d == Marathon
    ensures r.Some? ==> r.value == MarathonTuneUps
  {
    if IsMember(Member(d), Marathon) then Some(MarathonTuneUps)
    else if IsMember(EnumValue(d), HalfMarathon) then Some(HalfMarathonTuneUps)
    else None
  }

  /** A tune-up race workout: race or test, very intense, on Saturday, no duration. */
  function BRace(name: string, length: int): Workout
  {
    Workout(name, RaceOrTest, VeryIntense, Saturday, None, length)
  }

  /** The volume workout: aerobic, on Saturday, duration 1. */
  function VolumeRun(length: int): Workout
  {
    Workout("Volume", Volume, Aerobic, Saturday, Some(1), length)
  }

  /** Week `w` with a tune-up race appended and flagged as a tune-up week, not a recovery week. */
  function WithBRace(w: Week, name: string, length: int): Week
  {
    WithWorkout(w, BRace(name, length)).(isWithBLevelRace := true, isRecoveryWeek := false)
  }

  /** The race appended to tune-up week `i` (5, 11 or 17). */
  function BRaceAt(i: int, lengths: TuneUpLengths): Workout
  {
    if i == LastBRaceWeek then BRace("Last B level race", lengths.last)
    else if i == BeforeTenseBRaceWeek then BRace("Before tense B level race", lengths.beforeTense)
    else BRace("Baseline B level race", lengths.baseline)
  }

  /** The tune-up weeks of a plan of `n` weeks: 5 and 11, and 17 when `n > 17`. */
  predicate IsTuneUpWeek(i: int, n: int)
  {
    i == LastBRaceWeek || i == BeforeTenseBRaceWeek || (i == BaselineBRaceWeek && n > BaselineBRaceWeek)
  }

  /**
   * The tune-up pass for one schedule: weeks 5 and 11, then week 17 when
   * the horizon exceeds 17, each get the race appended and their flags set.
   * Weeks 5 and 11 are indexed without a check, so the horizon must exceed 11.
   */
  function AddBRaces(ws: seq<Week>, lengths: TuneUpLengths): (r: seq<Week>)
    requires |ws| > BeforeTenseBRaceWeek
    ensures |r| == |ws|
    ensures forall i :: 0 <= i < |ws| && IsTuneUpWeek(i, |ws|) ==>
      r[i].workouts == ws[i].workouts + [BRaceAt(i, lengths)] &&
      r[i].isWithBLevelRace && !r[i].isRecoveryWeek && r[i].weekIndex == ws[i].weekIndex
    ensures forall i :: 0 <= i < |ws| && !IsTuneUpWeek(i, |ws|) ==> r[i] == ws[i]
  {
    var afterLast := ws[LastBRaceWeek := WithBRace(ws[LastBRaceWeek], "Last B level race", lengths.last)];
    var afterBeforeTense := afterLast[BeforeTenseBRaceWeek :=
      WithBRace(afterLast[BeforeTenseBRaceWeek], "Before tense B level race", lengths.beforeTense)];
    if |ws| > BaselineBRaceWeek then
      afterBeforeTense[BaselineBRaceWeek :=
        WithBRace(afterBeforeTense[BaselineBRaceWeek], "Baseline B level race", lengths.baseline)]
    else
      afterBeforeTense
  }

  /** The tune-up pass as dispatched by race distance. */
  function InsertBRaces(ws: seq<Week>, d: RaceDistance): (r: seq<Week>)
    requires d == Marathon ==> |ws| > BeforeTenseBRaceWeek
    ensures |r| == |ws|
    ensures d == Marathon ==> r == AddBRaces(ws, MarathonTuneUps)
    ensures d != Marathon ==> r == ws
  {
    match TuneUpDispatch(d)
    case Some(lengths) => AddBRaces(ws, lengths)
    case None => ws
  }

  /** Week `w` marked as a recovery week; nothing else changes. */
  function AsRecovery(w: Week): Week
  {
    w.(isRecoveryWeek := true)
  }

  /** Whether `i` is one of the indices start, start + 3, start + 6, ... */
  predicate EveryThirdFrom(i: int, start: int)
  {
    start <= i && (i - start) % 3 == 0
  }

  /** Marks the weeks start, start + 3, ... below the horizon as recovery weeks. */
  function MarkRecoveryFrom(ws: seq<Week>, start: nat): (r: seq<Week>)
    ensures |r| == |ws|
    ensures forall i :: 0 <= i < |ws| ==>
      r[i] == if EveryThirdFrom(i, start) then AsRecovery(ws[i]) else ws[i]
    decreases |ws| - start
  {
    if start >= |ws| then ws
    else MarkRecoveryFrom(ws[start := AsRecovery(ws[start])], start + 3)
  }

  const FirstRecoveryWeek := 6

  /** The recovery pass: weeks 6, 9, 12, ... below the horizon; workouts and tune-up flags are kept. */
  function SetRecoveryWeeks(ws: seq<Week>): (r: seq<Week>)
    ensures |r| == |ws|
    ensures forall i :: 0 <= i < |ws| ==>
      r[i].isRecoveryWeek == (ws[i].isRecoveryWeek || EveryThirdFrom(i, FirstRecoveryWeek)) &&
      r[i].isWithBLevelRace == ws[i].isWithBLevelRace &&
      r[i].workouts == ws[i].workouts && r[i].weekIndex == ws[i].weekIndex
  {
    MarkRecoveryFrom(ws, FirstRecoveryWeek)
  }

  /**
   * The weeks the volume pass reads a distance for are inside the table:
   * every week from 1 on that is not a tune-up week.
   */
  predicate TableCovers(ws: seq<Week>, distances: seq<int>)
  {
    forall i :: 1 <= i < |ws| && !ws[i].isWithBLevelRace ==> i < |distances|
  }

  /** The volume pass from week `start` on. */
  function InsertVolumeFrom(ws: seq<Week>, distances: seq<int>, start: nat): (r: seq<Week>)
    requires 1 <= start
    requires TableCovers(ws, distances)
    ensures |r| == |ws|
    ensures forall i :: 0 <= i < |ws| ==>
      r[i] == if start <= i && !ws[i].isWithBLevelRace
              then WithWorkout(ws[i], VolumeRun(distances[i])) else ws[i]
    decreases |ws| - start
  {
    if start >= |ws| then ws
    else if ws[start].isWithBLevelRace then InsertVolumeFrom(ws, distances, start + 1)
    else InsertVolumeFrom(ws[start := WithWorkout(ws[start], VolumeRun(distances[start]))], distances, start + 1)
  }

  /** The volume pass: weeks 1 .. horizon - 1 that hold no tune-up race. */
  function InsertVolumeWorkouts(ws: seq<Week>, distances: seq<int>): (r: seq<Week>)
    requires TableCovers(ws, distances)
    ensures |r| == |ws|
    ensures forall i :: 0 <= i < |ws| ==>
      r[i] == if 1 <= i && !ws[i].isWithBLevelRace
              then WithWorkout(ws[i], VolumeRun(distances[i])) else ws[i]
  {
    InsertVolumeFrom(ws, distances, 1)
  }

  /** Whether the table covers the weeks the volume pass reads after the tune-up pass. */
  predicate CanCreate(ws: seq<Week>, d: RaceDistance, distances: seq<int>)
  {
    (d == Marathon ==> |ws| > BeforeTenseBRaceWeek) &&
    TableCovers(InsertBRaces(ws, d), distances)
  }

  /** The whole pipeline: tune-up races, then recovery weeks, then volume runs. */
  function Create(ws: seq<Week>, d: RaceDistance, distances: seq<int>): (r: seq<Week>)
    requires CanCreate(ws, d, distances)
    ensures |r| == |ws|
  {
    var tuned := InsertBRaces(ws, d);
    var recovered := SetRecoveryWeeks(tuned);
    assert TableCovers(recovered, distances);
    InsertVolumeWorkouts(recovered, distances)
  }

  /** The weeks the plan allocates for a horizon of `n`: none when `n` is not positive. */
  function Allocate(n: int): (r: seq<Week>)
    ensures |r| == if n < 0 then 0 else n
    ensures forall i :: 0 <= i < |r| ==> r[i] == EmptyWeek(i)
  {
    if n <= 0 then [] else Allocate(n - 1) + [EmptyWeek(n - 1)]
  }
}
