# Training plan builder — Dafny model

This project models the plan-construction core of a running-training-plan
generator (`model/plan.py`). Given today's date and a race date, the builder
first computes the horizon. The horizon is the number of full weeks from the
first Sunday on or after today to race day. The builder then allocates one
weekly plan per week and runs a fixed pipeline of in-place passes over them:

1. tune-up ("B-level") races at weeks 5, 11 and 17;
2. recovery weeks at 6, 9, 12, …;
3. a volume run in every remaining week from week 1 on, with its length read
   from a distance table.

Modules:

- `Workouts` (workout.dfy): the workout value. It has a name, a type, an
  intensity, a day of the week, an optional duration and a length.
- `WeeklyPlans` (weekly_plan.dfy): the weekly plan object (`class WeeklyPlan`,
  updated in place) and its value `Week`. Adding a workout appends it.
- `Horizon` (horizon.dfy): the horizon arithmetic, as pure functions. Today
  is a day number with its weekday (Monday = 0).
- `Passes` (passes.dfy): the race-distance enum, the tune-up dispatch, and
  each pass as a function on the sequence of week values.
- `Plans` (plan.dfy): `class Plan`. Its constructor allocates the weeks. Its
  methods run the passes in place, with loops where
  the code loops, and each is proved to change
  the weeks exactly as the matching function of `Passes` does.
- `PlanProperties` (plan_properties.dfy): what a created plan looks like,
  week by week.

Behaviour of the code that the model keeps as it is:

- `MARATHON = 1,` and `HALF_MARATHON = 2,` end in a trailing comma, so
  their values are one-element tuples. The half-marathon branch of the
  dispatch tests `race_distance.value is RaceDistance.HALF_MARATHON`. A
  tuple is never the enum member, so that branch is never taken. Only a
  marathon plan gets tune-up races. Half-marathon and 10K plans get none,
  even though the half-marathon schedule (15, 15 and 10 km) exists
  (`Passes.TuneUpDispatch`, `PlanProperties.TuneUpsOnlyForMarathon`). One
  might expect a 15-week half-marathon plan to get tune-up races at weeks 5
  and 11; the code inserts none
  (`PlanProperties.HalfMarathonFifteenWeeks`).
- Recovery marking never flags a tune-up week. The tune-up weeks 5, 11 and
  17 leave remainder 2 when divided by 3, and the recovery weeks 6 + 3k
  leave remainder 0 (`PlanProperties.RecoveryAndTuneUpDisjoint`).
- The tune-up pass indexes weeks 5 and 11 without a check. A marathon plan
  therefore needs a horizon above 11, which the model states as a
  precondition.
- The volume pass reads `distances[i]` for every week it fills. The model
  requires the table to cover exactly those weeks (`Passes.TableCovers`).

`add_marathon_b_races` and `add_half_marathon_b_races` are the same code
with different lengths. Both are modelled by one method, `Plans.Plan.AddBRaces`,
with the length tables `MarathonTuneUps` (21, 21, 21) and
`HalfMarathonTuneUps` (15, 15, 10).

## Model

| member | source | states |
|---|---|---|
| `Horizon.DaysToFirstSunday` | model/plan.py:39-52 | the if-chain on the weekday adds exactly 6 − weekday days: always 0..6, and 0 exactly when today is Sunday |
| `Horizon.FirstSundayFromToday` | model/plan.py:38-52 | the result is a Sunday, at most 6 days after today, equal to today exactly when today is Sunday, and no earlier day on or after today is a Sunday |
| `Horizon.FullWeeksTillRace` | model/plan.py:53 | the horizon n is the floor of (race day − first Sunday) / 7: first Sunday + 7n ≤ race day < first Sunday + 7(n + 1) |
| `Horizon.ExactWeeks` | model/plan.py:53 | a race exactly 7·N days after the first Sunday gives horizon N |
| `Horizon.NegativeIffRaceBeforeFirstSunday` | model/plan.py:53 | the horizon is negative exactly when race day is before the first Sunday |
| `Horizon.Monotone` | model/plan.py:53 | a later race day never gives a smaller horizon |
| `WeeklyPlans.WeeklyPlan.constructor` | model/plan.py:27 | a new weekly plan object holds the empty week of its index |
| `WeeklyPlans.WeeklyPlan.AddWorkout` | model/plan.py:72 | the object's value becomes the old value with the workout appended |
| `Passes.EnumValue` | model/plan.py:9-12 | because of the trailing commas, the values of MARATHON and HALF_MARATHON are one-element tuples and KM_10's is the int 3; no value is itself an enum member |
| `Passes.TuneUpDispatch` | model/plan.py:58-62 | with the identity tests as written, a schedule is chosen exactly for the marathon, and it is the marathon schedule |
| `Passes.AddBRaces` | model/plan.py:83-127 | weeks 5 and 11, and 17 when the horizon exceeds 17, each get exactly their race appended with the flags set; every other week is unchanged; the number of weeks is kept |
| `Passes.InsertBRaces` | model/plan.py:58-62 | the number of weeks is kept; for a marathon the weeks become `AddBRaces` with the 21 km schedule, and for a half-marathon or 10K they are unchanged |
| `Passes.MarkRecoveryFrom` | model/plan.py:130-131 | exactly the weeks start, start + 3, … below the horizon are marked as recovery weeks; all others are unchanged |
| `Passes.SetRecoveryWeeks` | model/plan.py:129-131 | a week's recovery flag becomes set exactly when it was set already or its index is 6 + 3k; workouts, tune-up flag and index are kept |
| `Passes.InsertVolumeFrom` | model/plan.py:67-72 | every week from `start` on without a tune-up race gets exactly one volume run of length distances[i] appended; every other week is unchanged |
| `Passes.InsertVolumeWorkouts` | model/plan.py:64-72 | every week from 1 on that holds no tune-up race gets exactly one volume run of length distances[i] appended; week 0 and tune-up weeks are unchanged; the number of weeks is kept |
| `Passes.Create` | model/plan.py:29-35 | the pipeline keeps the number of weeks |
| `Passes.Allocate` | model/plan.py:24-27 | max(0, n) weeks are allocated, and week i is the empty week with index i |
| `Plans.Plan.constructor` | model/plan.py:16-27 | the horizon is `Horizon.FullWeeksTillRace` of today and the race day; the weeks are `Allocate` of it, held in distinct fresh objects |
| `Plans.Plan.AddBRace` | model/plan.py:84-89 | only week `week` changes, and it becomes `WithBRace` of its old value |
| `Plans.Plan.AddBRaces` | model/plan.py:83-127 | the weeks become `Passes.AddBRaces` of the old weeks |
| `Plans.Plan.InsertBLevelRacesOrTests` | model/plan.py:58-62 | the weeks become `Passes.InsertBRaces` of the old weeks for the plan's race distance |
| `Plans.Plan.SetRecoveryWeek` | model/plan.py:129-131 | the loop over indices 6, 9, … leaves the weeks equal to `SetRecoveryWeeks` of the old weeks |
| `Plans.Plan.InsertVolumeWorkouts` | model/plan.py:64-72 | the loop over indices 1 … horizon − 1 leaves the weeks equal to `Passes.InsertVolumeWorkouts` of the old weeks |
| `Plans.Plan.Create` | model/plan.py:29-35 | the list of weekly plan objects is unchanged (no week added or removed), and the weeks become `Passes.Create` of the old weeks |
| `PlanProperties.CreatedWeek` | model/plan.py:29-35 | in a created plan, week i has index i; it is a tune-up week exactly for a marathon at 5, 11 (and 17 when the horizon exceeds 17); it is a recovery week exactly at 6 + 3k; it holds only its race, or nothing in week 0, or one volume run |
| `PlanProperties.RecoveryAndTuneUpDisjoint` | model/plan.py:129-131 | no week of a created plan is both a recovery week and a tune-up week |
| `PlanProperties.OneWorkoutPerWeek` | model/plan.py:29-35 | week 0 of a created plan is empty and every later week holds exactly one workout |
| `PlanProperties.TuneUpsOnlyForMarathon` | model/plan.py:58-62 | for a half-marathon or 10K plan, no week is a tune-up week and every workout is a volume run |
| `PlanProperties.RaceWeeksFlagged` | model/plan.py:83-104 | right after the tune-up pass, every week holding a race or test is a tune-up week and not a recovery week |
| `PlanProperties.VolumeSkipsWeekZeroAndTuneUps` | model/plan.py:67-72 | the volume pass leaves week 0 and tune-up weeks unchanged and every other week becomes exactly that week with one volume run appended |
| `PlanProperties.RecoveryWeeksExactly` | model/plan.py:130-131 | on freshly allocated weeks, the recovery pass flags exactly the weeks i ≥ 6 with i divisible by 3 |
| `PlanProperties.FullTableSuffices` | model/plan.py:64-72 | a distance table with an entry for every week of the horizon covers what the volume pass reads |
| `PlanProperties.MarathonTwentyWeeks` | model/plan.py:29-35 | a 20-week marathon plan has 21 km tune-ups at 5, 11 and 17, recovery weeks 6, 9, 12, 15 and 18, and volume runs in the other weeks from 1 on |
| `PlanProperties.HalfMarathonFifteenWeeks` | model/plan.py:58-62 | a 15-week half-marathon plan has no tune-up races and a volume run in each of weeks 1 to 14 |

## Left out

- The clock read (`datetime.date.today()`) is left out. Today is a parameter: a day number with its weekday. Calendar arithmetic is not modelled: days are consecutive integers.
- Loading the distance table from its YAML file is left out, and so is the lookup by the lower-case race-distance name. The table for the chosen distance is a `seq<int>` parameter. Lengths are integers, although the file may hold other numbers.
- `validate_goal_is_reachable`, `insert_first_quality_workouts`, `insert_second_quality_workouts` and `insert_lite_volume_workouts` are left out. They are empty in the code, so `Plans.Plan.Create` runs only the three passes that do something.
- The stored fields that are never read are left out: `time_target`, `shape_level`, `weekly_training_days` and `race_day`.
- The rest of `WeeklyPlan`, `Workout`, `WorkoutType` and `Intensity` is left out (model/weekly_plan.py and model/workout.py are not part of this model). Only the fields, the append and the enum members the plan uses are modelled.
- The out-of-range index errors are not modelled as errors. For a marathon with a horizon of 11 or less, and for a distance table too short for the volume pass, the code fails partway through a pass. The model requires these cases away: a horizon above 11 for a marathon, and `Passes.TableCovers` for the volume pass.
- `add_marathon_b_races` and `add_half_marathon_b_races` have no members of their own. Both are `Plans.Plan.AddBRaces` with their own length table.
