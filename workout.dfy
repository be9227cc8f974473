/**
 * The workout value object that the plan builder appends to weekly plans.
 * Only the fields and the enum members the plan builder uses are modelled.
 */
module Workouts {

  datatype Option<T> = None | Some(value: T)

  /** Kind of session. */
  datatype WorkoutType = Volume | RaceOrTest

  /** Effort level of a session. */
  datatype Intensity = Aerobic | VeryIntense

  /** Day of the week, Monday = 0 ... Sunday = 6. */
  type Day = d: int | 0 <= d <= 6

  /** Saturday, the day every workout built by the plan falls on. */
  const Saturday: Day := 5

  /**
   * One training session: a name, its kind and effort, the day of the week,
   * an optional duration and a length in kilometres.
   */
  datatype Workout = Workout(
    name: string,
    workoutType: WorkoutType,
    intensity: Intensity,
    dayInWeek: Day,
    duration: Option<int>,
    length: int)
}
