/**
  The user's life as the calendar sees it. How `age` is derived from the
  birthday and the calendar is not part of this model: `age` is taken as given.
 */
module LifeData {

  /** The number of week cells in one row (one year) of the life calendar. */
  const TotalWeeksInAYear: nat := 52

  /** A life: the whole years lived so far and the expected life span in years. */
  datatype Life = Life(age: int, lifeExpectancy: int)
}
