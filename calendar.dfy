/** Whole calendar dates and the driver's age in completed years. */
module Calendar {

  /** A date without time of day. */
  datatype Date = Date(year: int, month: int, day: int)

  /** `a` comes strictly after `b`: later year, or same year and later month,
      or same year and month and later day. */
  predicate After(a: Date, b: Date) {
    a.year > b.year
    || (a.year == b.year && (a.month > b.month || (a.month == b.month && a.day > b.day)))
  }

  /** The same month and day, `n` years later (earlier when `n` is negative). */
  function AddYears(d: Date, n: int): Date {
    d.(year := d.year + n)
  }

  /** Age of someone born on `birth`, on the date `today`: the year difference,
      less one when `birth` is after `today` moved back by that difference.
      This is the number of anniversaries completed: the `age`-th one is not after
      `today`, the next one is. */
  function AgeOn(birth: Date, today: Date): (age: int)
    ensures !After(AddYears(birth, age), today)
    ensures After(AddYears(birth, age + 1), today)
  {
    var years := today.year - birth.year;
    if After(birth, AddYears(today, -years)) then years - 1 else years
  }

  /** The year difference is decremented exactly when the birthday (month, day)
      has not yet been reached in the year of `today`. */
  lemma AgeDecrement(birth: Date, today: Date)
    ensures AgeOn(birth, today) == today.year - birth.year - 1
            <==> (birth.month > today.month || (birth.month == today.month && birth.day > today.day))
    ensures AgeOn(birth, today) == today.year - birth.year
            <==> !(birth.month > today.month || (birth.month == today.month && birth.day > today.day))
  {
  }

  /** The age is the only count of years whose anniversary has passed while the
      next one has not. */
  lemma AgeUnique(birth: Date, today: Date, n: int)
    requires !After(AddYears(birth, n), today)
    requires After(AddYears(birth, n + 1), today)
    ensures n == AgeOn(birth, today)
  {
  }
}
