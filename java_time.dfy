/** java.time.LocalDate as the reservation form produces it. */
module JavaTime {
  /** A calendar date; only its year, month and day fields matter here. */
  datatype LocalDate = LocalDate(year: int, month: int, day: int)
}
