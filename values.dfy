/** `driver.Value`: the values a row cursor hands back and a statement takes as
    positional arguments. Floating-point and time values are kept abstract. */
module DriverValues {

  /** A wall-clock instant as given to `time.Date`, in the process's local zone. */
  datatype Timestamp = Timestamp(year: int, month: int, day: int, hour: int, minute: int, second: int, nanosecond: int)

  datatype Value =
    | Null
    | Text(s: string)
    | Integer(i: int)
    | Boolean(b: bool)
    /** A float64, known only by its literal; its arithmetic is not modelled. */
    | Float(literal: string)
    | Time(t: Timestamp)
}
