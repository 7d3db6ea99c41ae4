/** Scalar types and the optional-value wrapper shared by every table of the marketplace. */
module Common {

  /** A value that may be absent: a nullable column or a missing POST field. */
  datatype Option<T> = None | Some(value: T) {
    /** The value, or `default` when absent (Python's `dict.get(key, default)`). */
    function GetOr(default: T): T {
      match this
      case Some(v) => v
      case None => default
    }
  }

  /** A calendar date, as a day ordinal: later dates are larger. */
  type Date = int

  /** A time of day, in seconds after midnight. */
  type Time = int

  /** A point in time, as produced by `timezone.now()`. */
  type Timestamp = int

  /** A decimal amount with two decimal places, in hundredths (paise). */
  type Money = int

  /** Writing a key twice keeps only the second value. */
  lemma UpdateTwice<K, V>(m: map<K, V>, k: K, v: V, w: V)
    ensures m[k := v][k := w] == m[k := w]
  {
  }
}
