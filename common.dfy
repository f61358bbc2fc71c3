/** Error outcomes and generic sequence helpers shared by every module. */
module Common {

  /** The exceptions the engine can raise, as values. */
  datatype Error =
    | EmptyIndicatorTable      // max() or [-1] over an empty external-data dict
    | EmptySamples             // a statistic (percentile, max) over an empty sequence
    | PercentileOutOfRange     // np.percentile with q outside [0, 100]
    | MissingKey(key: int)     // a dict lookup of an absent id
    | MissingScenarioFields    // Scenario(...) called without all twelve numeric fields
    | NoSeries                 // next(iter(...)) over an empty dict
    | SeriesTooShort           // an index past the end of a shorter series
    | OutOfRange(fields: seq<string>) // the fields a record validator rejected, in order
    | UnknownAttribute(name: string) // getattr of a field the record does not have
    | WrongArgumentType        // a value of the wrong type reached arithmetic (a dict as a scale, a str as a number)
    | DivisionByZero           // float division by zero

  datatype Result<T> = Success(value: T) | Failure(error: Error)

  /** A value, or the NaN numpy produces for a statistic of nothing. */
  datatype Option<T> = None | Some(value: T)

  /** Extending a prefix by one element. */
  lemma PrefixSnoc<T>(s: seq<T>, i: nat)
    requires i < |s|
    ensures s[..i + 1] == s[..i] + [s[i]]
  {
  }

  /** Some element of a non-empty set: the next key a dict iteration visits. */
  method Pick<K>(s: set<K>) returns (x: K)
    requires s != {}
    ensures x in s
  {
    x :| x in s;
  }
}
