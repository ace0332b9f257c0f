/** The one thing assumed of time. */
module Clock {

  /** Time never runs backwards: it starts at `start`, passes the times of the items, and is now at
      `now`. */
  predicate NeverBackwards<T>(timeOf: T -> real, start: real, items: seq<T>, now: real)
    decreases |items|
  {
    if items == [] then start <= now
    else
      var last := items[|items| - 1];
      timeOf(last) <= now && NeverBackwards(timeOf, start, items[..|items| - 1], timeOf(last))
  }
}
