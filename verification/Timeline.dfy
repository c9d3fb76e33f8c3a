// Rows that tenants write over time, and what it means that a value was there at some instant.
module Timeline {
  datatype Write<T> = Write(tenant: string, change: T, at: int)

  // The rows were as after the first i writes at some instant between the two readings of the clock.
  predicate Moment<T>(writes: seq<Write<T>>, i: nat, from: int, to: int) {
    i <= |writes| && (i > 0 ==> writes[i - 1].at <= to) && (i < |writes| ==> from <= writes[i].at)
  }

  predicate Chronological<T>(writes: seq<Write<T>>) {
    forall i, j :: 0 <= i < j < |writes| ==> writes[i].at <= writes[j].at
  }

  // A later write leaves the moments of the past what they were.
  lemma MomentKept<T>(writes: seq<Write<T>>, w: Write<T>, i: nat, from: int, to: int)
    requires Moment(writes, i, from, to) && from <= w.at
    ensures Moment(writes + [w], i, from, to) && (writes + [w])[..i] == writes[..i]
  {
  }
}
