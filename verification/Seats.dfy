/** A committee's seats: one round's pseudonym, the assembly behind it and its role. `seat-7` is
    alias 7. */
module Seats {
  import opened Text

  datatype Seat = Seat(alias: nat, assembly: string, role: string)

  /** What a draw asks of its caller: at least one seat, and named assemblies with named roles. */
  predicate Drawable(eligible: map<string, string>, size: int) {
    size >= 1 && forall a <- eligible :: Strip(a) != "" && Strip(eligible[a]) != ""
  }

  predicate DistinctSeats(seats: seq<Seat>) {
    forall i, j | 0 <= i < j < |seats| :: seats[i].alias != seats[j].alias && seats[i].assembly != seats[j].assembly
  }
}
