/**
 * A parking lot record and the public view of it, whose occupancy is
 * clamped to the lot's capacity.
 */
module ParkingLots {

  /** A stored parking lot; `count` is the estimated number of vehicles in it. */
  datatype ParkingLot = ParkingLot(id: string, clientId: string, name: string, totalSpaces: int, count: int)

  /** What the API shows of a lot. */
  datatype PublicLot = PublicLot(id: string, name: string, totalSpaces: int, count: int)

  /** The public view (publicInstance): a negative count shows as 0, one over capacity as the capacity. */
  function PublicInstance(lot: ParkingLot): (v: PublicLot)
    ensures v.id == lot.id && v.name == lot.name && v.totalSpaces == lot.totalSpaces
    ensures lot.count < 0 ==> v.count == 0
    ensures 0 <= lot.count <= lot.totalSpaces ==> v.count == lot.count
    ensures 0 <= lot.count && lot.totalSpaces < lot.count ==> v.count == lot.totalSpaces
  {
    var count :=
      if lot.count < 0 then 0
      else if lot.count > lot.totalSpaces then lot.totalSpaces
      else lot.count;
    PublicLot(lot.id, lot.name, lot.totalSpaces, count)
  }

  /** With a non-negative capacity the shown count lies in [0, capacity] and is the nearest such value. */
  lemma ShownCountInRange(lot: ParkingLot)
    requires 0 <= lot.totalSpaces
    ensures var c := PublicInstance(lot).count;
      0 <= c <= lot.totalSpaces
      && (c == lot.count || (c == 0 && lot.count < 0) || (c == lot.totalSpaces && lot.count > lot.totalSpaces))
  {
  }

  /** Showing a lot whose count is already in range changes nothing. */
  lemma ClampIdempotent(lot: ParkingLot)
    requires 0 <= lot.totalSpaces
    ensures PublicInstance(lot.(count := PublicInstance(lot).count)) == PublicInstance(lot)
  {
  }
}
