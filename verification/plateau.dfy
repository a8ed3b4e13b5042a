/** The plateau: fixed boundaries and the one collection of rovers that lives on it. */
module Plateaus {
  import opened Rovers
  import opened RoverCollections

  /** A plateau whose id, boundaries and collection are set once, at construction. */
  class Plateau {
    const id: Guid
    const boundaryE: int
    const boundaryN: int
    const rovers: RoverCollection

    /** The collection is consistent, belongs to this plateau, and every rover on it stands inside the boundaries. */
    ghost predicate Valid()
      reads rovers, rovers.rovers
    {
      rovers.Valid() && rovers.plateauId == id && RoversInside()
    }

    /** Every rover of the collection stands inside the boundaries. */
    ghost predicate RoversInside()
      reads rovers, rovers.rovers
    {
      forall i :: 0 <= i < |rovers.rovers| ==>
        InBounds(rovers.rovers[i].x, rovers.rovers[i].y, boundaryE, boundaryN)
    }

    /** A plateau with the given id and boundaries, owning a new, empty collection with the full name pool. */
    constructor (id: Guid, boundaryE: int, boundaryN: int)
      ensures this.id == id && this.boundaryE == boundaryE && this.boundaryN == boundaryN
      ensures fresh(rovers)
      ensures rovers.rovers == [] && rovers.names == InitialNames
      ensures Valid()
    {
      this.id := id;
      this.boundaryE := boundaryE;
      this.boundaryN := boundaryN;
      this.rovers := new RoverCollection(id);
    }
  }
}
