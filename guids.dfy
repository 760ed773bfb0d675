/** `Guid.NewGuid()` as a source of identifiers the caller supplies. */
module Guids {
  class GuidSource {
    /** How many identifiers have been drawn. */
    var drawn: nat
    /** The identifier of each draw, in order. */
    const draws: nat -> string

    constructor(draws: nat -> string)
      ensures drawn == 0 && this.draws == draws
    {
      drawn := 0;
      this.draws := draws;
    }

    /** The next identifier. */
    method NewGuid() returns (g: string)
      modifies this
      ensures g == draws(old(drawn)) && drawn == old(drawn) + 1
    {
      g := draws(drawn);
      drawn := drawn + 1;
    }
  }
}
