/** One aggregation request (facet.go). Its setters overwrite one field each;
    nothing relates the fields to each other. */
module Facets {
  import opened Filters
  import SortTokens

  /** All fields of one facet at once. */
  datatype FacetState = FacetState(
    name: string,
    field: string,
    limit: int,
    interval: string,
    sort: string,
    scope: string,
    filter: Filter?)

  class Facet {
    var name: string
    var field: string
    var limit: int
    var interval: string
    var sort: string
    var scope: string
    var filter: Filter?

    /** The facet's fields, for stating what a method changes. */
    ghost function State(): FacetState
      reads this
    {
      FacetState(name, field, limit, interval, sort, scope, filter)
    }

    /** NewFacet: every field empty, zero or nil. */
    constructor ()
      ensures State() == FacetState("", "", 0, "", "", "", null)
    {
      name := "";
      field := "";
      limit := 0;
      interval := "";
      sort := "";
      scope := "";
      filter := null;
    }

    method SetName(name: string)
      modifies this
      ensures State() == old(State()).(name := name)
    {
      this.name := name;
    }

    method SetField(field: string)
      modifies this
      ensures State() == old(State()).(field := field)
    {
      this.field := field;
    }

    /** Leaves the interval as it was, so a limit and an interval may both
        be set. */
    method SetLimit(limit: int)
      modifies this
      ensures State() == old(State()).(limit := limit)
    {
      this.limit := limit;
    }

    /** Leaves the limit as it was. */
    method SetInterval(interval: string)
      modifies this
      ensures State() == old(State()).(interval := interval)
    {
      this.interval := interval;
    }

    /** Replaces any earlier sort by the one token `field:direction`. */
    method SetSort(field: string, direction: string)
      modifies this
      ensures State() == old(State()).(sort := SortTokens.SortToken(field, direction))
    {
      this.sort := field + ":" + direction;
    }

    method SetScope(scope: string)
      modifies this
      ensures State() == old(State()).(scope := scope)
    {
      this.scope := scope;
    }

    /** Stores the flattened `filter`; only this facet's filter changes,
        neither the argument nor any query. */
    method SetFilter(filter: Filter)
      modifies this
      ensures State() == old(State()).(filter := filter.Flatten())
      ensures unchanged(filter)
    {
      this.filter := filter.Flatten();
    }
  }
}
