/** The request payload builder (query.go). The two optional sub-records are
    values that exist once their setter has run; sort tokens and facets are
    lists that only grow. */
module Queries {
  import opened Values
  import opened Filters
  import opened Facets
  import SortTokens

  /** The fields to include in ("included") or exclude from ("excluded")
      each returned item. */
  datatype QueryFields = QueryFields(included: seq<string>, excluded: seq<string>)

  /** The full text search: the searched value, the fields to search in and
      the operator joining the words. */
  datatype QueryQuery = QueryQuery(fields: seq<string>, value: string, operator: string)

  /** All fields of one query at once. */
  datatype QueryState = QueryState(
    fields: Option<QueryFields>,
    limit: int,
    offset: int,
    sort: seq<string>,
    preset: string,
    profile: string,
    query: Option<QueryQuery>,
    filter: Filter?,
    facets: seq<Facet?>)

  class Query {
    var fields: Option<QueryFields>
    var limit: int
    var offset: int
    var sort: seq<string>
    var preset: string
    var profile: string
    var query: Option<QueryQuery>
    var filter: Filter?
    var facets: seq<Facet?>

    /** The query's fields, for stating what a method changes. */
    ghost function State(): QueryState
      reads this
    {
      QueryState(fields, limit, offset, sort, preset, profile, query, filter, facets)
    }

    /** NewQuery: no sub-records, no filter, no sort tokens, no facets,
        zero paging and empty preset and profile. */
    constructor ()
      ensures State() == QueryState(None, 0, 0, [], "", "", None, null, [])
    {
      fields := None;
      limit := 0;
      offset := 0;
      sort := [];
      preset := "";
      profile := "";
      query := None;
      filter := null;
      facets := [];
    }

    /** Creates the field selection if there is none; each list replaces the
        previous one only when it is non-empty. */
    method SetFields(included: seq<string>, excluded: seq<string>)
      modifies this
      ensures fields.Some?
      ensures var before := old(fields).GetOr(QueryFields([], []));
              fields.value.included == (if included != [] then included else before.included)
              && fields.value.excluded == (if excluded != [] then excluded else before.excluded)
      ensures State() == old(State()).(fields := fields)
    {
      var current := if fields.Some? then fields.value else QueryFields([], []);
      if |included| != 0 {
        current := current.(included := included);
      }
      if |excluded| != 0 {
        current := current.(excluded := excluded);
      }
      fields := Some(current);
    }

    /** The same as `SetLimit(limit)` followed by `SetOffset(offset)`. */
    method SetRange(limit: int, offset: int)
      modifies this
      ensures State() == old(State()).(limit := limit).(offset := offset)
    {
      SetLimit(limit);
      SetOffset(offset);
    }

    method SetLimit(limit: int)
      modifies this
      ensures State() == old(State()).(limit := limit)
    {
      this.limit := limit;
    }

    method SetOffset(offset: int)
      modifies this
      ensures State() == old(State()).(offset := offset)
    {
      this.offset := offset;
    }

    method SetPreset(preset: string)
      modifies this
      ensures State() == old(State()).(preset := preset)
    {
      this.preset := preset;
    }

    method SetProfile(profile: string)
      modifies this
      ensures State() == old(State()).(profile := profile)
    {
      this.profile := profile;
    }

    /** Appends one `field:direction` token after the earlier ones. */
    method AddSort(field: string, direction: string)
      modifies this
      ensures State() == old(State()).(sort := old(sort) + [SortTokens.SortToken(field, direction)])
    {
      sort := sort + [field + ":" + direction];
    }

    /** Creates the search if there is none and always sets its value; the
        fields are replaced only by a non-empty list and the operator only
        by a non-empty one. */
    method SetQuery(query: string, fields: seq<string>, operator: string)
      modifies this
      ensures this.query.Some? && this.query.value.value == query
      ensures var before := old(this.query).GetOr(QueryQuery([], "", ""));
              this.query.value.fields == (if fields != [] then fields else before.fields)
              && this.query.value.operator == (if operator != "" then operator else before.operator)
      ensures State() == old(State()).(query := this.query)
    {
      var current := if this.query.Some? then this.query.value else QueryQuery([], "", "");
      if |fields| != 0 {
        current := current.(fields := fields);
      }
      if operator != "" {
        current := current.(operator := operator);
      }
      current := current.(value := query);
      this.query := Some(current);
    }

    /** Stores the flattened `filter`; nothing else changes, the argument
        included. */
    method SetFilter(filter: Filter)
      modifies this
      ensures State() == old(State()).(filter := filter.Flatten())
      ensures unchanged(filter)
    {
      this.filter := filter.Flatten();
    }

    /** Appends `facet` after the earlier facets. A nil facet is appended
        like any other. */
    method AddFacet(facet: Facet?)
      modifies this
      ensures State() == old(State()).(facets := old(facets) + [facet])
    {
      facets := facets + [facet];
    }
  }
}
