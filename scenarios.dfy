/** Short client programs built only from the builder's operations, each
    pinning down one behaviour a caller of the builder relies on. */
module Scenarios {
  import opened Values
  import opened Filters
  import opened Facets
  import opened Queries
  import SortTokens

  /** Sort tokens accumulate in call order. */
  method SortTokensInCallOrder() returns (sort: seq<string>)
    ensures sort == ["date:desc", "title:asc"]
  {
    var q := new Query();
    q.AddSort("date", "desc");
    q.AddSort("title", "asc");
    sort := q.sort;
    assert sort == [SortTokens.SortToken("date", "desc"), SortTokens.SortToken("title", "asc")];
    assert SortTokens.SortToken("date", "desc") == "date:desc";
    assert SortTokens.SortToken("title", "asc") == "title:asc";
  }

  /** A facet sort is replaced by the next one instead of accumulating. */
  method FacetSortReplaced() returns (sort: string)
    ensures sort == "value:asc"
  {
    var facet := new Facet();
    facet.SetSort("count", "desc");
    facet.SetSort("value", "asc");
    sort := facet.sort;
  }

  /** A later search with no fields and no operator keeps the earlier fields
      and operator and takes the new value. */
  method SearchKeepsFieldsAndOperator() returns (search: QueryQuery)
    ensures search == QueryQuery(["title", "body"], "flood2", "AND")
  {
    var q := new Query();
    q.SetQuery("flood", ["title", "body"], "AND");
    q.SetQuery("flood2", [], "");
    search := q.query.value;
  }

  /** Each field selection list survives a later call that leaves it empty. */
  method FieldSelectionKept() returns (fields: QueryFields)
    ensures fields == QueryFields(["title"], ["body"])
  {
    var q := new Query();
    q.SetFields(["title"], []);
    q.SetFields([], ["body"]);
    fields := q.fields.value;
  }

  /** A facet may carry both a limit and an interval. */
  method LimitAndIntervalTogether() returns (facet: Facet)
    ensures facet.limit == 10 && facet.interval == "year"
  {
    facet := new Facet();
    facet.SetLimit(10);
    facet.SetInterval("year");
  }

  /** Setting a facet's filter to a single-condition composite stores the
      condition itself, and leaves the query's own filter and the composite
      as they were. */
  method FacetFilterIndependentOfQuery()
    returns (q: Query, facet: Facet, main: Filter, composite: Filter)
    ensures q.filter == main && q.facets == [facet]
    ensures |composite.conditions| == 1 && composite.operator == "AND"
    ensures facet.filter == composite.conditions[0]
    ensures facet.filter.State() == FilterNode("", false, [], "status", Single(Text("current")))
  {
    q := new Query();
    main := new Filter();
    main.SetField("country");
    main.SetValue(Single(Text("Chad")));
    q.SetFilter(main);
    composite := new Filter();
    composite.SetOperator("AND");
    composite.AddCondition("status", Single(Text("current")), "", false);
    facet := new Facet();
    facet.SetField("source");
    facet.SetFilter(composite);
    q.AddFacet(facet);
  }

  /** A negated wrapper around one condition loses its negation when it is
      attached: the query stores the non-negated condition. */
  method NegatedWrapperLosesNegation() returns (q: Query, wrapper: Filter)
    ensures wrapper.negate && |wrapper.conditions| == 1
    ensures q.filter == wrapper.conditions[0] && !q.filter.negate
  {
    wrapper := new Filter();
    wrapper.SetNegate(true);
    wrapper.AddCondition("status", Single(Text("archived")), "", false);
    q := new Query();
    q.SetFilter(wrapper);
  }

  /** A child given a condition after it was added leaves its parent with a
      sole child that has a sole condition, where flattening is no longer
      idempotent. */
  method LateEditBreaksIdempotence() returns (outer: Filter)
    ensures outer.Flatten().Flatten() != outer.Flatten()
  {
    outer := new Filter();
    var inner := new Filter();
    outer.AddFilter(inner);
    inner.AddCondition("theme", Single(Text("Health")), "", false);
  }

  /** A node added to itself becomes its own sole condition. */
  method SelfInsertion() returns (f: Filter)
    ensures f.conditions == [f] && f.Flatten() == f
  {
    f := new Filter();
    f.AddFilter(f);
  }

  /** `AddFilter` on the root of a settled set, with a child taken from
      another settled set that does not hold the root, leaves the union
      settled. */
  method AddSettledFilter(root: Filter, child: Filter, ghost A: set<Filter>, ghost B: set<Filter>)
    requires Settled(A) && root in A && Unreferenced(root, A)
    requires Settled(B) && child in B && root !in B && Unreferenced(root, B)
    modifies root
    ensures Settled(A + B) && Unreferenced(root, A + B)
    ensures root.conditions == old(root.conditions) + [old(child.Flatten())]
  {
    FlattenWithinSettled(B, child);
    ghost var stored := child.Flatten();
    root.AddFilter(child);
    AttachKeepsSettled(root, stored, A, B);
  }

  /** `AddCondition` on the root of a settled set leaves the set with the
      new leaf added settled. */
  method AddSettledCondition(root: Filter, ghost A: set<Filter>,
                             field: string, value: Value, operator: string, negate: bool)
    returns (ghost leaf: Filter)
    requires Settled(A) && root in A && Unreferenced(root, A)
    modifies root
    ensures Settled(A + {leaf}) && Unreferenced(root, A + {leaf})
    ensures root.conditions == old(root.conditions) + [leaf]
    ensures leaf.State() == FilterNode(operator, negate, [], field, value)
  {
    label before:
    root.AddCondition(field, value, operator, negate);
    leaf := root.conditions[|root.conditions| - 1];
    AttachKeepsSettled@before(root, leaf, A, {leaf});
  }

  /** A tree built with `AddCondition` and `AddFilter` alone, here with a
      single-condition composite attached, is settled: no stored node has
      exactly one condition. */
  method BuildSettledTree() returns (root: Filter, sub: Filter, ghost nodes: set<Filter>)
    ensures root in nodes && Settled(nodes)
    ensures |root.conditions| == 2 && |sub.conditions| == 1
    ensures root.conditions[1] == sub.conditions[0]
  {
    root := new Filter();
    root.SetOperator("AND");
    label empty:
    root.AddCondition("country", Single(Text("Chad")), "", false);
    var leaf := root.conditions[0];
    AttachKeepsSettled@empty(root, leaf, {root}, {leaf});
    nodes := {root, leaf};

    sub := new Filter();
    sub.SetOperator("OR");
    sub.AddCondition("theme", Single(Text("Health")), "", false);
    var subLeaf := sub.conditions[0];
    assert Settled({sub, subLeaf});
    AddSettledFilter(root, sub, nodes, {sub, subLeaf});
    nodes := nodes + {sub, subLeaf};
  }
}
