# ReliefWeb API client: request builder

A Dafny model of the request-builder layer of the Go client for the ReliefWeb
API. A caller builds a query payload piece by piece. The payload holds field
selection, paging, sort tokens, a full text search, a filter tree and facet
(aggregation) requests.

- `values.dfy` (module `Values`): the values a filter may compare with. Go
  types these as `interface{}`. Here they are a single scalar, a list of
  scalars, or a range whose two ends may be unset. `Nil` is the zero
  interface.
- `sort.dfy` (module `SortTokens`): the `field:direction` token built by
  `Facet.SetSort` and `Query.AddSort`. It comes with a split at the first
  colon, which shows that the token determines its field and direction.
- `filter.dfy` (module `Filters`): the class `Filter`, one node of the filter
  tree, from filter.go. Nodes are heap objects, like the Go `*Filter`
  pointers. `Conditions` is a `seq<Filter>` of references, so a node can be
  shared, or edited after it was attached, exactly as in Go. `Flatten` returns
  an existing reference. The module also defines a settled set of nodes:
  every node's conditions are in the set, and none of them has exactly one
  condition. A two-state lemma shows that attaching keeps a tree settled.
- `facet.dfy` (module `Facets`): the class `Facet`, from facet.go.
- `query.dfy` (module `Queries`): the class `Query`, from query.go. The
  lazily allocated `*QueryFields` and `*QueryQuery` sub-structs are `Option`
  values. `None` stands for the nil pointer.
- `scenarios.dfy` (module `Scenarios`): short client programs built only from
  the builder's operations. Each pins down one behaviour a caller relies on:
  sort order, search-field retention, facet-filter independence, the lost
  negation, self-insertion, a late edit, attaching to a settled tree, and
  building a settled tree.

Each class has a ghost `State()` that returns all of its fields as one
datatype value. Every setter states its whole new state as
`old(State())` with only its own field updated. That is how "nothing else
changes" is expressed.

In these places the code does something a reader might not expect, and the model follows the code:

- Flattening looks only at the number of conditions. A single-condition node
  collapses to its condition even when the node has its own field, value or
  negation. So a negated wrapper loses its negation
  (`Scenarios.NegatedWrapperLosesNegation`).
- Flattening collapses one level only. It is not idempotent in general
  (`Filters.FlattenIdempotence`, `Scenarios.LateEditBreaksIdempotence`). It
  is idempotent inside a settled set (`Filters.FlattenWithinSettled`).
- `SetFields` and `SetQuery` keep the previous list when given an empty one.
  `SetQuery` keeps the previous operator when given `""`. No call of the
  builder can clear a search operator once it is set.
- No operation validates anything. The doc comments call the facet field
  mandatory (facet.go:26) and call limit and interval incompatible
  (facet.go:31, facet.go:37), yet an empty field and a facet with both are
  accepted (`Scenarios.LimitAndIntervalTogether`). A node with both a field
  and conditions is accepted too.

## Model

| member | source | states |
|---|---|---|
| `Filters.Filter.constructor` | filter.go:19-22 | a new filter has empty operator, field and conditions, no negation and no value |
| `Filters.Filter.SetOperator` | filter.go:24-30 | a non-empty operator replaces the current one; an empty one leaves the whole node unchanged |
| `Filters.Filter.SetNegate` | filter.go:32-35 | sets the negation and changes no other field |
| `Filters.Filter.SetField` | filter.go:37-40 | sets the field and changes no other field |
| `Filters.Filter.SetValue` | filter.go:42-48 | sets the value (scalar, list or range) and changes no other field |
| `Filters.Filter.AddCondition` | filter.go:50-58 | appends exactly one fresh leaf after the kept earlier conditions; the leaf has the given field, value, operator and negation and no conditions; nothing else changes |
| `Filters.Filter.AddFilter` | filter.go:60-68 | the new conditions are the old ones plus the argument's flattening; the argument is untouched unless it is the receiver; the stored node has one condition only if one of the argument's conditions had, or if it is the receiver |
| `Filters.Filter.Flatten` | filter.go:70-77 | reads only the node; returns the sole condition when there is exactly one, and the node itself otherwise (a leaf, or two or more conditions); no other field decides |
| `Filters.FlattenIdempotence` | filter.go:72-77 | flattening twice equals flattening once exactly when the node does not have a sole condition whose own sole condition is another node |
| `Filters.FlattenWithinSettled` | filter.go:72-77 | inside a settled set, flattening stays in the set, yields a node that does not have exactly one condition, and is idempotent |
| `Filters.AttachKeepsSettled` | filter.go:61-68 | appending a node that does not have exactly one condition, taken from a settled set that does not hold the root, to a root of a settled set keeps the union settled and the root unreferenced |
| `Facets.Facet.constructor` | facet.go:14-17 | a new facet has every field empty, zero or nil |
| `Facets.Facet.SetName` | facet.go:19-23 | sets the name and changes no other field |
| `Facets.Facet.SetField` | facet.go:25-28 | sets the field and changes no other field |
| `Facets.Facet.SetLimit` | facet.go:30-34 | sets the limit and keeps the interval and every other field |
| `Facets.Facet.SetInterval` | facet.go:36-40 | sets the interval and keeps the limit and every other field |
| `Facets.Facet.SetSort` | facet.go:42-47 | replaces the sort with the single token `field:direction` |
| `Facets.Facet.SetScope` | facet.go:49-57 | sets the scope and changes no other field |
| `Facets.Facet.SetFilter` | facet.go:59-63 | stores the argument's flattening, changes no other facet field, and leaves the argument untouched |
| `SortTokens.SortToken` | facet.go:45-47 | the token is the field, one colon, then the direction |
| `SortTokens.SortTokenRoundTrip` | query.go:74-79 | a token built from a field with no colon splits back into that field and direction |
| `SortTokens.SplitSortRebuilds` | query.go:74-79 | every token with a colon is rebuilt by its split, whose field has no colon |
| `Queries.Query.constructor` | query.go:29-32 | a new query has no field selection, search or filter, no sort tokens or facets, zero limit and offset, and empty preset and profile |
| `Queries.Query.SetFields` | query.go:34-45 | afterwards the field selection exists; each list becomes the argument when the argument is non-empty and keeps its previous value (empty when there was none) otherwise; nothing else changes |
| `Queries.Query.SetRange` | query.go:47-51 | sets limit and offset, as `SetLimit` followed by `SetOffset`; nothing else changes |
| `Queries.Query.SetLimit` | query.go:53-56 | sets the limit and changes no other field |
| `Queries.Query.SetOffset` | query.go:58-61 | sets the offset and changes no other field |
| `Queries.Query.SetPreset` | query.go:63-66 | sets the preset and changes no other field |
| `Queries.Query.SetProfile` | query.go:68-71 | sets the profile and changes no other field |
| `Queries.Query.AddSort` | query.go:73-79 | appends exactly one `field:direction` token after the earlier ones |
| `Queries.Query.SetQuery` | query.go:81-93 | afterwards the search exists and has the given value; its fields change only for a non-empty list and its operator only for a non-empty operator |
| `Queries.Query.SetFilter` | query.go:95-98 | stores the argument's flattening, changes no other query field, and leaves the argument untouched |
| `Queries.Query.AddFacet` | query.go:100-106 | appends the facet (nil included) after the earlier facets |
| `Scenarios.SortTokensInCallOrder` | query.go:74-79 | two `AddSort` calls give `["date:desc", "title:asc"]`, in call order |
| `Scenarios.FacetSortReplaced` | facet.go:45-47 | a second `SetSort` replaces the first token |
| `Scenarios.SearchKeepsFieldsAndOperator` | query.go:82-93 | `SetQuery("flood", ["title","body"], "AND")` then `SetQuery("flood2", [], "")` keeps the fields and the operator and takes the new value |
| `Scenarios.FieldSelectionKept` | query.go:35-45 | each field-selection list survives a later call that passes it empty |
| `Scenarios.LimitAndIntervalTogether` | facet.go:30-40 | a facet can hold a limit and an interval at once |
| `Scenarios.FacetFilterIndependentOfQuery` | facet.go:59-63 | a single-condition composite set as a facet filter is stored as its condition; the query's filter and the composite stay as they were |
| `Scenarios.NegatedWrapperLosesNegation` | filter.go:72-77 | a negated wrapper around one non-negated condition reaches the query as that non-negated condition |
| `Scenarios.LateEditBreaksIdempotence` | filter.go:61-77 | a child given a condition after it was added leaves a parent on which flattening is not idempotent |
| `Scenarios.SelfInsertion` | filter.go:61-68 | a node added to itself becomes its own sole condition |
| `Scenarios.AddSettledFilter` | filter.go:61-68 | `AddFilter` on the root of a settled set, with a child from a settled set that does not hold the root, keeps the union settled |
| `Scenarios.AddSettledCondition` | filter.go:50-58 | `AddCondition` on the root of a settled set appends one leaf with the given field, value, operator and negation, and the set with that leaf added stays settled |
| `Scenarios.BuildSettledTree` | filter.go:50-68 | a tree built with `AddCondition` and `AddFilter`, with a single-condition composite attached, is settled and stores the composite's condition in its place |

## Left out

- client.go is not part of this model. It covers the HTTP transport: timeout, POST, reading the body, the status check, error formatting, and building the URL next to the network call.
- result.go is not part of this model. It holds only type declarations, and decoding them is done by `encoding/json`. Scores are floating point.
- JSON serialisation and `omitempty` are library behaviour, so no wire output is modelled. A consequence: the model does not show that the search value reaches the wire. `QueryQuery.Value` (query.go:12) carries the same JSON key `fields` as `Fields` (query.go:11).
- Go's difference between a nil and an empty slice (the lazy `[]T{}` allocations at filter.go:62-64, query.go:75-77 and query.go:102-104) is not visible in the payload, because every slice involved is tagged `omitempty` (filter.go:14, query.go:21, query.go:26) and both are omitted. It shows only to code that compares the exported field with nil. Both are the empty sequence here.
- Numbers in filter values are integers. Floats are not modelled, and neither are values of other Go types that `interface{}` would accept.
- `int` fields (`Limit`, `Offset`, facet `Limit`) are unbounded. The builder only stores them and does no arithmetic, so 64-bit width never matters.
- A nil argument to `Filter.AddFilter`, `Facet.SetFilter` or `Query.SetFilter` panics in Go, because `Flatten` dereferences it. Those parameters are non-null here. `Query.AddFacet` accepts nil, as Go does.
- The sub-structs `QueryFields` and `QueryQuery` are values, not pointers. The API allocates them internally and never hands them out. Code that reaches into the exported pointer fields directly is not modelled.
- Queries.Query.SetFields, Queries.Query.SetQuery, Filters.Filter.SetValue and Filters.Filter.AddCondition: the Go code stores the caller's slice (query.go:40, query.go:43, query.go:87), or whatever the `interface{}` value refers to (filter.go:47, filter.go:54), by reference. A later write by the caller into that slice, such as `include[0] = "x"`, changes the payload. The model stores `seq` and `Value` values, so it does not capture this aliasing.
- `Conditions` holds non-null references. Only direct assignment to the exported field could put a nil there, because `AddFilter(nil)` panics.
- Concurrency: the builders have none.
