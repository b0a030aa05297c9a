/** The `field:direction` token that both `Facet.SetSort` and `Query.AddSort`
    build, with a split at the first colon that shows the token determines
    its field and direction. */
module SortTokens {

  /** The sort token for `field` in `direction`: the field, one colon, then
      the direction. */
  function SortToken(field: string, direction: string): (token: string)
    ensures |token| == |field| + 1 + |direction|
    ensures token[..|field|] == field && token[|field|] == ':'
    ensures token[|field| + 1..] == direction
  {
    field + ":" + direction
  }

  /** The position of the first colon of `s`, or `|s|` when there is none. */
  function ColonIndex(s: string): (i: nat)
    ensures i <= |s|
    ensures i < |s| ==> s[i] == ':'
    ensures forall k :: 0 <= k < i ==> s[k] != ':'
  {
    if s == [] then 0
    else if s[0] == ':' then 0
    else 1 + ColonIndex(s[1..])
  }

  /** Reads a token back as (field, direction), cutting at the first colon;
      a token without a colon is all field. */
  function SplitSort(token: string): (string, string)
  {
    var i := ColonIndex(token);
    if i < |token| then (token[..i], token[i + 1..]) else (token, "")
  }

  /** A token built from a field without a colon reads back as the field and
      the direction it was built from, whatever the direction holds. */
  lemma SortTokenRoundTrip(field: string, direction: string)
    requires ':' !in field
    ensures SplitSort(SortToken(field, direction)) == (field, direction)
  {
  }

  /** Conversely, every token with a colon is the sort token of its split,
      and the split's field holds no colon. */
  lemma SplitSortRebuilds(token: string)
    requires ':' in token
    ensures ':' !in SplitSort(token).0
    ensures SortToken(SplitSort(token).0, SplitSort(token).1) == token
  {
  }
}
