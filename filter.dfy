/** The filter tree of a query (filter.go): a node is a leaf condition on a
    field, or a composite whose ordered conditions are themselves filters.
    Nodes are heap objects, as the source's `*Filter` pointers are, so a node
    may be shared or reached again from its own conditions. */
module Filters {
  import opened Values

  /** All fields of one filter node at once. */
  datatype FilterNode = FilterNode(
    operator: string,
    negate: bool,
    conditions: seq<Filter>,
    field: string,
    value: Value)

  class Filter {
    var operator: string
    var negate: bool
    var conditions: seq<Filter>
    var field: string
    var value: Value

    /** The node's fields, for stating what a method changes. */
    ghost function State(): FilterNode
      reads this
    {
      FilterNode(operator, negate, conditions, field, value)
    }

    /** NewFilter: every field at its zero value. */
    constructor ()
      ensures State() == FilterNode("", false, [], "", Nil)
    {
      operator := "";
      negate := false;
      conditions := [];
      field := "";
      value := Nil;
    }

    /** An empty operator leaves the current one in place. */
    method SetOperator(operator: string)
      modifies this
      ensures operator != "" ==> State() == old(State()).(operator := operator)
      ensures operator == "" ==> State() == old(State())
    {
      if operator != "" {
        this.operator := operator;
      }
    }

    method SetNegate(negate: bool)
      modifies this
      ensures State() == old(State()).(negate := negate)
    {
      this.negate := negate;
    }

    method SetField(field: string)
      modifies this
      ensures State() == old(State()).(field := field)
    {
      this.field := field;
    }

    method SetValue(value: Value)
      modifies this
      ensures State() == old(State()).(value := value)
    {
      this.value := value;
    }

    /** Appends one new leaf built from the arguments. The leaf's operator is
        `operator` in every case: an empty one leaves the new node's empty
        operator as it was. */
    method AddCondition(field: string, value: Value, operator: string, negate: bool)
      modifies this
      ensures |conditions| == |old(conditions)| + 1
      ensures conditions[..|old(conditions)|] == old(conditions)
      ensures fresh(conditions[|old(conditions)|])
      ensures conditions[|old(conditions)|].State() == FilterNode(operator, negate, [], field, value)
      ensures State() == old(State()).(conditions := conditions)
    {
      var filter := new Filter();
      filter.SetField(field);
      filter.SetValue(value);
      filter.SetOperator(operator);
      filter.SetNegate(negate);
      AddFilter(filter);
    }

    /** Appends the flattened `filter` to the conditions; the argument itself
        is left as it was. The stored node has exactly one condition only if
        one of the argument's own conditions had, or if it is the receiver
        itself (a node added to itself). */
    method AddFilter(filter: Filter)
      modifies this
      ensures conditions == old(conditions) + [old(filter.Flatten())]
      ensures State() == old(State()).(conditions := conditions)
      ensures filter != this ==> unchanged(filter)
      ensures old(NoSingleConditionChild(filter)) && old(filter.Flatten()) != this
              ==> |conditions[|conditions| - 1].conditions| != 1
    {
      conditions := conditions + [filter.Flatten()];
    }

    /** The sole condition of a node with exactly one condition, and the node
        itself otherwise. Only the number of conditions decides: the node's
        own operator, negation, field and value are not looked at, so a
        negated wrapper around one condition flattens to that condition. */
    function Flatten(): (r: Filter)
      reads this
      ensures |conditions| == 1 ==> r == conditions[0]
      ensures |conditions| != 1 ==> r == this
    {
      if |conditions| == 1 then conditions[0] else this
    }
  }

  /** None of `f`'s own conditions has exactly one condition. */
  ghost predicate NoSingleConditionChild(f: Filter)
    reads f, f.conditions
  {
    forall i :: 0 <= i < |f.conditions| ==> |f.conditions[i].conditions| != 1
  }

  /** Flattening twice gives what flattening once gives, except when the
      sole condition again has a sole condition other than itself: the
      collapse goes one level deep. */
  lemma FlattenIdempotence(f: Filter)
    ensures f.Flatten().Flatten() == f.Flatten()
            <==> !(|f.conditions| == 1
                   && |f.conditions[0].conditions| == 1
                   && f.conditions[0].conditions[0] != f.conditions[0])
  {
  }

  /** `S` holds the conditions of each of its nodes, and none of those
      conditions has exactly one condition of its own. */
  ghost predicate Settled(S: set<Filter>)
    reads S
  {
    forall g, i :: g in S && 0 <= i < |g.conditions| ==>
      g.conditions[i] in S && |g.conditions[i].conditions| != 1
  }

  /** No node of `S` holds `f` among its conditions. */
  ghost predicate Unreferenced(f: Filter, S: set<Filter>)
    reads S
  {
    forall g, i :: g in S && 0 <= i < |g.conditions| ==> g.conditions[i] != f
  }

  /** Within a settled set, flattening stays in the set, yields a node that
      does not have exactly one condition, and does nothing when repeated. */
  lemma FlattenWithinSettled(S: set<Filter>, f: Filter)
    requires Settled(S) && f in S
    ensures f.Flatten() in S
    ensures |f.Flatten().conditions| != 1
    ensures f.Flatten().Flatten() == f.Flatten()
  {
  }

  /** Attaching a node `s` that does not have exactly one condition, taken
      from a settled set `B`, to a root `f` of a settled set `A`, keeps the
      union settled and `f` a root, provided nothing else in `A` changed and
      `f` is not part of `B` (so the attachment cannot change the attached
      tree). This is what `AddFilter` and `AddCondition` do to a tree built
      with them alone. */
  twostate lemma AttachKeepsSettled(f: Filter, new s: Filter, new A: set<Filter>, new B: set<Filter>)
    requires old(allocated(A)) && old(Settled(A)) && f in A && old(Unreferenced(f, A))
    requires forall g :: g in A && g != f ==> unchanged(g)
    requires Settled(B) && f !in B && Unreferenced(f, B)
    requires f.conditions == old(f.conditions) + [s]
    requires s in B && |s.conditions| != 1
    ensures Settled(A + B) && Unreferenced(f, A + B)
  {
    forall g, i | g in A + B && 0 <= i < |g.conditions|
      ensures g.conditions[i] in A + B
      ensures g.conditions[i] != f
      ensures |g.conditions[i].conditions| != 1
    {
      if g in B {
      } else if g == f && i == |old(f.conditions)| {
        assert g.conditions[i] == s;
      } else {
        var c := g.conditions[i];
        assert c == old(g.conditions[i]);
        assert c in A && c != f;
        assert old(|c.conditions|) != 1;
        assert unchanged(c);
      }
    }
  }
}
