/** The two translations of the CRUD contract's query parameters into GraphQL arguments
    (index.ts:13-53): filter clauses become a `where` object, the first sorter becomes an
    `orderBy` enum token. */
module Translate {
  import opened Js
  import opened Names

  /** The operator of a field clause: any CRUD operator other than the two logical ones. */
  type FieldOperator = s: string | s != "or" && s != "and" witness "eq"

  /** The operator of a logical group. */
  type LogicOperator = s: string | s == "or" || s == "and" witness "or"

  /** A CRUD filter clause: a comparison on one field, or a logical group of clauses with
      the optional `key` refine lets a group carry. */
  datatype Clause =
    | Field(field: string, op: FieldOperator, value: Json)
    | Group(logic: LogicOperator, clauses: seq<Clause>, key: Option<string>)

  /** The clause as the JavaScript object the caller passed in; a group without a key has
      no `key` property. */
  function ClauseJson(c: Clause): Json {
    match c
    case Field(f, op, v) => Obj(map["field" := Str(f), "operator" := Str(op), "value" := v])
    case Group(logic, cs, key) =>
      var props := map["operator" := Str(logic),
                       "value" := Arr(seq(|cs|, i requires 0 <= i < |cs| => ClauseJson(cs[i])))];
      match key
      case None => Obj(props)
      case Some(k) => Obj(props["key" := Str(k)])
  }

  /** The argument name a top-level clause writes: the bare field for `eq`, `field_op` for
      any other operator, and `_or` for either kind of logical group. */
  function ClauseKey(c: Clause): string {
    match c
    case Field(f, op, _) => if op == "eq" then f else f + "_" + op
    case Group(_, _, _) => "_or"
  }

  /** The argument name a member of a group writes: always `field_op`, with no exception
      for `eq`. A nested group has no `field`, which JavaScript renders as "undefined". */
  function MemberKey(c: Clause): string {
    match c
    case Field(f, op, _) => f + "_" + op
    case Group(logic, _, _) => "undefined_" + logic
  }

  /** The value a member of a group carries: its `value` property, which for a nested group
      is the list of its raw sub-clause objects. */
  function MemberValue(c: Clause): Json {
    match c
    case Field(_, _, v) => v
    case Group(_, cs, _) => Arr(seq(|cs|, i requires 0 <= i < |cs| => ClauseJson(cs[i])))
  }

  /** The single-key object a member of a group contributes to the `_or` list. */
  function OrEntry(c: Clause): Json {
    Obj(map[MemberKey(c) := MemberValue(c)])
  }

  /** The `_or` list after pushing the entries of `cs` one by one. */
  function OrList(cs: seq<Clause>): seq<Json> {
    if cs == [] then [] else OrList(cs[..|cs| - 1]) + [OrEntry(cs[|cs| - 1])]
  }

  /** The value a top-level clause writes under its key. */
  function ClauseValue(c: Clause): Json {
    match c
    case Field(_, _, v) => v
    case Group(_, members, _) => Arr(OrList(members))
  }

  /** The argument object after assigning the clauses of `cs` one by one. */
  function Fold(cs: seq<Clause>): map<string, Json> {
    if cs == [] then map[]
    else Fold(cs[..|cs| - 1])[ClauseKey(cs[|cs| - 1]) := ClauseValue(cs[|cs| - 1])]
  }

  /** The filter object for possibly absent filters. */
  function Filter(filters: Option<seq<Clause>>): map<string, Json> {
    match filters
    case None => map[]
    case Some(cs) => Fold(cs)
  }

  /** `generateFilter` (index.ts:20-53): a dictionary assigned to clause by clause, with an
      inner loop that pushes one entry per member of a logical group. */
  method GenerateFilter(filters: Option<seq<Clause>>) returns (queryFilters: map<string, Json>)
    ensures queryFilters == Filter(filters)
    ensures filters.None? || filters == Some([]) ==> queryFilters == map[]
  {
    queryFilters := map[];
    if filters.Some? {
      var cs := filters.value;
      for i := 0 to |cs|
        invariant queryFilters == Fold(cs[..i])
      {
        var filter := cs[i];
        if filter.Field? && filter.op != "or" && filter.op != "and" {
          if filter.op == "eq" {
            queryFilters := queryFilters[filter.field := filter.value];
          } else {
            queryFilters := queryFilters[filter.field + "_" + filter.op := filter.value];
          }
        } else {
          var members := filter.clauses;
          var orFilters: seq<Json> := [];
          for j := 0 to |members|
            invariant orFilters == OrList(members[..j])
          {
            var val := members[j];
            orFilters := orFilters + [Obj(map[MemberKey(val) := MemberValue(val)])];
            assert members[..j + 1][..j] == members[..j];
          }
          assert members[..|members|] == members;
          queryFilters := queryFilters["_or" := Arr(orFilters)];
        }
        assert cs[..i + 1][..i] == cs[..i];
      }
      assert cs[..|cs|] == cs;
    }
  }

  /** No clause after the one at `i` writes the same key. */
  ghost predicate LastFor(cs: seq<Clause>, i: int)
    requires 0 <= i < |cs|
  {
    forall j :: i < j < |cs| ==> ClauseKey(cs[j]) != ClauseKey(cs[i])
  }

  /** Every clause's key is in the filter object. */
  lemma {:induction false} FoldHasKeys(cs: seq<Clause>)
    ensures forall i :: 0 <= i < |cs| ==> ClauseKey(cs[i]) in Fold(cs)
  {
    if cs != [] {
      var n := |cs| - 1;
      var p := cs[..n];
      FoldHasKeys(p);
      assert Fold(cs) == Fold(p)[ClauseKey(cs[n]) := ClauseValue(cs[n])];
      forall i | 0 <= i < n ensures ClauseKey(cs[i]) in Fold(cs) {
        assert p[i] == cs[i];
      }
    }
  }

  /** Every key of the filter object was written by some clause. */
  lemma {:induction false} FoldKeysFromClauses(cs: seq<Clause>)
    ensures forall k :: k in Fold(cs) ==> exists i :: 0 <= i < |cs| && ClauseKey(cs[i]) == k
  {
    if cs != [] {
      var n := |cs| - 1;
      var p := cs[..n];
      FoldKeysFromClauses(p);
      assert Fold(cs) == Fold(p)[ClauseKey(cs[n]) := ClauseValue(cs[n])];
      forall k | k in Fold(cs) ensures exists i :: 0 <= i < |cs| && ClauseKey(cs[i]) == k {
        if k != ClauseKey(cs[n]) {
          var i :| 0 <= i < n && ClauseKey(p[i]) == k;
          assert p[i] == cs[i];
        }
      }
    }
  }

  /** Each key holds the value written by the last clause that writes it: later clauses
      overwrite earlier ones. */
  lemma {:induction false} FoldLastWins(cs: seq<Clause>)
    ensures forall i :: 0 <= i < |cs| && LastFor(cs, i) ==>
              ClauseKey(cs[i]) in Fold(cs) && Fold(cs)[ClauseKey(cs[i])] == ClauseValue(cs[i])
  {
    FoldHasKeys(cs);
    if cs != [] {
      var n := |cs| - 1;
      var p := cs[..n];
      FoldLastWins(p);
      FoldHasKeys(p);
      assert Fold(cs) == Fold(p)[ClauseKey(cs[n]) := ClauseValue(cs[n])];
      forall i | 0 <= i < |cs| && LastFor(cs, i)
        ensures ClauseKey(cs[i]) in Fold(cs) && Fold(cs)[ClauseKey(cs[i])] == ClauseValue(cs[i])
      {
        if i < n {
          assert p[i] == cs[i];
          assert ClauseKey(cs[n]) != ClauseKey(cs[i]);
          assert LastFor(p, i) by {
            forall j | i < j < n ensures ClauseKey(p[j]) != ClauseKey(p[i]) {
              assert p[j] == cs[j];
            }
          }
        }
      }
    }
  }

  /** A top-level clause on a field writes its value under the bare field name when the
      operator is `eq` and under `field_op` otherwise, unless a later clause overwrites it. */
  lemma FieldClauseEntry(cs: seq<Clause>, i: int)
    requires 0 <= i < |cs| && cs[i].Field? && LastFor(cs, i)
    ensures cs[i].op == "eq" ==> cs[i].field in Fold(cs) && Fold(cs)[cs[i].field] == cs[i].value
    ensures cs[i].op != "eq" ==>
      var key := cs[i].field + "_" + cs[i].op;
      key in Fold(cs) && Fold(cs)[key] == cs[i].value
  {
    FoldHasKeys(cs);
    FoldLastWins(cs);
  }

  /** The entries pushed for a group: one per member, in member order. */
  lemma {:induction false} OrListAt(members: seq<Clause>)
    ensures |OrList(members)| == |members|
    ensures forall m :: 0 <= m < |members| ==> OrList(members)[m] == OrEntry(members[m])
  {
    if members != [] {
      var p := members[..|members| - 1];
      OrListAt(p);
      assert forall m :: 0 <= m < |p| ==> p[m] == members[m];
    }
  }

  /** A logical group, `or` and `and` alike, writes `_or`: a list as long as the group, whose
      m-th element is the single-key object `{field_op: value}` of the m-th member, also
      when op is `eq`. A later group (or a clause on a field named `_or` with `eq`)
      overwrites it. */
  lemma GroupEntry(cs: seq<Clause>, i: int)
    requires 0 <= i < |cs| && cs[i].Group? && LastFor(cs, i)
    ensures "_or" in Fold(cs)
    ensures var members := cs[i].clauses;
      && Fold(cs)["_or"].Arr?
      && |Fold(cs)["_or"].items| == |members|
      && (forall m :: 0 <= m < |members| ==>
            Fold(cs)["_or"].items[m] == Obj(map[MemberKey(members[m]) := MemberValue(members[m])]))
      && (forall m :: 0 <= m < |members| && members[m].Field? ==>
            Fold(cs)["_or"].items[m] == Obj(map[members[m].field + "_" + members[m].op := members[m].value]))
  {
    FoldHasKeys(cs);
    FoldLastWins(cs);
    OrListAt(cs[i].clauses);
  }

  /** A group nested inside a group is not translated: its entry is keyed `undefined_or` or
      `undefined_and` and holds the sub-clauses as the caller wrote them: a field clause's
      field, operator and value, a deeper group's operator, sub-clauses and any `key`, and
      nothing else. */
  lemma NestedGroupEntry(g: Clause)
    requires g.Group?
    ensures MemberKey(g) == "undefined_" + g.logic
    ensures MemberValue(g).Arr? && |MemberValue(g).items| == |g.clauses|
    ensures forall s :: 0 <= s < |g.clauses| ==>
      var raw := MemberValue(g).items[s];
      && raw.Obj?
      && (g.clauses[s].Field? ==>
            raw.props == map["field" := Str(g.clauses[s].field), "operator" := Str(g.clauses[s].op),
                             "value" := g.clauses[s].value])
      && (g.clauses[s].Group? ==>
            && raw.props.Keys == {"operator", "value"} + (if g.clauses[s].key.Some? then {"key"} else {})
            && raw.props["operator"] == Str(g.clauses[s].logic)
            && raw.props["value"] == MemberValue(g.clauses[s])
            && (g.clauses[s].key.Some? ==> raw.props["key"] == Str(g.clauses[s].key.value)))
  {
  }

  /** With only `eq` clauses the filter object is keyed by the field names themselves, and
      each field holds the value of its last clause. */
  lemma EqOnlyFilter(cs: seq<Clause>)
    requires forall i :: 0 <= i < |cs| ==> cs[i].Field? && cs[i].op == "eq"
    ensures forall i :: 0 <= i < |cs| ==> cs[i].field in Fold(cs)
    ensures forall k :: k in Fold(cs) ==> exists i :: 0 <= i < |cs| && cs[i].field == k
    ensures forall i :: 0 <= i < |cs| && (forall j :: i < j < |cs| ==> cs[j].field != cs[i].field) ==>
              Fold(cs)[cs[i].field] == cs[i].value
  {
    FoldHasKeys(cs);
    FoldKeysFromClauses(cs);
    FoldLastWins(cs);
    assert forall i :: 0 <= i < |cs| ==> ClauseKey(cs[i]) == cs[i].field;
    forall i | 0 <= i < |cs| && (forall j :: i < j < |cs| ==> cs[j].field != cs[i].field)
      ensures Fold(cs)[cs[i].field] == cs[i].value
    {
      assert LastFor(cs, i);
    }
  }

  /** A CRUD sorter. */
  datatype Sorter = Sorter(field: string, order: string)

  /** `genereteSort` (index.ts:13-18): only the first sorter is used. */
  function GenerateSort(n: Naming, sorters: Option<seq<Sorter>>): (token: Option<string>)
    ensures token.None? <==> sorters.None? || sorters.value == []
    ensures token.Some? ==>
      token.value == n.pascalCase(sorters.value[0].field) + "_" + n.capitalCase(sorters.value[0].order)
  {
    match sorters
    case None => None
    case Some(s) =>
      if s == [] then None
      else Some(n.pascalCase(s[0].field) + "_" + n.capitalCase(s[0].order))
  }

  /** Sorters that agree on their first entry give the same token. */
  lemma SortUsesFirstOnly(n: Naming, s: seq<Sorter>, t: seq<Sorter>)
    requires s != [] && t != [] && s[0] == t[0]
    ensures GenerateSort(n, Some(s)) == GenerateSort(n, Some(t))
  {
  }

  /** Sorting by `createdAt` descending gives `CreatedAt_Desc`, whatever sorters follow. */
  lemma SortExample(n: Naming, rest: seq<Sorter>)
    requires n.pascalCase("createdAt") == "CreatedAt" && n.capitalCase("desc") == "Desc"
    ensures GenerateSort(n, Some([Sorter("createdAt", "desc")] + rest)) == Some("CreatedAt_Desc")
  {
    assert "CreatedAt" + "_" + "Desc" == "CreatedAt_Desc";
  }
}
