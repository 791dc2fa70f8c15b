/** The two builders of the request-log filter and the values they select
    (internal/store/records.go). */
module RequestFilters {
  import opened LikePattern
  import opened Text
  import opened Wrappers

  /** A row of the request log; None is SQL NULL. */
  datatype Row = Row(
    id: int,
    createdAt: int,
    accountID: Option<int>,
    outcome: string,
    responseMode: string,
    model: Option<string>,
    requestID: string,
    path: string,
    httpMethod: string,
    sessionKey: Option<string>,
    errorCode: Option<string>,
    clientIP: Option<string>)

  datatype Params = Params(
    start: Option<int>,
    end: Option<int>,
    accountID: Option<int>,
    accountIDs: seq<int>,
    outcome: Option<string>,
    outcomes: seq<string>,
    models: seq<string>,
    responseModes: seq<string>,
    search: Option<string>)

  /** The seven searched columns. */
  function Searched(r: Row): (columns: seq<Option<string>>)
    ensures |columns| == 7
  {
    [Some(r.requestID), Some(r.path), r.model, r.sessionKey, Some(r.httpMethod), r.errorCode, r.clientIP]
  }

  // ---------------------------------------------------------------- what the filter means

  /** The ids that count: positive ones. */
  predicate WantsAccount(p: Params, id: int) { id > 0 && id in p.accountIDs }

  /** The values that count: trimmed and not blank. */
  predicate Wants(values: seq<string>, v: string) {
    v != "" && exists i :: 0 <= i < |values| && Trim(values[i]) == v
  }

  ghost predicate Among(v: Option<string>, values: seq<string>) {
    (exists w :: Wants(values, w)) ==> v.Some? && Wants(values, v.value)
  }

  /** A search row has a searched column that contains the search, both in lower case. */
  ghost predicate Found(r: Row, search: string) {
    exists i :: 0 <= i < 7 && ContainsIn(Searched(r)[i], search)
  }

  ghost predicate ContainsIn(column: Option<string>, search: string) {
    column.Some? && Contains(Lower(column.value), Lower(Trim(search)))
  }

  /** The seven conditions of a filter. */
  ghost predicate Condition(p: Params, k: int, r: Row) {
    if k == 0 then p.start.Some? ==> r.createdAt >= p.start.value
    else if k == 1 then p.end.Some? ==> r.createdAt <= p.end.value
    else if k == 2 then
      if exists id :: WantsAccount(p, id) then r.accountID.Some? && WantsAccount(p, r.accountID.value)
      else p.accountID.Some? ==> r.accountID == p.accountID
    else if k == 3 then
      if exists w :: Wants(p.outcomes, w) then Wants(p.outcomes, r.outcome)
      else p.outcome.Some? ==> r.outcome == p.outcome.value
    else if k == 4 then Among(r.model, p.models)
    else if k == 5 then Among(Some(r.responseMode), p.responseModes)
    else p.search.Some? ==> Found(r, p.search.value)
  }

  ghost predicate Keeps(p: Params, r: Row) { forall k :: 0 <= k < 7 ==> Condition(p, k, r) }

  // ---------------------------------------------------------------- effective values

  /** effectiveAccountIDs: the positive ids, each once. */
  method EffectiveAccountIDs(p: Params) returns (out: seq<int>)
    ensures forall id :: id in out <==> WantsAccount(p, id)
    ensures forall i, j :: 0 <= i < j < |out| ==> out[i] != out[j]
  {
    out := [];
    var seen := {};
    for n := 0 to |p.accountIDs|
      invariant forall id :: id in out <==> id > 0 && id in p.accountIDs[..n]
      invariant seen == set id | id in out
      invariant forall i, j :: 0 <= i < j < |out| ==> out[i] != out[j]
    {
      var id := p.accountIDs[n];
      assert p.accountIDs[..n + 1] == p.accountIDs[..n] + [id];
      if id <= 0 || id in seen { continue; }
      seen := seen + {id};
      out := out + [id];
    }
    assert p.accountIDs[..|p.accountIDs|] == p.accountIDs;
  }

  /** effectiveStrings: the trimmed values that are not blank, each once. */
  method EffectiveStrings(values: seq<string>) returns (out: seq<string>)
    ensures forall v :: v in out <==> Wants(values, v)
    ensures forall i, j :: 0 <= i < j < |out| ==> out[i] != out[j]
  {
    out := [];
    var seen := {};
    for n := 0 to |values|
      invariant forall v :: v in out <==> v != "" && exists i :: 0 <= i < n && Trim(values[i]) == v
      invariant seen == set v | v in out
      invariant forall i, j :: 0 <= i < j < |out| ==> out[i] != out[j]
    {
      var v := Trim(values[n]);
      if v == "" || v in seen { continue; }
      seen := seen + {v};
      out := out + [v];
    }
  }

  // ---------------------------------------------------------------- SQL with placeholders

  datatype Arg = Num(n: int) | Str(s: string)

  datatype Clause =
    | Since | Until
    | AccountIn(n: nat) | AccountIs
    | OutcomeIn(n: nat) | OutcomeIs
    | ModelIn(n: nat) | ModeIn(n: nat)
    | SearchLike

  /** The question marks in a clause's text. */
  function Placeholders(c: Clause): nat {
    match c
    case AccountIn(n) => n
    case OutcomeIn(n) => n
    case ModelIn(n) => n
    case ModeIn(n) => n
    case SearchLike => 7
    case _ => 1
  }

  function Count(clauses: seq<Clause>): nat {
    if clauses == [] then 0 else Count(clauses[..|clauses| - 1]) + Placeholders(clauses[|clauses| - 1])
  }

  /** A clause is true of a row; a comparison with NULL is not. */
  ghost predicate Holds(c: Clause, args: seq<Arg>, r: Row)
    requires |args| == Placeholders(c)
  {
    match c
    case Since => args[0].Num? && r.createdAt >= args[0].n
    case Until => args[0].Num? && r.createdAt <= args[0].n
    case AccountIn(_) => r.accountID.Some? && Num(r.accountID.value) in args
    case AccountIs => r.accountID.Some? && Num(r.accountID.value) == args[0]
    case OutcomeIn(_) => Str(r.outcome) in args
    case OutcomeIs => Str(r.outcome) == args[0]
    case ModelIn(_) => r.model.Some? && Str(r.model.value) in args
    case ModeIn(_) => Str(r.responseMode) in args
    case SearchLike => exists i :: 0 <= i < 7 && LikeArg(Searched(r)[i], args[i])
  }

  ghost predicate LikeArg(column: Option<string>, arg: Arg) {
    column.Some? && arg.Str? && Like(Lower(column.value), arg.s)
  }

  /** The clauses joined by AND; each takes its arguments in order, and none may be left over. */
  ghost predicate Meaning(clauses: seq<Clause>, args: seq<Arg>, r: Row) {
    if clauses == [] then args == []
    else
      var last := clauses[|clauses| - 1];
      && |args| >= Placeholders(last)
      && (var cut := |args| - Placeholders(last);
          Meaning(clauses[..|clauses| - 1], args[..cut], r) && Holds(last, args[cut..], r))
  }

  /** The clauses so far have as many placeholders as arguments and mean the first k conditions. */
  ghost predicate Means(clauses: seq<Clause>, args: seq<Arg>, p: Params, k: nat) {
    && |args| == Count(clauses)
    && forall r :: Meaning(clauses, args, r) <==> forall i :: 0 <= i < k ==> Condition(p, i, r)
  }

  lemma AddClause(clauses: seq<Clause>, args: seq<Arg>, c: Clause, more: seq<Arg>, p: Params, k: nat)
    requires Means(clauses, args, p, k) && |more| == Placeholders(c)
    requires forall r :: Holds(c, more, r) <==> Condition(p, k, r)
    ensures Means(clauses + [c], args + more, p, k + 1)
  {
    hide Condition, Holds;
    assert (clauses + [c])[..|clauses|] == clauses;
    assert (args + more)[..|args|] == args && (args + more)[|args|..] == more;
    forall r ensures Meaning(clauses + [c], args + more, r) <==> forall i :: 0 <= i < k + 1 ==> Condition(p, i, r) {
      assert Meaning(clauses + [c], args + more, r) <==> Meaning(clauses, args, r) && Holds(c, more, r);
    }
  }

  lemma AddNothing(clauses: seq<Clause>, args: seq<Arg>, p: Params, k: nat)
    requires Means(clauses, args, p, k) && forall r :: Condition(p, k, r)
    ensures Means(clauses, args, p, k + 1)
  {
    hide Condition, Meaning;
  }

  /** The loops that append the arguments of an IN clause. */
  method Nums(ids: seq<int>) returns (args: seq<Arg>)
    ensures |args| == |ids| && forall n :: Num(n) in args <==> n in ids
  {
    args := [];
    for i := 0 to |ids|
      invariant |args| == i && forall n :: Num(n) in args <==> n in ids[..i]
    {
      assert ids[..i + 1] == ids[..i] + [ids[i]];
      args := args + [Num(ids[i])];
    }
    assert ids[..|ids|] == ids;
  }

  method Strs(values: seq<string>) returns (args: seq<Arg>)
    ensures |args| == |values| && forall s :: Str(s) in args <==> s in values
  {
    args := [];
    for i := 0 to |values|
      invariant |args| == i && forall s :: Str(s) in args <==> s in values[..i]
    {
      assert values[..i + 1] == values[..i] + [values[i]];
      args := args + [Str(values[i])];
    }
    assert values[..|values|] == values;
  }

  lemma SearchMeans(p: Params, args: seq<Arg>)
    requires p.search.Some? && |args| == 7 && forall i :: 0 <= i < 7 ==> args[i] == Str(PatternOf(p.search.value))
    ensures forall r :: Holds(SearchLike, args, r) <==> Condition(p, 6, r)
  {
    hide Like, PatternOf, Searched, Contains;
    forall r, i | 0 <= i < 7 ensures LikeArg(Searched(r)[i], args[i]) <==> ContainsIn(Searched(r)[i], p.search.value) {
      if Searched(r)[i].Some? { PatternIsSubstring(Lower(Searched(r)[i].value), p.search.value); }
    }
  }

  lemma NobodyWanted(p: Params, ids: seq<int>)
    requires forall id :: id in ids <==> WantsAccount(p, id)
    ensures |ids| > 0 <==> exists id :: WantsAccount(p, id)
  {
    if |ids| > 0 { assert WantsAccount(p, ids[0]); }
  }

  lemma NothingWanted(values: seq<string>, effective: seq<string>)
    requires forall v :: v in effective <==> Wants(values, v)
    ensures |effective| > 0 <==> exists w :: Wants(values, w)
  {
    if |effective| > 0 { assert Wants(values, effective[0]); }
  }

  /** Times and accounts. */
  method WhereAccounts(p: Params) returns (clauses: seq<Clause>, args: seq<Arg>)
    ensures Means(clauses, args, p, 3)
  {
    hide Means, Wants, WantsAccount;
    clauses, args := [], [];
    NoClauses(p);
    if p.start.Some? {
      AddClause(clauses, args, Since, [Num(p.start.value)], p, 0);
      clauses, args := clauses + [Since], args + [Num(p.start.value)];
    } else {
      AddNothing(clauses, args, p, 0);
    }
    if p.end.Some? {
      AddClause(clauses, args, Until, [Num(p.end.value)], p, 1);
      clauses, args := clauses + [Until], args + [Num(p.end.value)];
    } else {
      AddNothing(clauses, args, p, 1);
    }
    var ids := EffectiveAccountIDs(p);
    NobodyWanted(p, ids);
    if |ids| > 0 {
      var more := Nums(ids);
      AddClause(clauses, args, AccountIn(|ids|), more, p, 2);
      clauses, args := clauses + [AccountIn(|ids|)], args + more;
    } else if p.accountID.Some? {
      AddClause(clauses, args, AccountIs, [Num(p.accountID.value)], p, 2);
      clauses, args := clauses + [AccountIs], args + [Num(p.accountID.value)];
    } else {
      AddNothing(clauses, args, p, 2);
    }
  }

  lemma NoClauses(p: Params)
    ensures Means([], [], p, 0)
  {
  }

  /** requestRecordWhereSQL: as many placeholders as arguments, and the meaning is the filter's. */
  method WhereSQL(p: Params) returns (clauses: seq<Clause>, args: seq<Arg>)
    ensures |args| == Count(clauses)
    ensures forall r :: Meaning(clauses, args, r) <==> Keeps(p, r)
  {
    hide Wants, Meaning, Count, WantsAccount, Searched;
    clauses, args := WhereAccounts(p);
    hide Means;
    var outcomes := EffectiveStrings(p.outcomes);
    NothingWanted(p.outcomes, outcomes);
    if |outcomes| > 0 {
      var more := Strs(outcomes);
      AddClause(clauses, args, OutcomeIn(|outcomes|), more, p, 3);
      clauses, args := clauses + [OutcomeIn(|outcomes|)], args + more;
    } else if p.outcome.Some? {
      AddClause(clauses, args, OutcomeIs, [Str(p.outcome.value)], p, 3);
      clauses, args := clauses + [OutcomeIs], args + [Str(p.outcome.value)];
    } else {
      AddNothing(clauses, args, p, 3);
    }
    var models := EffectiveStrings(p.models);
    NothingWanted(p.models, models);
    if |models| > 0 {
      var more := Strs(models);
      AddClause(clauses, args, ModelIn(|models|), more, p, 4);
      clauses, args := clauses + [ModelIn(|models|)], args + more;
    } else {
      AddNothing(clauses, args, p, 4);
    }
    clauses, args := WhereRest(p, clauses, args);
    MeansAll(clauses, args, p);
  }

  method WhereRest(p: Params, clauses0: seq<Clause>, args0: seq<Arg>) returns (clauses: seq<Clause>, args: seq<Arg>)
    requires Means(clauses0, args0, p, 5)
    ensures Means(clauses, args, p, 7)
  {
    hide Means, Wants, WantsAccount, Searched;
    clauses, args := clauses0, args0;
    var modes := EffectiveStrings(p.responseModes);
    NothingWanted(p.responseModes, modes);
    if |modes| > 0 {
      var more := Strs(modes);
      AddClause(clauses, args, ModeIn(|modes|), more, p, 5);
      clauses, args := clauses + [ModeIn(|modes|)], args + more;
    } else {
      AddNothing(clauses, args, p, 5);
    }
    if p.search.Some? {
      var pattern := Str(PatternOf(p.search.value));
      var more := [pattern, pattern, pattern, pattern, pattern, pattern, pattern];
      SearchMeans(p, more);
      AddClause(clauses, args, SearchLike, more, p, 6);
      clauses, args := clauses + [SearchLike], args + more;
    } else {
      AddNothing(clauses, args, p, 6);
    }
  }

  lemma MeansAll(clauses: seq<Clause>, args: seq<Arg>, p: Params)
    requires Means(clauses, args, p, 7)
    ensures |args| == Count(clauses) && forall r :: Meaning(clauses, args, r) <==> Keeps(p, r)
  {
    hide Condition, Meaning;
  }

  // ---------------------------------------------------------------- the session builder

  /** A condition of an xorm session; the session joins its conditions by AND. */
  datatype Cond =
    | AtLeast(t: int) | AtMost(t: int)
    | AccountAmong(ids: seq<int>) | AccountEquals(id: int)
    | OutcomeAmong(values: seq<string>) | OutcomeEquals(value: string)
    | ModelAmong(values: seq<string>) | ModeAmong(values: seq<string>)
    | SearchFor(pattern: string)

  ghost predicate Passes(c: Cond, r: Row) {
    match c
    case AtLeast(t) => r.createdAt >= t
    case AtMost(t) => r.createdAt <= t
    case AccountAmong(ids) => r.accountID.Some? && r.accountID.value in ids
    case AccountEquals(id) => r.accountID == Some(id)
    case OutcomeAmong(values) => r.outcome in values
    case OutcomeEquals(value) => r.outcome == value
    case ModelAmong(values) => r.model.Some? && r.model.value in values
    case ModeAmong(values) => r.responseMode in values
    case SearchFor(pattern) => Holds(SearchLike, seq(7, _ => Str(pattern)), r)
  }

  ghost predicate PassesAll(conds: seq<Cond>, r: Row) { forall i :: 0 <= i < |conds| ==> Passes(conds[i], r) }

  ghost predicate SessionMeans(conds: seq<Cond>, p: Params, k: nat) {
    forall r :: PassesAll(conds, r) <==> forall i :: 0 <= i < k ==> Condition(p, i, r)
  }

  lemma AddCond(conds: seq<Cond>, c: Cond, p: Params, k: nat)
    requires SessionMeans(conds, p, k) && forall r :: Passes(c, r) <==> Condition(p, k, r)
    ensures SessionMeans(conds + [c], p, k + 1)
  {
    hide Condition, Passes;
    forall r ensures PassesAll(conds + [c], r) <==> PassesAll(conds, r) && Passes(c, r) {
      assert forall i :: 0 <= i < |conds| ==> (conds + [c])[i] == conds[i];
      assert (conds + [c])[|conds|] == c;
    }
  }

  lemma AddNoCond(conds: seq<Cond>, p: Params, k: nat)
    requires SessionMeans(conds, p, k) && forall r :: Condition(p, k, r)
    ensures SessionMeans(conds, p, k + 1)
  {
    hide Condition, PassesAll;
  }

  method SessionAccounts(p: Params) returns (conds: seq<Cond>)
    ensures SessionMeans(conds, p, 3)
  {
    conds := [];
    assert SessionMeans(conds, p, 0);
    hide SessionMeans, Wants, WantsAccount;
    if p.start.Some? { AddCond(conds, AtLeast(p.start.value), p, 0); conds := conds + [AtLeast(p.start.value)]; }
    else { AddNoCond(conds, p, 0); }
    if p.end.Some? { AddCond(conds, AtMost(p.end.value), p, 1); conds := conds + [AtMost(p.end.value)]; }
    else { AddNoCond(conds, p, 1); }
    var ids := EffectiveAccountIDs(p);
    NobodyWanted(p, ids);
    if |ids| > 0 { AddCond(conds, AccountAmong(ids), p, 2); conds := conds + [AccountAmong(ids)]; }
    else if p.accountID.Some? {
      AddCond(conds, AccountEquals(p.accountID.value), p, 2);
      conds := conds + [AccountEquals(p.accountID.value)];
    }
    else { AddNoCond(conds, p, 2); }
  }

  /** applyRequestRecordSessionFilters: the session's meaning is the filter's, too. */
  method SessionFilters(p: Params) returns (conds: seq<Cond>)
    ensures forall r :: PassesAll(conds, r) <==> Keeps(p, r)
  {
    hide SessionMeans, Wants, WantsAccount, Holds, PassesAll;
    conds := SessionAccounts(p);
    var outcomes := EffectiveStrings(p.outcomes);
    NothingWanted(p.outcomes, outcomes);
    if |outcomes| > 0 { AddCond(conds, OutcomeAmong(outcomes), p, 3); conds := conds + [OutcomeAmong(outcomes)]; }
    else if p.outcome.Some? { AddCond(conds, OutcomeEquals(p.outcome.value), p, 3); conds := conds + [OutcomeEquals(p.outcome.value)]; }
    else { AddNoCond(conds, p, 3); }
    var models := EffectiveStrings(p.models);
    NothingWanted(p.models, models);
    if |models| > 0 { AddCond(conds, ModelAmong(models), p, 4); conds := conds + [ModelAmong(models)]; }
    else { AddNoCond(conds, p, 4); }
    var modes := EffectiveStrings(p.responseModes);
    NothingWanted(p.responseModes, modes);
    if |modes| > 0 { AddCond(conds, ModeAmong(modes), p, 5); conds := conds + [ModeAmong(modes)]; }
    else { AddNoCond(conds, p, 5); }
    if p.search.Some? {
      var pattern := PatternOf(p.search.value);
      SearchMeans(p, seq(7, _ => Str(pattern)));
      AddCond(conds, SearchFor(pattern), p, 6);
      conds := conds + [SearchFor(pattern)];
    } else {
      AddNoCond(conds, p, 6);
    }
    SessionMeansAll(conds, p);
  }

  lemma SessionMeansAll(conds: seq<Cond>, p: Params)
    requires SessionMeans(conds, p, 7)
    ensures forall r :: PassesAll(conds, r) <==> Keeps(p, r)
  {
    hide Condition, PassesAll;
  }

  // ---------------------------------------------------------------- the two builders agree

  /** The rows of an unpaged Query. */
  ghost function Queried(table: set<Row>, conds: seq<Cond>): set<Row> { set r | r in table && PassesAll(conds, r) }

  /** SELECT DISTINCT column ... AND column IS NOT NULL AND column != '', for each option column. */
  ghost function ModelOptions(table: set<Row>, clauses: seq<Clause>, args: seq<Arg>): set<string> {
    set r | r in table && Meaning(clauses, args, r) && r.model.Some? && r.model.value != "" :: r.model.value
  }
  ghost function OutcomeOptions(table: set<Row>, clauses: seq<Clause>, args: seq<Arg>): set<string> {
    set r | r in table && Meaning(clauses, args, r) && r.outcome != "" :: r.outcome
  }
  ghost function ModeOptions(table: set<Row>, clauses: seq<Clause>, args: seq<Arg>): set<string> {
    set r | r in table && Meaning(clauses, args, r) && r.responseMode != "" :: r.responseMode
  }
  ghost function AccountOptions(table: set<Row>, clauses: seq<Clause>, args: seq<Arg>): set<int> {
    set r | r in table && Meaning(clauses, args, r) && r.accountID.Some? :: r.accountID.value
  }

  /** Builds one filter both ways; over every table the options offered are exactly the non-empty
      values that occur in the rows the unpaged query returns. */
  method FilterOptions(p: Params, ghost table: set<Row>)
    returns (conds: seq<Cond>, clauses: seq<Clause>, args: seq<Arg>)
    ensures |args| == Count(clauses)
    ensures forall r :: r in Queried(table, conds) <==> r in table && Keeps(p, r)
    ensures var rows := Queried(table, conds);
            && (forall v :: v in ModelOptions(table, clauses, args) <==> v != "" && exists r :: r in rows && r.model == Some(v))
            && (forall v :: v in OutcomeOptions(table, clauses, args) <==> v != "" && exists r :: r in rows && r.outcome == v)
            && (forall v :: v in ModeOptions(table, clauses, args) <==> v != "" && exists r :: r in rows && r.responseMode == v)
            && (forall id :: id in AccountOptions(table, clauses, args) <==> exists r :: r in rows && r.accountID == Some(id))
  {
    hide Meaning, PassesAll, Keeps, Count;
    conds := SessionFilters(p);
    clauses, args := WhereSQL(p);
    ghost var rows := Queried(table, conds);
    assert forall r :: r in rows <==> r in table && Meaning(clauses, args, r);
  }
}
