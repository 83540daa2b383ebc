/** `get_org_list` (db.py:50-293): from optional filter arguments it builds an
    ordered list of filter clauses together with the tuple of bound parameters,
    uses them for a COUNT query and for a paged main query, and projects the
    fetched rows into list items carrying a self link. */
module OrgList {
  import opened Builtins
  import opened Records

  /** A keyword argument of `get_org_list` as the Python value it is. */
  datatype Arg = NoneArg | BoolArg(b: bool) | IntArg(i: int) | StrArg(s: string) | ListArg(items: seq<string>)

  /** Python truthiness: None, False, 0, '' and [] are false. */
  predicate Truthy(a: Arg) {
    match a
    case NoneArg => false
    case BoolArg(b) => b
    case IntArg(i) => i != 0
    case StrArg(s) => s != ""
    case ListArg(xs) => xs != []
  }

  /** `a in (True, 1, '1', 'True', 'true', 'TRUE', 'yes', 'Yes', 'YES')`;
      Python's `True == 1` makes both spellings match. */
  predicate InTrueList(a: Arg) {
    a == BoolArg(true) || a == IntArg(1)
    || (a.StrArg? && a.s in {"1", "True", "true", "TRUE", "yes", "Yes", "YES"})
  }

  /** `a in (False, 0, '0', 'False', 'false', 'FALSE', 'no', 'No', 'NO')`. */
  predicate InFalseList(a: Arg) {
    a == BoolArg(false) || a == IntArg(0)
    || (a.StrArg? && a.s in {"0", "False", "false", "FALSE", "no", "No", "NO"})
  }

  /** Python `int(a)`; `None` where it raises. */
  function ArgToInt(a: Arg): Option<int> {
    match a
    case IntArg(i) => Some(i)
    case BoolArg(b) => Some(if b then 1 else 0)
    case StrArg(s) => ParseInt(s)
    case _ => None
  }

  function Min(x: int, y: int): int {
    if x <= y then x else y
  }

  /** The limit after db.py:76-77: `None` when `int(limit)` raises, 1000 when it
      exceeds 1000, otherwise the argument exactly as given. */
  function ClampLimit(limit: Arg): (r: Option<Arg>)
    ensures r.Some? <==> ArgToInt(limit).Some?
    ensures r.Some? ==> ArgToInt(r.value) == Some(Min(ArgToInt(limit).value, 1000))
    ensures r.Some? && ArgToInt(limit).value <= 1000 ==> r.value == limit
  {
    match ArgToInt(limit)
    case None => None
    case Some(n) => if n > 1000 then Some(IntArg(1000)) else Some(limit)
  }

  /** The arguments of `get_org_list`; `query` and `postcode` are strings or None. */
  datatype ListArgs = ListArgs(
    offset: Arg,
    limit: Arg,
    recordClass: Arg,
    primaryRoleCodes: Arg,
    roleCodes: Arg,
    query: Option<string>,
    postcode: Option<string>,
    active: Arg,
    lastUpdatedSince: Arg,
    legallyActive: Arg)

  /** The defaults of the signature at db.py:50-53. */
  function DefaultArgs(): ListArgs {
    ListArgs(IntArg(0), IntArg(20), StrArg("both"), NoneArg, NoneArg, None, None, BoolArg(true), NoneArg, NoneArg)
  }

  /** A string argument is truthy when it is given and not empty. */
  predicate Given(o: Option<string>) {
    o.Some? && o.value != ""
  }

  /** One `AND …` clause of the WHERE part, named by the column it tests. */
  datatype Clause =
    | RecordClassLike   // record_class LIKE %s
    | NameLike          // name LIKE UPPER(%s)
    | PostcodeLike      // post_code LIKE UPPER(%s)
    | StatusEq          // status = %s
    | LastChangedGt     // last_changed > %s
    | LegalActive       // (legal_end_date > now() or legal_end_date ISNULL)
    | LegalInactive     // legal_end_date < now()
    | RoleAny           // odscode in (active roles whose code = ANY(%s))
    | PrimaryRoleAny    // odscode IN (active primary roles whose code = ANY(%s))

  /** Place of a clause in the fixed order in which the source appends them. */
  function Rank(c: Clause): nat {
    match c
    case RecordClassLike => 0
    case NameLike => 1
    case PostcodeLike => 2
    case StatusEq => 3
    case LastChangedGt => 4
    case LegalActive | LegalInactive => 5
    case RoleAny | PrimaryRoleAny => 6
  }

  /** Whether the clause text holds a `%s` placeholder. */
  predicate HasPlaceholder(c: Clause) {
    !(c == LegalActive || c == LegalInactive)
  }

  /** Number of placeholders in a sequence of clauses. */
  function Placeholders(cs: seq<Clause>): nat {
    if cs == [] then 0
    else Placeholders(cs[..|cs| - 1]) + (if HasPlaceholder(cs[|cs| - 1]) then 1 else 0)
  }

  /** Clauses and the bound parameters that go with them. */
  datatype Filters = Filters(clauses: seq<Clause>, params: seq<Arg>)

  function NoFilters(): Filters {
    Filters([], [])
  }

  /** Appending the clauses and parameters of `g` after those of `f`. */
  function Then(f: Filters, g: Filters): Filters {
    Filters(f.clauses + g.clauses, f.params + g.params)
  }

  /** The status value bound for a truthy `active` (db.py:147-152). */
  function StatusValue(active: Arg): string {
    if InTrueList(active) then "Active" else "Inactive"
  }

  /** The substring pattern `'%{0}%'.format(s)`. */
  function LikePattern(s: string): Arg {
    StrArg("%" + s + "%")
  }

  /** The `'%'` substitute computed at db.py:86 and then never used. */
  function RecordClassParam(recordClass: Arg): Arg {
    if recordClass == StrArg("both") then StrArg("%") else recordClass
  }

  /** db.py:97-107: a truthy `recordclass` is bound as it is. */
  function RecordClassFilter(a: ListArgs): Filters {
    if Truthy(a.recordClass) then Filters([RecordClassLike], [a.recordClass]) else NoFilters()
  }

  /** db.py:110-124: the name pattern `%query%`. */
  function NameFilter(a: ListArgs): Filters {
    if Given(a.query) then Filters([NameLike], [LikePattern(a.query.value)]) else NoFilters()
  }

  /** db.py:127-141: the postcode pattern `%postcode%`. */
  function PostcodeFilter(a: ListArgs): Filters {
    if Given(a.postcode) then Filters([PostcodeLike], [LikePattern(a.postcode.value)]) else NoFilters()
  }

  /** db.py:144-160: a truthy `active` binds 'Active' or 'Inactive'. */
  function StatusFilter(a: ListArgs): Filters {
    if Truthy(a.active) then Filters([StatusEq], [StrArg(StatusValue(a.active))]) else NoFilters()
  }

  /** db.py:163-174: a truthy `last_updated_since` is bound as it is. */
  function LastChangedFilter(a: ListArgs): Filters {
    if Truthy(a.lastUpdatedSince) then Filters([LastChangedGt], [a.lastUpdatedSince]) else NoFilters()
  }

  /** db.py:177-204: no clause for a falsy or an unrecognised value, and
      never a placeholder. */
  function LegalFilter(a: ListArgs): Filters {
    if !Truthy(a.legallyActive) then NoFilters()
    else if InTrueList(a.legallyActive) then Filters([LegalActive], [])
    else if InFalseList(a.legallyActive) then Filters([LegalInactive], [])
    else NoFilters()
  }

  /** db.py:207-249: `role_code_list` wins over `primary_role_code_list`. */
  function RoleFilter(a: ListArgs): Filters {
    if Truthy(a.roleCodes) then Filters([RoleAny], [a.roleCodes])
    else if Truthy(a.primaryRoleCodes) then Filters([PrimaryRoleAny], [a.primaryRoleCodes])
    else NoFilters()
  }

  /** The contribution of the argument tested in the given place of the order. */
  function Contribution(a: ListArgs, rank: nat): Filters {
    match rank
    case 0 => RecordClassFilter(a)
    case 1 => NameFilter(a)
    case 2 => PostcodeFilter(a)
    case 3 => StatusFilter(a)
    case 4 => LastChangedFilter(a)
    case 5 => LegalFilter(a)
    case 6 => RoleFilter(a)
    case _ => NoFilters()
  }

  /** The filter clauses and their parameters, shared by the COUNT query and
      the main query (db.py:97-249): the contributions of the arguments, in
      the order the source tests them. */
  function BuildFilters(a: ListArgs): Filters {
    Then(Then(Then(Then(Then(Then(RecordClassFilter(a), NameFilter(a)), PostcodeFilter(a)),
      StatusFilter(a)), LastChangedFilter(a)), LegalFilter(a)), RoleFilter(a))
  }

  /** The value a clause's placeholder is meant to bind, independently of how
      the clauses are assembled; `None` for a clause without a placeholder. */
  function BoundValue(a: ListArgs, c: Clause): Option<Arg> {
    match c
    case RecordClassLike => Some(a.recordClass)
    case NameLike => Some(LikePattern(if a.query.Some? then a.query.value else ""))
    case PostcodeLike => Some(LikePattern(if a.postcode.Some? then a.postcode.value else ""))
    case StatusEq => Some(StrArg(StatusValue(a.active)))
    case LastChangedGt => Some(a.lastUpdatedSince)
    case LegalActive | LegalInactive => None
    case RoleAny => Some(a.roleCodes)
    case PrimaryRoleAny => Some(a.primaryRoleCodes)
  }

  /** Clauses in strictly increasing rank. */
  predicate Ordered(cs: seq<Clause>) {
    forall i, j | 0 <= i < j < |cs| :: Rank(cs[i]) < Rank(cs[j])
  }

  /** Every placeholder binds, in order, the parameter meant for its clause,
      and there are exactly as many parameters as placeholders. */
  predicate Lockstep(f: Filters, a: ListArgs) {
    && Placeholders(f.clauses) == |f.params|
    && forall k | 0 <= k < |f.clauses| && HasPlaceholder(f.clauses[k]) ::
         Placeholders(f.clauses[..k]) < |f.params|
         && Some(f.params[Placeholders(f.clauses[..k])]) == BoundValue(a, f.clauses[k])
  }

  lemma {:induction false} PlaceholdersAppend(x: seq<Clause>, y: seq<Clause>)
    ensures Placeholders(x + y) == Placeholders(x) + Placeholders(y)
    decreases |y|
  {
    if y == [] {
      assert x + y == x;
    } else {
      var y' := y[..|y| - 1];
      assert (x + y)[..|x + y| - 1] == x + y';
      PlaceholdersAppend(x, y');
    }
  }

  /** A placeholder of `f` keeps its parameter once `g` is appended. */
  lemma LockstepThenLeft(f: Filters, g: Filters, a: ListArgs, k: nat)
    requires Lockstep(f, a) && k < |f.clauses| && HasPlaceholder(f.clauses[k])
    ensures Placeholders(Then(f, g).clauses[..k]) < |Then(f, g).params|
    ensures Some(Then(f, g).params[Placeholders(Then(f, g).clauses[..k])]) == BoundValue(a, Then(f, g).clauses[k])
  {
    var h := Then(f, g);
    assert h.clauses[..k] == f.clauses[..k];
    assert h.clauses[k] == f.clauses[k];
  }

  /** A placeholder of `g` finds its parameter shifted by those of `f`. */
  lemma LockstepThenRight(f: Filters, g: Filters, a: ListArgs, k: nat)
    requires Placeholders(f.clauses) == |f.params| && Lockstep(g, a)
    requires |f.clauses| <= k < |f.clauses| + |g.clauses| && HasPlaceholder(g.clauses[k - |f.clauses|])
    ensures Placeholders(Then(f, g).clauses[..k]) < |Then(f, g).params|
    ensures Some(Then(f, g).params[Placeholders(Then(f, g).clauses[..k])]) == BoundValue(a, Then(f, g).clauses[k])
  {
    var h := Then(f, g);
    var k' := k - |f.clauses|;
    assert h.clauses[..k] == f.clauses + g.clauses[..k'];
    PlaceholdersAppend(f.clauses, g.clauses[..k']);
    assert h.clauses[k] == g.clauses[k'];
  }

  lemma {:induction false} LockstepThen(f: Filters, g: Filters, a: ListArgs)
    requires Lockstep(f, a) && Lockstep(g, a)
    ensures Lockstep(Then(f, g), a)
  {
    var h := Then(f, g);
    PlaceholdersAppend(f.clauses, g.clauses);
    forall k | 0 <= k < |h.clauses| && HasPlaceholder(h.clauses[k])
      ensures Placeholders(h.clauses[..k]) < |h.params|
      ensures Some(h.params[Placeholders(h.clauses[..k])]) == BoundValue(a, h.clauses[k])
    {
      if k < |f.clauses| {
        LockstepThenLeft(f, g, a, k);
      } else {
        assert h.clauses[k] == g.clauses[k - |f.clauses|];
        LockstepThenRight(f, g, a, k);
      }
    }
  }

  lemma OrderedThen(f: Filters, g: Filters)
    requires Ordered(f.clauses) && Ordered(g.clauses)
    requires forall x, y | x in f.clauses && y in g.clauses :: Rank(x) < Rank(y)
    ensures Ordered(Then(f, g).clauses)
  {
    var cs := Then(f, g).clauses;
    forall i, j | 0 <= i < j < |cs| ensures Rank(cs[i]) < Rank(cs[j]) {
      if j < |f.clauses| {
        assert cs[i] == f.clauses[i] && cs[j] == f.clauses[j];
      } else if i < |f.clauses| {
        assert cs[i] == f.clauses[i] && cs[j] == g.clauses[j - |f.clauses|];
      } else {
        assert cs[i] == g.clauses[i - |f.clauses|] && cs[j] == g.clauses[j - |f.clauses|];
      }
    }
  }

  /** Each argument contributes at most one clause, of its own rank, whose
      placeholder (if any) binds the parameter meant for it. */
  lemma ContributionShape(a: ListArgs, rank: nat)
    requires rank < 7
    ensures var g := Contribution(a, rank);
      && |g.clauses| <= 1
      && (forall x | x in g.clauses :: Rank(x) == rank)
      && Lockstep(g, a)
  {
    var g := Contribution(a, rank);
    if g.clauses != [] {
      assert g.clauses[..0] == [];
      assert g.clauses == [g.clauses[0]];
    }
  }

  /** The filters built from the arguments of rank below `rank`. */
  ghost predicate WellFormedBelow(f: Filters, a: ListArgs, rank: nat) {
    && Ordered(f.clauses)
    && (forall x | x in f.clauses :: Rank(x) < rank)
    && Lockstep(f, a)
  }

  lemma Extend(f: Filters, a: ListArgs, rank: nat)
    requires rank < 7 && WellFormedBelow(f, a, rank)
    ensures WellFormedBelow(Then(f, Contribution(a, rank)), a, rank + 1)
  {
    var g := Contribution(a, rank);
    ContributionShape(a, rank);
    OrderedThen(f, g);
    LockstepThen(f, g, a);
  }

  /** The clauses come in the fixed order record class, name, postcode,
      status, last changed, legal end date, role — so each at most once, and
      at most one legal-end-date clause and one role clause; each
      placeholder-bearing clause appends exactly one parameter, the one meant
      for it, and the two legal-end-date clauses append none. */
  lemma BuildFiltersWellFormed(a: ListArgs)
    ensures Ordered(BuildFilters(a).clauses)
    ensures Lockstep(BuildFilters(a), a)
  {
    var f0 := NoFilters();
    Extend(f0, a, 0);
    var f1 := Then(f0, Contribution(a, 0));
    assert f1 == RecordClassFilter(a);
    Extend(f1, a, 1);
    var f2 := Then(f1, Contribution(a, 1));
    Extend(f2, a, 2);
    var f3 := Then(f2, Contribution(a, 2));
    Extend(f3, a, 3);
    var f4 := Then(f3, Contribution(a, 3));
    Extend(f4, a, 4);
    var f5 := Then(f4, Contribution(a, 4));
    Extend(f5, a, 5);
    var f6 := Then(f5, Contribution(a, 5));
    Extend(f6, a, 6);
    var f7 := Then(f6, Contribution(a, 6));
    assert f7 == BuildFilters(a);
  }

  /** A clause appears exactly when the argument of its rank contributed it. */
  lemma InBuildFilters(a: ListArgs, c: Clause)
    ensures c in BuildFilters(a).clauses <==> c in Contribution(a, Rank(c)).clauses
  {
    ContributionShape(a, 0);
    ContributionShape(a, 1);
    ContributionShape(a, 2);
    ContributionShape(a, 3);
    ContributionShape(a, 4);
    ContributionShape(a, 5);
    ContributionShape(a, 6);
  }

  /** The guard under which the source appends a clause. */
  predicate Selected(a: ListArgs, c: Clause) {
    match c
    case RecordClassLike => Truthy(a.recordClass)
    case NameLike => Given(a.query)
    case PostcodeLike => Given(a.postcode)
    case StatusEq => Truthy(a.active)
    case LastChangedGt => Truthy(a.lastUpdatedSince)
    case LegalActive => Truthy(a.legallyActive) && InTrueList(a.legallyActive)
    case LegalInactive => Truthy(a.legallyActive) && InFalseList(a.legallyActive)
    case RoleAny => Truthy(a.roleCodes)
    case PrimaryRoleAny => !Truthy(a.roleCodes) && Truthy(a.primaryRoleCodes)
  }

  /** Which clauses appear: each exactly when its guard fires. */
  lemma BuildFiltersSelects(a: ListArgs, c: Clause)
    ensures c in BuildFilters(a).clauses <==> Selected(a, c)
  {
    InBuildFilters(a, c);
  }

  /** Boolean False and integer 0 are falsy, so the outer guard at db.py:177
      keeps them from ever reaching the false-list branch: they add no clause,
      while the string '0' does add the past-legal-end-date clause. */
  lemma FalsyLegallyActiveIgnored(a: ListArgs)
    requires a.legallyActive == BoolArg(false) || a.legallyActive == IntArg(0)
    ensures LegalActive !in BuildFilters(a).clauses && LegalInactive !in BuildFilters(a).clauses
    ensures LegalInactive in BuildFilters(a.(legallyActive := StrArg("0"))).clauses
  {
    BuildFiltersSelects(a, LegalActive);
    BuildFiltersSelects(a, LegalInactive);
    BuildFiltersSelects(a.(legallyActive := StrArg("0")), LegalInactive);
  }

  /** A truthy `role_code_list` makes `primary_role_code_list` irrelevant. */
  lemma RoleCodesOverridePrimary(a: ListArgs, other: Arg)
    requires Truthy(a.roleCodes)
    ensures BuildFilters(a) == BuildFilters(a.(primaryRoleCodes := other))
  {
    var b := a.(primaryRoleCodes := other);
    assert RoleFilter(a) == RoleFilter(b);
    assert Then(Then(Then(Then(Then(RecordClassFilter(a), NameFilter(a)), PostcodeFilter(a)),
      StatusFilter(a)), LastChangedFilter(a)), LegalFilter(a))
      == Then(Then(Then(Then(Then(RecordClassFilter(b), NameFilter(b)), PostcodeFilter(b)),
      StatusFilter(b)), LastChangedFilter(b)), LegalFilter(b));
  }

  /** With a truthy `recordclass` the first bound parameter is the raw value:
      for 'both' it is 'both', not the '%' substitute of db.py:86. */
  lemma RecordClassBoundRaw(a: ListArgs)
    requires Truthy(a.recordClass)
    ensures |BuildFilters(a).params| > 0 && BuildFilters(a).params[0] == a.recordClass
    ensures a.recordClass == StrArg("both") ==> BuildFilters(a).params[0] != RecordClassParam(a.recordClass)
  {
  }

  /** A truthy `active` binds 'Active' exactly for the true-list spellings and
      'Inactive' for every other truthy value. */
  lemma ActiveStatusValue(a: ListArgs, k: nat)
    requires k < |BuildFilters(a).clauses| && BuildFilters(a).clauses[k] == StatusEq
    ensures var f := BuildFilters(a); var i := Placeholders(f.clauses[..k]);
      i < |f.params|
      && (f.params[i] == StrArg("Active") <==> InTrueList(a.active))
      && (f.params[i] == StrArg("Inactive") <==> !InTrueList(a.active))
  {
    var f := BuildFilters(a);
    BuildFiltersWellFormed(a);
    assert HasPlaceholder(f.clauses[k]);
    assert Some(f.params[Placeholders(f.clauses[..k])]) == BoundValue(a, StatusEq);
  }

  /** Which of the two SQL statements a query is. */
  datatype QueryKind = CountQuery | PageQuery

  /** A statement as the WHERE clauses it carries and the parameter tuple
      passed with it; a page query ends in `ORDER BY name OFFSET %s LIMIT %s`. */
  datatype Query = Query(kind: QueryKind, clauses: seq<Clause>, params: seq<Arg>)

  /** Number of placeholders in the statement text. */
  function QueryPlaceholders(q: Query): nat {
    Placeholders(q.clauses) + if q.kind == PageQuery then 2 else 0
  }

  /** A row of the main query: `odscode, name, record_class, status, post_code`. */
  datatype OrgRow = OrgRow(odscode: Cell, name: Cell, recordClass: Cell, status: Cell, postCode: Cell)

  datatype Link = Link(rel: string, href: string)

  /** One item of the returned list (db.py:279-289). */
  datatype OrgSummary = OrgSummary(postCode: Cell, odsCode: Cell, name: Cell, recordClass: Cell, status: Cell, links: seq<Link>)

  /** Item `s` carries the columns of row `r` under the external names and one
      self link to the row's record. */
  ghost predicate Projects(host: string, r: OrgRow, s: OrgSummary) {
    && s.postCode == r.postCode && s.odsCode == r.odscode && s.name == r.name
    && s.recordClass == r.recordClass && s.status == r.status
    && s.links == [Link("self", OrganisationHref(host, r.odscode))]
  }

  /** The two statements issued, the count they report and the page of items. */
  datatype OrgPage = OrgPage(countQuery: Query, pageQuery: Query, items: seq<OrgSummary>, total: int)

  /** The first three WHERE clauses, on record class, name and postcode
      (db.py:94-141). */
  method SearchClauses(a: ListArgs) returns (clauses: seq<Clause>, data: seq<Arg>)
    ensures Filters(clauses, data) == Then(Then(RecordClassFilter(a), NameFilter(a)), PostcodeFilter(a))
  {
    clauses, data := [], [];
    if Truthy(a.recordClass) {
      clauses := clauses + [RecordClassLike];
      data := [a.recordClass];
    }
    assert Filters(clauses, data) == RecordClassFilter(a);
    if Given(a.query) {
      clauses := clauses + [NameLike];
      data := data + [LikePattern(a.query.value)];
    }
    assert Filters(clauses, data) == Then(RecordClassFilter(a), NameFilter(a));
    if Given(a.postcode) {
      clauses := clauses + [PostcodeLike];
      data := data + [LikePattern(a.postcode.value)];
    }
  }

  /** The WHERE clauses and their parameter tuple, built argument by argument
      (db.py:94-249). */
  method WhereClauses(a: ListArgs) returns (clauses: seq<Clause>, data: seq<Arg>)
    ensures Filters(clauses, data) == BuildFilters(a)
  {
    clauses, data := SearchClauses(a);
    ghost var upToPostcode := Then(Then(RecordClassFilter(a), NameFilter(a)), PostcodeFilter(a));
    if Truthy(a.active) {
      var activeValue := if InTrueList(a.active) then "Active" else "Inactive";
      clauses := clauses + [StatusEq];
      data := data + [StrArg(activeValue)];
    }
    assert Filters(clauses, data) == Then(upToPostcode, StatusFilter(a));
    if Truthy(a.lastUpdatedSince) {
      clauses := clauses + [LastChangedGt];
      data := data + [a.lastUpdatedSince];
    }
    ghost var upToChanged := Then(Then(upToPostcode, StatusFilter(a)), LastChangedFilter(a));
    assert Filters(clauses, data) == upToChanged;
    if Truthy(a.legallyActive) {
      if InTrueList(a.legallyActive) {
        clauses := clauses + [LegalActive];
      } else if InFalseList(a.legallyActive) {
        clauses := clauses + [LegalInactive];
      }
    }
    assert Filters(clauses, data) == Then(upToChanged, LegalFilter(a));
    if Truthy(a.roleCodes) {
      clauses := clauses + [RoleAny];
      data := data + [a.roleCodes];
    } else if Truthy(a.primaryRoleCodes) {
      clauses := clauses + [PrimaryRoleAny];
      data := data + [a.primaryRoleCodes];
    }
  }

  /** One item per fetched row, in the order fetched, each with its self link
      (db.py:272-290). */
  method ProjectRows(host: string, rows: seq<OrgRow>) returns (items: seq<OrgSummary>)
    ensures |items| == |rows|
    ensures forall i | 0 <= i < |rows| :: Projects(host, rows[i], items[i])
  {
    items := [];
    for i := 0 to |rows|
      invariant |items| == i
      invariant forall j | 0 <= j < i :: Projects(host, rows[j], items[j])
    {
      var row := rows[i];
      var href := host + "/organisations/" + CellText(row.odscode);
      items := items + [OrgSummary(row.postCode, row.odscode, row.name, row.recordClass, row.status, [Link("self", href)])];
    }
  }

  /** `get_org_list`. The database is the source of `total` (the COUNT query's
      result) and of `rows` (the main query's result); `None` is the ValueError
      or TypeError that `int(limit)` raises before any statement is built. */
  method GetOrgList(a: ListArgs, host: string, total: int, rows: seq<OrgRow>) returns (r: Option<OrgPage>)
    ensures r.None? <==> ArgToInt(a.limit).None?
    ensures r.Some? ==>
      && r.value.countQuery == Query(CountQuery, BuildFilters(a).clauses, BuildFilters(a).params)
      && r.value.pageQuery == Query(PageQuery, BuildFilters(a).clauses, BuildFilters(a).params + [a.offset, ClampLimit(a.limit).value])
      && r.value.total == total
      && |r.value.items| == |rows|
      && forall i | 0 <= i < |rows| :: Projects(host, rows[i], r.value.items[i])
  {
    var limit := a.limit;
    var n := ArgToInt(limit);
    if n.None? {
      return None;
    }
    if n.value > 1000 {
      limit := IntArg(1000);
    }
    assert limit == ClampLimit(a.limit).value;
    var clauses, data := WhereClauses(a);
    var countQuery := Query(CountQuery, clauses, data);
    var pageQuery := Query(PageQuery, clauses, data + [a.offset, limit]);
    var items := ProjectRows(host, rows);
    return Some(OrgPage(countQuery, pageQuery, items, total));
  }

  /** Both statements carry exactly as many parameters as placeholders; the
      main query's tuple is the COUNT query's with `(offset, limit)` appended,
      so the COUNT query never receives those two. */
  lemma QueriesWellFormed(a: ListArgs, limit: Arg)
    ensures var f := BuildFilters(a);
      && QueryPlaceholders(Query(CountQuery, f.clauses, f.params)) == |f.params|
      && QueryPlaceholders(Query(PageQuery, f.clauses, f.params + [a.offset, limit])) == |f.params + [a.offset, limit]|
  {
    BuildFiltersWellFormed(a);
  }

  /** With every argument at its default the filter is `record_class LIKE 'both'
      AND status = 'Active'`. */
  lemma DefaultFilters()
    ensures BuildFilters(DefaultArgs()) == Filters([RecordClassLike, StatusEq], [StrArg("both"), StrArg("Active")])
  {
  }
}
