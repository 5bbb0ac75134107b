/**
 * The platform-admin user list (app/admin/users/page.tsx): query-string parsing,
 * the de-duplicated company ids of the fetched users, the two loops that index
 * companies by id and count published listings per company, the join of users to
 * companies and the conjunction filter.
 */
module AdminUsers {
  import opened Wrappers
  import opened Text
  import opened Sequences
  import opened Identity
  import opened AdminGate

  /** A query-string value: one text, or the list a repeated key gives. */
  datatype Param = Single(text: string) | Many(values: seq<string>)

  /** The query-string keys the page reads; `None` is an absent key. */
  datatype SearchParams = SearchParams(
    q: Option<Param>,
    role: Option<Param>,
    active: Option<Param>,
    companyStatus: Option<Param>,
    companyType: Option<Param>)

  /** `toText`: a single text, or `''` for a list or an absent key. */
  function ToText(v: Option<Param>): string {
    if v.Some? && v.value.Single? then v.value.text else ""
  }

  /** The parsed filters. */
  datatype Filters = Filters(q: string, role: string, active: string, companyStatus: string, companyType: string)

  /** `x.trim() || 'all'`. */
  function OrAll(t: string): string {
    if t == "" then "all" else t
  }

  /** `toText(v).trim() || 'all'`: a trimmed, non-empty filter value. */
  function ParseFilter(v: Option<Param>): (f: string)
    ensures IsBlank(ToText(v)) ==> f == "all"
    ensures !IsBlank(ToText(v)) ==> f == Trim(ToText(v))
    ensures f != ""
  {
    OrAll(Trim(ToText(v)))
  }

  /**
   * `parseSearchParams`: every field is trimmed; `q` may be empty, the other four
   * fall back to `all` when nothing but white space was sent.
   */
  function ParseSearchParams(params: SearchParams): (f: Filters)
    ensures f.q == Trim(ToText(params.q))
    ensures f.role == ParseFilter(params.role) && f.active == ParseFilter(params.active)
    ensures f.companyStatus == ParseFilter(params.companyStatus) && f.companyType == ParseFilter(params.companyType)
  {
    Filters(
      Trim(ToText(params.q)),
      ParseFilter(params.role),
      ParseFilter(params.active),
      ParseFilter(params.companyStatus),
      ParseFilter(params.companyType))
  }

  // The filter form's controls.

  const RoleOptions: seq<string> := ["all", "COMPANY_ADMIN", "COMPANY_MEMBER", "PLATFORM_ADMIN"]
  const ActiveOptions: seq<string> := ["all", "true", "false"]
  const CompanyStatusOptions: seq<string> := ["all", "ACTIVE", "INACTIVE", "NONE"]
  const CompanyTypeOptions: seq<string> := ["all", "DEMAND", "SUPPLY", "BOTH", "NONE"]

  /**
   * `<select defaultValue={v}>` over fixed options: the browser shows `v` when
   * it is one of them, and the first option otherwise.
   */
  function SelectedOption(options: seq<string>, defaultValue: string): (shown: string)
    requires options != []
    ensures shown in options
    ensures defaultValue in options ==> shown == defaultValue
    ensures defaultValue !in options ==> shown == options[0]
  {
    if defaultValue in options then defaultValue else options[0]
  }

  /** The option values of the form's selects: `all` first, and none with white space at either end. */
  predicate FormOptions(options: seq<string>) {
    options != [] && options[0] == "all" && forall i :: 0 <= i < |options| ==> Unpadded(options[i])
  }

  predicate Unpadded(t: string) {
    t != [] && !IsJsSpace(t[0]) && !IsJsSpace(t[|t| - 1])
  }

  /** All four selects of the form have such options. */
  lemma FormSelectsHaveFormOptions()
    ensures FormOptions(RoleOptions) && FormOptions(ActiveOptions)
    ensures FormOptions(CompanyStatusOptions) && FormOptions(CompanyTypeOptions)
  {
    PrintableOptions(RoleOptions);
    PrintableOptions(ActiveOptions);
    PrintableOptions(CompanyStatusOptions);
    PrintableOptions(CompanyTypeOptions);
  }

  /** Options that begin and end with a printable ASCII character other than the space are unpadded. */
  lemma PrintableOptions(options: seq<string>)
    requires forall i :: 0 <= i < |options| ==>
      options[i] != [] && '!' <= options[i][0] <= '~' && '!' <= options[i][|options[i]| - 1] <= '~'
    ensures forall i :: 0 <= i < |options| ==> Unpadded(options[i])
  {
  }

  /**
   * Submitting the form unchanged: a filter that is one of the select's options
   * parses back to itself, and any other value (`?role=foo`) is shown as the
   * first option and so comes back as `all`.
   */
  lemma ResubmitKeepsFilter(options: seq<string>, v: Option<Param>)
    requires FormOptions(options)
    ensures ParseFilter(v) in options ==> ParseFilter(Some(Single(SelectedOption(options, ParseFilter(v))))) == ParseFilter(v)
    ensures ParseFilter(v) !in options ==> ParseFilter(Some(Single(SelectedOption(options, ParseFilter(v))))) == "all"
  {
    var shown := SelectedOption(options, ParseFilter(v));
    ToTextSingle(shown);
    var i :| 0 <= i < |options| && options[i] == shown;
    TrimUnpadded(options[i]);
  }

  lemma TrimUnpadded(t: string)
    requires Unpadded(t)
    ensures Trim(t) == t
  {
    assert TrimStart(t) == t;
    assert TrimEnd(t) == t;
  }

  /** The search box is a text input: it shows `q` as it is, and resubmitting it parses to the same query. */
  lemma ResubmitKeepsQuery(v: Option<Param>)
    ensures Trim(ToText(Some(Single(Trim(ToText(v)))))) == Trim(ToText(v))
  {
    ToTextSingle(Trim(ToText(v)));
    TrimIdempotent(ToText(v));
  }

  lemma ToTextSingle(t: string)
    ensures ToText(Some(Single(t))) == t
  {
  }

  /** A row of `users` as the admin client reads it. */
  datatype AdminUserRow = AdminUserRow(
    id: string,
    name: Option<string>,
    role: string,
    companyId: Option<string>,
    isActive: Option<bool>)

  /** A row of `companies` as the admin client reads it. */
  datatype AdminCompany = AdminCompany(
    id: string,
    name: string,
    companyType: string,
    status: string,
    prefecture: Option<string>,
    city: Option<string>)

  /** A row of `machines` as the listing count reads it. */
  datatype MachineRow = MachineRow(id: string, ownerCompanyId: Option<string>, status: string)

  /** Some fetched user has `company_id` equal to `x`. */
  predicate HasCompanyId(rows: seq<AdminUserRow>, x: string) {
    exists i :: 0 <= i < |rows| && rows[i].companyId == Some(x)
  }

  /** `rows.map(r => r.company_id).filter(v => !!v)`. */
  function PresentCompanyIds(rows: seq<AdminUserRow>): (ids: seq<string>)
    ensures forall x :: x in ids <==> x != "" && HasCompanyId(rows, x)
  {
    if rows == [] then []
    else
      var rest := PresentCompanyIds(rows[1..]);
      HasCompanyIdCons(rows);
      (if Truthy(rows[0].companyId) then [rows[0].companyId.value] else []) + rest
  }

  lemma HasCompanyIdCons(rows: seq<AdminUserRow>)
    requires rows != []
    ensures forall x :: HasCompanyId(rows, x) <==> rows[0].companyId == Some(x) || HasCompanyId(rows[1..], x)
  {
    forall x | HasCompanyId(rows, x)
      ensures rows[0].companyId == Some(x) || HasCompanyId(rows[1..], x)
    {
      var i :| 0 <= i < |rows| && rows[i].companyId == Some(x);
      if i > 0 {
        assert rows[1..][i - 1] == rows[i];
      }
    }
    forall x | HasCompanyId(rows[1..], x)
      ensures HasCompanyId(rows, x)
    {
      var i :| 0 <= i < |rows[1..]| && rows[1..][i].companyId == Some(x);
      assert rows[i + 1] == rows[1..][i];
    }
  }

  /** `Array.from(new Set(xs))`: the same elements, each once. */
  function Distinct(xs: seq<string>): (r: seq<string>)
    ensures |r| <= |xs|
    ensures forall i, j :: 0 <= i < j < |r| ==> r[i] != r[j]
    ensures forall x :: x in r <==> x in xs
  {
    if xs == [] then []
    else
      var init := xs[..|xs| - 1];
      var last := xs[|xs| - 1];
      assert xs == init + [last];
      var d := Distinct(init);
      if last in d then d else d + [last]
  }

  /** `companyIds`: the distinct non-empty company ids of the fetched users. */
  function CompanyIds(rows: seq<AdminUserRow>): (ids: seq<string>)
    ensures forall i, j :: 0 <= i < j < |ids| ==> ids[i] != ids[j]
    ensures forall x :: x in ids <==> x != "" && HasCompanyId(rows, x)
  {
    Distinct(PresentCompanyIds(rows))
  }

  /** `.in('id', companyIds)` on the companies table. */
  function CompaniesQuery(table: seq<AdminCompany>, ids: seq<string>): seq<AdminCompany> {
    Filter(table, (c: AdminCompany) => c.id in ids)
  }

  /** `.in('owner_company_id', companyIds).eq('status', 'PUBLISHED')` on the machines table. */
  function MachinesQuery(table: seq<MachineRow>, ids: seq<string>): seq<MachineRow> {
    Filter(table, (m: MachineRow) => m.ownerCompanyId.Some? && m.ownerCompanyId.value in ids && m.status == "PUBLISHED")
  }

  /**
   * `companiesById` after `set(c.id, c)` for every fetched company in order: every
   * fetched id is a key, each entry is a fetched row keyed by its own id, and the
   * last row with an id wins.
   */
  function IndexById(cs: seq<AdminCompany>): (m: map<string, AdminCompany>)
    ensures forall i :: 0 <= i < |cs| ==> cs[i].id in m
    ensures forall id :: id in m ==> m[id].id == id && m[id] in cs
  {
    if cs == [] then map[]
    else
      var init := cs[..|cs| - 1];
      var last := cs[|cs| - 1];
      assert forall i :: 0 <= i < |init| ==> init[i] == cs[i];
      assert forall c :: c in init ==> c in cs;
      IndexById(init)[last.id := last]
  }

  /** The last fetched row with a given id is the one the index keeps. */
  lemma {:induction false} IndexByIdLastWins(cs: seq<AdminCompany>, i: nat)
    requires i < |cs| && forall j :: i < j < |cs| ==> cs[j].id != cs[i].id
    ensures IndexById(cs)[cs[i].id] == cs[i]
  {
    var init := cs[..|cs| - 1];
    if i < |cs| - 1 {
      assert init[i] == cs[i];
      IndexByIdLastWins(init, i);
    }
  }

  /** The loop that fills `companiesById`. */
  method IndexCompanies(cs: seq<AdminCompany>) returns (byId: map<string, AdminCompany>)
    ensures byId == IndexById(cs)
  {
    byId := map[];
    var i := 0;
    while i < |cs|
      invariant 0 <= i <= |cs|
      invariant byId == IndexById(cs[..i])
    {
      assert cs[..i + 1][..i] == cs[..i];
      byId := byId[cs[i].id := cs[i]];
      i := i + 1;
    }
    assert cs[..|cs|] == cs;
  }

  /** `map.get(key) ?? 0`. */
  function CountOf(counts: map<string, nat>, key: string): nat {
    if key in counts then counts[key] else 0
  }

  /**
   * `listingCountByCompanyId` after the counting loop: one increment per fetched
   * row with a non-empty owner, so only owners appear and every count is positive.
   */
  function ListingCounts(ms: seq<MachineRow>): (counts: map<string, nat>)
    ensures "" !in counts
    ensures forall id :: id in counts ==> counts[id] > 0
  {
    if ms == [] then map[]
    else
      var counts := ListingCounts(ms[..|ms| - 1]);
      var owner := ms[|ms| - 1].ownerCompanyId;
      if !Truthy(owner) then counts
      else counts[owner.value := CountOf(counts, owner.value) + 1]
  }

  /** The loop that fills `listingCountByCompanyId`, skipping rows without an owner. */
  method CountListings(ms: seq<MachineRow>) returns (counts: map<string, nat>)
    ensures counts == ListingCounts(ms)
  {
    counts := map[];
    var i := 0;
    while i < |ms|
      invariant 0 <= i <= |ms|
      invariant counts == ListingCounts(ms[..i])
    {
      assert ms[..i + 1][..i] == ms[..i];
      var ownerId := ms[i].ownerCompanyId;
      if !Truthy(ownerId) {
        i := i + 1;
        continue;
      }
      counts := counts[ownerId.value := CountOf(counts, ownerId.value) + 1];
      i := i + 1;
    }
    assert ms[..|ms|] == ms;
  }

  /** The number of rows owned by `id`. */
  function CountOwned(ms: seq<MachineRow>, id: string): nat {
    if ms == [] then 0
    else (if ms[0].ownerCompanyId == Some(id) then 1 else 0) + CountOwned(ms[1..], id)
  }

  /** The number of `PUBLISHED` rows owned by `id`. */
  function CountPublished(ms: seq<MachineRow>, id: string): nat {
    if ms == [] then 0
    else (if ms[0].ownerCompanyId == Some(id) && ms[0].status == "PUBLISHED" then 1 else 0) + CountPublished(ms[1..], id)
  }

  lemma {:induction false} CountOwnedSnoc(ms: seq<MachineRow>, m: MachineRow, id: string)
    ensures CountOwned(ms + [m], id) == CountOwned(ms, id) + (if m.ownerCompanyId == Some(id) then 1 else 0)
  {
    if ms != [] {
      assert (ms + [m])[1..] == ms[1..] + [m];
      CountOwnedSnoc(ms[1..], m, id);
    }
  }

  /** The map the loop builds holds, for every non-empty id, the number of rows that id owns. */
  lemma {:induction false} ListingCountsCountRows(ms: seq<MachineRow>, id: string)
    requires id != ""
    ensures CountOf(ListingCounts(ms), id) == CountOwned(ms, id)
  {
    if ms != [] {
      var init := ms[..|ms| - 1];
      assert ms == init + [ms[|ms| - 1]];
      ListingCountsCountRows(init, id);
      CountOwnedSnoc(init, ms[|ms| - 1], id);
    }
  }

  /** Among the rows the machines query returns, a requested company owns exactly its published listings. */
  lemma {:induction false} QueryCountsPublished(table: seq<MachineRow>, ids: seq<string>, id: string)
    requires id in ids
    ensures CountOwned(MachinesQuery(table, ids), id) == CountPublished(table, id)
  {
    if table != [] {
      QueryCountsPublished(table[1..], ids, id);
    }
  }

  /** A user joined to its company and that company's listing count. */
  datatype NormalizedRow = NormalizedRow(user: AdminUserRow, company: Option<AdminCompany>, listingCount: nat)

  /**
   * One element of `normalized`: the company is resolved only through a non-empty
   * `company_id` that the index holds, and a user without a resolved company has
   * no listings.
   */
  function NormalizeRow(r: AdminUserRow, byId: map<string, AdminCompany>, counts: map<string, nat>): (n: NormalizedRow)
    ensures n.user == r
    ensures n.company.Some? <==> Truthy(r.companyId) && r.companyId.value in byId
    ensures n.company.Some? ==> n.company.value == byId[r.companyId.value]
    ensures n.company.None? ==> n.listingCount == 0
    ensures n.company.Some? ==> n.listingCount == CountOf(counts, n.company.value.id)
  {
    var company := if Truthy(r.companyId) && r.companyId.value in byId then Some(byId[r.companyId.value]) else None;
    var listingCount := if company.Some? then CountOf(counts, company.value.id) else 0;
    NormalizedRow(r, company, listingCount)
  }

  /** The stores and query outcomes one page load reads. */
  datatype AdminStores = AdminStores(
    users: seq<AdminUserRow>,
    companies: seq<AdminCompany>,
    companiesFault: Option<string>,
    machines: seq<MachineRow>,
    machinesFault: Option<string>)

  /** `companiesById`: empty when there are no ids to look up or the query failed. */
  function CompanyIndex(st: AdminStores): map<string, AdminCompany> {
    var ids := CompanyIds(st.users);
    if ids == [] || st.companiesFault.Some? then map[] else IndexById(CompaniesQuery(st.companies, ids))
  }

  /** `listingCountByCompanyId`: empty when there are no ids to look up or the query failed. */
  function ListingIndex(st: AdminStores): map<string, nat> {
    var ids := CompanyIds(st.users);
    if ids == [] || st.machinesFault.Some? then map[] else ListingCounts(MachinesQuery(st.machines, ids))
  }

  /** `rows.map(...)` joining each user to the indexes. */
  function NormalizeAll(rows: seq<AdminUserRow>, byId: map<string, AdminCompany>, counts: map<string, nat>): (ns: seq<NormalizedRow>)
    ensures |ns| == |rows|
    ensures forall k :: 0 <= k < |ns| ==> ns[k] == NormalizeRow(rows[k], byId, counts)
  {
    seq(|rows|, k requires 0 <= k < |rows| => NormalizeRow(rows[k], byId, counts))
  }

  /** `normalized`: every fetched user, in order, joined to its company. */
  function Normalized(st: AdminStores): seq<NormalizedRow> {
    NormalizeAll(st.users, CompanyIndex(st), ListingIndex(st))
  }

  /** `company?.status ?? 'NONE'`. */
  function EffectiveStatus(r: NormalizedRow): string {
    if r.company.Some? then r.company.value.status else "NONE"
  }

  /** `company?.company_type ?? 'NONE'`. */
  function EffectiveType(r: NormalizedRow): string {
    if r.company.Some? then r.company.value.companyType else "NONE"
  }

  /** `` `${r.name ?? ''} ${company?.name ?? ''}` ``. */
  function Haystack(r: NormalizedRow): string {
    r.user.name.GetOr("") + " " + (if r.company.Some? then r.company.value.name else "")
  }

  /** The `filtered` predicate. */
  predicate Matches(f: Filters, r: NormalizedRow) {
    && (f.role == "all" || r.user.role == f.role)
    && (f.active == "true" ==> r.user.isActive == Some(true))
    && (f.active == "false" ==> r.user.isActive == Some(false))
    && (f.companyStatus == "all" || EffectiveStatus(r) == f.companyStatus)
    && (f.companyType == "all" || EffectiveType(r) == f.companyType)
    && (f.q != "" ==> ContainsIgnoreCase(Haystack(r), f.q))
  }

  /** `filtered`. */
  function Filtered(f: Filters, ns: seq<NormalizedRow>): seq<NormalizedRow> {
    Filter(ns, (r: NormalizedRow) => Matches(f, r))
  }

  /** What the page renders. */
  datatype UsersView = UsersView(
    filters: Filters,
    fetched: nat,
    shown: seq<NormalizedRow>,
    companiesError: Option<string>,
    machinesError: Option<string>)

  /** The page after the gate admitted the caller. */
  function View(params: SearchParams, st: AdminStores): UsersView {
    var f := ParseSearchParams(params);
    var looked := CompanyIds(st.users) != [];
    UsersView(f, |st.users|, Filtered(f, Normalized(st)),
              if looked then st.companiesFault else None,
              if looked then st.machinesFault else None)
  }

  datatype PageOutcome = Redirected(path: string) | Rendered(view: UsersView)

  /** `AdminUsersPage`: the gate, then the reads, the two loops, the join and the filter. */
  method AdminUsersPage(auth: AuthLookup, profiles: Table<UserProfile>, params: SearchParams, st: AdminStores)
    returns (out: PageOutcome)
    ensures out.Rendered? <==> RequirePlatformAdmin(auth, profiles).Admitted?
    ensures out.Redirected? ==> out.path == RequirePlatformAdmin(auth, profiles).path
    ensures out.Rendered? ==> out.view == View(params, st)
  {
    var gate := RequirePlatformAdmin(auth, profiles);
    if gate.Redirect? {
      return Redirected(gate.path);
    }
    var f := ParseSearchParams(params);
    var companiesById, companiesErrorMessage, listingCountByCompanyId, machinesErrorMessage := LoadIndexes(st);
    var normalized := NormalizeAll(st.users, companiesById, listingCountByCompanyId);
    var filtered := Filtered(f, normalized);
    out := Rendered(UsersView(f, |st.users|, filtered, companiesErrorMessage, machinesErrorMessage));
  }

  /** The two lookups, made only when some fetched user has a company id. */
  method LoadIndexes(st: AdminStores)
    returns (companiesById: map<string, AdminCompany>, companiesErrorMessage: Option<string>,
             listingCountByCompanyId: map<string, nat>, machinesErrorMessage: Option<string>)
    ensures companiesById == CompanyIndex(st) && listingCountByCompanyId == ListingIndex(st)
    ensures companiesErrorMessage == (if CompanyIds(st.users) != [] then st.companiesFault else None)
    ensures machinesErrorMessage == (if CompanyIds(st.users) != [] then st.machinesFault else None)
  {
    var companyIds := CompanyIds(st.users);
    companiesById := map[];
    companiesErrorMessage := None;
    listingCountByCompanyId := map[];
    machinesErrorMessage := None;
    if |companyIds| > 0 {
      if st.companiesFault.Some? {
        companiesErrorMessage := st.companiesFault;
      } else {
        companiesById := IndexCompanies(CompaniesQuery(st.companies, companyIds));
      }
      if st.machinesFault.Some? {
        machinesErrorMessage := st.machinesFault;
      } else {
        listingCountByCompanyId := CountListings(MachinesQuery(st.machines, companyIds));
      }
    }
  }

  // Properties of the pipeline.

  /**
   * With no company id among the fetched users, neither the companies nor the
   * machines store is read: the view does not depend on them and reports no error.
   */
  lemma NoCompanyIdsNoLookups(params: SearchParams, st1: AdminStores, st2: AdminStores)
    requires st1.users == st2.users && CompanyIds(st1.users) == []
    ensures View(params, st1) == View(params, st2)
    ensures View(params, st1).companiesError == None && View(params, st1).machinesError == None
  {
    assert Normalized(st1) == Normalized(st2);
  }

  /**
   * A user whose company resolved, when the machines query went through, is shown
   * with the number of `PUBLISHED` listings that company owns in the machines store.
   */
  lemma {:induction false} ListingCountIsPublishedCount(st: AdminStores, k: nat)
    requires k < |st.users| && st.machinesFault.None?
    requires Normalized(st)[k].company.Some?
    ensures Normalized(st)[k].listingCount == CountPublished(st.machines, Normalized(st)[k].company.value.id)
  {
    var ids := CompanyIds(st.users);
    var n := Normalized(st)[k];
    var c := n.company.value;
    var byId := CompanyIndex(st);
    var q := CompaniesQuery(st.companies, ids);
    assert byId == IndexById(q);
    var key := st.users[k].companyId.value;
    assert c == byId[key] && c in q;
    assert c.id in ids;
    ListingCountsCountRows(MachinesQuery(st.machines, ids), c.id);
    QueryCountsPublished(st.machines, ids, c.id);
  }

  /** With every filter at `all` and an empty `q`, every joined row is shown. */
  lemma OpenFiltersShowEverything(f: Filters, ns: seq<NormalizedRow>)
    requires f.role == "all" && f.active == "all" && f.companyStatus == "all" && f.companyType == "all" && f.q == ""
    ensures Filtered(f, ns) == ns
  {
    FilterKeepsAll(ns, (r: NormalizedRow) => Matches(f, r));
  }

  /** The shown rows keep their order, and a row is shown exactly when it satisfies every filter. */
  lemma FilteredIsOrderedSelection(f: Filters, ns: seq<NormalizedRow>)
    ensures IsSubsequence(Filtered(f, ns), ns)
    ensures forall k :: 0 <= k < |Filtered(f, ns)| ==> Matches(f, Filtered(f, ns)[k])
    ensures forall k :: 0 <= k < |ns| && Matches(f, ns[k]) ==> ns[k] in Filtered(f, ns)
  {
    FilterIsSubsequence(ns, (r: NormalizedRow) => Matches(f, r));
    FilterMembers(ns, (r: NormalizedRow) => Matches(f, r));
  }

  /** A user whose `is_active` is null is excluded by both `active=true` and `active=false`. */
  lemma NullActiveIsExcluded(f: Filters, r: NormalizedRow)
    requires r.user.isActive.None? && (f.active == "true" || f.active == "false")
    ensures !Matches(f, r)
  {
  }

  /** A user without a company passes the company filters exactly when they are `all` or `NONE`. */
  lemma NoCompanyMatchesNone(f: Filters, r: NormalizedRow)
    requires r.company.None?
    ensures (f.companyStatus == "all" || EffectiveStatus(r) == f.companyStatus) <==> f.companyStatus in {"all", "NONE"}
    ensures (f.companyType == "all" || EffectiveType(r) == f.companyType) <==> f.companyType in {"all", "NONE"}
  {
  }

  /**
   * The search finds a user whose name, or whose company's name, contains the
   * query in any mix of ASCII letter case.
   */
  lemma {:induction false} SearchFindsNames(r: NormalizedRow, q: string, pre: string, m: string, post: string)
    requires Lower(m) == Lower(q)
    requires r.user.name == Some(pre + m + post) || (r.company.Some? && r.company.value.name == pre + m + post)
    ensures ContainsIgnoreCase(Haystack(r), q)
  {
    var cname := if r.company.Some? then r.company.value.name else "";
    if r.user.name == Some(pre + m + post) {
      assert Haystack(r) == pre + m + (post + " " + cname);
      ContainsIgnoreCaseInfix(pre, m, post + " " + cname, q);
    } else {
      assert Haystack(r) == (r.user.name.GetOr("") + " " + pre) + m + post;
      ContainsIgnoreCaseInfix(r.user.name.GetOr("") + " " + pre, m, post, q);
    }
  }
}
