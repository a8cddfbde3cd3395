/** The partner table behind both services, and the Spark repository's filter query builder.
    The table holds rows by id; an entity read from it is a detached copy, so changes to that
    copy reach the table only through Save. */
module PartnerRepository {
  import opened Wrappers
  import opened Text
  import opened Domain
  import opened Partners

  /** The columns TradingPartner declares nullable = false, apart from the two timestamps the
      lifecycle hooks set: name, tax id, payment terms, claims, payable, type, status and the
      contact list. */
  predicate NotNullColumnsSet(s: PartnerState) {
    && s.name.Some? && s.taxId.Some? && s.paymentTerms.Some? && s.claims.Some? && s.payable.Some?
    && s.partnerType.Some? && s.status.Some? && s.contacts.Some?
  }

  /** The failure the persistence layer reports for a null in a NOT NULL column. */
  const NotNullViolation := "not-null property references a null or transient value"

  class PartnerStore {
    /** The stored rows, by id. */
    var rows: map<int, PartnerState>
    /** The next value of the IDENTITY column. */
    var nextId: int

    /** Every row is stored under its own id, below the next identity value, carries both
        timestamps (set by @PrePersist) and has every other NOT NULL column set. */
    ghost predicate Valid()
      reads this
    {
      1 <= nextId
      && forall k :: k in rows ==>
        && 1 <= k < nextId && rows[k].id == Some(k) && rows[k].dateCreated.Some? && rows[k].dateModified.Some?
        && NotNullColumnsSet(rows[k])
    }

    constructor()
      ensures Valid() && rows == map[] && nextId == 1
    {
      rows := map[];
      nextId := 1;
    }

    /** findById: a fresh copy of the stored row, or empty. */
    method FindById(id: int) returns (r: Option<TradingPartner>)
      ensures r.Some? <==> id in rows
      ensures r.Some? ==> fresh(r.value) && r.value.State() == rows[id]
    {
      if id in rows {
        var p := new TradingPartner.Load(rows[id]);
        r := Some(p);
      } else {
        r := None;
      }
    }

    /** existsById: true exactly when findById finds a row. */
    function ExistsById(id: int): (r: bool)
      reads this
      ensures r <==> id in rows
    {
      id in rows
    }

    /** save / saveOrUpdate. A partner with a null in a NOT NULL column is refused and nothing
        is stored. Otherwise a partner without id is inserted under the next identity value and
        gets both timestamps, and a partner with id overwrites its row and gets a new
        modification time, while the stored creation time stays (the column is not updatable). */
    method Save(p: TradingPartner, now: Timestamp) returns (r: Result<TradingPartner>)
      requires Valid()
      requires p.id.None? || p.id.value in rows
      modifies this, p
      ensures Valid()
      ensures r.Ok? <==> NotNullColumnsSet(old(p.State()))
      ensures r.Err? ==>
        && r.error == Runtime(NotNullViolation)
        && rows == old(rows) && nextId == old(nextId) && p.State() == old(p.State())
      ensures r.Ok? ==> r.value == p
      ensures r.Ok? && old(p.id).None? ==>
        && nextId == old(nextId) + 1
        && p.State() == old(p.State()).(id := Some(old(nextId)), dateCreated := Some(now), dateModified := Some(now))
        && rows == old(rows)[old(nextId) := p.State()]
      ensures r.Ok? && old(p.id).Some? ==>
        && nextId == old(nextId)
        && p.State() == old(p.State()).(dateModified := Some(now))
        && rows == old(rows)[p.id.value := p.State().(dateCreated := old(rows)[p.id.value].dateCreated)]
    {
      if !NotNullColumnsSet(p.State()) {
        return Err(Runtime(NotNullViolation));
      }
      if p.id.None? {
        p.SetId(Some(nextId));
        p.OnCreate(now);
        rows := rows[nextId := p.State()];
        nextId := nextId + 1;
      } else {
        var k := p.id.value;
        p.OnUpdate(now);
        rows := rows[k := p.State().(dateCreated := rows[k].dateCreated)];
      }
      r := Ok(p);
    }

    /** deleteById: removes the row when there is one and does nothing otherwise. */
    method DeleteById(id: int)
      requires Valid()
      modifies this
      ensures Valid()
      ensures rows == old(rows) - {id} && nextId == old(nextId)
    {
      rows := rows - {id};
    }
  }

  // ----- findWithFilters -----

  const QueryBase := "FROM TradingPartner tp WHERE 1=1"
  const TypeClause := " AND tp.type = :type"
  const StatusClause := " AND tp.status = :status"
  const SearchClause := " AND LOWER(tp.name) LIKE :search"
  const OrderClause := " ORDER BY tp.dateModified DESC"

  /** The search condition both the query and its parameters test: non-null and not blank. */
  predicate SearchGiven(search: Option<string>) {
    search.Some? && !IsBlank(search.value)
  }

  /** The clauses between the base and the ordering, for the filters that are set, in the
      fixed order type, status, search. */
  function ClauseText(byType: bool, byStatus: bool, bySearch: bool): string {
    Optional(byType, TypeClause, Optional(byStatus, StatusClause, Optional(bySearch, SearchClause, [])))
  }

  /** `clause` in front of `rest` when `present`, else `rest` alone. */
  function Optional(present: bool, clause: string, rest: string): string {
    if present then clause + rest else rest
  }

  /** The HQL text findWithFilters builds: the base, the clauses, then the ordering. */
  function FilterQuery(partnerType: Option<PartnerType>, status: Option<PartnerStatus>, search: Option<string>): (q: string)
    ensures StartsWith(q, QueryBase) && EndsWith(q, OrderClause)
  {
    QueryBase + ClauseText(partnerType.Some?, status.Some?, SearchGiven(search)) + OrderClause
  }

  /** Which clauses a query carries. */
  datatype Clauses = Clauses(byType: bool, byStatus: bool, bySearch: bool)

  /** Consumes `clause` at the front of `s` when it is there. */
  function Take(s: string, clause: string): (r: (bool, string))
    ensures r.0 <==> StartsWith(s, clause)
    ensures r.0 ==> r.1 == s[|clause|..]
    ensures !r.0 ==> r.1 == s
  {
    if StartsWith(s, clause) then (true, s[|clause|..]) else (false, s)
  }

  /** Reads the clause text: any of the three clauses in the fixed order, and nothing else. */
  function ParseClauses(middle: string): Option<Clauses> {
    var (t, rest1) := Take(middle, TypeClause);
    var (s, rest2) := Take(rest1, StatusClause);
    var (x, rest3) := Take(rest2, SearchClause);
    if rest3 == [] then Some(Clauses(t, s, x)) else None
  }

  /** Reads a filter query back: the base, the clauses, the ordering. */
  function ParseFilterQuery(q: string): (r: Option<Clauses>)
    ensures r.Some? ==> StartsWith(q, QueryBase) && EndsWith(q, OrderClause)
  {
    if |q| < |QueryBase| + |OrderClause| || !StartsWith(q, QueryBase) || !EndsWith(q, OrderClause) then None
    else ParseClauses(q[|QueryBase|..|q| - |OrderClause|])
  }

  /** What may stand where the type clause would: the status and search clauses, if any. */
  lemma NotTypeClause(s: string)
    requires s == [] || StartsWith(s, StatusClause) || StartsWith(s, SearchClause)
    ensures !StartsWith(s, TypeClause)
  {
    if StartsWith(s, StatusClause) {
      assert s[8] == StatusClause[8] != TypeClause[8];
    } else if StartsWith(s, SearchClause) {
      assert s[5] == SearchClause[5] != TypeClause[5];
    }
  }

  /** What may stand where the status clause would: the search clause, if any. */
  lemma NotStatusClause(s: string)
    requires s == [] || StartsWith(s, SearchClause)
    ensures !StartsWith(s, StatusClause)
  {
    if StartsWith(s, SearchClause) {
      assert s[5] == SearchClause[5] != StatusClause[5];
    }
  }

  /** An optional clause in front of text that does not start with it is read off exactly
      when it is there. */
  lemma TakeOptional(clause: string, present: bool, rest: string)
    requires !StartsWith(rest, clause)
    ensures Take(Optional(present, clause, rest), clause) == (present, rest)
  {
    if present {
      assert (clause + rest)[..|clause|] == clause;
      assert (clause + rest)[|clause|..] == rest;
    }
  }

  /** The clause text reads back as the clauses it was built from. */
  lemma ClauseTextRoundTrip(byType: bool, byStatus: bool, bySearch: bool)
    ensures ParseClauses(ClauseText(byType, byStatus, bySearch)) == Some(Clauses(byType, byStatus, bySearch))
  {
    var c3 := Optional(bySearch, SearchClause, []);
    var c2 := Optional(byStatus, StatusClause, c3);
    var c1 := Optional(byType, TypeClause, c2);
    assert c3 == [] || StartsWith(c3, SearchClause) by {
      if bySearch { assert c3[..|SearchClause|] == SearchClause; }
    }
    assert c2 == [] || StartsWith(c2, StatusClause) || StartsWith(c2, SearchClause) by {
      if byStatus { assert c2[..|StatusClause|] == StatusClause; }
    }
    NotStatusClause(c3);
    NotTypeClause(c2);
    assert !StartsWith([], SearchClause);
    TakeOptional(TypeClause, byType, c2);
    TakeOptional(StatusClause, byStatus, c3);
    TakeOptional(SearchClause, bySearch, []);
    assert Take(c1, TypeClause) == (byType, c2);
    assert Take(c2, StatusClause) == (byStatus, c3);
    assert Take(c3, SearchClause) == (bySearch, []);
  }

  /** The query names exactly the filters that are set: reading it back gives the type clause
      iff a type is given, the status clause iff a status is given, and the search clause iff
      the search text is non-null and not blank. */
  lemma FilterQueryRoundTrip(partnerType: Option<PartnerType>, status: Option<PartnerStatus>, search: Option<string>)
    ensures ParseFilterQuery(FilterQuery(partnerType, status, search))
      == Some(Clauses(partnerType.Some?, status.Some?, SearchGiven(search)))
  {
    var middle := ClauseText(partnerType.Some?, status.Some?, SearchGiven(search));
    var q := FilterQuery(partnerType, status, search);
    assert q[|QueryBase|..|q| - |OrderClause|] == middle;
    ClauseTextRoundTrip(partnerType.Some?, status.Some?, SearchGiven(search));
  }

  /** A value bound to a named query parameter. */
  datatype QueryParam = TypeValue(t: PartnerType) | StatusValue(s: PartnerStatus) | SearchPattern(pattern: string)

  /** The parameters findWithFilters binds, by name. The search pattern lower-cases the search
      text without trimming it. */
  function FilterParams(partnerType: Option<PartnerType>, status: Option<PartnerStatus>, search: Option<string>): (r: map<string, QueryParam>)
    ensures "type" in r <==> partnerType.Some?
    ensures "status" in r <==> status.Some?
    ensures "search" in r <==> SearchGiven(search)
    ensures forall k :: k in r ==> k == "type" || k == "status" || k == "search"
    ensures partnerType.Some? ==> r["type"] == TypeValue(partnerType.value)
    ensures status.Some? ==> r["status"] == StatusValue(status.value)
    ensures SearchGiven(search) ==> r["search"] == SearchPattern("%" + ToLower(search.value) + "%")
  {
    var withType := if partnerType.Some? then map["type" := TypeValue(partnerType.value)] else map[];
    var withStatus := if status.Some? then withType["status" := StatusValue(status.value)] else withType;
    if SearchGiven(search) then withStatus["search" := SearchPattern("%" + ToLower(search.value) + "%")] else withStatus
  }

  /** The parameters bound are exactly those whose clause the query carries. */
  lemma ParamsMatchClauses(partnerType: Option<PartnerType>, status: Option<PartnerStatus>, search: Option<string>)
    ensures var c := ParseFilterQuery(FilterQuery(partnerType, status, search));
      var ps := FilterParams(partnerType, status, search);
      && c.Some?
      && (c.value.byType <==> "type" in ps)
      && (c.value.byStatus <==> "status" in ps)
      && (c.value.bySearch <==> "search" in ps)
  {
    FilterQueryRoundTrip(partnerType, status, search);
  }

  /** What the query selects: a row passes when it has the given type and status and its
      lower-cased name contains the lower-cased search text. */
  predicate QueryMatches(partnerType: Option<PartnerType>, status: Option<PartnerStatus>, search: Option<string>, p: PartnerState) {
    && (partnerType.None? || p.partnerType == partnerType)
    && (status.None? || p.status == status)
    && (!SearchGiven(search) || (p.name.Some? && Contains(ToLower(p.name.value), ToLower(search.value))))
  }
}
