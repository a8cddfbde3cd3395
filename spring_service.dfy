/** org.iu.handelspartnern.spring.service.TradingPartnerService: the Spring stack's service,
    over the partner table. Each call's clock reading and random UUID are parameters. */
module SpringService {
  import opened Wrappers
  import opened Text
  import opened Domain
  import opened FinancialEntries
  import opened Partners
  import opened Dtos
  import opened PartnerRepository
  import opened Lists

  /** The message of the RuntimeException for an unknown partner id. */
  function NotFoundMessage(id: int): string {
    "Partner mit ID " + IntToString(id) + " nicht gefunden"
  }

  const UpdateFailurePrefix := "Fehler beim Aktualisieren des Partners: "
  const DeleteFailurePrefix := "Fehler beim Löschen des Partners: "

  // ----- getAllPartners -----

  /** The search text the filter uses: trimmed and lower-cased, or none when null or blank. */
  function SearchKey(search: Option<string>): (r: Option<string>)
    ensures r.None? <==> search.None? || IsBlank(search.value)
    ensures r.Some? ==> r.value == ToLower(Trim(search.value)) && r.value != []
  {
    if search.Some? && !IsBlank(search.value) then Some(ToLower(Trim(search.value))) else None
  }

  /** A null text field is searched as "". */
  function Searchable(field: Option<string>): string {
    ToLower(field.GetOr(""))
  }

  /** The three filters of getAllPartners. */
  predicate Keep(partnerType: Option<PartnerType>, status: Option<PartnerStatus>, key: Option<string>, p: PartnerState) {
    && (partnerType.None? || partnerType == p.partnerType)
    && (status.None? || status == p.status)
    && (key.None?
        || Contains(Searchable(p.name), key.value)
        || Contains(Searchable(p.taxId), key.value)
        || Contains(Searchable(p.about), key.value))
  }

  function KeepFilter(partnerType: Option<PartnerType>, status: Option<PartnerStatus>, key: Option<string>): PartnerState -> Option<PartnerState> {
    p => if Keep(partnerType, status, key, p) then Some(p) else None
  }

  /** The partners getAllPartners keeps from the repository's listing, in listing order. */
  function FilterPartners(all: seq<PartnerState>, partnerType: Option<PartnerType>, status: Option<PartnerStatus>, search: Option<string>): (r: seq<PartnerState>)
    ensures forall p :: p in r <==> p in all && Keep(partnerType, status, SearchKey(search), p)
  {
    var r := FilterMap(all, KeepFilter(partnerType, status, SearchKey(search)));
    assert forall p :: p in r <==> exists i :: 0 <= i < |all| && KeepFilter(partnerType, status, SearchKey(search))(all[i]) == Some(p);
    r
  }

  /** getAllPartners(type, status, search) over the repository's listing, newest change first. */
  function GetAllPartners(all: seq<PartnerState>, partnerType: Option<PartnerType>, status: Option<PartnerStatus>, search: Option<string>): (r: seq<TradingPartnerListDto>)
    ensures var kept := FilterPartners(all, partnerType, status, search);
      |r| == |kept| && forall i :: 0 <= i < |kept| ==> r[i] == ToListDto(kept[i])
  {
    Map(FilterPartners(all, partnerType, status, search), ToListDto)
  }

  /** Filtering keeps the listing order: the result for a listing split in two is the result
      for the first part followed by the result for the second. */
  lemma FilterPartnersKeepsOrder(a: seq<PartnerState>, b: seq<PartnerState>, partnerType: Option<PartnerType>, status: Option<PartnerStatus>, search: Option<string>)
    ensures FilterPartners(a + b, partnerType, status, search)
      == FilterPartners(a, partnerType, status, search) + FilterPartners(b, partnerType, status, search)
  {
    FilterMapAppend(a, b, KeepFilter(partnerType, status, SearchKey(search)));
  }

  /** getAllPartners() with no filters lists every partner, in order. */
  lemma NoFilterKeepsAll(all: seq<PartnerState>)
    ensures var r := GetAllPartners(all, None, None, None);
      |r| == |all| && forall i :: 0 <= i < |all| ==> r[i] == ToListDto(all[i])
  {
    FilterMapAllKept(all, KeepFilter(None, None, SearchKey(None)));
  }

  // ----- createPartner -----

  /** createPartner: ACTIVE, no claims or payables, "DE000000000" and "30 Tage" when the
      record has no tax id or payment terms; a missing about or image stays null. */
  method CreatePartner(store: PartnerStore, dto: AddTradingPartnerDto, now: Timestamp) returns (saved: TradingPartner)
    requires store.Valid()
    modifies store
    ensures store.Valid()
    ensures fresh(saved)
    ensures saved.State() == PartnerState(
      Some(old(store.nextId)), dto.corporateImageUrl, Some(dto.name),
      Some(dto.taxId.GetOr("DE000000000")), Some(dto.paymentTerms.GetOr("30 Tage")),
      Some(now), Some(now), Some(0.0), Some(0.0), Some(dto.partnerType), Some(Active),
      dto.about, Some([]), Some([]), Some([]))
    ensures store.rows == old(store.rows)[old(store.nextId) := saved.State()]
  {
    var partner := new TradingPartner();
    partner.SetName(Some(dto.name));
    partner.SetAbout(dto.about);
    partner.SetTaxId(Some(dto.taxId.GetOr("DE000000000")));
    partner.SetPaymentTerms(Some(dto.paymentTerms.GetOr("30 Tage")));
    partner.SetCorporateImageUrl(dto.corporateImageUrl);
    partner.SetType(Some(dto.partnerType));
    partner.SetStatus(Some(Active));
    partner.SetClaims(Some(0.0));
    partner.SetPayable(Some(0.0));
    var r := store.Save(partner, now);
    saved := r.value;
  }

  // ----- updatePartner -----

  /** The state updatePartner gives the stored partner `existing` from the submitted `updated`:
      the descriptive fields, the image through its getter (so an unset image becomes the
      placeholder) and copies of the contact and address lists; the entry list when one is
      given, else a recalculation of claims and payable; then submitted claims and payable
      when not null; and the new modification time. */
  function SpringUpdated(existing: PartnerState, updated: PartnerState, recalc: Recalculation, now: Timestamp): (r: PartnerState)
    ensures r.id == existing.id && r.dateCreated == existing.dateCreated && r.dateModified == Some(now)
    ensures r.name == updated.name && r.partnerType == updated.partnerType && r.status == updated.status
    ensures r.taxId == updated.taxId && r.paymentTerms == updated.paymentTerms && r.about == updated.about
    ensures r.corporateImageUrl == Some(updated.ImageUrl())
    ensures r.contacts == Some(updated.Contacts()) && r.addresses == Some(updated.Addresses())
    ensures updated.financialEntries.Some? ==> r.financialEntries == updated.financialEntries
    ensures updated.financialEntries.None? ==> r.financialEntries == existing.financialEntries
    ensures updated.claims.Some? ==> r.claims == updated.claims
    ensures updated.payable.Some? ==> r.payable == updated.payable
    ensures updated.claims.None? && updated.financialEntries.Some? ==> r.claims == existing.claims
    ensures updated.payable.None? && updated.financialEntries.Some? ==> r.payable == existing.payable
    ensures updated.claims.None? && updated.financialEntries.None? ==> r.claims == recalc(existing.Entries()).0
    ensures updated.payable.None? && updated.financialEntries.None? ==> r.payable == recalc(existing.Entries()).1
  {
    var copied := existing.(
      name := updated.name, partnerType := updated.partnerType, status := updated.status,
      taxId := updated.taxId, paymentTerms := updated.paymentTerms, about := updated.about,
      corporateImageUrl := Some(updated.ImageUrl()),
      contacts := Some(updated.Contacts()), addresses := Some(updated.Addresses()));
    var ledger :=
      if updated.financialEntries.Some? then copied.(financialEntries := updated.financialEntries)
      else copied.(claims := recalc(copied.Entries()).0, payable := recalc(copied.Entries()).1);
    ledger.(
      claims := if updated.claims.Some? then updated.claims else ledger.claims,
      payable := if updated.payable.Some? then updated.payable else ledger.payable,
      dateModified := Some(now))
  }

  /** The setter calls of updatePartner on the loaded partner, through SetUpdated. */
  method CopyUpdate(existing: TradingPartner, updated: PartnerState, recalc: Recalculation, now: Timestamp)
    modifies existing
    ensures existing.State() == SpringUpdated(old(existing.State()), updated, recalc, now)
  {
    existing.SetName(updated.name);
    existing.SetType(updated.partnerType);
    existing.SetStatus(updated.status);
    existing.SetTaxId(updated.taxId);
    existing.SetPaymentTerms(updated.paymentTerms);
    existing.SetAbout(updated.about);
    existing.SetCorporateImageUrl(Some(updated.ImageUrl()));
    existing.SetContacts(Some(updated.Contacts()));
    existing.SetAddresses(Some(updated.Addresses()));
    if updated.financialEntries.Some? {
      existing.SetFinancialEntries(updated.financialEntries);
    } else {
      existing.RecalculateFinancials(recalc);
    }
    if updated.claims.Some? {
      existing.SetClaims(updated.claims);
    }
    if updated.payable.Some? {
      existing.SetPayable(updated.payable);
    }
    existing.SetUpdated(now);
  }

  /** updatePartner: fails for an unknown id with the wrapped not-found message and changes
      nothing; otherwise stores SpringUpdated of the stored row, unless that leaves a NOT NULL
      column null. The method is transactional, so that refusal happens at commit, after the
      try block, and reaches the caller unwrapped. */
  method UpdatePartner(store: PartnerStore, id: int, updated: PartnerState, recalc: Recalculation, now: Timestamp)
    returns (r: Result<TradingPartner>)
    requires store.Valid()
    modifies store
    ensures store.Valid()
    ensures id !in old(store.rows) ==>
      r == Err(Runtime(UpdateFailurePrefix + NotFoundMessage(id))) && store.rows == old(store.rows)
    ensures id in old(store.rows) ==>
      var next := SpringUpdated(old(store.rows)[id], updated, recalc, now);
      && (r.Ok? <==> NotNullColumnsSet(next))
      && (r.Ok? ==> fresh(r.value) && r.value.State() == next && store.rows == old(store.rows)[id := next])
      && (r.Err? ==> r == Err(Runtime(NotNullViolation)) && store.rows == old(store.rows))
  {
    var found := store.FindById(id);
    if found.None? {
      return Err(Runtime(UpdateFailurePrefix + NotFoundMessage(id)));
    }
    var existing := found.value;
    CopyUpdate(existing, updated, recalc, now);
    r := store.Save(existing, now);
  }

  // ----- deletePartner -----

  /** deletePartner: an unknown id fails with the wrapped not-found message; a known one is
      removed. */
  method DeletePartner(store: PartnerStore, id: int) returns (o: Outcome)
    requires store.Valid()
    modifies store
    ensures store.Valid()
    ensures id in old(store.rows) ==> o == Pass && store.rows == old(store.rows) - {id}
    ensures id !in old(store.rows) ==>
      o == Fail(Runtime(DeleteFailurePrefix + NotFoundMessage(id))) && store.rows == old(store.rows)
  {
    if !store.ExistsById(id) {
      return Fail(Runtime(DeleteFailurePrefix + NotFoundMessage(id)));
    }
    store.DeleteById(id);
    o := Pass;
  }

  // ----- addFinancialEntry -----

  /** The entry addFinancialEntry appends: a missing date becomes today, a missing id a fresh
      UUID and a missing status OPEN; every other field is kept. */
  function CompleteEntry(e: FinancialEntry, today: Date, newId: Uuid): (r: FinancialEntry)
    ensures r.date == Some(e.date.GetOr(today)) && r.id == Some(e.id.GetOr(newId))
    ensures r.status == Some(e.status.GetOr(Open))
    ensures r.kind == e.kind && r.amount == e.amount && r.purpose == e.purpose
    ensures r.reference == e.reference && r.createdAt == e.createdAt
  {
    var dated := if e.date.None? then e.(date := Some(today)) else e;
    var identified := if dated.id.None? then dated.(id := Some(newId)) else dated;
    if identified.status.None? then identified.(status := Some(Open)) else identified
  }

  /** A complete entry is left as it is. */
  lemma CompleteEntryKeepsCompleteEntry(e: FinancialEntry, today: Date, newId: Uuid)
    requires e.date.Some? && e.id.Some? && e.status.Some?
    ensures CompleteEntry(e, today, newId) == e
  {
  }

  /** addFinancialEntry: fails for an unknown partner; otherwise appends the completed entry,
      keeps the earlier entries and stamps the modification time. */
  method AddFinancialEntry(store: PartnerStore, partnerId: int, entry: FinancialEntry, today: Date, newId: Uuid, now: Timestamp)
    returns (r: Result<TradingPartner>)
    requires store.Valid()
    modifies store
    ensures store.Valid()
    ensures partnerId !in old(store.rows) ==>
      r == Err(Runtime(NotFoundMessage(partnerId))) && store.rows == old(store.rows)
    ensures partnerId in old(store.rows) ==>
      var before := old(store.rows)[partnerId];
      && r.Ok? && fresh(r.value)
      && r.value.State() == before.(
           financialEntries := Some(before.Entries() + [Some(CompleteEntry(entry, today, newId))]),
           dateModified := Some(now))
      && store.rows == old(store.rows)[partnerId := r.value.State()]
  {
    var found := store.FindById(partnerId);
    if found.None? {
      return Err(Runtime(NotFoundMessage(partnerId)));
    }
    var partner := found.value;
    var e := entry;
    if e.date.None? {
      e := e.(date := Some(today));
    }
    if e.id.None? {
      e := e.(id := Some(newId));
    }
    if e.status.None? {
      e := e.(status := Some(Open));
    }
    partner.AddFinancialEntry(e);
    partner.SetUpdated(now);
    r := store.Save(partner, now);
  }

  // ----- updateFinancialEntryStatus -----

  /** The loop's test: a non-null entry whose id equals the requested one. */
  predicate IsEntry(e: Option<FinancialEntry>, entryId: Uuid) {
    e.Some? && e.value.id == Some(entryId)
  }

  /** The index of the first entry with the requested id, at or after `from`. */
  function FirstMatchFrom(entries: seq<Option<FinancialEntry>>, entryId: Uuid, from: nat): (r: Option<nat>)
    requires from <= |entries|
    ensures r.Some? ==> from <= r.value < |entries| && IsEntry(entries[r.value], entryId)
    ensures r.Some? ==> forall j :: from <= j < r.value ==> !IsEntry(entries[j], entryId)
    ensures r.None? ==> forall j :: from <= j < |entries| ==> !IsEntry(entries[j], entryId)
    decreases |entries| - from
  {
    if from == |entries| then None
    else if IsEntry(entries[from], entryId) then Some(from)
    else FirstMatchFrom(entries, entryId, from + 1)
  }

  /** The index of the first entry with the requested id, if any. */
  function FirstMatch(entries: seq<Option<FinancialEntry>>, entryId: Uuid): Option<nat> {
    FirstMatchFrom(entries, entryId, 0)
  }

  /** The for-loop with its `updated` flag and `break`: the first entry with the requested id
      gets the new status, and no other entry changes. */
  method SetFirstMatchingStatus(entries: seq<Option<FinancialEntry>>, entryId: Uuid, status: Option<EntryStatus>)
    returns (updated: bool, r: seq<Option<FinancialEntry>>)
    ensures updated <==> FirstMatch(entries, entryId).Some?
    ensures !updated ==> r == entries
    ensures updated ==>
      var k := FirstMatch(entries, entryId).value;
      r == entries[k := Some(entries[k].value.(status := status))]
  {
    updated := false;
    r := entries;
    var i := 0;
    while i < |entries|
      invariant 0 <= i <= |entries|
      invariant !updated && r == entries
      invariant FirstMatch(entries, entryId) == FirstMatchFrom(entries, entryId, i)
    {
      if IsEntry(entries[i], entryId) {
        r := entries[i := Some(entries[i].value.(status := status))];
        updated := true;
        return;
      }
      i := i + 1;
    }
  }

  /** updateFinancialEntryStatus: fails for an unknown partner, and for an entry id that is
      not in the list (then nothing changes); otherwise the first matching entry gets the new
      status, claims and payable are recalculated and the modification time is stamped. A
      recalculation that leaves claims or payable null makes the save fail, unwrapped. */
  method UpdateFinancialEntryStatus(store: PartnerStore, partnerId: int, entryId: Uuid, status: Option<EntryStatus>,
    recalc: Recalculation, now: Timestamp)
    returns (r: Result<TradingPartner>)
    requires store.Valid()
    modifies store
    ensures store.Valid()
    ensures partnerId !in old(store.rows) ==>
      r == Err(Runtime(NotFoundMessage(partnerId))) && store.rows == old(store.rows)
    ensures partnerId in old(store.rows) && FirstMatch(old(store.rows)[partnerId].Entries(), entryId).None? ==>
      r == Err(Runtime("Finanztransaktion mit ID " + entryId.ToString() + " nicht gefunden"))
      && store.rows == old(store.rows)
    ensures partnerId in old(store.rows) && FirstMatch(old(store.rows)[partnerId].Entries(), entryId).Some? ==>
      var before := old(store.rows)[partnerId];
      var k := FirstMatch(before.Entries(), entryId).value;
      var entries := before.Entries()[k := Some(before.Entries()[k].value.(status := status))];
      var next := before.(financialEntries := Some(entries),
        claims := recalc(entries).0, payable := recalc(entries).1, dateModified := Some(now));
      && (r.Ok? <==> recalc(entries).0.Some? && recalc(entries).1.Some?)
      && (r.Ok? ==> fresh(r.value) && r.value.State() == next && store.rows == old(store.rows)[partnerId := next])
      && (r.Err? ==> r == Err(Runtime(NotNullViolation)) && store.rows == old(store.rows))
  {
    var found := store.FindById(partnerId);
    if found.None? {
      return Err(Runtime(NotFoundMessage(partnerId)));
    }
    var partner := found.value;
    var updated, entries := SetFirstMatchingStatus(partner.State().Entries(), entryId, status);
    if !updated {
      return Err(Runtime("Finanztransaktion mit ID " + entryId.ToString() + " nicht gefunden"));
    }
    partner.SetFinancialEntries(Some(entries));
    partner.RecalculateFinancials(recalc);
    partner.SetUpdated(now);
    r := store.Save(partner, now);
  }

  // ----- addClaim / addPayable -----

  /** addClaim: claims (null read as 0) grow by the amount; payable is untouched. */
  method AddClaim(store: PartnerStore, partnerId: int, amount: Money, now: Timestamp) returns (o: Outcome)
    requires store.Valid()
    modifies store
    ensures store.Valid()
    ensures partnerId !in old(store.rows) ==>
      o == Fail(Runtime(NotFoundMessage(partnerId))) && store.rows == old(store.rows)
    ensures partnerId in old(store.rows) ==>
      var before := old(store.rows)[partnerId];
      && o == Pass
      && store.rows == old(store.rows)[partnerId := before.(
           claims := Some(before.claims.GetOr(0.0) + amount), dateModified := Some(now))]
  {
    var found := store.FindById(partnerId);
    if found.None? {
      return Fail(Runtime(NotFoundMessage(partnerId)));
    }
    var partner := found.value;
    var current := partner.claims.GetOr(0.0);
    partner.SetClaims(Some(current + amount));
    partner.SetUpdated(now);
    var _ := store.Save(partner, now);
    o := Pass;
  }

  /** addPayable: payable (null read as 0) grows by the amount; claims are untouched. */
  method AddPayable(store: PartnerStore, partnerId: int, amount: Money, now: Timestamp) returns (o: Outcome)
    requires store.Valid()
    modifies store
    ensures store.Valid()
    ensures partnerId !in old(store.rows) ==>
      o == Fail(Runtime(NotFoundMessage(partnerId))) && store.rows == old(store.rows)
    ensures partnerId in old(store.rows) ==>
      var before := old(store.rows)[partnerId];
      && o == Pass
      && store.rows == old(store.rows)[partnerId := before.(
           payable := Some(before.payable.GetOr(0.0) + amount), dateModified := Some(now))]
  {
    var found := store.FindById(partnerId);
    if found.None? {
      return Fail(Runtime(NotFoundMessage(partnerId)));
    }
    var partner := found.value;
    var current := partner.payable.GetOr(0.0);
    partner.SetPayable(Some(current + amount));
    partner.SetUpdated(now);
    var _ := store.Save(partner, now);
    o := Pass;
  }

  // ----- getPartnerBalance -----

  /** The six balances getPartnerBalance reports: the four overview totals and the cached
      claims and payable (which may be null). */
  function BalanceMap(o: FinancialOverview, claims: Option<Money>, payable: Option<Money>): (m: map<string, Option<Money>>)
    ensures m.Keys == {"openClaims", "settledClaims", "openPayables", "settledPayables", "claims", "payable"}
    ensures m["openClaims"] == Some(o.openClaims) && m["settledClaims"] == Some(o.settledClaims)
    ensures m["openPayables"] == Some(o.openPayables) && m["settledPayables"] == Some(o.settledPayables)
    ensures m["claims"] == claims && m["payable"] == payable
  {
    map["openClaims" := Some(o.openClaims), "settledClaims" := Some(o.settledClaims),
        "openPayables" := Some(o.openPayables), "settledPayables" := Some(o.settledPayables),
        "claims" := claims, "payable" := payable]
  }

  /** getPartnerBalance: fails for an unknown partner; otherwise the balances of the stored
      row. The overview computation is a parameter. */
  method GetPartnerBalance(store: PartnerStore, partnerId: int, overview: PartnerState -> FinancialOverview)
    returns (r: Result<map<string, Option<Money>>>)
    ensures partnerId !in store.rows ==> r == Err(Runtime(NotFoundMessage(partnerId)))
    ensures partnerId in store.rows ==>
      var p := store.rows[partnerId];
      r == Ok(BalanceMap(overview(p), p.claims, p.payable))
  {
    var found := store.FindById(partnerId);
    if found.None? {
      return Err(Runtime(NotFoundMessage(partnerId)));
    }
    var partner := found.value;
    r := Ok(BalanceMap(overview(partner.State()), partner.claims, partner.payable));
  }
}
