/** org.iu.handelspartnern.spark.service.TradingPartnerService: the Spark stack's service,
    over the same partner table. */
module SparkService {
  import opened Wrappers
  import opened Text
  import opened Domain
  import opened Partners
  import opened Dtos
  import opened PartnerRepository
  import opened Lists

  /** The size of the dashboard list. */
  const DashboardLimit := 10

  /** getAllPartners over what findWithFilters returned: one list row per partner, in order. */
  function GetAllPartners(found: seq<PartnerState>): (r: seq<TradingPartnerListDto>)
    ensures |r| == |found| && forall i :: 0 <= i < |found| ==> r[i] == ToListDto(found[i])
  {
    Map(found, ToListDto)
  }

  /** getDashboardPartners over what findWithFilters(null, ACTIVE, null) returned: the first
      ten rows, in order. */
  function GetDashboardPartners(found: seq<PartnerState>): (r: seq<TradingPartnerListDto>)
    ensures |r| == if |found| < DashboardLimit then |found| else DashboardLimit
    ensures forall i :: 0 <= i < |r| ==> r[i] == ToListDto(found[i])
  {
    Map(if |found| < DashboardLimit then found else found[..DashboardLimit], ToListDto)
  }

  /** When the rows are those the ACTIVE-status query selects, every dashboard row is ACTIVE. */
  lemma DashboardShowsActivePartners(found: seq<PartnerState>)
    requires forall p :: p in found ==> QueryMatches(None, Some(Active), None, p)
    ensures forall d :: d in GetDashboardPartners(found) ==> d.status == Some(Active)
  {
    var r := GetDashboardPartners(found);
    forall d | d in r ensures d.status == Some(Active) {
      var i :| 0 <= i < |r| && r[i] == d;
      assert found[i] in found;
    }
  }

  /** createPartner: PENDING_APPROVAL, "" for a missing about, "DE000000000" and "Net 30" for
      a missing tax id or payment terms; claims and payable keep the constructor's zero. */
  method CreatePartner(store: PartnerStore, dto: AddTradingPartnerDto, now: Timestamp) returns (saved: TradingPartner)
    requires store.Valid()
    modifies store
    ensures store.Valid()
    ensures fresh(saved)
    ensures saved.State() == PartnerState(
      Some(old(store.nextId)), dto.corporateImageUrl, Some(dto.name),
      Some(dto.taxId.GetOr("DE000000000")), Some(dto.paymentTerms.GetOr("Net 30")),
      Some(now), Some(now), Some(0.0), Some(0.0), Some(dto.partnerType), Some(PendingApproval),
      Some(dto.about.GetOr("")), Some([]), Some([]), Some([]))
    ensures store.rows == old(store.rows)[old(store.nextId) := saved.State()]
  {
    var partner := new TradingPartner();
    partner.SetName(Some(dto.name));
    partner.SetAbout(Some(dto.about.GetOr("")));
    partner.SetTaxId(Some(dto.taxId.GetOr("DE000000000")));
    partner.SetPaymentTerms(Some(dto.paymentTerms.GetOr("Net 30")));
    partner.SetCorporateImageUrl(dto.corporateImageUrl);
    partner.SetType(Some(dto.partnerType));
    partner.SetStatus(Some(PendingApproval));
    var r := store.Save(partner, now);
    saved := r.value;
  }

  /** The state updatePartner gives the stored partner: exactly name, about, tax id, payment
      terms, image (through the getter, so an unset image becomes the placeholder), type and
      status are copied; everything else stays. */
  function SparkUpdated(existing: PartnerState, updated: PartnerState): (r: PartnerState)
    ensures r.name == updated.name && r.about == updated.about && r.taxId == updated.taxId
    ensures r.paymentTerms == updated.paymentTerms && r.partnerType == updated.partnerType && r.status == updated.status
    ensures r.corporateImageUrl == Some(updated.ImageUrl())
    ensures r.id == existing.id && r.dateCreated == existing.dateCreated && r.dateModified == existing.dateModified
    ensures r.contacts == existing.contacts && r.addresses == existing.addresses
    ensures r.claims == existing.claims && r.payable == existing.payable
    ensures r.financialEntries == existing.financialEntries
  {
    existing.(name := updated.name, about := updated.about, taxId := updated.taxId,
      paymentTerms := updated.paymentTerms, corporateImageUrl := Some(updated.ImageUrl()),
      partnerType := updated.partnerType, status := updated.status)
  }

  /** updatePartner: an unknown id fails with "Partner not found: " and the id, saving
      nothing; otherwise the row becomes SparkUpdated of itself, with a new modification time,
      unless that leaves a NOT NULL column null, when the save is refused. */
  method UpdatePartner(store: PartnerStore, id: int, updated: PartnerState, now: Timestamp) returns (r: Result<TradingPartner>)
    requires store.Valid()
    modifies store
    ensures store.Valid()
    ensures id !in old(store.rows) ==>
      r == Err(Runtime("Partner not found: " + IntToString(id))) && store.rows == old(store.rows)
    ensures id in old(store.rows) ==>
      var next := SparkUpdated(old(store.rows)[id], updated).(dateModified := Some(now));
      && (r.Ok? <==> NotNullColumnsSet(next))
      && (r.Ok? ==> fresh(r.value) && r.value.State() == next && store.rows == old(store.rows)[id := next])
      && (r.Err? ==> r == Err(Runtime(NotNullViolation)) && store.rows == old(store.rows))
  {
    var found := store.FindById(id);
    if found.None? {
      return Err(Runtime("Partner not found: " + IntToString(id)));
    }
    var existing := found.value;
    existing.SetName(updated.name);
    existing.SetAbout(updated.about);
    existing.SetTaxId(updated.taxId);
    existing.SetPaymentTerms(updated.paymentTerms);
    existing.SetCorporateImageUrl(Some(updated.ImageUrl()));
    existing.SetType(updated.partnerType);
    existing.SetStatus(updated.status);
    r := store.Save(existing, now);
  }

  /** deletePartner: hands the id to the repository, which ignores an unknown one. */
  method DeletePartner(store: PartnerStore, id: int)
    requires store.Valid()
    modifies store
    ensures store.Valid()
    ensures store.rows == old(store.rows) - {id}
  {
    store.DeleteById(id);
  }
}
