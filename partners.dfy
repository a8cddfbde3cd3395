/** org.iu.handelspartnern.common.entity.TradingPartner: the mutable partner entity, its
    persisted state as a value, and the read-only views the two web stacks use. */
module Partners {
  import opened Wrappers
  import opened Text
  import opened Domain
  import opened FinancialEntries

  /** The text the image getter puts in front of the id when no image is set. */
  const PlaceholderPrefix := "https://picsum.photos/60/60?random="

  /** String concatenation with a nullable Long: the decimal digits, or "null". */
  function IdText(id: Option<int>): (r: string)
    ensures id.None? <==> r == "null"
  {
    match id
    case None => "null"
    case Some(n) => IntToString(n)
  }

  /** Distinct ids, null included, print differently. */
  lemma IdTextInjective(a: Option<int>, b: Option<int>)
    requires IdText(a) == IdText(b)
    ensures a == b
  {
    if a.Some? && b.Some? {
      IntToStringInjective(a.value, b.value);
    }
  }

  /** Everything a TradingPartner holds, as a value: what the database stores for one row and
      what a loaded entity starts from. TradingPartner.java declares no entry list field; it is
      the list the services read and replace. */
  datatype PartnerState = PartnerState(
    id: Option<int>,
    corporateImageUrl: Option<string>,
    name: Option<string>,
    taxId: Option<string>,
    paymentTerms: Option<string>,
    dateCreated: Option<Timestamp>,
    dateModified: Option<Timestamp>,
    claims: Option<Money>,
    payable: Option<Money>,
    partnerType: Option<PartnerType>,
    status: Option<PartnerStatus>,
    about: Option<string>,
    addresses: Option<seq<Address>>,
    contacts: Option<seq<Contact>>,
    financialEntries: Option<seq<Option<FinancialEntry>>>)
  {
    /** getCorporateImageUrl: the stored URL, or the placeholder followed by the id. */
    function ImageUrl(): (r: string)
      ensures corporateImageUrl.Some? ==> r == corporateImageUrl.value
      ensures corporateImageUrl.None? ==> StartsWith(r, PlaceholderPrefix) && r[|PlaceholderPrefix|..] == IdText(id)
    {
      match corporateImageUrl
      case Some(u) => u
      case None => PlaceholderPrefix + IdText(id)
    }

    /** getAddresses: never null. */
    function Addresses(): (r: seq<Address>)
      ensures addresses.Some? ==> r == addresses.value
      ensures addresses.None? ==> r == []
    {
      addresses.GetOr([])
    }

    /** getContacts: never null. */
    function Contacts(): (r: seq<Contact>)
      ensures contacts.Some? ==> r == contacts.value
      ensures contacts.None? ==> r == []
    {
      contacts.GetOr([])
    }

    /** The entry list, read as empty when absent. */
    function Entries(): (r: seq<Option<FinancialEntry>>)
      ensures financialEntries.Some? ==> r == financialEntries.value
      ensures financialEntries.None? ==> r == []
    {
      financialEntries.GetOr([])
    }
  }

  /** Two partners without a stored image get the same placeholder only when their ids agree. */
  lemma PlaceholderIdentifiesPartner(a: PartnerState, b: PartnerState)
    requires a.corporateImageUrl.None? && b.corporateImageUrl.None?
    requires a.ImageUrl() == b.ImageUrl()
    ensures a.id == b.id
  {
    assert IdText(a.id) == a.ImageUrl()[|PlaceholderPrefix|..];
    assert IdText(b.id) == b.ImageUrl()[|PlaceholderPrefix|..];
    IdTextInjective(a.id, b.id);
  }

  /** TradingPartner.FinancialOverview: the four ledger totals and the entry count. How the
      entity computes them is not part of this model. */
  datatype FinancialOverview = FinancialOverview(
    openClaims: Money, settledClaims: Money, openPayables: Money, settledPayables: Money,
    transactionCount: int)

  /** recalculateFinancials, taken as an unknown function from the entry list to the new
      claims and payable. */
  type Recalculation = seq<Option<FinancialEntry>> -> (Option<Money>, Option<Money>)

  /** The entity object. Every setter overwrites its own field and nothing else. */
  class TradingPartner {
    var id: Option<int>
    var corporateImageUrl: Option<string>
    var name: Option<string>
    var taxId: Option<string>
    var paymentTerms: Option<string>
    var dateCreated: Option<Timestamp>
    var dateModified: Option<Timestamp>
    var claims: Option<Money>
    var payable: Option<Money>
    var partnerType: Option<PartnerType>
    var status: Option<PartnerStatus>
    var about: Option<string>
    var addresses: Option<seq<Address>>
    var contacts: Option<seq<Contact>>
    var financialEntries: Option<seq<Option<FinancialEntry>>>

    function State(): PartnerState
      reads this
    {
      PartnerState(id, corporateImageUrl, name, taxId, paymentTerms, dateCreated, dateModified,
        claims, payable, partnerType, status, about, addresses, contacts, financialEntries)
    }

    /** The no-argument constructor. "Unbenannt" replaces the field initialiser's name; the
        taxId initialiser stays. */
    constructor()
      ensures id.None? && corporateImageUrl.None? && about.None?
      ensures name == Some("Unbenannt") && taxId == Some("DE000000000") && paymentTerms == Some("Net 30")
      ensures status == Some(Active) && partnerType == Some(Supplier)
      ensures addresses == Some([]) && contacts == Some([]) && financialEntries == Some([])
      ensures claims == Some(0.0) && payable == Some(0.0)
      ensures dateCreated.None? && dateModified.None?
    {
      id := None;
      corporateImageUrl := None;
      name := Some("Unnamed Partner");
      taxId := Some("DE000000000");
      paymentTerms := None;
      dateCreated := None;
      dateModified := None;
      claims := None;
      payable := None;
      partnerType := None;
      status := None;
      about := None;
      addresses := None;
      contacts := None;
      financialEntries := Some([]);
      new;
      name := Some("Unbenannt");
      paymentTerms := Some("Net 30");
      status := Some(Active);
      partnerType := Some(Supplier);
      addresses := Some([]);
      contacts := Some([]);
      claims := Some(0.0);
      payable := Some(0.0);
    }

    /** An entity filled from a stored row, as the persistence layer hands it out. */
    constructor Load(s: PartnerState)
      ensures State() == s
    {
      id, corporateImageUrl, name, taxId, paymentTerms := s.id, s.corporateImageUrl, s.name, s.taxId, s.paymentTerms;
      dateCreated, dateModified, claims, payable := s.dateCreated, s.dateModified, s.claims, s.payable;
      partnerType, status, about := s.partnerType, s.status, s.about;
      addresses, contacts, financialEntries := s.addresses, s.contacts, s.financialEntries;
    }

    /** @PrePersist: both timestamps become the same instant. */
    method OnCreate(now: Timestamp)
      modifies this
      ensures State() == old(State()).(dateCreated := Some(now), dateModified := Some(now))
    {
      dateCreated := Some(now);
      dateModified := Some(now);
    }

    /** @PreUpdate: only the modification time moves. */
    method OnUpdate(now: Timestamp)
      modifies this
      ensures State() == old(State()).(dateModified := Some(now))
      ensures dateCreated == old(dateCreated)
    {
      dateModified := Some(now);
    }

    /** getCorporateImageUrl. */
    function CorporateImageUrl(): (r: string)
      reads this
      ensures corporateImageUrl.Some? ==> r == corporateImageUrl.value
      ensures corporateImageUrl.None? ==> r == PlaceholderPrefix + IdText(id)
    {
      State().ImageUrl()
    }

    method SetId(v: Option<int>)
      modifies this
      ensures State() == old(State()).(id := v)
    {
      id := v;
    }

    method SetCorporateImageUrl(v: Option<string>)
      modifies this
      ensures State() == old(State()).(corporateImageUrl := v)
    {
      corporateImageUrl := v;
    }

    method SetName(v: Option<string>)
      modifies this
      ensures State() == old(State()).(name := v)
    {
      name := v;
    }

    method SetTaxId(v: Option<string>)
      modifies this
      ensures State() == old(State()).(taxId := v)
    {
      taxId := v;
    }

    method SetPaymentTerms(v: Option<string>)
      modifies this
      ensures State() == old(State()).(paymentTerms := v)
    {
      paymentTerms := v;
    }

    method SetClaims(v: Option<Money>)
      modifies this
      ensures State() == old(State()).(claims := v)
    {
      claims := v;
    }

    method SetPayable(v: Option<Money>)
      modifies this
      ensures State() == old(State()).(payable := v)
    {
      payable := v;
    }

    method SetType(v: Option<PartnerType>)
      modifies this
      ensures State() == old(State()).(partnerType := v)
    {
      partnerType := v;
    }

    method SetStatus(v: Option<PartnerStatus>)
      modifies this
      ensures State() == old(State()).(status := v)
    {
      status := v;
    }

    method SetAbout(v: Option<string>)
      modifies this
      ensures State() == old(State()).(about := v)
    {
      about := v;
    }

    method SetAddresses(v: Option<seq<Address>>)
      modifies this
      ensures State() == old(State()).(addresses := v)
    {
      addresses := v;
    }

    method SetContacts(v: Option<seq<Contact>>)
      modifies this
      ensures State() == old(State()).(contacts := v)
    {
      contacts := v;
    }

    /** setUpdated, which the services call; it sets the modification time. */
    method SetUpdated(v: Timestamp)
      modifies this
      ensures State() == old(State()).(dateModified := Some(v))
    {
      dateModified := Some(v);
    }

    method SetFinancialEntries(v: Option<seq<Option<FinancialEntry>>>)
      modifies this
      ensures State() == old(State()).(financialEntries := v)
    {
      financialEntries := v;
    }

    /** addFinancialEntry: the entry goes to the end of the list; earlier entries stay. */
    method AddFinancialEntry(e: FinancialEntry)
      modifies this
      ensures State() == old(State()).(financialEntries := Some(old(State().Entries()) + [Some(e)]))
    {
      financialEntries := Some(State().Entries() + [Some(e)]);
    }

    /** recalculateFinancials: claims and payable come from the entry list. */
    method RecalculateFinancials(recalc: Recalculation)
      modifies this
      ensures var (c, p) := recalc(old(State().Entries()));
        State() == old(State()).(claims := c, payable := p)
    {
      var (c, p) := recalc(State().Entries());
      claims, payable := c, p;
    }
  }
}
