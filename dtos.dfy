/** The two records that cross the service boundary: AddTradingPartnerDto (creation input)
    and TradingPartnerListDto (one row of a partner list). */
module Dtos {
  import opened Wrappers
  import opened Text
  import opened Domain
  import opened Partners

  /** AddTradingPartnerDto after its compact constructor has accepted it. The Optional
      components are Options; `name` is kept exactly as given, untrimmed. */
  datatype AddTradingPartnerDto = AddTradingPartnerDto(
    name: string,
    about: Option<string>,
    taxId: Option<string>,
    paymentTerms: Option<string>,
    corporateImageUrl: Option<string>,
    partnerType: PartnerType)

  const NameMessage := "Name cannot be null or empty"
  const TypeMessage := "Partner type cannot be null"

  /** The canonical constructor: a null or blank name is refused first, then a null type;
      otherwise every component is stored unchanged. */
  function NewAddTradingPartnerDto(
    name: Option<string>, about: Option<string>, taxId: Option<string>,
    paymentTerms: Option<string>, corporateImageUrl: Option<string>,
    partnerType: Option<PartnerType>): (r: Result<AddTradingPartnerDto>)
    ensures r.Ok? <==> name.Some? && !IsBlank(name.value) && partnerType.Some?
    ensures (name.None? || IsBlank(name.value)) ==> r == Err(IllegalArgument(NameMessage))
    ensures name.Some? && !IsBlank(name.value) && partnerType.None? ==> r == Err(IllegalArgument(TypeMessage))
    ensures r.Ok? ==> r.value == AddTradingPartnerDto(name.value, about, taxId, paymentTerms, corporateImageUrl, partnerType.value)
  {
    if name.None? || IsBlank(name.value) then Err(IllegalArgument(NameMessage))
    else if partnerType.None? then Err(IllegalArgument(TypeMessage))
    else Ok(AddTradingPartnerDto(name.value, about, taxId, paymentTerms, corporateImageUrl, partnerType.value))
  }

  /** An accepted record has a name that is not blank, so it holds at least one character
      above U+0020. */
  lemma AcceptedNameHasVisibleCharacter(
    name: Option<string>, about: Option<string>, taxId: Option<string>,
    paymentTerms: Option<string>, corporateImageUrl: Option<string>,
    partnerType: Option<PartnerType>)
    requires NewAddTradingPartnerDto(name, about, taxId, paymentTerms, corporateImageUrl, partnerType).Ok?
    ensures var d := NewAddTradingPartnerDto(name, about, taxId, paymentTerms, corporateImageUrl, partnerType).value;
      exists i :: 0 <= i < |d.name| && !IsTrimmable(d.name[i])
  {
    BlankIffAllTrimmable(name.value);
  }

  /** TradingPartnerListDto. */
  datatype TradingPartnerListDto = TradingPartnerListDto(
    id: Option<int>,
    name: Option<string>,
    corporateImageUrl: Option<string>,
    partnerType: Option<PartnerType>,
    status: Option<PartnerStatus>,
    claims: Option<Money>,
    payable: Option<Money>,
    dateModified: Option<Timestamp>)

  /** convertToListDto (both services): the fields copied through the getters, so the image is
      the stored URL or the placeholder, and the time is the modification time (Spark's
      getDateModified; Spring's getUpdated, taken to read the same field). */
  function ToListDto(p: PartnerState): (r: TradingPartnerListDto)
    ensures r.id == p.id && r.name == p.name && r.partnerType == p.partnerType && r.status == p.status
    ensures r.claims == p.claims && r.payable == p.payable && r.dateModified == p.dateModified
    ensures r.corporateImageUrl == Some(p.ImageUrl())
  {
    TradingPartnerListDto(p.id, p.name, Some(p.ImageUrl()), p.partnerType, p.status, p.claims, p.payable, p.dateModified)
  }
}
