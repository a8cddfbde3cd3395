/** The data logic of org.iu.handelspartnern.spark.controller.TradingPartnerController: its
    input helpers, the two partner update handlers and the financial-transaction guard.
    Library parsers (new BigDecimal, Long.valueOf, LocalDate.parse) are parameters that
    return None where the library throws. */
module SparkController {
  import opened Wrappers
  import opened Text
  import opened Domain
  import opened FinancialEntries
  import opened Partners
  import opened PartnerRepository
  import opened Lists
  import SparkService

  /** new BigDecimal(String). */
  type DecimalParser = string -> Option<Money>
  /** Long.valueOf(String). */
  type LongParser = string -> Option<int>
  /** LocalDate.parse(String). */
  type DateParser = string -> Option<Date>

  // ----- text -----

  /** clean / cleanText: trimmed text, or null when the input is null or blank. */
  function Clean(value: Option<string>): (r: Option<string>)
    ensures r.None? <==> value.None? || IsBlank(value.value)
    ensures r.Some? ==> r.value == Trim(value.value) && r.value != []
    ensures r.Some? ==> !IsTrimmable(r.value[0]) && !IsTrimmable(r.value[|r.value| - 1])
  {
    match value
    case None => None
    case Some(s) => if Trim(s) == [] then None else Some(Trim(s))
  }

  /** Cleaning a cleaned value changes nothing. */
  lemma CleanIdempotent(value: Option<string>)
    ensures Clean(Clean(value)) == Clean(value)
  {
    if value.Some? {
      TrimIdempotent(value.value);
    }
  }

  /** Text that neither starts nor ends with a trimmable character is kept as it is. */
  lemma CleanKeepsTrimmed(s: string)
    requires s != [] && !IsTrimmable(s[0]) && !IsTrimmable(s[|s| - 1])
    ensures Clean(Some(s)) == Some(s)
  {
    TrimOfTrimmed(s);
  }

  /** requireText: the cleaned text, or an IllegalArgumentException with exactly `message`. */
  function RequireText(raw: Option<string>, message: string): (r: Result<string>)
    ensures r.Err? <==> Clean(raw).None?
    ensures r.Err? ==> r.error == IllegalArgument(message)
    ensures r.Ok? ==> Some(r.value) == Clean(raw)
  {
    match Clean(raw)
    case None => Err(IllegalArgument(message))
    case Some(s) => Ok(s)
  }

  /** The message of the IllegalArgumentException Enum.valueOf throws for an unknown name. */
  function EnumMessage(enumName: string, constant: string): string {
    "No enum constant org.iu.handelspartnern.common.entity." + enumName + "." + constant
  }

  // ----- lenient enum parsing -----

  /** parsePartnerType: never fails. Blank text or an unknown name gives null; otherwise the
      constant whose name is the upper-cased text (the text is not trimmed). */
  function ParsePartnerType(raw: Option<string>): (r: Option<PartnerType>)
    ensures raw.None? || IsBlank(raw.value) ==> r.None?
    ensures r.Some? ==> r.value.Name() == ToUpper(raw.value)
    ensures raw.Some? && !IsBlank(raw.value) && r.None? ==> forall t: PartnerType :: t.Name() != ToUpper(raw.value)
  {
    if raw.None? || IsBlank(raw.value) then None else PartnerTypeValueOf(ToUpper(raw.value))
  }

  /** parsePartnerStatus, likewise. */
  function ParsePartnerStatus(raw: Option<string>): (r: Option<PartnerStatus>)
    ensures raw.None? || IsBlank(raw.value) ==> r.None?
    ensures r.Some? ==> r.value.Name() == ToUpper(raw.value)
    ensures raw.Some? && !IsBlank(raw.value) && r.None? ==> forall t: PartnerStatus :: t.Name() != ToUpper(raw.value)
  {
    if raw.None? || IsBlank(raw.value) then None else PartnerStatusValueOf(ToUpper(raw.value))
  }

  lemma PartnerTypeNameIsConstantName(t: PartnerType)
    ensures IsConstantName(t.Name()) && t.Name() != []
  {
    match t
    case Supplier =>
    case Customer =>
    case Partner =>
  }

  lemma PartnerStatusNameIsConstantName(s: PartnerStatus)
    ensures IsConstantName(s.Name()) && s.Name() != []
  {
    match s
    case Active =>
    case PendingApproval =>
    case Inactive =>
    case Suspended =>
  }

  /** Distinct types have distinct names. */
  lemma PartnerTypeNameInjective(a: PartnerType, b: PartnerType)
    requires a.Name() == b.Name()
    ensures a == b
  {
  }

  /** Distinct statuses have distinct names. */
  lemma PartnerStatusNameInjective(a: PartnerStatus, b: PartnerStatus)
    requires a.Name() == b.Name()
    ensures a == b
  {
  }

  /** A non-blank text whose upper case is a type's name parses to that type. */
  lemma ParsedTypeFromName(x: string, t: PartnerType)
    requires !IsBlank(x) && ToUpper(x) == t.Name()
    ensures ParsePartnerType(Some(x)) == Some(t)
  {
    var r := ParsePartnerType(Some(x));
    assert r.Some?;
    PartnerTypeNameInjective(r.value, t);
  }

  /** A non-blank text whose upper case is a status's name parses to that status. */
  lemma ParsedStatusFromName(x: string, s: PartnerStatus)
    requires !IsBlank(x) && ToUpper(x) == s.Name()
    ensures ParsePartnerStatus(Some(x)) == Some(s)
  {
    var r := ParsePartnerStatus(Some(x));
    assert r.Some?;
    PartnerStatusNameInjective(r.value, s);
  }

  /** Parsing a type ignores case: every constant is found from its name in upper or lower
      case. */
  lemma ParsePartnerTypeIgnoresCase(t: PartnerType)
    ensures ParsePartnerType(Some(t.Name())) == Some(t)
    ensures ParsePartnerType(Some(ToLower(t.Name()))) == Some(t)
  {
    PartnerTypeNameIsConstantName(t);
    ConstantNameNotBlank(t.Name());
    UpperOfConstantName(t.Name());
    UpperOfLowerName(t.Name());
    ParsedTypeFromName(t.Name(), t);
    ParsedTypeFromName(ToLower(t.Name()), t);
  }

  /** Parsing a status ignores case, likewise. */
  lemma ParsePartnerStatusIgnoresCase(s: PartnerStatus)
    ensures ParsePartnerStatus(Some(s.Name())) == Some(s)
    ensures ParsePartnerStatus(Some(ToLower(s.Name()))) == Some(s)
  {
    PartnerStatusNameIsConstantName(s);
    ConstantNameNotBlank(s.Name());
    UpperOfConstantName(s.Name());
    UpperOfLowerName(s.Name());
    ParsedStatusFromName(s.Name(), s);
    ParsedStatusFromName(ToLower(s.Name()), s);
  }

  // ----- numbers and dates -----

  /** parseBigDecimal: the trimmed text as a number, or the fallback when the text is null or
      not a number. */
  function ParseBigDecimal(raw: Option<string>, fallback: Option<Money>, parse: DecimalParser): (r: Option<Money>)
    ensures raw.None? ==> r == fallback
    ensures raw.Some? && parse(Trim(raw.value)).Some? ==> r == parse(Trim(raw.value))
    ensures raw.Some? && parse(Trim(raw.value)).None? ==> r == fallback
  {
    match raw
    case None => fallback
    case Some(s) => if parse(Trim(s)).Some? then parse(Trim(s)) else fallback
  }

  /** parseAmount: the number, or IllegalArgumentException "Ungültiger Betrag: " + the text. */
  function ParseAmount(raw: string, parse: DecimalParser): (r: Result<Money>)
    ensures r.Ok? <==> parse(raw).Some?
    ensures r.Ok? ==> r.value == parse(raw).value
    ensures r.Err? ==> r.error == IllegalArgument("Ungültiger Betrag: " + raw)
  {
    match parse(raw)
    case Some(v) => Ok(v)
    case None => Err(IllegalArgument("Ungültiger Betrag: " + raw))
  }

  /** A JSON payload value as the controller sees it: an integral number or a text. */
  datatype JsonValue = Number(n: int) | Text(s: string)

  /** Objects.toString(value, default). */
  function ValueText(v: Option<JsonValue>, default: Option<string>): (r: Option<string>)
    ensures v.None? ==> r == default
    ensures v.Some? && v.value.Text? ==> r == Some(v.value.s)
    ensures v.Some? && v.value.Number? ==> r == Some(IntToString(v.value.n))
  {
    match v
    case None => default
    case Some(Number(n)) => Some(IntToString(n))
    case Some(Text(s)) => Some(s)
  }

  /** parseRequiredLong: a number as it is, a text through Long.valueOf; null or an unreadable
      text give IllegalArgumentException with `message`. */
  function ParseRequiredLong(value: Option<JsonValue>, message: string, parse: LongParser): (r: Result<int>)
    ensures value.None? ==> r == Err(IllegalArgument(message))
    ensures value.Some? && value.value.Number? ==> r == Ok(value.value.n)
    ensures value.Some? && value.value.Text? ==>
      (parse(value.value.s).Some? ==> r == Ok(parse(value.value.s).value))
      && (parse(value.value.s).None? ==> r == Err(IllegalArgument(message)))
  {
    match value
    case None => Err(IllegalArgument(message))
    case Some(Number(n)) => Ok(n)
    case Some(Text(s)) => if parse(s).Some? then Ok(parse(s).value) else Err(IllegalArgument(message))
  }

  /** parseDate: today for null or blank text (String.isBlank), otherwise LocalDate.parse,
      whose failure is a DateTimeParseException. */
  function ParseDate(raw: Option<string>, parse: DateParser, today: Date): (r: Result<Date>)
    ensures raw.None? || IsJavaBlank(raw.value) ==> r == Ok(today)
    ensures raw.Some? && !IsJavaBlank(raw.value) ==>
      (parse(raw.value).Some? ==> r == Ok(parse(raw.value).value))
      && (parse(raw.value).None? ==> r == Err(DateTimeParse(raw.value)))
  {
    if raw.None? || IsJavaBlank(raw.value) then Ok(today)
    else if parse(raw.value).Some? then Ok(parse(raw.value).value)
    else Err(DateTimeParse(raw.value))
  }

  // ----- contacts and addresses -----

  /** normalizeContact: every field cleaned; null when the input is null or when name, email
      and phone are all missing (a role alone does not keep a contact). */
  function NormalizeContact(incoming: Option<Contact>): (r: Option<Contact>)
    ensures r.None? <==> (incoming.None?
      || (Clean(incoming.value.name).None? && Clean(incoming.value.email).None? && Clean(incoming.value.phone).None?))
    ensures r.Some? ==> r.value == Contact(Clean(incoming.value.name), Clean(incoming.value.email),
      Clean(incoming.value.phone), Clean(incoming.value.role))
  {
    match incoming
    case None => None
    case Some(c) =>
      var contact := Contact(Clean(c.name), Clean(c.email), Clean(c.phone), Clean(c.role));
      if contact.name.None? && contact.email.None? && contact.phone.None? then None else Some(contact)
  }

  /** A normalized contact normalizes to itself. */
  lemma NormalizeContactIdempotent(incoming: Option<Contact>)
    requires NormalizeContact(incoming).Some?
    ensures NormalizeContact(NormalizeContact(incoming)) == NormalizeContact(incoming)
  {
    var c := incoming.value;
    CleanIdempotent(c.name);
    CleanIdempotent(c.email);
    CleanIdempotent(c.phone);
    CleanIdempotent(c.role);
  }

  /** normalizeAddress: every field cleaned; null when the input is null or street or city is
      missing; a missing type becomes "Hauptadresse" and a missing country "Deutschland",
      while a missing zip code stays null. */
  function NormalizeAddress(incoming: Option<Address>): (r: Option<Address>)
    ensures r.None? <==> incoming.None? || Clean(incoming.value.street).None? || Clean(incoming.value.city).None?
    ensures r.Some? ==>
      var a := incoming.value;
      r.value == Address(Clean(a.street), Clean(a.city), Clean(a.zipCode),
        Some(Clean(a.country).GetOr("Deutschland")), Some(Clean(a.addressType).GetOr("Hauptadresse")))
  {
    match incoming
    case None => None
    case Some(a) =>
      var address := Address(Clean(a.street), Clean(a.city), Clean(a.zipCode), Clean(a.country), Clean(a.addressType));
      if address.street.None? || address.city.None? then None
      else
        var typed := if address.addressType.None? then address.(addressType := Some("Hauptadresse")) else address;
        Some(if typed.country.None? then typed.(country := Some("Deutschland")) else typed)
  }

  /** A cleaned value with a clean default in place of null cleans to itself. */
  lemma CleanDefaulted(value: Option<string>, default: string)
    requires Clean(Some(default)) == Some(default)
    ensures Clean(Some(Clean(value).GetOr(default))) == Some(Clean(value).GetOr(default))
  {
    CleanIdempotent(value);
  }

  /** An address whose fields are all clean, with street, city, country and type present,
      normalises to itself. */
  lemma NormalizeAddressKeepsClean(a: Address)
    requires a.street.Some? && a.city.Some? && a.country.Some? && a.addressType.Some?
    requires Clean(a.street) == a.street && Clean(a.city) == a.city && Clean(a.zipCode) == a.zipCode
    requires Clean(a.country) == a.country && Clean(a.addressType) == a.addressType
    ensures NormalizeAddress(Some(a)) == Some(a)
  {
  }

  /** A normalized address normalizes to itself. */
  lemma NormalizeAddressIdempotent(incoming: Option<Address>)
    requires NormalizeAddress(incoming).Some?
    ensures NormalizeAddress(NormalizeAddress(incoming)) == NormalizeAddress(incoming)
  {
    var a := incoming.value;
    var r := NormalizeAddress(incoming).value;
    assert r.street == Clean(a.street) && r.city == Clean(a.city) && r.zipCode == Clean(a.zipCode);
    assert r.country == Some(Clean(a.country).GetOr("Deutschland"));
    assert r.addressType == Some(Clean(a.addressType).GetOr("Hauptadresse"));
    assert Clean(r.street) == r.street by { CleanIdempotent(a.street); }
    assert Clean(r.city) == r.city by { CleanIdempotent(a.city); }
    assert Clean(r.zipCode) == r.zipCode by { CleanIdempotent(a.zipCode); }
    assert Clean(r.country) == r.country by {
      CleanKeepsTrimmed("Deutschland");
      CleanDefaulted(a.country, "Deutschland");
    }
    assert Clean(r.addressType) == r.addressType by {
      CleanKeepsTrimmed("Hauptadresse");
      CleanDefaulted(a.addressType, "Hauptadresse");
    }
    NormalizeAddressKeepsClean(r);
  }

  /** Every contact the extension step keeps is a normalized input contact, and has a name,
      an email or a phone number. */
  lemma NormalizedContactsAreReachable(incoming: seq<Option<Contact>>)
    ensures forall c :: c in FilterMap(incoming, NormalizeContact) ==>
      (c.name.Some? || c.email.Some? || c.phone.Some?)
      && exists i :: 0 <= i < |incoming| && NormalizeContact(incoming[i]) == Some(c)
  {
  }

  // ----- applyPartnerExtensions -----

  /** The payload of PUT /api/partners/:id. Each text is the value under its key (as the cast
      or toString gives it), or None when the key is missing or null. */
  datatype PartnerPayload = PartnerPayload(
    name: Option<string>,
    partnerType: Option<string>,
    status: Option<string>,
    taxId: Option<string>,
    paymentTerms: Option<string>,
    about: Option<string>,
    corporateImageUrl: Option<string>,
    claims: Option<string>,
    payable: Option<string>,
    payables: Option<string>,
    contacts: Option<seq<Option<Contact>>>,
    addresses: Option<seq<Option<Address>>>)

  /** The value read for the payable amount: "payable" when present, else "payables". */
  function PayablesRaw(payload: PartnerPayload): (r: Option<string>)
    ensures payload.payable.Some? ==> r == payload.payable
    ensures payload.payable.None? ==> r == payload.payables
  {
    if payload.payable.Some? then payload.payable else payload.payables
  }

  /** The status text applyPartnerExtensions uses: present and non-empty after trimming, which
      is what Clean keeps. */
  function ExtensionStatusText(payload: PartnerPayload): (r: Option<string>)
    ensures r == Clean(payload.status)
  {
    if payload.status.Some? && Trim(payload.status.value) != [] then Some(Trim(payload.status.value)) else None
  }

  /** The state applyPartnerExtensions leaves, or the exception it throws. The status comes
      first, so an unknown status fails before anything changes. */
  function Extended(s: PartnerState, payload: PartnerPayload, parse: DecimalParser): (r: Result<PartnerState>)
    ensures r.Err? <==> ExtensionStatusText(payload).Some? && PartnerStatusValueOf(ToUpper(ExtensionStatusText(payload).value)).None?
    ensures r.Ok? && ExtensionStatusText(payload).Some? ==> r.value.status.Some? && r.value.status.value.Name() == ToUpper(ExtensionStatusText(payload).value)
    ensures r.Ok? && ExtensionStatusText(payload).None? ==> r.value.status == s.status
    ensures r.Ok? ==> r.value.claims == if payload.claims.Some? then ParseBigDecimal(payload.claims, s.claims, parse) else s.claims
    ensures r.Ok? ==> r.value.payable == if PayablesRaw(payload).Some? then ParseBigDecimal(PayablesRaw(payload), s.payable, parse) else s.payable
    ensures r.Ok? ==> r.value.contacts == if payload.contacts.Some? then Some(FilterMap(payload.contacts.value, NormalizeContact)) else s.contacts
    ensures r.Ok? ==> r.value.addresses == if payload.addresses.Some? then Some(FilterMap(payload.addresses.value, NormalizeAddress)) else s.addresses
    ensures r.Ok? ==> r.value.(status := s.status, claims := s.claims, payable := s.payable,
      contacts := s.contacts, addresses := s.addresses) == s
  {
    var statusText := ExtensionStatusText(payload);
    if statusText.Some? && PartnerStatusValueOf(ToUpper(statusText.value)).None? then
      Err(IllegalArgument(EnumMessage("PartnerStatus", ToUpper(statusText.value))))
    else
      var s1 := if statusText.Some? then s.(status := PartnerStatusValueOf(ToUpper(statusText.value))) else s;
      var s2 := if payload.claims.Some? then s1.(claims := ParseBigDecimal(payload.claims, s1.claims, parse)) else s1;
      var raw := PayablesRaw(payload);
      var s3 := if raw.Some? then s2.(payable := ParseBigDecimal(raw, s2.payable, parse)) else s2;
      var s4 := if payload.contacts.Some? then s3.(contacts := Some(FilterMap(payload.contacts.value, NormalizeContact))) else s3;
      Ok(if payload.addresses.Some? then s4.(addresses := Some(FilterMap(payload.addresses.value, NormalizeAddress))) else s4)
  }

  /** applyPartnerExtensions on the entity, through its setters. */
  method ApplyPartnerExtensions(partner: TradingPartner, payload: PartnerPayload, parse: DecimalParser) returns (o: Outcome)
    modifies partner
    ensures o.Pass? <==> Extended(old(partner.State()), payload, parse).Ok?
    ensures o.Pass? ==> partner.State() == Extended(old(partner.State()), payload, parse).value
    ensures o.Fail? ==> (o.error == Extended(old(partner.State()), payload, parse).error
      && partner.State() == old(partner.State()))
  {
    if payload.status.Some? {
      var statusText := Trim(payload.status.value);
      if statusText != [] {
        var status := PartnerStatusValueOf(ToUpper(statusText));
        if status.None? {
          return Fail(IllegalArgument(EnumMessage("PartnerStatus", ToUpper(statusText))));
        }
        partner.SetStatus(status);
      }
    }
    if payload.claims.Some? {
      partner.SetClaims(ParseBigDecimal(payload.claims, partner.claims, parse));
    }
    var payablesRaw := PayablesRaw(payload);
    if payablesRaw.Some? {
      partner.SetPayable(ParseBigDecimal(payablesRaw, partner.payable, parse));
    }
    if payload.contacts.Some? {
      partner.SetContacts(Some(FilterMap(payload.contacts.value, NormalizeContact)));
    }
    if payload.addresses.Some? {
      partner.SetAddresses(Some(FilterMap(payload.addresses.value, NormalizeAddress)));
    }
    o := Pass;
  }

  // ----- PUT /api/partners/:id -----

  /** The value a field takes when the handler sets it only from a present value. */
  function OrElse<T>(given: Option<T>, current: Option<T>): (r: Option<T>)
    ensures given.Some? ==> r == given
    ensures given.None? ==> r == current
  {
    if given.Some? then given else current
  }

  /** The type, then the status, of the JSON handler: a cleaned text, upper-cased, must name a
      constant; a missing or blank one leaves the field. */
  function JsonEnums(s: PartnerState, payload: PartnerPayload): (r: Result<PartnerState>)
    ensures var t := Clean(payload.partnerType); var st := Clean(payload.status);
      && (t.Some? && PartnerTypeValueOf(ToUpper(t.value)).None? ==>
            r == Err(IllegalArgument(EnumMessage("PartnerType", ToUpper(t.value)))))
      && ((t.None? || PartnerTypeValueOf(ToUpper(t.value)).Some?) && st.Some? && PartnerStatusValueOf(ToUpper(st.value)).None? ==>
            r == Err(IllegalArgument(EnumMessage("PartnerStatus", ToUpper(st.value)))))
      && (r.Ok? <==> (t.None? || PartnerTypeValueOf(ToUpper(t.value)).Some?) && (st.None? || PartnerStatusValueOf(ToUpper(st.value)).Some?))
      && (r.Ok? && t.Some? ==> r.value.partnerType.Some? && r.value.partnerType.value.Name() == ToUpper(t.value))
      && (r.Ok? && st.Some? ==> r.value.status.Some? && r.value.status.value.Name() == ToUpper(st.value))
      && (r.Ok? && t.None? ==> r.value.partnerType == s.partnerType)
      && (r.Ok? && st.None? ==> r.value.status == s.status)
    ensures r.Ok? ==> r.value.(partnerType := s.partnerType, status := s.status) == s
  {
    var typeText := Clean(payload.partnerType);
    var statusText := Clean(payload.status);
    if typeText.Some? && PartnerTypeValueOf(ToUpper(typeText.value)).None? then
      Err(IllegalArgument(EnumMessage("PartnerType", ToUpper(typeText.value))))
    else if statusText.Some? && PartnerStatusValueOf(ToUpper(statusText.value)).None? then
      Err(IllegalArgument(EnumMessage("PartnerStatus", ToUpper(statusText.value))))
    else
      var s1 := if typeText.Some? then s.(partnerType := PartnerTypeValueOf(ToUpper(typeText.value))) else s;
      Ok(if statusText.Some? then s1.(status := PartnerStatusValueOf(ToUpper(statusText.value))) else s1)
  }

  /** The texts the JSON handler sets after the enums, from their cleaned values. */
  function JsonTexts(s: PartnerState, payload: PartnerPayload): (r: PartnerState)
    ensures r.taxId == OrElse(Clean(payload.taxId), s.taxId) && r.paymentTerms == OrElse(Clean(payload.paymentTerms), s.paymentTerms)
    ensures r.about == OrElse(Clean(payload.about), s.about) && r.corporateImageUrl == OrElse(Clean(payload.corporateImageUrl), s.corporateImageUrl)
    ensures r.(taxId := s.taxId, paymentTerms := s.paymentTerms, about := s.about, corporateImageUrl := s.corporateImageUrl) == s
  {
    s.(taxId := OrElse(Clean(payload.taxId), s.taxId), paymentTerms := OrElse(Clean(payload.paymentTerms), s.paymentTerms),
      about := OrElse(Clean(payload.about), s.about), corporateImageUrl := OrElse(Clean(payload.corporateImageUrl), s.corporateImageUrl))
  }

  /** The state the JSON update handler gives a loaded partner before saving it: the cleaned
      name, the enums, the other cleaned texts, then applyPartnerExtensions. */
  function JsonUpdated(s: PartnerState, payload: PartnerPayload, parse: DecimalParser): (r: Result<PartnerState>)
  {
    match JsonEnums(s.(name := OrElse(Clean(payload.name), s.name)), payload)
    case Err(e) => Err(e)
    case Ok(s2) => Extended(JsonTexts(s2, payload), payload, parse)
  }

  /** The JSON update never clears a NOT NULL column: each text falls back to the stored value,
      the enums and amounts either parse or keep theirs, and contacts stay a list. */
  lemma JsonUpdatedKeepsNotNullColumns(s: PartnerState, payload: PartnerPayload, parse: DecimalParser)
    requires NotNullColumnsSet(s)
    requires JsonUpdated(s, payload, parse).Ok?
    ensures NotNullColumnsSet(JsonUpdated(s, payload, parse).value)
  {
  }

  /** The handler fails exactly when the type or the status names no constant: the status test
      of applyPartnerExtensions repeats one that has already passed. */
  lemma JsonUpdatedFailsOnlyOnEnums(s: PartnerState, payload: PartnerPayload, parse: DecimalParser)
    ensures JsonUpdated(s, payload, parse).Err? <==> JsonEnums(s, payload).Err?
  {
    var named := s.(name := OrElse(Clean(payload.name), s.name));
    var e1 := JsonEnums(named, payload);
    assert e1.Ok? <==> JsonEnums(s, payload).Ok?;
    if e1.Ok? {
      assert ExtensionStatusText(payload) == Clean(payload.status);
      assert Extended(JsonTexts(e1.value, payload), payload, parse).Ok?;
    }
  }

  /** On success every cleaned text lands in its field, the type and status are those the
      enum step chose, and the identity, timestamps and entries are untouched. */
  lemma JsonUpdatedFields(s: PartnerState, payload: PartnerPayload, parse: DecimalParser)
    requires JsonUpdated(s, payload, parse).Ok?
    ensures var r := JsonUpdated(s, payload, parse).value;
      && r.name == OrElse(Clean(payload.name), s.name)
      && r.taxId == OrElse(Clean(payload.taxId), s.taxId)
      && r.about == OrElse(Clean(payload.about), s.about)
      && r.paymentTerms == OrElse(Clean(payload.paymentTerms), s.paymentTerms)
      && r.corporateImageUrl == OrElse(Clean(payload.corporateImageUrl), s.corporateImageUrl)
      && r.partnerType == JsonEnums(s, payload).value.partnerType
      && r.status == JsonEnums(s, payload).value.status
      && r.id == s.id && r.dateCreated == s.dateCreated && r.dateModified == s.dateModified
      && r.financialEntries == s.financialEntries
  {
    var named := s.(name := OrElse(Clean(payload.name), s.name));
    var e1 := JsonEnums(named, payload);
    var t := JsonTexts(e1.value, payload);
    assert ExtensionStatusText(payload) == Clean(payload.status);
    var r := Extended(t, payload, parse).value;
    assert r.status == t.status;
  }

  /** Lines 482-499 on the loaded entity, through its setters. On failure the name, and the
      type when only the status failed, may already be set; the copy is discarded then. */
  method ApplyJsonUpdate(existing: TradingPartner, payload: PartnerPayload, parse: DecimalParser) returns (o: Outcome)
    modifies existing
    ensures o.Pass? <==> JsonUpdated(old(existing.State()), payload, parse).Ok?
    ensures o.Pass? ==> existing.State() == JsonUpdated(old(existing.State()), payload, parse).value
    ensures o.Fail? ==> o.error == JsonUpdated(old(existing.State()), payload, parse).error
    ensures o.Fail? ==> existing.State().(name := old(existing.name), partnerType := old(existing.partnerType)) == old(existing.State())
  {
    var name := Clean(payload.name);
    if name.Some? {
      existing.SetName(name);
    }
    o := ApplyJsonEnums(existing, payload);
    if o.Fail? {
      return;
    }
    ApplyJsonTexts(existing, payload);
    o := ApplyPartnerExtensions(existing, payload, parse);
  }

  /** The text steps of the JSON handler after the enums, on the entity. */
  method ApplyJsonTexts(existing: TradingPartner, payload: PartnerPayload)
    modifies existing
    ensures existing.State() == JsonTexts(old(existing.State()), payload)
  {
    var taxId := Clean(payload.taxId);
    if taxId.Some? {
      existing.SetTaxId(taxId);
    }
    var paymentTerms := Clean(payload.paymentTerms);
    if paymentTerms.Some? {
      existing.SetPaymentTerms(paymentTerms);
    }
    var about := Clean(payload.about);
    if about.Some? {
      existing.SetAbout(about);
    }
    var image := Clean(payload.corporateImageUrl);
    if image.Some? {
      existing.SetCorporateImageUrl(image);
    }
  }

  /** The type and status steps of the JSON handler on the entity. */
  method ApplyJsonEnums(existing: TradingPartner, payload: PartnerPayload) returns (o: Outcome)
    modifies existing
    ensures o.Pass? <==> JsonEnums(old(existing.State()), payload).Ok?
    ensures o.Pass? ==> existing.State() == JsonEnums(old(existing.State()), payload).value
    ensures o.Fail? ==> o.error == JsonEnums(old(existing.State()), payload).error
    ensures o.Fail? ==> existing.State().(partnerType := old(existing.partnerType)) == old(existing.State())
  {
    var typeText := Clean(payload.partnerType);
    if typeText.Some? {
      var t := PartnerTypeValueOf(ToUpper(typeText.value));
      if t.None? {
        return Fail(IllegalArgument(EnumMessage("PartnerType", ToUpper(typeText.value))));
      }
      existing.SetType(t);
    }
    var statusText := Clean(payload.status);
    if statusText.Some? {
      var st := PartnerStatusValueOf(ToUpper(statusText.value));
      if st.None? {
        return Fail(IllegalArgument(EnumMessage("PartnerStatus", ToUpper(statusText.value))));
      }
      existing.SetStatus(st);
    }
    o := Pass;
  }

  /** The PUT /api/partners/:id handler as written: load, apply the payload to the loaded copy,
      then hand that copy to the Spark service's updatePartner. A payload the handler refuses
      leaves the table as it was. */
  method PutPartner(store: PartnerStore, id: int, payload: PartnerPayload, parse: DecimalParser, now: Timestamp)
    returns (r: Result<TradingPartner>)
    requires store.Valid()
    modifies store
    ensures store.Valid()
    ensures r.Err? ==> store.rows == old(store.rows)
    ensures id !in old(store.rows) ==> r == Err(Runtime("Partner nicht gefunden"))
    ensures id in old(store.rows) ==>
      var before := old(store.rows)[id];
      var edited := JsonUpdated(before, payload, parse);
      && (r.Ok? <==> edited.Ok?)
      && (edited.Ok? ==> store.rows == old(store.rows)[id := SparkService.SparkUpdated(before, edited.value).(dateModified := Some(now))])
  {
    var found := store.FindById(id);
    if found.None? {
      return Err(Runtime("Partner nicht gefunden"));
    }
    var existing := found.value;
    var o := ApplyJsonUpdate(existing, payload, parse);
    if o.Fail? {
      return Err(o.error);
    }
    JsonUpdatedKeepsNotNullColumns(old(store.rows)[id], payload, parse);
    r := SparkService.UpdatePartner(store, id, existing.State(), now);
  }

  /** The same handler saving the edited copy itself, so that everything applyPartnerExtensions
      set (claims, payable, contacts, addresses) is stored. */
  method PutPartnerPersistingExtensions(store: PartnerStore, id: int, payload: PartnerPayload, parse: DecimalParser, now: Timestamp)
    returns (r: Result<TradingPartner>)
    requires store.Valid()
    modifies store
    ensures store.Valid()
    ensures r.Err? ==> store.rows == old(store.rows)
    ensures id !in old(store.rows) ==> r == Err(Runtime("Partner nicht gefunden"))
    ensures id in old(store.rows) ==>
      var before := old(store.rows)[id];
      var edited := JsonUpdated(before, payload, parse);
      && (r.Ok? <==> edited.Ok?)
      && (edited.Ok? ==> store.rows == old(store.rows)[id := edited.value.(dateModified := Some(now))])
  {
    var found := store.FindById(id);
    if found.None? {
      return Err(Runtime("Partner nicht gefunden"));
    }
    var existing := found.value;
    var o := ApplyJsonUpdate(existing, payload, parse);
    if o.Fail? {
      return Err(o.error);
    }
    JsonUpdatedKeepsNotNullColumns(old(store.rows)[id], payload, parse);
    r := store.Save(existing, now);
  }

  /** What the stored row keeps through the handler as written: the extension fields never
      change, whatever the payload says. */
  lemma PutPartnerKeepsExtensionFields(before: PartnerState, payload: PartnerPayload, parse: DecimalParser, now: Timestamp)
    requires JsonUpdated(before, payload, parse).Ok?
    ensures var after := SparkService.SparkUpdated(before, JsonUpdated(before, payload, parse).value).(dateModified := Some(now));
      after.contacts == before.contacts && after.addresses == before.addresses
      && after.claims == before.claims && after.payable == before.payable
  {
  }

  /** A JSON body holding only a contact list. */
  function ContactsOnly(contacts: seq<Option<Contact>>): PartnerPayload {
    PartnerPayload(None, None, None, None, None, None, None, None, None, None, Some(contacts), None)
  }

  /** A payload holding only contacts replaces the contact list by its normalised contacts
      and changes nothing else. */
  lemma JsonUpdatedContactsOnly(s: PartnerState, contacts: seq<Option<Contact>>, parse: DecimalParser)
    ensures JsonUpdated(s, ContactsOnly(contacts), parse) == Ok(s.(contacts := Some(FilterMap(contacts, NormalizeContact))))
  {
    var payload := ContactsOnly(contacts);
    assert JsonEnums(s, payload) == Ok(s);
    assert JsonTexts(s, payload) == s;
    assert ExtensionStatusText(payload).None?;
  }

  /** A contact with only a clean name survives normalisation as it is. */
  lemma NamedContactKept(name: string)
    requires Clean(Some(name)) == Some(name)
    ensures var contact := Contact(Some(name), None, None, None);
      FilterMap([Some(contact)], NormalizeContact) == [contact]
  {
    var contact := Contact(Some(name), None, None, None);
    assert NormalizeContact(Some(contact)) == Some(contact);
    FilterMapAllKept([Some(contact)], NormalizeContact);
  }

  /** The contact of the example below: a name and nothing else. */
  const SampleContact := Contact(Some("Eva"), None, None, None)

  /** An input that shows the difference: a payload with one contact, on a partner without
      contacts. The edited copy holds the contact; the row the handler as written stores
      does not. */
  lemma PutPartnerDropsContacts(before: PartnerState, parse: DecimalParser)
    requires before.contacts == Some([])
    ensures var edited := JsonUpdated(before, ContactsOnly([Some(SampleContact)]), parse);
      && edited == Ok(before.(contacts := Some([SampleContact])))
      && SparkService.SparkUpdated(before, edited.value).contacts == Some([])
  {
    JsonUpdatedContactsOnly(before, [Some(SampleContact)], parse);
    CleanKeepsTrimmed("Eva");
    NamedContactKept("Eva");
  }

  // ----- form update (POST /partner/:id) -----

  /** The form fields of the partner edit form; None for a missing parameter. */
  datatype FormParams = FormParams(
    name: Option<string>, about: Option<string>, taxId: Option<string>, paymentTerms: Option<string>,
    corporateImageUrl: Option<string>, partnerType: Option<string>, status: Option<string>)

  /** The state the form handler gives a loaded partner: present parameters overwrite their
      fields unchanged (not trimmed, empty text included); type and status must be exact
      constant names. */
  function FormUpdated(s: PartnerState, form: FormParams): (r: Result<PartnerState>)
    ensures r.Err? <==> ((form.partnerType.Some? && PartnerTypeValueOf(form.partnerType.value).None?)
      || (form.status.Some? && PartnerStatusValueOf(form.status.value).None?))
    ensures r.Ok? ==> r.value.name == (if form.name.Some? then form.name else s.name)
    ensures r.Ok? ==> r.value.about == (if form.about.Some? then form.about else s.about)
    ensures r.Ok? ==> r.value.taxId == (if form.taxId.Some? then form.taxId else s.taxId)
    ensures r.Ok? ==> r.value.paymentTerms == (if form.paymentTerms.Some? then form.paymentTerms else s.paymentTerms)
    ensures r.Ok? ==> r.value.corporateImageUrl == (if form.corporateImageUrl.Some? then form.corporateImageUrl else s.corporateImageUrl)
    ensures r.Ok? && form.partnerType.Some? ==> r.value.partnerType.Some? && r.value.partnerType.value.Name() == form.partnerType.value
    ensures r.Ok? && form.partnerType.None? ==> r.value.partnerType == s.partnerType
    ensures r.Ok? && form.status.Some? ==> r.value.status.Some? && r.value.status.value.Name() == form.status.value
    ensures r.Ok? && form.status.None? ==> r.value.status == s.status
    ensures r.Ok? ==> r.value.(name := s.name, about := s.about, taxId := s.taxId, paymentTerms := s.paymentTerms,
      corporateImageUrl := s.corporateImageUrl, partnerType := s.partnerType, status := s.status) == s
  {
    var s1 := s.(
      name := if form.name.Some? then form.name else s.name,
      about := if form.about.Some? then form.about else s.about,
      taxId := if form.taxId.Some? then form.taxId else s.taxId,
      paymentTerms := if form.paymentTerms.Some? then form.paymentTerms else s.paymentTerms,
      corporateImageUrl := if form.corporateImageUrl.Some? then form.corporateImageUrl else s.corporateImageUrl);
    if form.partnerType.Some? && PartnerTypeValueOf(form.partnerType.value).None? then
      Err(IllegalArgument(EnumMessage("PartnerType", form.partnerType.value)))
    else
      var s2 := if form.partnerType.Some? then s1.(partnerType := PartnerTypeValueOf(form.partnerType.value)) else s1;
      if form.status.Some? && PartnerStatusValueOf(form.status.value).None? then
        Err(IllegalArgument(EnumMessage("PartnerStatus", form.status.value)))
      else
        Ok(if form.status.Some? then s2.(status := PartnerStatusValueOf(form.status.value)) else s2)
  }

  /** Lines 242-255 on the loaded entity, through its setters. */
  method ApplyFormUpdate(existing: TradingPartner, form: FormParams) returns (o: Outcome)
    modifies existing
    ensures o.Pass? <==> FormUpdated(old(existing.State()), form).Ok?
    ensures o.Pass? ==> existing.State() == FormUpdated(old(existing.State()), form).value
    ensures o.Fail? ==> o.error == FormUpdated(old(existing.State()), form).error
  {
    if form.name.Some? {
      existing.SetName(form.name);
    }
    if form.about.Some? {
      existing.SetAbout(form.about);
    }
    if form.taxId.Some? {
      existing.SetTaxId(form.taxId);
    }
    if form.paymentTerms.Some? {
      existing.SetPaymentTerms(form.paymentTerms);
    }
    if form.corporateImageUrl.Some? {
      existing.SetCorporateImageUrl(form.corporateImageUrl);
    }
    if form.partnerType.Some? {
      var t := PartnerTypeValueOf(form.partnerType.value);
      if t.None? {
        return Fail(IllegalArgument(EnumMessage("PartnerType", form.partnerType.value)));
      }
      existing.SetType(t);
    }
    if form.status.Some? {
      var st := PartnerStatusValueOf(form.status.value);
      if st.None? {
        return Fail(IllegalArgument(EnumMessage("PartnerStatus", form.status.value)));
      }
      existing.SetStatus(st);
    }
    o := Pass;
  }

  /** Every field the form can change is one the Spark service copies, so the form handler
      loses nothing on the way to the table. */
  lemma FormUpdateSurvivesService(s: PartnerState, form: FormParams)
    requires FormUpdated(s, form).Ok?
    ensures var edited := FormUpdated(s, form).value;
      SparkService.SparkUpdated(s, edited) == edited.(corporateImageUrl := Some(edited.ImageUrl()))
  {
  }

  // ----- POST /api/partners/financial-transaction -----

  /** The payload of a financial transaction, by key. */
  datatype TransactionPayload = TransactionPayload(
    partnerId: Option<JsonValue>,
    entryType: Option<JsonValue>,
    amount: Option<JsonValue>,
    purpose: Option<JsonValue>,
    reference: Option<JsonValue>,
    date: Option<JsonValue>)

  const MissingPartnerId := "Partner ID fehlt."
  const MissingType := "Transaktionstyp ist erforderlich."
  const NotPositive := "Betrag muss größer als 0 sein."

  /** The entry type as the handler reads it: required, cleaned text. */
  function TypeText(payload: TransactionPayload): Result<string> {
    RequireText(ValueText(payload.entryType, None), MissingType)
  }

  /** The amount text as the handler reads it: "0" when the amount is missing. */
  function AmountText(payload: TransactionPayload): (r: string)
    ensures payload.amount.None? ==> r == "0"
    ensures Some(r) == ValueText(payload.amount, Some("0"))
  {
    ValueText(payload.amount, Some("0")).value
  }

  /** The checks of the financial-transaction handler in order (partner id, type text, type
      name, amount text, amount > 0, date), then the entry it builds: OPEN, with the parsed
      amount, the purpose and reference texts ("" when missing) and the parsed date (today
      when blank). The refusal of a non-positive amount is a 400 response, written here as an
      IllegalArgument. */
  function NewTransaction(payload: TransactionPayload, parseLong: LongParser, parseDecimal: DecimalParser,
    parseDate: DateParser, today: Date, newId: Uuid, now: Timestamp): (r: Result<(int, FinancialEntry)>)
    ensures r.Ok? ==> var (partnerId, e) := r.value;
      && ParseRequiredLong(payload.partnerId, MissingPartnerId, parseLong) == Ok(partnerId)
      && TypeText(payload).Ok? && EntryTypeValueOf(ToUpper(TypeText(payload).value)) == e.kind
      && ParseAmount(AmountText(payload), parseDecimal).Ok?
      && e.amount == Some(ParseAmount(AmountText(payload), parseDecimal).value) && e.amount.value > 0.0
      && ParseDate(ValueText(payload.date, None), parseDate, today).Ok?
      && e.date == Some(ParseDate(ValueText(payload.date, None), parseDate, today).value)
      && e.status == Some(Open) && e.kind.Some? && e.kind.value.Name() == ToUpper(TypeText(payload).value)
      && e.purpose == ValueText(payload.purpose, Some("")) && e.reference == ValueText(payload.reference, Some(""))
      && e.id == Some(newId) && e.createdAt == Some(now)
    ensures ParseRequiredLong(payload.partnerId, MissingPartnerId, parseLong).Err? ==> r == Err(IllegalArgument(MissingPartnerId))
    ensures ParseRequiredLong(payload.partnerId, MissingPartnerId, parseLong).Ok? && Clean(ValueText(payload.entryType, None)).None?
      ==> r == Err(IllegalArgument(MissingType))
  {
    match ParseRequiredLong(payload.partnerId, MissingPartnerId, parseLong)
    case Err(e) => Err(e)
    case Ok(partnerId) =>
      match TypeText(payload)
      case Err(e) => Err(e)
      case Ok(typeRaw) =>
        match EntryTypeValueOf(ToUpper(typeRaw))
        case None => Err(IllegalArgument(EnumMessage("FinancialEntryType", ToUpper(typeRaw))))
        case Some(kind) =>
          match ParseAmount(AmountText(payload), parseDecimal)
          case Err(e) => Err(e)
          case Ok(amount) =>
            if amount <= 0.0 then Err(IllegalArgument(NotPositive))
            else
              match ParseDate(ValueText(payload.date, None), parseDate, today)
              case Err(e) => Err(e)
              case Ok(date) =>
                Ok((partnerId, NewEntryWith(Some(kind), Some(Open), Some(amount),
                  ValueText(payload.purpose, Some("")), ValueText(payload.reference, Some("")),
                  Some(date), newId, now, today)))
  }

  /** The later checks of the handler, once the partner id and the type text are readable:
      an unknown type name, an unparsable amount and an unparsable date each give their own
      error, and the handler accepts exactly when all checks pass. */
  lemma NewTransactionChecks(payload: TransactionPayload, parseLong: LongParser, parseDecimal: DecimalParser,
    parseDate: DateParser, today: Date, newId: Uuid, now: Timestamp)
    requires ParseRequiredLong(payload.partnerId, MissingPartnerId, parseLong).Ok? && TypeText(payload).Ok?
    ensures var r := NewTransaction(payload, parseLong, parseDecimal, parseDate, today, newId, now);
      var typeName := ToUpper(TypeText(payload).value);
      var amount := ParseAmount(AmountText(payload), parseDecimal);
      var date := ParseDate(ValueText(payload.date, None), parseDate, today);
      && (EntryTypeValueOf(typeName).None? ==> r == Err(IllegalArgument(EnumMessage("FinancialEntryType", typeName))))
      && (EntryTypeValueOf(typeName).Some? && amount.Err? ==>
            r == Err(IllegalArgument("Ungültiger Betrag: " + AmountText(payload))))
      && (EntryTypeValueOf(typeName).Some? && amount.Ok? && amount.value > 0.0 && date.Err? ==>
            r == Err(DateTimeParse(ValueText(payload.date, None).value)))
      && (r.Ok? <==> EntryTypeValueOf(typeName).Some? && amount.Ok? && amount.value > 0.0 && date.Ok?)
  {
  }

  /** An amount that is not above zero is refused, whatever follows it in the payload, once
      the partner id and the type are readable. */
  lemma NonPositiveAmountRefused(payload: TransactionPayload, parseLong: LongParser, parseDecimal: DecimalParser,
    parseDate: DateParser, today: Date, newId: Uuid, now: Timestamp)
    requires ParseRequiredLong(payload.partnerId, MissingPartnerId, parseLong).Ok?
    requires TypeText(payload).Ok? && EntryTypeValueOf(ToUpper(TypeText(payload).value)).Some?
    requires var a := parseDecimal(AmountText(payload)); a.Some? && a.value <= 0.0
    ensures NewTransaction(payload, parseLong, parseDecimal, parseDate, today, newId, now) == Err(IllegalArgument(NotPositive))
  {
  }

  /** A payload without an amount is refused as not positive: the missing amount reads as "0". */
  lemma MissingAmountRefused(payload: TransactionPayload, parseLong: LongParser, parseDecimal: DecimalParser,
    parseDate: DateParser, today: Date, newId: Uuid, now: Timestamp)
    requires payload.amount.None? && parseDecimal("0") == Some(0.0)
    requires ParseRequiredLong(payload.partnerId, MissingPartnerId, parseLong).Ok?
    requires TypeText(payload).Ok? && EntryTypeValueOf(ToUpper(TypeText(payload).value)).Some?
    ensures NewTransaction(payload, parseLong, parseDecimal, parseDate, today, newId, now) == Err(IllegalArgument(NotPositive))
  {
    NonPositiveAmountRefused(payload, parseLong, parseDecimal, parseDate, today, newId, now);
  }
}
