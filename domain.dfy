/** The value types shared by both web stacks: the partner enums, contacts, addresses,
    money, dates, timestamps and UUIDs. */
module Domain {
  import opened Wrappers
  import opened Text

  /** java.math.BigDecimal. Exact; the decimal scale is not modelled. */
  type Money = real

  /** java.time.LocalDateTime, as a point on a totally ordered time line. */
  type Timestamp = int

  /** java.time.LocalDate before the range check on month and day. */
  datatype CalendarDate = CalendarDate(year: int, month: int, day: int)

  /** The proleptic Gregorian leap-year rule LocalDate uses. */
  predicate IsLeapYear(year: int) {
    year % 4 == 0 && (year % 100 != 0 || year % 400 == 0)
  }

  /** The length of a month, February by the leap-year rule. */
  function DaysInMonth(year: int, month: int): (r: int)
    requires 1 <= month <= 12
    ensures 28 <= r <= 31
    ensures r == 29 <==> month == 2 && IsLeapYear(year)
    ensures r == 31 <==> month in {1, 3, 5, 7, 8, 10, 12}
  {
    if month == 2 then (if IsLeapYear(year) then 29 else 28)
    else if month == 4 || month == 6 || month == 9 || month == 11 then 30
    else 31
  }

  /** LocalDate.of's range check: a month of the year and a day of that month. */
  predicate ValidDate(year: int, month: int, day: int) {
    1 <= month <= 12 && 1 <= day <= DaysInMonth(year, month)
  }

  /** java.time.LocalDate. */
  type Date = d: CalendarDate | ValidDate(d.year, d.month, d.day) witness CalendarDate(2000, 1, 1)

  /** LocalDate's natural order: by year, then month, then day. */
  predicate DateLessEq(a: Date, b: Date) {
    a.year < b.year || (a.year == b.year && (a.month < b.month || (a.month == b.month && a.day <= b.day)))
  }

  /** java.util.UUID: two 64-bit halves. */
  datatype Uuid = Uuid(msb: bv64, lsb: bv64) {
    /** UUID.toString: 8-4-4-4-12 lower-case hex digits. */
    function ToString(): (r: string)
      ensures |r| == 36 && r[8] == '-' && r[13] == '-' && r[18] == '-' && r[23] == '-'
    {
      HexDigits(msb >> 32, 8) + "-" + HexDigits(msb >> 16, 4) + "-" + HexDigits(msb, 4) + "-"
        + HexDigits(lsb >> 48, 4) + "-" + HexDigits(lsb, 12)
    }

    /** UUID.hashCode: the two 32-bit halves of msb ^ lsb, xor-ed. */
    function HashBits(): bv32 {
      var hilo := msb ^ lsb;
      ((hilo >> 32) as bv32) ^ ((hilo & 0xFFFF_FFFF) as bv32)
    }
  }

  /** A 32-bit pattern read as a Java int. */
  function SignedInt(b: bv32): (r: int)
    ensures -0x8000_0000 <= r < 0x8000_0000
  {
    var n := b as int;
    if n < 0x8000_0000 then n else n - 0x1_0000_0000
  }

  /** org.iu.handelspartnern.common.entity.PartnerType. */
  datatype PartnerType = Supplier | Customer | Partner {
    function Name(): string {
      match this
      case Supplier => "SUPPLIER"
      case Customer => "CUSTOMER"
      case Partner => "PARTNER"
    }

    function DisplayName(): string {
      match this
      case Supplier => "Lieferant"
      case Customer => "Kunde"
      case Partner => "Partner"
    }
  }

  /** PartnerType.valueOf: the constant whose name is exactly `s`; None stands for the
      IllegalArgumentException thrown for any other text. */
  function PartnerTypeValueOf(s: string): (r: Option<PartnerType>)
    ensures r.Some? ==> r.value.Name() == s
    ensures r.None? ==> forall t: PartnerType :: t.Name() != s
  {
    if s == "SUPPLIER" then Some(Supplier)
    else if s == "CUSTOMER" then Some(Customer)
    else if s == "PARTNER" then Some(Partner)
    else None
  }

  /** org.iu.handelspartnern.common.entity.PartnerStatus. */
  datatype PartnerStatus = Active | PendingApproval | Inactive | Suspended {
    function Name(): string {
      match this
      case Active => "ACTIVE"
      case PendingApproval => "PENDING_APPROVAL"
      case Inactive => "INACTIVE"
      case Suspended => "SUSPENDED"
    }

    function DisplayName(): string {
      match this
      case Active => "Aktiv"
      case PendingApproval => "Wartend"
      case Inactive => "Inaktiv"
      case Suspended => "Gesperrt"
    }
  }

  /** PartnerStatus.valueOf; None stands for IllegalArgumentException. */
  function PartnerStatusValueOf(s: string): (r: Option<PartnerStatus>)
    ensures r.Some? ==> r.value.Name() == s
    ensures r.None? ==> forall t: PartnerStatus :: t.Name() != s
  {
    if s == "ACTIVE" then Some(Active)
    else if s == "PENDING_APPROVAL" then Some(PendingApproval)
    else if s == "INACTIVE" then Some(Inactive)
    else if s == "SUSPENDED" then Some(Suspended)
    else None
  }

  /** FinancialEntryType. The enum's own file is not part of this model: the code names only
      CLAIM, and PAYABLE is taken as its second constant. */
  datatype EntryType = Claim | Payable {
    function Name(): string {
      match this
      case Claim => "CLAIM"
      case Payable => "PAYABLE"
    }
  }

  /** FinancialEntryType.valueOf; None stands for IllegalArgumentException. */
  function EntryTypeValueOf(s: string): (r: Option<EntryType>)
    ensures r.Some? ==> r.value.Name() == s
    ensures r.None? ==> forall t: EntryType :: t.Name() != s
  {
    if s == "CLAIM" then Some(Claim) else if s == "PAYABLE" then Some(Payable) else None
  }

  /** FinancialEntryStatus. The enum's own file is not part of this model: the code names OPEN
      and SETTLED, taken here as its only constants. */
  datatype EntryStatus = Open | Settled

  /** org.iu.handelspartnern.common.entity.Contact: four nullable strings. */
  datatype Contact = Contact(name: Option<string>, email: Option<string>, phone: Option<string>, role: Option<string>)

  /** org.iu.handelspartnern.common.entity.Address: five nullable strings; `addressType` is the field `type`. */
  datatype Address = Address(
    street: Option<string>, city: Option<string>, zipCode: Option<string>,
    country: Option<string>, addressType: Option<string>)
}
