/** org.iu.handelspartnern.common.entity.FinancialEntry: one claim or payable in a partner's ledger. */
module FinancialEntries {
  import opened Wrappers
  import opened Text
  import opened Domain

  /** Every field of the Java object is a nullable reference, so every field is an Option.
      `kind` is the field `type`. */
  datatype FinancialEntry = FinancialEntry(
    id: Option<Uuid>,
    kind: Option<EntryType>,
    status: Option<EntryStatus>,
    amount: Option<Money>,
    purpose: Option<string>,
    reference: Option<string>,
    date: Option<Date>,
    createdAt: Option<Timestamp>)
  {
    /** isSettled: SETTLED.equals(status), so a null status is not settled. */
    predicate IsSettled() {
      status == Some(Settled)
    }

    /** getSignedAmount. */
    function SignedAmount(): (r: Money)
      ensures amount.None? ==> r == 0.0
      ensures amount.Some? && kind == Some(Claim) ==> r == amount.value
      ensures amount.Some? && kind != Some(Claim) ==> r == -amount.value
    {
      match amount
      case None => 0.0
      case Some(a) => if kind == Some(Claim) then a else -a
    }

    /** getStatusLabel. */
    function StatusLabel(): (r: string)
      ensures r == "Beglichen" || r == "Offen"
      ensures r == "Beglichen" <==> IsSettled()
    {
      if IsSettled() then "Beglichen" else "Offen"
    }

    /** getDateFormatted: the date as dd.MM.yyyy, or "Unbekannt" without one. */
    function DateFormatted(): (r: string)
      ensures date.None? <==> r == "Unbekannt"
      ensures date.Some? ==> |r| >= 10 && r[2] == '.' && r[5] == '.'
    {
      match date
      case None => "Unbekannt"
      case Some(d) => FormatDate(d)
    }

    /** hashCode: Objects.hash(id), i.e. 31 + id.hashCode() in 32-bit arithmetic (31 for a null id). */
    function HashCode(): int {
      match id
      case None => 31
      case Some(u) => SignedInt(31 + u.HashBits())
    }
  }

  /** equals: the other object must be a FinancialEntry, and then only the ids are compared
      (Objects.equals, so two null ids are equal). */
  predicate EntryEquals(e: FinancialEntry, other: Option<FinancialEntry>) {
    other.Some? && e.id == other.value.id
  }

  /** Equality is an equivalence relation, decided by the ids alone, and agrees with the hash. */
  lemma EntryEqualsIsIdentityOfIds(a: FinancialEntry, b: FinancialEntry, c: FinancialEntry)
    ensures EntryEquals(a, Some(a))
    ensures EntryEquals(a, Some(b)) <==> a.id == b.id
    ensures EntryEquals(a, Some(b)) ==> EntryEquals(b, Some(a))
    ensures EntryEquals(a, Some(b)) && EntryEquals(b, Some(c)) ==> EntryEquals(a, Some(c))
    ensures EntryEquals(a, Some(b)) ==> a.HashCode() == b.HashCode()
    ensures !EntryEquals(a, None)
  {
  }

  /** The no-argument constructor, with UUID.randomUUID(), LocalDateTime.now() and LocalDate.now()
      supplied as parameters. */
  function NewEntry(newId: Uuid, now: Timestamp, today: Date): (e: FinancialEntry)
    ensures e.id == Some(newId) && e.createdAt == Some(now) && e.date == Some(today)
    ensures e.status == Some(Open) && e.kind == Some(Claim) && e.amount == Some(0.0)
    ensures e.purpose.None? && e.reference.None?
    ensures !e.IsSettled() && e.StatusLabel() == "Offen" && e.SignedAmount() == 0.0
  {
    FinancialEntry(Some(newId), Some(Claim), Some(Open), Some(0.0), None, None, Some(today), Some(now))
  }

  /** The six-argument constructor: runs the no-argument constructor, then overwrites type,
      status, amount, purpose and reference with the arguments (null included) and the date
      with the argument or, when that is null, today. */
  function NewEntryWith(
    kind: Option<EntryType>, status: Option<EntryStatus>, amount: Option<Money>,
    purpose: Option<string>, reference: Option<string>, date: Option<Date>,
    newId: Uuid, now: Timestamp, today: Date): (e: FinancialEntry)
    ensures e.kind == kind && e.status == status && e.amount == amount
    ensures e.purpose == purpose && e.reference == reference
    ensures e.date == Some(date.GetOr(today)) && e.date.Some?
    ensures e.id == Some(newId) && e.createdAt == Some(now)
  {
    NewEntry(newId, now, today).(kind := kind, status := status, amount := amount,
      purpose := purpose, reference := reference, date := Some(if date.Some? then date.value else today))
  }

  // ----- dd.MM.yyyy -----

  function Pad2(n: int): (r: string)
    requires 0 <= n < 100
    ensures |r| == 2 && IsDigit(r[0]) && IsDigit(r[1])
  {
    [DigitChar(n / 10), DigitChar(n % 10)]
  }

  function Pad4(n: int): (r: string)
    requires 0 <= n < 10000
    ensures |r| == 4 && forall i :: 0 <= i < 4 ==> IsDigit(r[i])
  {
    Pad2(n / 100) + Pad2(n % 100)
  }

  /** The pattern letters "yyyy": the year of era, zero-padded to four digits, with a '+' in
      front when it needs more than four. Years before year 1 count backwards (1 - year). */
  function YearOfEraText(year: int): (r: string)
    ensures |r| >= 4
  {
    var yoe := if year >= 1 then year else 1 - year;
    if yoe > 9999 then "+" + NatToString(yoe) else Pad4(yoe)
  }

  /** DateTimeFormatter.ofPattern("dd.MM.yyyy"). */
  function FormatDate(d: Date): (r: string)
    ensures |r| >= 10 && r[2] == '.' && r[5] == '.'
  {
    Pad2(d.day) + "." + Pad2(d.month) + "." + YearOfEraText(d.year)
  }

  /** Reads "dd.MM.yyyy" back; the inverse of FormatDate for four-digit years. */
  function ParseFormattedDate(s: string): (r: Option<Date>)
    ensures r.Some? ==> |s| == 10
  {
    if |s| == 10 && s[2] == '.' && s[5] == '.'
       && IsDigit(s[0]) && IsDigit(s[1]) && IsDigit(s[3]) && IsDigit(s[4])
    then
      var day := DigitsValue(s[0..2]);
      var month := DigitsValue(s[3..5]);
      var year := DigitsValue(s[6..10]);
      if ValidDate(year, month, day) then Some(CalendarDate(year, month, day)) else None
    else None
  }

  /** The value of a string of digits, one digit more. */
  lemma DigitsValueSnoc(s: string, c: char)
    requires IsDigit(c)
    ensures DigitsValue(s + [c]) == DigitsValue(s) * 10 + DigitValue(c)
  {
    assert (s + [c])[..|s|] == s;
  }

  lemma Pad2Value(n: int)
    requires 0 <= n < 100
    ensures DigitsValue(Pad2(n)) == n
  {
    var a, b := DigitChar(n / 10), DigitChar(n % 10);
    DigitsValueSnoc([], a);
    DigitsValueSnoc([a], b);
    assert Pad2(n) == [] + [a] + [b];
  }

  /** Appending two digits shifts the value by two places. */
  lemma DigitsValueAppend2(x: string, y: string)
    requires |y| == 2 && IsDigit(y[0]) && IsDigit(y[1])
    ensures DigitsValue(x + y) == DigitsValue(x) * 100 + DigitsValue(y)
  {
    DigitsValueSnoc(x, y[0]);
    DigitsValueSnoc(x + [y[0]], y[1]);
    assert x + y == x + [y[0]] + [y[1]];
    DigitsValueSnoc([], y[0]);
    DigitsValueSnoc([y[0]], y[1]);
    assert y == [] + [y[0]] + [y[1]];
  }

  lemma Pad4Value(n: int)
    requires 0 <= n < 10000
    ensures DigitsValue(Pad4(n)) == n
  {
    Pad2Value(n / 100);
    Pad2Value(n % 100);
    DigitsValueAppend2(Pad2(n / 100), Pad2(n % 100));
  }

  /** dd.MM.yyyy round-trips for every date of the years 1 to 9999. */
  lemma {:induction false} FormatDateRoundTrip(d: Date)
    requires 1 <= d.year <= 9999
    ensures |FormatDate(d)| == 10
    ensures ParseFormattedDate(FormatDate(d)) == Some(d)
  {
    var s := FormatDate(d);
    assert s[0..2] == Pad2(d.day);
    assert s[3..5] == Pad2(d.month);
    assert s[6..10] == Pad4(d.year);
    Pad2Value(d.day);
    Pad2Value(d.month);
    Pad4Value(d.year);
  }

  // ----- signed amounts -----

  /** The sum of getSignedAmount over a list of entries. */
  function SignedTotal(es: seq<FinancialEntry>): Money
  {
    if es == [] then 0.0 else SignedTotal(es[..|es| - 1]) + es[|es| - 1].SignedAmount()
  }

  /** The sum of the amounts present on the entries whose type is CLAIM (`claims`) or is not (`!claims`). */
  function AmountTotal(es: seq<FinancialEntry>, claims: bool): Money
  {
    if es == [] then 0.0
    else
      var e := es[|es| - 1];
      AmountTotal(es[..|es| - 1], claims)
        + (if e.amount.Some? && (e.kind == Some(Claim)) == claims then e.amount.value else 0.0)
  }

  /** Summing signed amounts nets the claims against everything that is not a claim. */
  lemma {:induction false} SignedTotalIsClaimsMinusOthers(es: seq<FinancialEntry>)
    ensures SignedTotal(es) == AmountTotal(es, true) - AmountTotal(es, false)
  {
    if es != [] {
      SignedTotalIsClaimsMinusOthers(es[..|es| - 1]);
    }
  }
}
