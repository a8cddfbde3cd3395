/** The data behind GET /api/partners/:id/transactions in the Spark controller: the overview
    totals and the transaction list, newest first. */
module TransactionsView {
  import opened Wrappers
  import opened Domain
  import opened FinancialEntries
  import opened Partners
  import opened Lists

  // ----- overview -----

  /** The "overview" object of the response. */
  datatype OverviewTotals = OverviewTotals(
    openClaims: Money, settledClaims: Money, openPayables: Money, settledPayables: Money,
    totalClaims: Money, totalPayables: Money, netBalance: Money, transactionCount: int)

  /** The overview object built from the entity's FinancialOverview. */
  function Totals(o: FinancialOverview): (r: OverviewTotals)
    ensures r.openClaims == o.openClaims && r.settledClaims == o.settledClaims
    ensures r.openPayables == o.openPayables && r.settledPayables == o.settledPayables
    ensures r.transactionCount == o.transactionCount
    ensures r.totalClaims == r.openClaims + r.settledClaims
    ensures r.totalPayables == r.openPayables + r.settledPayables
    ensures r.netBalance == r.totalClaims - r.totalPayables
  {
    var totalClaims := o.openClaims + o.settledClaims;
    var totalPayables := o.openPayables + o.settledPayables;
    OverviewTotals(o.openClaims, o.settledClaims, o.openPayables, o.settledPayables,
      totalClaims, totalPayables, totalClaims - totalPayables, o.transactionCount)
  }

  /** The net balance splits into what is still open and what is settled. */
  lemma NetBalanceSplits(o: FinancialOverview)
    ensures Totals(o).netBalance == (o.openClaims - o.openPayables) + (o.settledClaims - o.settledPayables)
  {
  }

  // ----- the comparator -----

  /** The sign of a comparison of two numbers. */
  function CompareInts(a: int, b: int): (r: int)
    ensures r == -1 || r == 0 || r == 1
    ensures r < 0 <==> a < b
    ensures r == 0 <==> a == b
  {
    if a < b then -1 else if a > b then 1 else 0
  }

  /** LocalDate.compareTo, by sign: year, then month, then day. */
  function CompareDates(a: Date, b: Date): (r: int)
    ensures r == -1 || r == 0 || r == 1
    ensures r <= 0 <==> DateLessEq(a, b)
    ensures r == 0 <==> a == b
  {
    if a.year != b.year then CompareInts(a.year, b.year)
    else if a.month != b.month then CompareInts(a.month, b.month)
    else CompareInts(a.day, b.day)
  }

  /** Comparator.nullsLast(naturalOrder()) on dates: a null date is greater than every date. */
  function CompareDatesNullsLast(a: Option<Date>, b: Option<Date>): (r: int)
    ensures r == -1 || r == 0 || r == 1
    ensures a.None? && b.Some? ==> r == 1
    ensures a.Some? && b.None? ==> r == -1
    ensures a.Some? && b.Some? ==> r == CompareDates(a.value, b.value)
    ensures r == 0 <==> a == b
  {
    match (a, b)
    case (None, None) => 0
    case (None, Some(_)) => 1
    case (Some(_), None) => -1
    case (Some(x), Some(y)) => CompareDates(x, y)
  }

  /** Comparator.nullsLast(naturalOrder()) on creation times. */
  function CompareTimesNullsLast(a: Option<Timestamp>, b: Option<Timestamp>): (r: int)
    ensures r == -1 || r == 0 || r == 1
    ensures a.None? && b.Some? ==> r == 1
    ensures a.Some? && b.None? ==> r == -1
    ensures a.Some? && b.Some? ==> r == CompareInts(a.value, b.value)
    ensures r == 0 <==> a == b
  {
    match (a, b)
    case (None, None) => 0
    case (None, Some(_)) => 1
    case (Some(_), None) => -1
    case (Some(x), Some(y)) => CompareInts(x, y)
  }

  /** comparing(getDate, nullsLast).thenComparing(getCreatedAt, nullsLast), before reversal. */
  function CompareEntries(a: FinancialEntry, b: FinancialEntry): (r: int)
    ensures r == -1 || r == 0 || r == 1
    ensures r == 0 <==> a.date == b.date && a.createdAt == b.createdAt
  {
    var c := CompareDatesNullsLast(a.date, b.date);
    if c != 0 then c else CompareTimesNullsLast(a.createdAt, b.createdAt)
  }

  /** The comparator after .reversed(). */
  function NewestFirst(a: FinancialEntry, b: FinancialEntry): int {
    CompareEntries(b, a)
  }

  /** The comparator is antisymmetric by sign, and its "not greater" relation is total. */
  lemma CompareEntriesAntisymmetric(a: FinancialEntry, b: FinancialEntry)
    ensures CompareEntries(a, b) == -CompareEntries(b, a)
  {
  }

  /** Its "not greater" relation is transitive. */
  lemma CompareEntriesTransitive(a: FinancialEntry, b: FinancialEntry, c: FinancialEntry)
    requires CompareEntries(a, b) <= 0 && CompareEntries(b, c) <= 0
    ensures CompareEntries(a, c) <= 0
  {
  }

  // ----- sorting -----

  /** Ordered by the reversed comparator: no element is followed by one it compares above. */
  predicate SortedNewestFirst(s: seq<FinancialEntry>) {
    forall i, j :: 0 <= i < j < |s| ==> NewestFirst(s[i], s[j]) <= 0
  }

  /** Places `x` in front of the first element it does not follow. */
  function Insert(x: FinancialEntry, s: seq<FinancialEntry>): (r: seq<FinancialEntry>)
    ensures multiset(r) == multiset(s) + multiset{x}
    ensures SortedNewestFirst(s) ==> SortedNewestFirst(r)
  {
    if s == [] then [x]
    else if NewestFirst(x, s[0]) <= 0 then
      InsertInFront(x, s);
      [x] + s
    else
      var rest := Insert(x, s[1..]);
      assert s == [s[0]] + s[1..];
      InsertBehind(x, s, rest);
      [s[0]] + rest
  }

  /** `x` in front of a sorted list it does not follow keeps it sorted. */
  lemma InsertInFront(x: FinancialEntry, s: seq<FinancialEntry>)
    requires s != [] && NewestFirst(x, s[0]) <= 0
    ensures SortedNewestFirst(s) ==> SortedNewestFirst([x] + s)
  {
    if SortedNewestFirst(s) {
      var r := [x] + s;
      forall i, j | 0 <= i < j < |r| ensures NewestFirst(r[i], r[j]) <= 0 {
        if i == 0 && j > 1 {
          CompareEntriesTransitive(s[j - 1], s[0], x);
        }
      }
    }
  }

  /** The head of a sorted list that `x` follows stays in front of `x` inserted into the tail. */
  lemma InsertBehind(x: FinancialEntry, s: seq<FinancialEntry>, rest: seq<FinancialEntry>)
    requires s != [] && NewestFirst(x, s[0]) > 0
    requires multiset(rest) == multiset(s[1..]) + multiset{x}
    requires SortedNewestFirst(s[1..]) ==> SortedNewestFirst(rest)
    ensures SortedNewestFirst(s) ==> SortedNewestFirst([s[0]] + rest)
  {
    if SortedNewestFirst(s) {
      assert SortedNewestFirst(s[1..]);
      var r := [s[0]] + rest;
      forall j | 0 < j < |r| ensures NewestFirst(r[0], r[j]) <= 0 {
        assert rest[j - 1] in multiset(rest);
        if rest[j - 1] != x {
          assert rest[j - 1] in multiset(s[1..]);
          var k :| 0 <= k < |s[1..]| && s[1..][k] == rest[j - 1];
          assert s[k + 1] == rest[j - 1];
        } else {
          CompareEntriesAntisymmetric(x, s[0]);
        }
      }
    }
  }

  /** Stream.sorted with the reversed comparator, as a stable insertion sort. */
  function SortNewestFirst(s: seq<FinancialEntry>): (r: seq<FinancialEntry>)
    ensures multiset(r) == multiset(s)
    ensures SortedNewestFirst(r)
  {
    if s == [] then []
    else
      assert s == [s[0]] + s[1..];
      Insert(s[0], SortNewestFirst(s[1..]))
  }

  /** In the sorted list, entries without a date come first. */
  lemma UndatedFirst(s: seq<FinancialEntry>, i: int, j: int)
    requires SortedNewestFirst(s) && 0 <= i < j < |s|
    requires s[j].date.None?
    ensures s[i].date.None?
  {
    assert NewestFirst(s[i], s[j]) <= 0;
  }

  /** Dated entries follow in descending date order, and entries of the same date in descending
      creation time, with a missing creation time first. */
  lemma DatedDescending(s: seq<FinancialEntry>, i: int, j: int)
    requires SortedNewestFirst(s) && 0 <= i < j < |s|
    requires s[i].date.Some? && s[j].date.Some?
    ensures DateLessEq(s[j].date.value, s[i].date.value)
    ensures s[i].date == s[j].date && s[i].createdAt.Some? ==>
      s[j].createdAt.Some? && s[j].createdAt.value <= s[i].createdAt.value
  {
    assert NewestFirst(s[i], s[j]) <= 0;
  }

  // ----- the transaction list -----

  /** One element of "transactions". */
  datatype TxRow = TxRow(
    id: Option<Uuid>, kind: Option<EntryType>, typeLabel: string, status: Option<EntryStatus>,
    statusLabel: string, amount: Option<Money>, purpose: Option<string>, reference: Option<string>,
    date: Option<Date>, dateFormatted: string, isSettled: bool)

  /** The row of one entry: "Forderung" for a claim and "Verbindlichkeit" for anything else,
      a null type included. */
  function ToRow(e: FinancialEntry): (r: TxRow)
    ensures r.typeLabel == "Forderung" <==> e.kind == Some(Claim)
    ensures r.typeLabel == "Forderung" || r.typeLabel == "Verbindlichkeit"
    ensures r.isSettled <==> e.status == Some(Settled)
    ensures r.id == e.id && r.kind == e.kind && r.status == e.status && r.amount == e.amount
    ensures r.purpose == e.purpose && r.reference == e.reference && r.date == e.date
    ensures r.statusLabel == e.StatusLabel() && r.dateFormatted == e.DateFormatted()
  {
    TxRow(e.id, e.kind, if e.kind == Some(Claim) then "Forderung" else "Verbindlichkeit",
      e.status, e.StatusLabel(), e.amount, e.purpose, e.reference, e.date, e.DateFormatted(), e.IsSettled())
  }

  /** filter(Objects::nonNull). */
  function NonNull(entries: seq<Option<FinancialEntry>>): (r: seq<FinancialEntry>)
    ensures forall e :: e in r <==> Some(e) in entries
  {
    FilterMap(entries, (e: Option<FinancialEntry>) => e)
  }

  /** The "transactions" list: the non-null entries, newest first, one row each. */
  function Transactions(entries: seq<Option<FinancialEntry>>): (r: seq<TxRow>)
  {
    Map(SortNewestFirst(NonNull(entries)), ToRow)
  }

  /** The list is the rows of a newest-first ordering of exactly the non-null entries. */
  lemma TransactionsAreSortedNonNullEntries(entries: seq<Option<FinancialEntry>>)
    ensures var sorted := SortNewestFirst(NonNull(entries));
      && multiset(sorted) == multiset(NonNull(entries))
      && SortedNewestFirst(sorted)
      && |Transactions(entries)| == |sorted|
      && forall i :: 0 <= i < |sorted| ==> Transactions(entries)[i] == ToRow(sorted[i]) && Some(sorted[i]) in entries
  {
    var sorted := SortNewestFirst(NonNull(entries));
    forall i | 0 <= i < |sorted| ensures Some(sorted[i]) in entries {
      assert sorted[i] in multiset(NonNull(entries));
    }
  }

  /** The response body apart from the partner summary. */
  datatype TransactionsResponse = TransactionsResponse(overview: OverviewTotals, transactions: seq<TxRow>)

  /** The handler after reading the partner: 404 "Partner nicht gefunden" without one. The
      entity's overview is a parameter, as its computation is not part of this model. */
  function GetTransactions(found: Option<PartnerState>, overview: PartnerState -> FinancialOverview): (r: Result<TransactionsResponse>)
    ensures found.None? <==> r == Err(Runtime("Partner nicht gefunden"))
    ensures r.Ok? ==> r.value.overview == Totals(overview(found.value))
    ensures r.Ok? ==> |r.value.transactions| <= |found.value.Entries()|
    ensures r.Ok? ==> r.value.transactions == Transactions(found.value.Entries())
    ensures r.Ok? ==> var sorted := SortNewestFirst(NonNull(found.value.Entries()));
      && multiset(sorted) == multiset(NonNull(found.value.Entries()))
      && SortedNewestFirst(sorted)
      && |r.value.transactions| == |sorted|
      && forall i :: 0 <= i < |sorted| ==> r.value.transactions[i] == ToRow(sorted[i])
  {
    match found
    case None => Err(Runtime("Partner nicht gefunden"))
    case Some(p) =>
      var rows := Transactions(p.Entries());
      TransactionsAreSortedNonNullEntries(p.Entries());
      assert |rows| == |NonNull(p.Entries())| by {
        assert |multiset(SortNewestFirst(NonNull(p.Entries())))| == |multiset(NonNull(p.Entries()))|;
      }
      Ok(TransactionsResponse(Totals(overview(p)), rows))
  }
}
