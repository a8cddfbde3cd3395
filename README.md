# handelspartnern — a Dafny model of the partner domain and its services

handelspartnern manages trading partners (suppliers, customers, partners). Each partner has
master data, contacts, addresses, cached claims and payables, and a ledger of financial
entries (claims and payables, open or settled). Two web stacks share the domain layer: a
Spring service and a Spark service with a hand-written controller.

This project models the following pieces:

- **Entities.**
  - `FinancialEntry` is a value (`FinancialEntries`): constructor defaults, signed amount,
    settled flag and label, `dd.MM.yyyy` formatting, and id-based equality and hash.
  - `TradingPartner` is a class with the entity's fields (`Partners`). Its constructor,
    lifecycle hooks and setters change those fields in place. `PartnerState` is the same
    record as a value, which is what the table stores.
- **Records.** `AddTradingPartnerDto` with its validating constructor, and
  `TradingPartnerListDto` (`Dtos`).
- **The partner table** (`PartnerRepository.PartnerStore`). It holds rows by id and hands
  out detached copies. A copy's changes reach the table only through `Save`, which fires
  `@PrePersist`/`@PreUpdate`, keeps the non-updatable creation time and refuses a partner
  with a null in a NOT NULL column.
- **The Spark repository's query builder.** It builds the HQL text and the bound
  parameters. A parser reads the query back to prove which clauses it holds.
- **The Spring service** (`SpringService`): filtered listing, create, update, delete, adding
  an entry, changing an entry's status (a loop over the entry list), claim/payable
  accumulation, and the balance map.
- **The Spark service** (`SparkService`): listing, dashboard, create, the seven-field update,
  and delete.
- **The Spark controller's data logic** (`SparkController`):
  - text cleaning (`clean` and `cleanText` have the same body; both are `Clean`);
  - lenient enum parsing and the number and date parsers;
  - contact and address normalisation, and `applyPartnerExtensions`;
  - the form update handler and the JSON update handler;
  - the financial-transaction guard.
- **The `/transactions` view** (`TransactionsView`): the overview totals and the
  newest-first transaction list.

Java `null` is `Option`, and a thrown exception is the `Err` case of `Result` (or the `Fail`
case of `Outcome` for a void method). `BigDecimal` is `real`, `LocalDateTime` is an `int`
time line, and `LocalDate` is a `(year, month, day)` whose day lies within its month (February by the Gregorian leap-year rule). `UUID` is two `bv64` halves.
Some inputs are parameters rather than modelled code:

- the clock, today's date and `UUID.randomUUID()`;
- the library parsers (`new BigDecimal`, `Long.valueOf`, `LocalDate.parse`), which return
  `None` where they throw;
- the ledger functions TradingPartner.java does not declare (`recalculateFinancials`,
  `getFinancialOverview`).

## Model

| member | source | states |
|---|---|---|
| FinancialEntries.NewEntry | handelspartnern/common-entity/src/main/java/org/iu/handelspartnern/common/entity/FinancialEntry.java:21-28 | a new entry is OPEN, a CLAIM of 0, dated today, created now, with the given fresh id; hence not settled, labelled "Offen", signed amount 0 |
| FinancialEntries.NewEntryWith | handelspartnern/common-entity/src/main/java/org/iu/handelspartnern/common/entity/FinancialEntry.java:30-39 | type, status, amount, purpose and reference are the arguments (null included); a null date becomes today, so the date is never null; id and creation time come from the no-argument constructor |
| FinancialEntries.FinancialEntry.SignedAmount | handelspartnern/common-entity/src/main/java/org/iu/handelspartnern/common/entity/FinancialEntry.java:109-114 | 0 without an amount, +amount for CLAIM, −amount for every other type, a null type included |
| FinancialEntries.FinancialEntry.StatusLabel | handelspartnern/common-entity/src/main/java/org/iu/handelspartnern/common/entity/FinancialEntry.java:120-122 | "Beglichen" exactly when the status is SETTLED (a null status is not settled), "Offen" otherwise |
| FinancialEntries.FinancialEntry.DateFormatted | handelspartnern/common-entity/src/main/java/org/iu/handelspartnern/common/entity/FinancialEntry.java:116-118 | "Unbekannt" exactly when the date is null; otherwise text with dots at positions 2 and 5 |
| FinancialEntries.FormatDateRoundTrip | handelspartnern/common-entity/src/main/java/org/iu/handelspartnern/common/entity/FinancialEntry.java:116-118 | for years 1 to 9999 the dd.MM.yyyy text has length 10 and reads back as the same date, so day, month and year are zero-padded in place |
| FinancialEntries.EntryEqualsIsIdentityOfIds | handelspartnern/common-entity/src/main/java/org/iu/handelspartnern/common/entity/FinancialEntry.java:124-137 | equality holds exactly when the ids are equal (two null ids included); it is reflexive, symmetric and transitive, never holds against null, and equal entries hash alike |
| FinancialEntries.SignedTotalIsClaimsMinusOthers | handelspartnern/common-entity/src/main/java/org/iu/handelspartnern/common/entity/FinancialEntry.java:109-114 | summing signed amounts gives the claim amounts minus the amounts of all other entries |
| Partners.TradingPartner.constructor | handelspartnern/common-entity/src/main/java/org/iu/handelspartnern/common/entity/TradingPartner.java:72-81 | name "Unbenannt" (replacing the initialiser's "Unnamed Partner"), taxId "DE000000000", "Net 30", ACTIVE, SUPPLIER, empty contacts and addresses, claims = payable = 0, no id and no timestamps |
| Partners.TradingPartner.OnCreate | handelspartnern/common-entity/src/main/java/org/iu/handelspartnern/common/entity/TradingPartner.java:83-88 | both timestamps become the same instant; nothing else changes |
| Partners.TradingPartner.OnUpdate | handelspartnern/common-entity/src/main/java/org/iu/handelspartnern/common/entity/TradingPartner.java:90-93 | only the modification time changes; the creation time stays |
| Partners.TradingPartner.CorporateImageUrl | handelspartnern/common-entity/src/main/java/org/iu/handelspartnern/common/entity/TradingPartner.java:104-106 | the stored URL, or "https://picsum.photos/60/60?random=" followed by the id ("null" without one) |
| Partners.PartnerState.ImageUrl | handelspartnern/common-entity/src/main/java/org/iu/handelspartnern/common/entity/TradingPartner.java:104-106 | the same getter on a stored row: the placeholder starts with the prefix and ends with the id text |
| Partners.PlaceholderIdentifiesPartner | handelspartnern/common-entity/src/main/java/org/iu/handelspartnern/common/entity/TradingPartner.java:104-106 | two partners without an image get the same placeholder only when their ids are equal |
| Partners.IdTextInjective | handelspartnern/common-entity/src/main/java/org/iu/handelspartnern/common/entity/TradingPartner.java:105 | distinct ids, null included, concatenate to distinct texts |
| Partners.PartnerState.Addresses | handelspartnern/common-entity/src/main/java/org/iu/handelspartnern/common/entity/TradingPartner.java:184-186 | getAddresses never returns null: a null list reads as empty, any other list as itself |
| Partners.PartnerState.Contacts | handelspartnern/common-entity/src/main/java/org/iu/handelspartnern/common/entity/TradingPartner.java:192-194 | getContacts likewise |
| Partners.TradingPartner.SetId | handelspartnern/common-entity/src/main/java/org/iu/handelspartnern/common/entity/TradingPartner.java:100-102 | the id becomes the argument and every other field stays |
| Partners.TradingPartner.SetCorporateImageUrl | handelspartnern/common-entity/src/main/java/org/iu/handelspartnern/common/entity/TradingPartner.java:108-110 | only the stored image URL changes |
| Partners.TradingPartner.SetName | handelspartnern/common-entity/src/main/java/org/iu/handelspartnern/common/entity/TradingPartner.java:116-118 | only the name changes |
| Partners.TradingPartner.SetTaxId | handelspartnern/common-entity/src/main/java/org/iu/handelspartnern/common/entity/TradingPartner.java:124-126 | only the tax id changes |
| Partners.TradingPartner.SetPaymentTerms | handelspartnern/common-entity/src/main/java/org/iu/handelspartnern/common/entity/TradingPartner.java:132-134 | only the payment terms change |
| Partners.TradingPartner.SetClaims | handelspartnern/common-entity/src/main/java/org/iu/handelspartnern/common/entity/TradingPartner.java:148-150 | only claims change; payable stays |
| Partners.TradingPartner.SetPayable | handelspartnern/common-entity/src/main/java/org/iu/handelspartnern/common/entity/TradingPartner.java:156-158 | only payable changes; claims stay |
| Partners.TradingPartner.SetType | handelspartnern/common-entity/src/main/java/org/iu/handelspartnern/common/entity/TradingPartner.java:164-166 | only the type changes |
| Partners.TradingPartner.SetStatus | handelspartnern/common-entity/src/main/java/org/iu/handelspartnern/common/entity/TradingPartner.java:172-174 | only the status changes |
| Partners.TradingPartner.SetAbout | handelspartnern/common-entity/src/main/java/org/iu/handelspartnern/common/entity/TradingPartner.java:180-182 | only the description changes |
| Partners.TradingPartner.SetAddresses | handelspartnern/common-entity/src/main/java/org/iu/handelspartnern/common/entity/TradingPartner.java:188-190 | only the address list changes |
| Partners.TradingPartner.SetContacts | handelspartnern/common-entity/src/main/java/org/iu/handelspartnern/common/entity/TradingPartner.java:196-198 | only the contact list changes |
| Partners.TradingPartner.SetUpdated | handelspartnern/spring-web/src/main/java/org/iu/handelspartnern/spring/service/TradingPartnerService.java:120 | setUpdated (called by the Spring service, not declared in TradingPartner.java) sets only the modification time |
| Partners.TradingPartner.SetFinancialEntries | handelspartnern/spring-web/src/main/java/org/iu/handelspartnern/spring/service/TradingPartnerService.java:108 | only the entry list changes |
| Partners.TradingPartner.AddFinancialEntry | handelspartnern/spring-web/src/main/java/org/iu/handelspartnern/spring/service/TradingPartnerService.java:196 | the entry is appended; earlier entries and every other field stay |
| Partners.TradingPartner.RecalculateFinancials | handelspartnern/spring-web/src/main/java/org/iu/handelspartnern/spring/service/TradingPartnerService.java:110 | claims and payable become the unknown recalculation of the entry list; nothing else changes |
| Dtos.NewAddTradingPartnerDto | handelspartnern/common-dto/src/main/java/org/iu/handelspartnern/common/dto/AddTradingPartnerDto.java:6-15 | accepted exactly when the name is non-null and not blank and the type is non-null; a bad name is reported first; an accepted record holds every component unchanged, the name untrimmed |
| Dtos.AcceptedNameHasVisibleCharacter | handelspartnern/common-dto/src/main/java/org/iu/handelspartnern/common/dto/AddTradingPartnerDto.java:9-11 | an accepted name holds a character above U+0020 |
| Dtos.ToListDto | handelspartnern/spark-web/src/main/java/org/iu/handelspartnern/spark/service/TradingPartnerService.java:74-78 | id, name, type, status, claims, payable and modification time are copied; the image goes through the getter |
| PartnerRepository.PartnerStore.FindById | handelspartnern/spark-web/src/main/java/org/iu/handelspartnern/spark/repository/TradingPartnerRepository.java:28-33 | a fresh copy of the stored row exactly when the id is stored |
| PartnerRepository.PartnerStore.ExistsById | handelspartnern/spark-web/src/main/java/org/iu/handelspartnern/spark/repository/TradingPartnerRepository.java:95-100 | true exactly when findById finds a row |
| PartnerRepository.PartnerStore.Save | handelspartnern/spark-web/src/main/java/org/iu/handelspartnern/spark/repository/TradingPartnerRepository.java:66-73 | it fails, storing nothing, exactly when name, tax id, payment terms, claims, payable, type, status or contacts is null (the NOT NULL columns of TradingPartner.java:31-67); otherwise a partner without id is inserted under the next id with both timestamps, and one with id overwrites its row with a new modification time and the stored creation time; the table invariant (ids, timestamps and NOT NULL columns set) is kept |
| PartnerRepository.PartnerStore.DeleteById | handelspartnern/spark-web/src/main/java/org/iu/handelspartnern/spark/repository/TradingPartnerRepository.java:75-84 | removes the row if present; an unknown id changes nothing |
| PartnerRepository.FilterQuery | handelspartnern/spark-web/src/main/java/org/iu/handelspartnern/spark/repository/TradingPartnerRepository.java:37-48 | the query starts with "FROM TradingPartner tp WHERE 1=1" and ends with " ORDER BY tp.dateModified DESC" |
| PartnerRepository.FilterQueryRoundTrip | handelspartnern/spark-web/src/main/java/org/iu/handelspartnern/spark/repository/TradingPartnerRepository.java:37-48 | reading the query back gives the type clause iff a type is given, the status clause iff a status is given, and the search clause iff the search is non-null and not blank, in that fixed order and with nothing else |
| PartnerRepository.ClauseTextRoundTrip | handelspartnern/spark-web/src/main/java/org/iu/handelspartnern/spark/repository/TradingPartnerRepository.java:39-47 | every combination of clauses reads back as itself |
| PartnerRepository.FilterParams | handelspartnern/spark-web/src/main/java/org/iu/handelspartnern/spark/repository/TradingPartnerRepository.java:52-60 | exactly the parameters type, status and search for the given filters; the pattern is "%" + the lower-cased, untrimmed search + "%" |
| PartnerRepository.ParamsMatchClauses | handelspartnern/spark-web/src/main/java/org/iu/handelspartnern/spark/repository/TradingPartnerRepository.java:39-60 | each parameter is bound exactly when its clause is in the query |
| SpringService.SearchKey | handelspartnern/spring-web/src/main/java/org/iu/handelspartnern/spring/service/TradingPartnerService.java:37 | no search for a null or blank text; otherwise the trimmed, lower-cased, non-empty text |
| SpringService.FilterPartners | handelspartnern/spring-web/src/main/java/org/iu/handelspartnern/spring/service/TradingPartnerService.java:39-51 | a partner is kept iff it is listed, the type and status filters are null or equal, and the search is absent or is found in the lower-cased name, tax id or description (null read as "") |
| SpringService.GetAllPartners | handelspartnern/spring-web/src/main/java/org/iu/handelspartnern/spring/service/TradingPartnerService.java:36-54 | one list row per kept partner, in listing order |
| SpringService.FilterPartnersKeepsOrder | handelspartnern/spring-web/src/main/java/org/iu/handelspartnern/spring/service/TradingPartnerService.java:39-53 | filtering distributes over concatenation, so the listing order is kept |
| SpringService.NoFilterKeepsAll | handelspartnern/spring-web/src/main/java/org/iu/handelspartnern/spring/service/TradingPartnerService.java:31-33 | without filters every partner is listed, in order |
| SpringService.CreatePartner | handelspartnern/spring-web/src/main/java/org/iu/handelspartnern/spring/service/TradingPartnerService.java:62-86 | the stored partner is ACTIVE with claims = payable = 0, "DE000000000" and "30 Tage" for a missing tax id or terms, a missing description or image left null, and a new id and timestamps |
| SpringService.SpringUpdated | handelspartnern/spring-web/src/main/java/org/iu/handelspartnern/spring/service/TradingPartnerService.java:89-122 | name, type, status, tax id, terms, description, image (through the getter), contacts and addresses are copied; entries are replaced if given, else recalculated; non-null claims/payable overwrite; id and creation time stay |
| SpringService.UpdatePartner | handelspartnern/spring-web/src/main/java/org/iu/handelspartnern/spring/service/TradingPartnerService.java:89-131 | an unknown id fails with the wrapped not-found message and changes nothing; otherwise the row becomes SpringUpdated, or, when that leaves a NOT NULL column null, the save is refused and nothing changes; that refusal comes at the commit of the transactional method, after its try block, so it reaches the caller unwrapped |
| SpringService.CopyUpdate | handelspartnern/spring-web/src/main/java/org/iu/handelspartnern/spring/service/TradingPartnerService.java:96-120 | the setter calls leave the loaded partner equal to SpringUpdated of its old state |
| SpringService.DeletePartner | handelspartnern/spring-web/src/main/java/org/iu/handelspartnern/spring/service/TradingPartnerService.java:134-150 | an unknown id fails with "Partner mit ID … nicht gefunden" (wrapped) and removes nothing; a known one is removed |
| SpringService.CompleteEntry | handelspartnern/spring-web/src/main/java/org/iu/handelspartnern/spring/service/TradingPartnerService.java:186-194 | a missing date becomes today, a missing id the fresh one, a missing status OPEN; every other field stays |
| SpringService.AddFinancialEntry | handelspartnern/spring-web/src/main/java/org/iu/handelspartnern/spring/service/TradingPartnerService.java:183-200 | an unknown partner fails; otherwise the completed entry is appended and earlier entries stay |
| SpringService.FirstMatchFrom | handelspartnern/spring-web/src/main/java/org/iu/handelspartnern/spring/service/TradingPartnerService.java:208-215 | the first index at or after the start holding a non-null entry with the id, or none when no later entry has it |
| SpringService.SetFirstMatchingStatus | handelspartnern/spring-web/src/main/java/org/iu/handelspartnern/spring/service/TradingPartnerService.java:207-215 | the loop changes only the status of the first entry with the id and reports whether it found one; with no match the list is unchanged |
| SpringService.UpdateFinancialEntryStatus | handelspartnern/spring-web/src/main/java/org/iu/handelspartnern/spring/service/TradingPartnerService.java:203-223 | unknown partner or entry id fails ("Finanztransaktion mit ID … nicht gefunden") and the table stays; otherwise the first match's status is set, then claims/payable are recalculated and the time set; the save succeeds exactly when the recalculation leaves neither claims nor payable null, and fails unwrapped otherwise |
| SpringService.AddClaim | handelspartnern/spring-web/src/main/java/org/iu/handelspartnern/spring/service/TradingPartnerService.java:226-234 | claims (null read as 0) grow by the amount; payable is untouched |
| SpringService.AddPayable | handelspartnern/spring-web/src/main/java/org/iu/handelspartnern/spring/service/TradingPartnerService.java:237-245 | payable (null read as 0) grows by the amount; claims are untouched |
| SpringService.BalanceMap | handelspartnern/spring-web/src/main/java/org/iu/handelspartnern/spring/service/TradingPartnerService.java:253-261 | exactly six keys: the four overview totals and the cached claims and payable |
| SpringService.GetPartnerBalance | handelspartnern/spring-web/src/main/java/org/iu/handelspartnern/spring/service/TradingPartnerService.java:248-262 | an unknown partner fails; otherwise the balance map of the stored row |
| SparkService.GetAllPartners | handelspartnern/spark-web/src/main/java/org/iu/handelspartnern/spark/service/TradingPartnerService.java:26-29 | one list row per repository result, in the same order |
| SparkService.GetDashboardPartners | handelspartnern/spark-web/src/main/java/org/iu/handelspartnern/spark/service/TradingPartnerService.java:69-72 | at most ten rows: the first results, in order |
| SparkService.DashboardShowsActivePartners | handelspartnern/spark-web/src/main/java/org/iu/handelspartnern/spark/service/TradingPartnerService.java:69-72 | over the rows the ACTIVE-status query selects, every dashboard row is ACTIVE |
| SparkService.CreatePartner | handelspartnern/spark-web/src/main/java/org/iu/handelspartnern/spark/service/TradingPartnerService.java:35-46 | PENDING_APPROVAL, "" for a missing description, "DE000000000" and "Net 30" defaults, a missing image null, the type from the record |
| SparkService.SparkUpdated | handelspartnern/spark-web/src/main/java/org/iu/handelspartnern/spark/service/TradingPartnerService.java:48-59 | exactly name, description, tax id, terms, image (through the getter, so an unset image is stored as the placeholder), type and status are copied; contacts, addresses, claims, payable and entries stay |
| SparkService.UpdatePartner | handelspartnern/spark-web/src/main/java/org/iu/handelspartnern/spark/service/TradingPartnerService.java:48-63 | an unknown id fails with "Partner not found: " and the id, saving nothing; otherwise the row becomes SparkUpdated with a new modification time, unless that leaves a NOT NULL column null, when the save fails and nothing changes |
| SparkService.DeletePartner | handelspartnern/spark-web/src/main/java/org/iu/handelspartnern/spark/service/TradingPartnerService.java:65-67 | the row goes if present; an unknown id raises nothing |
| SparkController.Clean | handelspartnern/spark-web/src/main/java/org/iu/handelspartnern/spark/controller/TradingPartnerController.java:1069-1075 | (cleanText at lines 908-914 has the same body) null exactly for a null or blank input; otherwise the trimmed text, non-empty and with no trimmable character at either end |
| SparkController.CleanIdempotent | handelspartnern/spark-web/src/main/java/org/iu/handelspartnern/spark/controller/TradingPartnerController.java:1069-1075 | cleaning twice is cleaning once |
| SparkController.CleanKeepsTrimmed | handelspartnern/spark-web/src/main/java/org/iu/handelspartnern/spark/controller/TradingPartnerController.java:1069-1075 | text without leading or trailing trimmable characters is kept as it is |
| SparkController.RequireText | handelspartnern/spark-web/src/main/java/org/iu/handelspartnern/spark/controller/TradingPartnerController.java:900-906 | fails with exactly the given message when cleaning gives null; otherwise the cleaned text |
| SparkController.ParsePartnerType | handelspartnern/spark-web/src/main/java/org/iu/handelspartnern/spark/controller/TradingPartnerController.java:871-880 | never fails: null for blank text or when no constant is named by the upper-cased text, otherwise that constant |
| SparkController.ParsePartnerStatus | handelspartnern/spark-web/src/main/java/org/iu/handelspartnern/spark/controller/TradingPartnerController.java:882-891 | likewise for the status |
| SparkController.ParsedTypeFromName | handelspartnern/spark-web/src/main/java/org/iu/handelspartnern/spark/controller/TradingPartnerController.java:871-880 | any non-blank text whose upper case is a type's name parses to that type, whatever its case |
| SparkController.ParsedStatusFromName | handelspartnern/spark-web/src/main/java/org/iu/handelspartnern/spark/controller/TradingPartnerController.java:882-891 | likewise for a status |
| SparkController.ParsePartnerTypeIgnoresCase | handelspartnern/spark-web/src/main/java/org/iu/handelspartnern/spark/controller/TradingPartnerController.java:871-880 | every type is found from its name in upper or in lower case |
| SparkController.ParsePartnerStatusIgnoresCase | handelspartnern/spark-web/src/main/java/org/iu/handelspartnern/spark/controller/TradingPartnerController.java:882-891 | every status is found from its name in upper or in lower case |
| SparkController.ParseBigDecimal | handelspartnern/spark-web/src/main/java/org/iu/handelspartnern/spark/controller/TradingPartnerController.java:1018-1027 | the fallback for null or unparsable text; otherwise the number of the trimmed text |
| SparkController.ParseAmount | handelspartnern/spark-web/src/main/java/org/iu/handelspartnern/spark/controller/TradingPartnerController.java:1003-1009 | the number, or a failure "Ungültiger Betrag: " + the text exactly when it does not parse |
| SparkController.ParseRequiredLong | handelspartnern/spark-web/src/main/java/org/iu/handelspartnern/spark/controller/TradingPartnerController.java:989-1001 | a number as it is; a text through Long.valueOf; null or unparsable text fails with the given message |
| SparkController.ValueText | handelspartnern/spark-web/src/main/java/org/iu/handelspartnern/spark/controller/TradingPartnerController.java:765-783 | Objects.toString: the default for null, the text itself, or the decimal digits of a number |
| SparkController.ParseDate | handelspartnern/spark-web/src/main/java/org/iu/handelspartnern/spark/controller/TradingPartnerController.java:1011-1016 | today for null or blank text; otherwise the parsed date, or a parse failure naming the text |
| SparkController.NormalizeContact | handelspartnern/spark-web/src/main/java/org/iu/handelspartnern/spark/controller/TradingPartnerController.java:1029-1044 | null iff the input is null or name, email and phone all clean to null (a role alone is not enough); otherwise all four fields cleaned |
| SparkController.NormalizeContactIdempotent | handelspartnern/spark-web/src/main/java/org/iu/handelspartnern/spark/controller/TradingPartnerController.java:1029-1044 | a normalised contact normalises to itself |
| SparkController.NormalizeAddress | handelspartnern/spark-web/src/main/java/org/iu/handelspartnern/spark/controller/TradingPartnerController.java:1046-1067 | null iff the input is null or street or city cleans to null; otherwise cleaned fields, "Hauptadresse" for a missing type, "Deutschland" for a missing country, the zip code possibly null |
| SparkController.NormalizeAddressIdempotent | handelspartnern/spark-web/src/main/java/org/iu/handelspartnern/spark/controller/TradingPartnerController.java:1046-1067 | a normalised address normalises to itself |
| SparkController.NormalizedContactsAreReachable | handelspartnern/spark-web/src/main/java/org/iu/handelspartnern/spark/controller/TradingPartnerController.java:935-944 | every kept contact has a name, email or phone and is the normalisation of some input contact |
| Lists.FilterMap | handelspartnern/spark-web/src/main/java/org/iu/handelspartnern/spark/controller/TradingPartnerController.java:939-942 | map-then-drop-nulls: no longer than the input, holding exactly the non-null images of the input elements |
| Lists.FilterMapAppend | handelspartnern/spark-web/src/main/java/org/iu/handelspartnern/spark/controller/TradingPartnerController.java:939-942 | the pipeline distributes over concatenation, so the input order is kept |
| Lists.FilterMapAllKept | handelspartnern/spark-web/src/main/java/org/iu/handelspartnern/spark/controller/TradingPartnerController.java:939-942 | when nothing maps to null, the output is the image of the input element by element |
| SparkController.PayablesRaw | handelspartnern/spark-web/src/main/java/org/iu/handelspartnern/spark/controller/TradingPartnerController.java:930 | "payable" when present, else "payables" |
| SparkController.Extended | handelspartnern/spark-web/src/main/java/org/iu/handelspartnern/spark/controller/TradingPartnerController.java:916-956 | fails exactly on a non-blank status naming no constant; otherwise the status (if given), claims and payable (unparsable text keeps the old value), contacts and addresses (replaced only when the key is present, by the normalised list in order) change and nothing else |
| SparkController.ApplyPartnerExtensions | handelspartnern/spark-web/src/main/java/org/iu/handelspartnern/spark/controller/TradingPartnerController.java:916-956 | the entity's new state is Extended of its old state; a bad status fails before anything changes |
| SparkController.JsonEnums | handelspartnern/spark-web/src/main/java/org/iu/handelspartnern/spark/controller/TradingPartnerController.java:484-490 | the cleaned, upper-cased type and then status must name constants (the type error is reported first); given ones are set, missing or blank ones leave the field |
| SparkController.JsonTexts | handelspartnern/spark-web/src/main/java/org/iu/handelspartnern/spark/controller/TradingPartnerController.java:492-497 | tax id, terms, description and image take their cleaned values when present; nothing else changes |
| SparkController.JsonUpdatedFailsOnlyOnEnums | handelspartnern/spark-web/src/main/java/org/iu/handelspartnern/spark/controller/TradingPartnerController.java:482-499 | the JSON update fails exactly when the type or status names no constant; the status test in applyPartnerExtensions never fails after the handler's own |
| SparkController.JsonUpdatedKeepsNotNullColumns | handelspartnern/spark-web/src/main/java/org/iu/handelspartnern/spark/controller/TradingPartnerController.java:482-499 | a successful JSON update of a row whose NOT NULL columns are set leaves them all set, so neither PUT handler meets a refused save |
| SparkController.JsonUpdatedFields | handelspartnern/spark-web/src/main/java/org/iu/handelspartnern/spark/controller/TradingPartnerController.java:482-499 | on success every cleaned text lands in its field, type and status are those the enum step chose, and id, timestamps and entries stay |
| SparkController.ApplyJsonEnums | handelspartnern/spark-web/src/main/java/org/iu/handelspartnern/spark/controller/TradingPartnerController.java:484-490 | the entity's state becomes JsonEnums of it; on a status failure only the type may have changed |
| SparkController.ApplyJsonTexts | handelspartnern/spark-web/src/main/java/org/iu/handelspartnern/spark/controller/TradingPartnerController.java:492-497 | the entity's state becomes JsonTexts of it |
| SparkController.ApplyJsonUpdate | handelspartnern/spark-web/src/main/java/org/iu/handelspartnern/spark/controller/TradingPartnerController.java:482-499 | the entity's state becomes the JSON update of it; on failure at most name and type have changed |
| SparkController.PutPartner | handelspartnern/spark-web/src/main/java/org/iu/handelspartnern/spark/controller/TradingPartnerController.java:468-510 | an unknown id gives "Partner nicht gefunden"; a refused payload leaves the table as it was; otherwise the row becomes SparkUpdated of the edited copy |
| SparkController.PutPartnerKeepsExtensionFields | handelspartnern/spark-web/src/main/java/org/iu/handelspartnern/spark/controller/TradingPartnerController.java:499-501 | through that handler the stored contacts, addresses, claims and payable never change |
| SparkController.JsonUpdatedContactsOnly | handelspartnern/spark-web/src/main/java/org/iu/handelspartnern/spark/controller/TradingPartnerController.java:482-499 | a body holding only a contact list replaces the contacts by their normalised list and changes no other field |
| SparkController.PutPartnerDropsContacts | handelspartnern/spark-web/src/main/java/org/iu/handelspartnern/spark/controller/TradingPartnerController.java:499-501 | for any partner without contacts, a body holding only the contact named "Eva" puts that contact in the edited copy, while the row the handler stores keeps no contact |
| SparkController.PutPartnerPersistingExtensions | handelspartnern/spark-web/src/main/java/org/iu/handelspartnern/spark/controller/TradingPartnerController.java:468-510 | the handler saving its edited copy: the row becomes the JSON update of the old row with a new modification time |
| SparkController.FormUpdated | handelspartnern/spark-web/src/main/java/org/iu/handelspartnern/spark/controller/TradingPartnerController.java:233-254 | present form fields overwrite theirs untrimmed; type and status must be exact constant names, and the update fails iff one is not; nothing else changes |
| SparkController.ApplyFormUpdate | handelspartnern/spark-web/src/main/java/org/iu/handelspartnern/spark/controller/TradingPartnerController.java:242-255 | the entity's state becomes FormUpdated of it |
| SparkController.FormUpdateSurvivesService | handelspartnern/spark-web/src/main/java/org/iu/handelspartnern/spark/controller/TradingPartnerController.java:242-257 | every field the form can change is one the Spark update copies, so the form update reaches the table whole |
| SparkController.NewTransaction | handelspartnern/spark-web/src/main/java/org/iu/handelspartnern/spark/controller/TradingPartnerController.java:765-783 | an accepted entry means the partner id and type text were present, the type names a constant, and the amount and date texts parsed; the entry is OPEN and holds exactly the parsed amount (which is positive), the parsed date, the named type, and "" for a missing purpose or reference; a missing partner id or type text is refused with its message |
| SparkController.NewTransactionChecks | handelspartnern/spark-web/src/main/java/org/iu/handelspartnern/spark/controller/TradingPartnerController.java:765-783 | with partner id and type text present: an unknown type, an unparsable amount and an unparsable date each fail with their own error, in that order, and the entry is built exactly when all checks pass |
| SparkController.NonPositiveAmountRefused | handelspartnern/spark-web/src/main/java/org/iu/handelspartnern/spark/controller/TradingPartnerController.java:771-775 | an amount ≤ 0 is refused with "Betrag muss größer als 0 sein." before any entry is built |
| SparkController.MissingAmountRefused | handelspartnern/spark-web/src/main/java/org/iu/handelspartnern/spark/controller/TradingPartnerController.java:771-775 | a missing amount reads as "0" and is refused the same way |
| TransactionsView.Totals | handelspartnern/spark-web/src/main/java/org/iu/handelspartnern/spark/controller/TradingPartnerController.java:696-712 | totalClaims = open + settled claims, totalPayables = open + settled payables, netBalance = totalClaims − totalPayables, the four totals and the count passed through |
| TransactionsView.NetBalanceSplits | handelspartnern/spark-web/src/main/java/org/iu/handelspartnern/spark/controller/TradingPartnerController.java:701-703 | the net balance is the open difference plus the settled difference |
| TransactionsView.CompareDates | handelspartnern/spark-web/src/main/java/org/iu/handelspartnern/spark/controller/TradingPartnerController.java:717-718 | the natural date order: not greater iff the date is on or before the other, zero iff equal |
| TransactionsView.CompareEntries | handelspartnern/spark-web/src/main/java/org/iu/handelspartnern/spark/controller/TradingPartnerController.java:716-720 | by date with null last, then by creation time with null last; zero iff both keys agree |
| TransactionsView.Insert | handelspartnern/spark-web/src/main/java/org/iu/handelspartnern/spark/controller/TradingPartnerController.java:716-720 | inserting adds exactly the entry and keeps a newest-first list newest first |
| TransactionsView.SortNewestFirst | handelspartnern/spark-web/src/main/java/org/iu/handelspartnern/spark/controller/TradingPartnerController.java:716-720 | the result is a permutation of the input, ordered by the reversed comparator |
| TransactionsView.UndatedFirst | handelspartnern/spark-web/src/main/java/org/iu/handelspartnern/spark/controller/TradingPartnerController.java:716-720 | because the whole comparator is reversed, entries without a date come before every dated one |
| TransactionsView.DatedDescending | handelspartnern/spark-web/src/main/java/org/iu/handelspartnern/spark/controller/TradingPartnerController.java:716-720 | dated entries are in descending date order; on the same date a later creation time comes first and a missing one before both |
| TransactionsView.ToRow | handelspartnern/spark-web/src/main/java/org/iu/handelspartnern/spark/controller/TradingPartnerController.java:722-737 | "Forderung" iff the type is CLAIM, else "Verbindlichkeit"; the settled flag, labels and fields of the entry |
| TransactionsView.NonNull | handelspartnern/spark-web/src/main/java/org/iu/handelspartnern/spark/controller/TradingPartnerController.java:714-715 | exactly the non-null entries |
| TransactionsView.TransactionsAreSortedNonNullEntries | handelspartnern/spark-web/src/main/java/org/iu/handelspartnern/spark/controller/TradingPartnerController.java:714-738 | the list is the rows of a newest-first permutation of exactly the non-null entries |
| TransactionsView.GetTransactions | handelspartnern/spark-web/src/main/java/org/iu/handelspartnern/spark/controller/TradingPartnerController.java:681-748 | "Partner nicht gefunden" exactly without a partner; otherwise the totals of its overview and, row by row, the non-null entries sorted newest first (a permutation of them) |

## Left out

- HTTP plumbing: routes, status codes, redirects, `halt`, response envelopes and the partner summary map. An error response is the `Err` the handler would turn into it. The 400 for a non-positive amount is written as an `IllegalArgument` error with the same message.
- JSON conversion: payload values are taken as already read texts, numbers or lists. The `(String)` casts, floating-point JSON numbers and Jackson's conversion of contact and address maps are not modelled.
- Hibernate sessions and query execution: the listings the services receive are parameters. `QueryMatches` states what the WHERE clause selects. LIKE wildcards inside the search text are not interpreted.
- Case maps and `trim` are those of ASCII text. `String.isBlank` uses the Java whitespace set.
- TradingPartner.java does not declare `recalculateFinancials` or `getFinancialOverview`. They are parameters, and recalculation is taken to set only claims and payable.
- TradingPartner.java declares no entry list field. The entry list the services use starts empty, and a null list is read as empty where Java would throw a NullPointerException.
- Contact and address lists hold no null elements.
- FinancialEntry, Contact and Address are values, so object aliasing between entries is not modelled. `normalizeContact`/`normalizeAddress` fill a fresh object through setters; they are functions here because that object is not shared before it is returned.
- `PartnerStore.Save` requires an id that has a row. Hibernate's behaviour for a stale id is not modelled.
- PartnerRepository.NotNullViolation: the text of a refused save stands in for the persistence layer's message, which also names the property. In the transactional Spring service the refusal is taken to surface when the transaction commits, so no try/catch inside a service method wraps it. A refused save leaves the partner object's timestamps as they were. ContactConverter is not part of this model; a null contact list is taken to reach the NOT NULL column as null.
- The catch branches that wrap an unexpected exception in a RuntimeException are not modelled. Only the messages of the modelled failures are kept.
- The catch branch of Spring's `convertToListDto` is not modelled. It returns a fallback row: the id, the name or "Unknown" for a null name, no image, the type and status, zero claims and payable, and the current time. It is reached only if a getter throws, and no modelled getter does.
- Dtos.ToListDto: Spring's `convertToListDto` reads the time through `getUpdated()`, which TradingPartner.java does not declare. It is taken to read the modification time, the one `setUpdated` sets. The Spark service reads `getDateModified()`.
- TransactionsView.SortNewestFirst: sortedness and permutation are proved; stability among entries with equal date and creation time is not stated.
- Ids are unbounded integers: the 64-bit wrap of `Long` is not modelled. `BigDecimal` scale is not modelled.
- The Spark controller calls nine service methods that the Spark TradingPartnerService.java does not declare: `addAddress`, `addContact`, `addFinancialEntry`, `deleteAddress`, `deleteContact`, `getPartnerBalance`, `updateAddress`, `updateContact` and `updateFinancialEntryStatus`. Their Spark implementations are not part of this model. The transaction handler stops at the entry and the partner id it would pass on; the address, contact and balance handlers only forward to those methods.
- The FinancialEntryType and FinancialEntryStatus enums are not part of this model. The code names only CLAIM, OPEN and SETTLED; PAYABLE is assumed as the second entry type, and the constant lists and their `valueOf` behaviour are assumed.
- A record component of type `Optional` is never null here: `AddTradingPartnerDto`'s optional fields are `Option` values, so a null `Optional` (where Java's `orElse` would throw a NullPointerException) reads as empty. SpringService.AddClaim and SpringService.AddPayable take a non-null amount, so `BigDecimal.add(null)` cannot be expressed.
- Console logging in both services.

## Findings

| source | as written | input that shows it | evidently intended | confidence | as-written member | corrected member |
|---|---|---|---|---|---|---|
| handelspartnern/spark-web/src/main/java/org/iu/handelspartnern/spark/controller/TradingPartnerController.java:499-501 | the JSON update applies contacts, addresses, claims and payable to its own detached copy, then passes that copy to the Spark `updatePartner`. That method reloads the row and copies only seven fields, so these four changes are never stored. | any partner with no contacts and a body holding only `contacts: [{name: "Eva"}]`: the edited copy holds Eva, the stored row keeps no contact | the payload's contacts, addresses, claims and payable are stored with the rest | medium, not executed: the Spark TradingPartnerService.java lacks nine methods the controller calls, so it may not be the service this handler runs against | SparkController.PutPartner, SparkController.PutPartnerDropsContacts | SparkController.PutPartnerPersistingExtensions |
