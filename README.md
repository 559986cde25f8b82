# Synthetic banking data generator: a Dafny model

This project models the generation pipeline of a synthetic banking-data
generator. The pipeline turns a blueprint of customer profiles into four sets
of pipe-delimited rows: customers, accounts, customer-account links and
transactions. Each set follows an externally supplied column specification,
and references between the sets stay intact.

The model follows the Python code module by module:

- `text.dfy` (`Text`): the Python string operations the generators use.
  These are `strip`, `upper`, `lower`, `in` on strings, `split`, `zfill`,
  `str(int)`, `int(str)` and the letters-only `re.sub`. Case mapping and
  whitespace follow the ASCII subset of Python's rules (see "Left out").
- `shared.dfy` (`Shared`): the `BaseGenerator` helpers in `gen_shared.py`.
  These are enum resolution, length enforcement, the mandatory-field
  placeholder and the column-specification parser.
- `reference.dfy` (`Reference`): the `ReferenceLoader` table loaders in
  `gen_shared.py`.
- `customers.dfy` (`Customers`): `CustomerGenerator` in `gen_customers.py`.
- `accounts.dfy` (`Accounts`): `AccountGenerator` in `gen_accounts.py`.
- `links.dfy` (`Links`): `LinkGenerator` in `gen_links.py`.
- `transactions.dfy` (`Transactions`): `TransactionGenerator` in
  `gen_transactions.py`.
- `pipeline.dfy` (`Pipeline`): the stage order of `generate_custom_data` in
  `gen_orchestrator.py`, and the cross-stage referential-integrity lemmas.

How the model is built:

- **Loops stay loops.** Every loop of the source is a Dafny `method`. Each
  method's `ensures` equates its output with a specification function, and
  lemmas prove the source's promises about those functions.
- **Generators hold no state.** The generators do not update their own fields
  during `generate_rows`, so they are modelled as the tables they load
  (`CustomerTables`, `AccountTables`, `TxnTables`) passed to each method.
- **Randomness is an oracle.** Each `random.randint` and `random.choice`
  takes an oracle natural, reduced into range (`RandInt`, `Choice`).
- **Faker output and dates are opaque strings.** Faker values, formatted
  dates and formatted balances arrive in per-entity draw records
  (`CustomerDraws`, `AccountDraws`, `TxnDraws`). The per-customer and
  per-request draws are functions of the customer's or request's position.
  Every property is proved for all draws.
- **Files are line sequences.** A specification or reference file is modelled
  as its sequence of lines. A missing file is the empty sequence, which
  gives the same result in the source.
- **Dicts are typed.** Profile and request dicts are `map<string, string>`.
  `count` is a separate optional integer and `is_internal` a separate truth
  value. Context dicts are datatypes with a `Field`/`Fields` view that gives
  the dict's keys, for the schema-row mapping. The one key the customer view
  does not give is `ACCOUNTS_BLUEPRINT` (see "Left out").

Where the code and the written design disagree, the model follows the code.
The one exception is the internal-counterparty fallback, where the code
raises; the model uses the corrected behaviour described under "Findings".
The disagreements:

- **Product-code fallback.** An account kind that matches no keyword gets
  `"0004"` (Current), because `clean_type` starts as `"Current"`. The design
  describes a separate "other" code, but the `"0013"` fallback can never be
  produced (`Accounts.DerivedProductCodeFacts`).
- **Channel fallback.** The channel table is loaded with the description
  column as the key and the code column as the value. The fallback therefore
  takes the table's first valid key, which is the first data row's
  description, not a code. It applies only when the table maps the
  description to an empty string. An unknown description gets `"CH001"`
  whether or not that code is valid, and so does every request when the
  channel file has no data rows (`Transactions.ChannelFromFile`).
- **Count of zero.** A transaction blueprint whose counts are all zero or
  negative yields no transactions. It does not fall back to the one-to-five
  default (`Transactions.ZeroCountsMakeNothing`).
- **Default account kind.** When the account blueprint is empty, the default
  kind follows the resolved customer-type code, not the Company/Person flag.

## Model

| member | source | states |
|---|---|---|
| `Shared.ResolveValue` | gen_shared.py:59-65 | A present input whose trimmed, upper-cased form is a valid code is returned as that cleaned code. Otherwise a map key returns the map's value. An empty or unknown input gets the default when it is non-empty, else a valid code, else `""`. So the result is always the cleaned input, a map value, the default, a valid code or `""`. |
| `Shared.ResolveIsValidCode` | gen_shared.py:59-65 | When the table is non-empty and its translations and the default are valid codes, every input and every draw resolves to a valid code. |
| `Shared.ResolveIgnoresDrawGivenDefault` | gen_shared.py:61-65 | With a non-empty default, the random choice never affects the result. |
| `Shared.LengthBound` | gen_shared.py:76 | A readable bound exists only when the type contains `(`. |
| `Shared.EnforceLength` | gen_shared.py:72-79 | The result is always a prefix of the value. For a `STRING` type with a readable `(n)`, its length is `min(len, n)`. For any other type the value is unchanged. |
| `Shared.EnforceLengthIdempotent` | gen_shared.py:72-79 | Enforcing the same column type twice equals enforcing it once. |
| `Shared.FillMandatory` | gen_customers.py:236 | A mandatory cell is always truthy. An empty mandatory value becomes `"0"` (numeric) or `"N"`, and any other value is kept. |
| `Shared.MandatoryCellNonEmpty` | gen_customers.py:236-237 | After the placeholder and length enforcement, a mandatory cell is non-empty unless its declared bound is 0. |
| `Shared.NonBlankLines` | gen_shared.py:86 | The stripped, non-blank lines contain no empty line. |
| `Shared.PadTo` | gen_shared.py:97-99 | The list padded with the filler and cut to `n` has exactly `n` entries. Entry `i` is the original entry, or the filler past the end. |
| `Shared.PadList` | gen_shared.py:97-99 | The `while … append` padding loop, followed by `[:n]`, computes `PadTo`. |
| `Shared.SpecOf` | gen_shared.py:86-99 | Columns, types and mandatory flags always have equal length. Fewer than 3 non-blank lines give the empty spec. Columns come from the second non-blank line. Types come from line 2 when it mentions `STRING`/`DATE`, else from line 3, and flags come from the line after the types. Missing types are `"STRING"` and missing flags `"N"`. |
| `Shared.LoadSpec` | gen_shared.py:81-100 | `_load_spec` over the file's lines returns exactly `SpecOf(lines)`. |
| `Reference.LoadFile` | gen_shared.py:13-32 | The loader loop, with the header skipped, returns exactly the table the row-by-row definition gives. |
| `Reference.LoadRows` | gen_shared.py:21-29 | The row-by-row fold of the loader loop. It adds at most one valid key per row, and its properties are stated by `FailedAbsorbs`, `EntryStep`, `LoadRowsCodes` and `LoadRowsDomain`. |
| `Reference.TableOf` | gen_shared.py:13-32 | The header line never becomes a key, and a file with no data line gives the empty table. |
| `Reference.FailedAbsorbs` | gen_shared.py:19-31 | Once a row raises (an index past its parts), later rows are never read, and the partial table is returned. |
| `Reference.EntryStep` | gen_shared.py:22-29 | A row with at least 2 parts sets `map[key]=val` and `map[val.upper()]=key`, and appends `key`. Any other row changes nothing. |
| `Reference.LoadRowsCodes` | gen_shared.py:21-29 | With indices 0/1, no row raises, and the valid keys are the keys of the rows with at least two parts, in file order. |
| `Reference.LoadRowsDomain` | gen_shared.py:21-29 | The map's keys are exactly the entries' keys and their upper-cased values. |
| `Reference.CodesAreMapKeys` | gen_shared.py:27-29 | Every valid key can be looked up in the map. |
| `Reference.LoadRowsRange` | gen_shared.py:27-28 | Every value in the map was written in the file: it is some entry's key or some entry's value. |
| `Reference.LastEntryWins` | gen_shared.py:27-28 | The last entry's upper-cased value maps back to the last entry's key, so no earlier row can override that reverse entry. |
| `Reference.LoadTransactionTypes` | gen_shared.py:34-51 | The loader loop returns exactly `TxnTypesOf` of the data lines. |
| `Reference.TxnTypesContents` | gen_shared.py:41-49 | Rows with fewer than 4 parts are dropped. Each remaining row gives one four-field entry, in file order. |
| `Customers.CompanyLegalName` | gen_customers.py:83-86 | A non-empty form is appended (with a space) exactly when the name does not contain it case-insensitively. Afterwards the name always contains the form. |
| `Customers.PersonTitle` | gen_customers.py:99-100 | `"Mr"` exactly for GN0001, `"Ms"` exactly for GN0002, `""` otherwise. |
| `Customers.SmartEmail` | gen_customers.py:42-49 | Every address has exactly one `@`. A company with a name gets `contact@`, a lower-case letters-only label and `.com`. Anyone else gets a local part of lower-case letters and dots, then `@example.com`. |
| `Customers.PersonEmailWellFormed` | gen_customers.py:46-49 | A person address is exactly the letters-only, lower-cased first name, a dot, the same of the last name, and `@example.com`. Both name parts are lower-case letters only. |
| `Customers.ResolveFlag` | gen_customers.py:51-54 | A cleaned `Y`/`N` is returned as is, and anything else gets the default. With a Y/N default, the result is always Y or N. |
| `Customers.TaxNumberType` | gen_customers.py:116-129 | Gives the per-country, per-kind table entry for US/GB/DE/FR/IT/ES, and `"TIN"` for every other country. |
| `Customers.PhoneCountryCode` | gen_customers.py:108-111 | Gives the explicit code if truthy, else the country's table entry, else `"1"`. The result is never empty. |
| `Customers.SingleProfile` | gen_customers.py:56-208 | The context keeps the profile's account blueprint, always has a non-empty dialling code and a one-`@` address, and cuts the business segment to 50 characters. Its identity, flag and ID properties are in the lemmas below. |
| `Customers.ProfileIdTagged` | gen_customers.py:133 | Every customer ID starts with `CUST-`. |
| `Customers.KindFromRawInputOnly` | gen_customers.py:61-68 | `isCompany` is exactly `raw type == "C"`. The display type code is resolved separately. |
| `Customers.UnknownTypeCodeDefaults` | gen_customers.py:68 | A type `"P"` unknown to the table resolves to the display code `"C"`. |
| `Customers.DefaultTypeCodeKeepsPerson` | gen_customers.py:61-68 | Such a Person gets display code `"C"` and still stays a Person. |
| `Customers.CompanyIdentity` | gen_customers.py:82-90 | A company has empty person fields, and its company name equals its legal name. Its incorporation country is its country, and its name contains its company form. |
| `Customers.PersonIdentity` | gen_customers.py:91-100 | A person's legal name is `first + " " + last`, and its company fields are empty. Its title follows the gender code in both directions. |
| `Customers.FlagsAreYesNo` | gen_customers.py:165-169 | All five resolved compliance flags are Y or N, whatever the profile says. |
| `Customers.CustomerValue` | gen_customers.py:220-235 | Every non-ORGUNIT_CODE column with a `TIMESTAMP` type carries the run timestamp. The two customer-ID columns carry the customer ID unless their type is a timestamp. |
| `Customers.CustomerCell` | gen_customers.py:219-237 | A cell never exceeds its declared STRING bound, and a mandatory cell is non-empty unless that bound is 0. |
| `Customers.CustomerRow` | gen_customers.py:218-237 | A customer row has exactly one cell per column. |
| `Customers.CustomerCellFacts` | gen_customers.py:219-237 | An empty mandatory value becomes `"0"` for a NUMBER type and `"N"` otherwise. A bounded STRING column is never exceeded. A mandatory cell is non-empty unless its bound is 0. |
| `Customers.CustomerIdColumn` | gen_customers.py:228 | The `CUSTOMER_SOURCE_UNIQUE_ID`/`_REF_ID` columns carry the customer ID. |
| `Customers.BuildCustomerRow` | gen_customers.py:218-238 | The inner column loop computes `CustomerRow`. |
| `Customers.Contexts` | gen_customers.py:214-216 | There is exactly one context per profile. |
| `Customers.CustomerRows` | gen_customers.py:214-238 | There is exactly one row per context. |
| `Customers.GenerateRows` | gen_customers.py:210-240 | Returns one context and one row per profile, in input order. Profile `i` is built with draws `i`. |
| `Accounts.ExpandCount` | gen_accounts.py:29-36 | The expansion has `sum(count)` entries: a dict contributes `count` copies (none for `count` ≤ 0), a string contributes one and anything else none. |
| `Accounts.Requests` | gen_accounts.py:25-43 | The requests are the expansion when it is non-empty, else exactly one default request. |
| `Accounts.RequestsCount` | gen_accounts.py:29-43 | A customer gets the expanded count when it is positive, else exactly 1. |
| `Accounts.DefaultFollowsTypeCode` | gen_accounts.py:39-43 | An empty blueprint gives `Business` when the resolved type code is `"C"`, even for a Person. |
| `Accounts.ExpandBlueprint` | gen_accounts.py:25-43 | The nested expansion loops compute `Requests`. |
| `Accounts.LastMatch` | gen_accounts.py:64-66 | Finds the index of the last keyword the description mentions. No later keyword matches. |
| `Accounts.DeriveProductCode` | gen_accounts.py:63-67 | The keyword loop without `break` computes the derived product code. |
| `Accounts.DerivedProductCodeFacts` | gen_accounts.py:58-67 | The last matching keyword's code wins. With no match the code is `"0004"`. The result is always a code of the table and never `"0013"`. |
| `Accounts.TradingCode` | gen_accounts.py:58-67 | A kind that mentions Trading, but not Loan or Mortgage, gets `PRD003`. |
| `Accounts.ProductCode` | gen_accounts.py:49-67 | An explicit non-empty `product_code` wins. Otherwise the derived code is a code of the table. |
| `Accounts.ResolveProductCode` | gen_accounts.py:49-67 | The explicit-or-derived branch computes `ProductCode`. |
| `Accounts.Currency` | gen_accounts.py:10-13 | The currency is always a three-letter code: the owner country's entry in the currency table, or `"USD"` for a country the table does not list. |
| `Accounts.TypeDesc` | gen_accounts.py:49-56 | A label request names its own kind. A dict request without `type` is `"Current"`. |
| `Accounts.Overdraft` | gen_accounts.py:49-56 | A label request, or a dict without `overdraft_limit`, gets `"0.00"`. |
| `Accounts.AccountOf` | gen_accounts.py:75-100 | The account ID is tagged `ACC-`, the name starts with the owner's name and a space, the currency is a three-letter code, and the IBAN starts with the owner's country code and `99`. |
| `Accounts.AccountOfInheritsOwner` | gen_accounts.py:75-100 | Owner ID, country, branch, org unit and currency come from the owner. The name is `CUSTOMER_NAME + " " + kind` and the status is `ACTIVE`. The ref ID equals the unique ID, and `DATE_OPENED == ADDRESS_VALID_FROM ==` the acquisition date. The ID starts with `ACC-`. |
| `Accounts.AccountsFor` | gen_accounts.py:46-102 | There is one account per request of the customer. |
| `Accounts.AccountsInheritOwner` | gen_accounts.py:46-100 | Every account of a customer carries that customer's ID, country, currency and acquisition date. |
| `Accounts.AccountOwner` | gen_accounts.py:79 | Every generated account's owner ID is the ID of one of the input customers. |
| `Accounts.AllAccountsCount` | gen_accounts.py:22-102 | The number of accounts equals the sum of the expanded counts, with 1 for each empty expansion. |
| `Accounts.AllAccounts` | gen_accounts.py:22-102 | All account contexts, customer by customer. Its size is given by `AllAccountsCount` and its owners by `AccountOwner` and `AccountsOwnedByCustomers`. |
| `Accounts.AccountsOwnedByCustomers` | gen_accounts.py:22-102 | Every account belongs to a customer, and there are at least as many accounts as customers. |
| `Accounts.AccountRow` | gen_accounts.py:104-111 | An account row has exactly one cell per column. |
| `Accounts.AccountRows` | gen_accounts.py:104-112 | There is one row per account. |
| `Accounts.AccountIdColumns` | gen_accounts.py:105-111 | The account-ID and customer-ID columns carry the account's ID and its owner's ID. |
| `Accounts.UnknownAccountColumn` | gen_accounts.py:108-110 | A column the context lacks is blank, or gets the type-aware placeholder when mandatory. |
| `Accounts.AccountCell` | gen_accounts.py:105-111 | A cell never exceeds its declared STRING bound, and a mandatory cell is non-empty unless that bound is 0. |
| `Accounts.BuildAccountRow` | gen_accounts.py:104-112 | The column loop computes `AccountRow`. |
| `Accounts.BuildAccount` | gen_accounts.py:49-100 | The per-request body builds the specified account context. |
| `Accounts.GenerateForCustomer` | gen_accounts.py:25-112 | Gives one customer's accounts and rows, one per request, in order. |
| `Accounts.GenerateAccountRows` | gen_accounts.py:15-113 | Returns all accounts, customer by customer in customer order, and one row per account. |
| `Links.LinkColumns` | gen_links.py:20-30 | There is one link column per declared column. |
| `Links.LinkColumnsDefaults` | gen_links.py:22-30 | Past the types the column type is `"STRING"`, which is never truncated. Past the flags a column is `"NO"`. On a well-formed spec, the link columns are the ordinary columns. |
| `Links.LinkValue` | gen_links.py:21-32 | A link value is the account ID, the owner ID, `PRIMARY`, the opening date or `""`. Any column other than the four known ones is `""`. |
| `Links.LinkCell` | gen_links.py:21-32 | A cell never exceeds its declared STRING bound, and a mandatory cell is non-empty unless that bound is 0. |
| `Links.LinkRows` | gen_links.py:15-34 | There is exactly one link row per account. |
| `Links.LinkCellFacts` | gen_links.py:21-32 | The account column holds the account ID and the customer column the owner ID. `CUSTOMER_ROLE` is `PRIMARY` and `FROM_DATE` is `DATE_OPENED`. Other columns are blank, or `"N"` when mandatory. There is no numeric case. |
| `Links.LinkRowsAt` | gen_links.py:19-34 | Row `k` has one cell per column, and cell `i` is column `i` rendered from account `k`. |
| `Links.LinkRowNamesOwner` | gen_links.py:16-26 | In an unbounded customer column, link row `k` holds the owner ID of account `k`. |
| `Links.LinkRowNamesAccount` | gen_links.py:25 | In an unbounded account column, link row `k` holds the ID of account `k`. |
| `Links.BuildLinkRow` | gen_links.py:19-32 | The column loop computes `LinkRow`. |
| `Links.GenerateLinkRows` | gen_links.py:8-35 | Gives one row per account, in account order, with none skipped or duplicated. |
| `Transactions.Owners` | gen_transactions.py:45-51 | No owner is listed twice. |
| `Transactions.OwnedBy` | gen_transactions.py:45-48 | Every account in a group has that group's owner. |
| `Transactions.OwnersComplete` | gen_transactions.py:45-48 | An owner is listed exactly when some account names it. |
| `Transactions.GroupOfOwner` | gen_transactions.py:45-48 | Every account lies in its own owner's group and in no other group. |
| `Transactions.ListedOwnersHaveAccounts` | gen_transactions.py:51-52 | Every listed owner has at least one account, so the `if not accounts` guard never fires. |
| `Transactions.GroupByOwner` | gen_transactions.py:42-48 | The grouping loop builds `accounts_by_cust`: its keys in insertion order, and each key's accounts in input order. |
| `Transactions.TxnTypeMapLookup` | gen_transactions.py:12-14 | A description is in the type map exactly when some entry has it, upper-cased. It maps to the code of the last such entry. |
| `Transactions.BuildTxnTypeMap` | gen_transactions.py:12-14 | The constructor loop builds `TxnTypeMap`. |
| `Transactions.TxnRequestsCount` | gen_transactions.py:54-62 | A non-empty blueprint gives `sum(count)` requests. An empty one gives 1 to 5 `Purchase` requests. |
| `Transactions.ExpandTxnsCount` | gen_transactions.py:55-59 | The expansion has `sum(int(count, 1))` entries. |
| `Transactions.ZeroCountsMakeNothing` | gen_transactions.py:55-62 | A non-empty blueprint whose counts are all ≤ 0 makes no requests. |
| `Transactions.ExpandTxnBlueprint` | gen_transactions.py:54-62 | The `txns_to_make` loops compute `TxnRequests`. |
| `Transactions.Channel` | gen_transactions.py:73-75 | An unknown description gets `CH001`. A known one gets its table entry, or the table's first valid key (else `""`) when that entry is empty. |
| `Transactions.ChannelFromFile` | gen_transactions.py:18 | Under the table loaded with key column 1 and value column 0, a file without data rows gives `CH001`, the empty-entry fallback is the first data row's description column, and every result is `CH001` or a value written in the channel file. |
| `Transactions.Direction` | gen_transactions.py:78-79 | A truthy `credit_debit` wins. Otherwise the direction is `"D"` exactly when `TYPE_HINT == "Purchase"`, else `"C"`. |
| `Transactions.Instrument` | gen_transactions.py:93-97 | The bucket is CARD if the mean contains CARD. Else it is CASH for CASH/CURRENCY, else CHEQUE for CHECK/CHEQUE, else WIRE. Each case holds in both directions. |
| `Transactions.InstrumentIgnoresCase` | gen_transactions.py:93 | The bucket does not depend on the letter case of the mean. |
| `Transactions.SourceTypeCode` | gen_transactions.py:85-86 | A description the type map knows gets exactly its mapped code. Any other description gets `TT0013`. The result is always `TT0013` or a code of the map. |
| `Transactions.SourceTypeFromTable` | gen_transactions.py:12-14 | Through the loaded type table, a description carried by some entry gets the code of the LAST entry carrying it, with no later entry carrying it. A description no entry carries gets `TT0013`. |
| `Transactions.Scope` | gen_transactions.py:89-90 | `INTERNAL` exactly for an internal request, `EXTERNAL` exactly otherwise. |
| `Transactions.Candidates` | gen_transactions.py:103 | No candidate belongs to the posting customer. |
| `Transactions.CandidatesExactly` | gen_transactions.py:103 | The candidates are exactly the accounts of other customers. |
| `Transactions.SingleOwnerNoCandidates` | gen_transactions.py:103-104 | When one customer owns every account, it has no candidates. |
| `Transactions.InternalCounterparty` | gen_transactions.py:105-124 | The counterparty is the chosen account: its ID and name, its country as both party and bank country, and its city as the bank city, at `INTERNAL BANK`/`BNK_INT`. |
| `Transactions.ExternalCounterparty` | gen_transactions.py:128-152 | The bank name and account number are never empty. A missing account number is tagged `ACC-`. Without a name or account name, the account name equals the Faker name. |
| `Transactions.ResolveCounterparty` | gen_transactions.py:100-152 | Every counterparty has a non-empty bank name. An internal request with candidates names one of the candidates at `INTERNAL BANK`; every other request gets the external counterparty (the corrected fallback, see "Findings"). |
| `Transactions.CounterpartyFacts` | gen_transactions.py:102-152 | An internal request with candidates names an account of another customer (its ID, name and country) at `INTERNAL BANK`/`BNK_INT`. Otherwise the request's bank name, bank code and name apply, falling back to Faker values and `BNK001`. |
| `Transactions.BankNameAsWrittenFails` | gen_transactions.py:126-171 | As written, the bank-name lookup fails for every internal request of a customer who owns all accounts. |
| `Transactions.ResolvedBankName` | gen_transactions.py:102-152 | Corrected: an internal request without candidates degrades to the external counterparty. It agrees with the code wherever the code does not fail. |
| `Transactions.GeoScope` | gen_transactions.py:155 | `DOMESTIC` exactly when the account country equals the counterparty country, else `INTERNATIONAL`. |
| `Transactions.PartiesOf` | gen_transactions.py:161-173 | The holder with `My Bank` is one party and the counterparty with its bank the other. On a debit the holder originates; otherwise the holder is the beneficiary. |
| `Transactions.PartiesSwap` | gen_transactions.py:164-173 | A credit is the debit with both parties and their banks swapped. |
| `Transactions.Rate` | gen_transactions.py:39 | Every rate in the mock FX table is positive, so the conversion never divides by zero. |
| `Transactions.BaseAmount` | gen_transactions.py:176-185 | Equal currencies, or equal rates, leave the amount unchanged. |
| `Transactions.BaseAmountRoundTrip` | gen_transactions.py:183-185 | Converting A→B and back B→A gives the amount back. |
| `Transactions.OrigAmount` | gen_transactions.py:176-179 | A truthy `amount_orig` wins over `AMOUNT`, which wins over the drawn uniform amount. |
| `Transactions.TxnOfPosting` | gen_transactions.py:176-203 | A transaction posts to the chosen account for its customer, with the account's currency as base. With equal currencies, the base amount equals the original amount. |
| `Transactions.TxnOfParties` | gen_transactions.py:155-173 | In a built transaction, the geo scope compares the countries, and the originator and beneficiary follow the direction. |
| `Transactions.TxnDatesAgree` | gen_transactions.py:212-214 | The origination, posting and value dates are the same date. |
| `Transactions.TxnFieldAliases` | gen_transactions.py:199-204 | The ref and unique columns carry the same account ID. The two transaction-number columns carry the same number, and the two customer columns the same customer ID. |
| `Transactions.TxnOf` | gen_transactions.py:65-259 | The scope is `INTERNAL` exactly for an internal request. The instrument is one of the four buckets and the geo scope `DOMESTIC` or `INTERNATIONAL`. The counterparty bank name is never empty, and the ID is tagged `TXN-`. |
| `Transactions.TxnAt` | gen_transactions.py:65-66 | A transaction posts to one of the owner's accounts, with that account's branch and currency. |
| `Transactions.TxnCellFacts` | gen_transactions.py:262-270 | An empty mandatory cell becomes `"0"` for NUMBER/DECIMAL types and `"N"` otherwise. A value is only cut to length, and an unknown optional column is blank. |
| `Transactions.TxnCell` | gen_transactions.py:262-270 | A cell never exceeds its declared STRING bound, and a mandatory cell is non-empty unless that bound is 0. |
| `Transactions.TxnRow` | gen_transactions.py:262-271 | A transaction row has exactly one cell per column. |
| `Transactions.TxnRows` | gen_transactions.py:64-271 | There is one row per transaction. |
| `Transactions.TxnRowsAt` | gen_transactions.py:262-271 | Cell `i` of row `k` is column `i` rendered from transaction `k`. |
| `Transactions.CustomerTxns` | gen_transactions.py:64-65 | There is one transaction per request of the customer. |
| `Transactions.GroupTxnsCount` | gen_transactions.py:51-62 | Each listed owner gets exactly as many transactions as its expanded requests. |
| `Transactions.GroupTxns` | gen_transactions.py:51-62 | An owner with accounts gets exactly as many transactions as its expanded requests, and one without accounts gets none. |
| `Transactions.AllTxns` | gen_transactions.py:51-271 | All transaction contexts, owner by owner. Their origin is given by `TxnOrigin`, and their accounts by `TxnsPostToOwnAccounts` and `InternalCounterpartiesOtherCustomer`. |
| `Transactions.TxnsPostToOwnAccounts` | gen_transactions.py:65-203 | Every transaction's account is an input account owned by the transaction's customer. |
| `Transactions.TxnOrigin` | gen_transactions.py:51-65 | Every transaction of the run is request `j` of the expanded blueprint of the owner at position `gi` of the grouping, built with draws `(gi, j)` and posted for that owner, who has accounts. |
| `Transactions.InternalCounterpartiesOtherCustomer` | gen_transactions.py:102-125 | Every INTERNAL transaction's counterparty is an account of a different customer at `INTERNAL BANK`/`BNK_INT`. The only exception is when the posting customer owns every account. |
| `Transactions.BuildTxn` | gen_transactions.py:65-259 | The loop body builds the specified transaction context. |
| `Transactions.BuildTxnRow` | gen_transactions.py:262-271 | The column loop computes `TxnRow`. |
| `Transactions.GenerateForOwner` | gen_transactions.py:54-271 | Gives one owner's transactions and rows. |
| `Transactions.GenerateTransactionRows` | gen_transactions.py:35-272 | Returns all transactions, owner by owner in first-appearance order, and one row per transaction. |
| `Transactions.NewTxnTables` | gen_transactions.py:6-18 | The constructor loads the transaction specification, builds the type map from the loaded type rows, and loads the channel table with key column 1 and value column 0. |
| `Pipeline.GenerateCustomData` | gen_orchestrator.py:21-33 | The four stages run in order: customers, accounts from the customer contexts, links from the account contexts, and transactions from the account contexts. |
| `Pipeline.Run` | gen_orchestrator.py:21-33 | One customer row per profile, one link row per account row, one account row per account and one transaction row per transaction of the run. |
| `Pipeline.CustomerIdTagged` | gen_customers.py:133 | Every customer of the run has an ID starting with `CUST-`. |
| `Pipeline.ReferentialIntegrity` | gen_orchestrator.py:21-33 | Every account's owner is a customer of the run. Every transaction posts to an account of the customer it names, and that customer exists. There is one link row per account, and at least one account per customer. |
| `Pipeline.AccountOwnerTagged` | gen_accounts.py:79 | Every account owner is a run customer with a `CUST-` ID. |
| `Pipeline.LinksReferToCustomers` | gen_links.py:16-26 | In an unbounded customer column, every link row holds the ID of a customer of the run. |

## Left out

- The conversational front end and the model call that proposes a blueprint
  (`streamlit_app_v40.py`) are not part of this model.
- File output is not modelled. This covers the creation of the output
  directory, `csv.writer` serialization and the list of created files in
  `gen_orchestrator.py`.
- File reading is not modelled: the existence check, opening, the BOM and
  `print` on errors. A file is modelled as its lines, and a missing file as
  no lines, which gives the same result.
- Faker output is not computed. Names, companies, addresses, cities,
  postcodes, SWIFT/IBAN values and country codes arrive as opaque strings in
  the draw records. The per-country Faker cache (`_get_faker_for_country`)
  only decides which Faker produces them, so it is left out.
- Every random draw is an oracle input, and properties are proved for all
  draws. This covers `random.randint`, `random.choice`, `random.random` and
  `random.uniform`.
- `_get_random_date` and the back-dated transaction date are not modelled.
  They depend on the wall clock, so each date arrives as an opaque string.
- Amounts are handled through injected functions, not computed. The balance
  ranges, the `.2f` formatting and `float()` parsing are outside the model:
  `formatAmount` and `parseAmount` are parameters.
- Transactions.BaseAmount: the conversion is computed on exact reals, so
  floating-point rounding of `amt_orig * (rate_base / rate_orig)` is not
  modelled. The equal-currency identity does not depend on rounding.
- Shared.EnforceLength: only bounds written in decimal digits, optionally
  surrounded by whitespace, are read. A signed bound such as `(-3)` is treated
  as unreadable, so the value comes back whole. Python would slice with the
  negative index instead.
- Accounts.Copies: a `count` is given as an integer. A `count` that `int()`
  cannot parse raises in the source, and that case is not modelled.
- Customers.CustomerValue: a column named `ACCOUNTS_BLUEPRINT` comes out
  blank, or as the placeholder when mandatory. The source writes `str()` of
  the blueprint list there (gen_customers.py:135, 232), and the Python text
  form of a list of dicts is not modelled.
- Customers.GenerateRows: for that one column, its rows differ from the
  source's, as above. Every other column matches.
- Text.Trim, Text.Upper and Text.Lower cover the ASCII subset only. `strip()`
  removes only ASCII whitespace, so `'\xa0'` is kept. `upper()`/`lower()`
  map only `a`-`z`/`A`-`Z`, so `'ß'.upper()` stays `'ß'` rather than `'SS'`.
  Locale-specific Faker output and blueprint text reach these operations
  through Customers.CompanyLegalName, Shared.ResolveValue, Accounts.KindMatches,
  Transactions.Channel and Transactions.Instrument. For non-ASCII input these
  members can differ from Python.
- Transactions.TxnOf, Transactions.BuildTxn, Transactions.GenerateTransactionRows,
  Pipeline.Run and Pipeline.GenerateCustomData follow the corrected
  counterparty fallback. On a run where an internal request's customer owns
  every account, the source raises `KeyError` at gen_transactions.py:168/171,
  before any file is written. The model returns rows for that input instead
  (see "Findings").
- `cust_map` in `LinkGenerator.generate_rows` is built and never read, so it
  is not modelled.
- The `account_blueprint` parameter of `generate_custom_data` is never used.

## Findings

| source | as written | input that shows it | evidently intended | confidence | as-written member | corrected member |
|---|---|---|---|---|---|---|
| gen_transactions.py:126-171 | An internal request without candidates stores the `_get_counterparty()` dict, which has `BANK` but no `BANK_NAME`. `cpty_data['BANK_NAME']` then raises `KeyError` on both the debit branch (line 168) and the credit branch (line 171). | A run with one customer and a transaction blueprint entry `{"is_internal": true}` | Degrade to an external, synthesized counterparty, with the fallback bank as the bank name | high (not executed) | `Transactions.BankNameAsWrittenFails` | `Transactions.ResolvedBankName` |
