/** The account stage (`AccountGenerator` in gen_accounts.py): each customer's
    account blueprint is expanded into account requests and every request
    becomes one account context and one schema row. */
module Accounts {
  import opened Text
  import opened Shared
  import opened Customers

  /** One account to open: a blueprint dict (its text fields) or a bare
      account-kind string. */
  datatype AccountRequest = FromDict(fields: map<string, string>) | FromLabel(kind: string)

  /** How many copies a dict entry asks for: `range(int(item.get('count', 1)))`. */
  function Copies(count: Option<int>): nat {
    match count
    case None => 1
    case Some(n) => if n < 0 then 0 else n
  }

  /** The requests one blueprint entry contributes. */
  function EntryRequests(e: AccountEntry): seq<AccountRequest> {
    match e
    case Structured(fields, count) => Replicate(FromDict(fields), Copies(count))
    case Label(kind) => [FromLabel(kind)]
    case Ignored => []
  }

  /** The blueprint loop: the entries' requests, in order. */
  function Expand(es: seq<AccountEntry>): seq<AccountRequest> {
    if |es| == 0 then [] else Expand(es[..|es| - 1]) + EntryRequests(es[|es| - 1])
  }

  /** A dict entry is repeated `count` times, a string once, anything else
      never, so the expansion has the sum of those sizes. */
  function RequestCount(es: seq<AccountEntry>): nat {
    if |es| == 0 then 0
    else
      var e := es[|es| - 1];
      RequestCount(es[..|es| - 1])
        + (match e case Structured(_, count) => Copies(count) case Label(_) => 1 case Ignored => 0)
  }

  lemma {:induction false} ExpandCount(es: seq<AccountEntry>)
    ensures |Expand(es)| == RequestCount(es)
  {
    if |es| > 0 {
      ExpandCount(es[..|es| - 1]);
    }
  }

  /** The default account kind when a blueprint asks for nothing: decided by the
      resolved customer-type code, not by the Company/Person flag. */
  function DefaultKind(c: Customer): string {
    if c.customerTypeCode == "C" then "Business" else "Current"
  }

  /** The account requests of one customer (`types_to_generate`). */
  function Requests(c: Customer): (r: seq<AccountRequest>)
    ensures |r| >= 1
    ensures |Expand(c.accountsBlueprint)| > 0 ==> r == Expand(c.accountsBlueprint)
    ensures |Expand(c.accountsBlueprint)| == 0 ==> r == [FromLabel(DefaultKind(c))]
  {
    var reqs := Expand(c.accountsBlueprint);
    if |reqs| == 0 then [FromLabel(DefaultKind(c))] else reqs
  }

  /** Every customer gets at least one account, and exactly as many as the
      blueprint asks for when it asks for any. */
  lemma RequestsCount(c: Customer)
    ensures RequestCount(c.accountsBlueprint) > 0 ==> |Requests(c)| == RequestCount(c.accountsBlueprint)
    ensures RequestCount(c.accountsBlueprint) == 0 ==> |Requests(c)| == 1
  {
    ExpandCount(c.accountsBlueprint);
  }

  /** A Person whose type code resolved to "C" gets a Business account by
      default. */
  lemma DefaultFollowsTypeCode(c: Customer)
    requires RequestCount(c.accountsBlueprint) == 0
    requires c.customerTypeCode == "C" && !c.isCompany
    ensures Requests(c) == [FromLabel("Business")]
  {
    ExpandCount(c.accountsBlueprint);
  }

  /** The first half of `generate_rows`: the blueprint loop and its default. */
  method ExpandBlueprint(c: Customer) returns (types: seq<AccountRequest>)
    ensures types == Requests(c)
  {
    types := [];
    var bp := c.accountsBlueprint;
    for i := 0 to |bp|
      invariant types == Expand(bp[..i])
    {
      TakeTake(bp, i);
      match bp[i]
      case Structured(fields, count) =>
        var qty := Copies(count);
        var k := 0;
        while k < qty
          invariant 0 <= k <= qty
          invariant types == Expand(bp[..i]) + Replicate(FromDict(fields), k)
        {
          types := types + [FromDict(fields)];
          k := k + 1;
        }
      case Label(kind) =>
        types := types + [FromLabel(kind)];
      case Ignored =>
    }
    TakeAll(bp);
    if |types| == 0 {
      types := if c.customerTypeCode == "C" then [FromLabel("Business")] else [FromLabel("Current")];
    }
  }

  // ---------------------------------------------------------------------------
  // Product codes
  // ---------------------------------------------------------------------------

  /** The keys of `product_code_map`, in insertion order. */
  const ProductKinds: seq<string> := ["Current", "Savings", "Business", "Trading", "Loan", "Mortgage"]

  const ProductCodes: map<string, string> := map[
    "Current" := "0004", "Savings" := "0011", "Business" := "0002",
    "Trading" := "PRD003", "Loan" := "0007", "Mortgage" := "0008"
  ]

  /** `k.upper() in acc_type_desc.upper()` */
  predicate KindMatches(desc: string, k: nat)
    requires k < |ProductKinds|
  {
    Contains(Upper(desc), Upper(ProductKinds[k]))
  }

  /** The index of the last of the first `n` kinds the description mentions,
      or -1 when it mentions none of them. */
  function LastMatch(desc: string, n: nat): (r: int)
    requires n <= |ProductKinds|
    ensures -1 <= r < n
    ensures r >= 0 ==> KindMatches(desc, r)
    ensures forall k :: r < k < n ==> !KindMatches(desc, k)
  {
    if n == 0 then -1
    else if KindMatches(desc, n - 1) then n - 1
    else LastMatch(desc, n - 1)
  }

  /** `clean_type` after the first `n` turns of the loop. */
  function CleanType(desc: string, n: nat): string
    requires n <= |ProductKinds|
  {
    var m := LastMatch(desc, n);
    if m < 0 then "Current" else ProductKinds[m]
  }

  /** `product_code_map.get(clean_type, "0013")` */
  function DerivedProductCode(desc: string): string {
    var kind := CleanType(desc, |ProductKinds|);
    if kind in ProductCodes then ProductCodes[kind] else "0013"
  }

  /** The derivation loop of `generate_rows`. */
  method DeriveProductCode(desc: string) returns (code: string)
    ensures code == DerivedProductCode(desc)
  {
    var cleanType := "Current";
    var upperDesc := Upper(desc);
    for k := 0 to |ProductKinds|
      invariant cleanType == CleanType(desc, k)
    {
      if Contains(upperDesc, Upper(ProductKinds[k])) {
        cleanType := ProductKinds[k];
      }
    }
    code := if cleanType in ProductCodes then ProductCodes[cleanType] else "0013";
  }

  /** The derived code is always a code of the map: the last kind the
      description mentions wins, "0004" (Current) when it mentions none, and
      the "0013" fallback can never be produced. */
  lemma DerivedProductCodeFacts(desc: string)
    ensures DerivedProductCode(desc) in ProductCodes.Values
    ensures DerivedProductCode(desc) != "0013"
    ensures (forall k :: 0 <= k < |ProductKinds| ==> !KindMatches(desc, k)) ==> DerivedProductCode(desc) == "0004"
    ensures forall k :: 0 <= k < |ProductKinds| && KindMatches(desc, k)
              && (forall k' :: k < k' < |ProductKinds| ==> !KindMatches(desc, k'))
              ==> DerivedProductCode(desc) == ProductCodes[ProductKinds[k]]
  {
    var m := LastMatch(desc, |ProductKinds|);
    assert forall k :: 0 <= k < |ProductKinds| ==> ProductKinds[k] in ProductCodes;
    if m >= 0 {
      assert ProductCodes[ProductKinds[m]] in ProductCodes.Values;
    } else {
      assert ProductCodes["Current"] in ProductCodes.Values;
    }
  }

  /** A description that mentions nothing but "Trading" gets PRD003. */
  lemma TradingCode(desc: string)
    requires KindMatches(desc, 3) && !KindMatches(desc, 4) && !KindMatches(desc, 5)
    ensures DerivedProductCode(desc) == "PRD003"
  {
    DerivedProductCodeFacts(desc);
  }

  // ---------------------------------------------------------------------------
  // Account contexts
  // ---------------------------------------------------------------------------

  /** `country_currency_map` */
  const CountryCurrency: map<string, string> := map[
    "US" := "USD", "DE" := "EUR", "FR" := "EUR", "IT" := "EUR", "ES" := "EUR", "NL" := "EUR",
    "FI" := "EUR", "GB" := "GBP", "JP" := "JPY", "CN" := "CNY", "CH" := "CHF", "CA" := "CAD",
    "AU" := "AUD", "TR" := "TRY", "RO" := "RON"
  ]

  /** The account currency: a three-letter code, the country's entry in the
      currency table, and "USD" for a country the table does not list. */
  function Currency(country: string): (r: string)
    ensures |r| == 3
    ensures r == "USD" || r in CountryCurrency.Values
    ensures country in CountryCurrency ==> r == CountryCurrency[country]
    ensures country !in CountryCurrency ==> r == "USD"
  {
    if country in CountryCurrency then CountryCurrency[country] else "USD"
  }

  /** The random and Faker values one account consumes. */
  datatype AccountDraws = AccountDraws(
    accountNumber: nat,     // randint(10000000, 99999999)
    balance: string,        // the formatted random.uniform(...) balance
    ibanNumber: nat,        // randint(1000000000, 9999999999)
    bic: string)            // fake.swift()

  /** What the account generator loads and uses: its column specification and
      the `.2f` rendering of an overdraft limit given as text. */
  datatype AccountTables = AccountTables(spec: Spec, formatAmount: string -> string)

  /** The account context dict built for one request. */
  datatype Account = Account(
    id: string,
    name: string,
    customerId: string,
    statusCode: string,
    creditDebitCode: string,
    currency: string,
    dateOpened: string,
    balance: string,
    branchId: string,
    relationshipMgrId: string,
    iban: string,
    bic: string,
    balanceDate: string,
    orgUnitCode: string,
    categoryCode: string,
    productCode: string,
    address: string,
    city: string,
    postalCode: string,
    countryCode: string,
    addressValidFrom: string,
    overdraftLimit: string,
    remoteFlag: string)
  {
    /** The context as the dict the schema-row mapping looks names up in. */
    function Field(name: string): Option<Value> {
      if name == "ACCOUNT_SOURCE_UNIQUE_ID" then Some(Str(id))
      else if name == "ACCOUNT_SOURCE_REF_ID" then Some(Str(id))
      else if name == "ACCOUNT_NAME" then Some(Str(name))
      else if name == "CUSTOMER_SOURCE_UNIQUE_ID" then Some(Str(customerId))
      else if name == "ACCOUNT_STATUS_CODE" then Some(Str(statusCode))
      else if name == "CREDIT_DEBIT_CODE" then Some(Str(creditDebitCode))
      else if name == "CURRENCY_CODE" then Some(Str(currency))
      else if name == "DATE_OPENED" then Some(Str(dateOpened))
      else if name == "ACCOUNT_BALANCE" then Some(Str(balance))
      else if name == "BRANCH_ID" then Some(Str(branchId))
      else if name == "RELATIONSHIP_MGR_ID" then Some(Str(relationshipMgrId))
      else if name == "IBAN" then Some(Str(iban))
      else if name == "BIC" then Some(Str(bic))
      else if name == "BALANCE_DATE" then Some(Str(balanceDate))
      else if name == "ORG_UNIT_CODE" then Some(Str(orgUnitCode))
      else if name == "PRIMARY_CUSTOMER_CATEGORY_CODE" then Some(Str(categoryCode))
      else if name == "PRODUCT_SOURCE_TYPE_CODE" then Some(Str(productCode))
      else if name == "ADDRESS" then Some(Str(address))
      else if name == "CITY" then Some(Str(city))
      else if name == "POSTAL_CODE" then Some(Str(postalCode))
      else if name == "COUNTRY_CODE" then Some(Str(countryCode))
      else if name == "ADDRESS_VALID_FROM" then Some(Str(addressValidFrom))
      else if name == "OVERDRAFT_LIMIT" then Some(Str(overdraftLimit))
      else if name == "ACCOUNT_CHANNEL_REMOTE_FLAG" then Some(Str(remoteFlag))
      else None
    }
  }

  /** `acc_type_desc`: a dict's `type` (Current when absent), or the string itself. */
  function TypeDesc(req: AccountRequest): (r: string)
    ensures req.FromLabel? ==> r == req.kind
    ensures req.FromDict? && "type" !in req.fields ==> r == "Current"
  {
    match req
    case FromDict(fields) => GetOr(fields, "type", "Current")
    case FromLabel(kind) => kind
  }

  /** A blueprint product code is used when given, else one is derived. */
  function ProductCode(req: AccountRequest): (r: string)
    ensures req.FromDict? && Present(Get(req.fields, "product_code")) ==> r == req.fields["product_code"]
    ensures !(req.FromDict? && Present(Get(req.fields, "product_code"))) ==> r in ProductCodes.Values
  {
    DerivedProductCodeFacts(TypeDesc(req));
    match req
    case FromDict(fields) => GetOrElse(fields, "product_code", DerivedProductCode(TypeDesc(req)))
    case FromLabel(_) => DerivedProductCode(TypeDesc(req))
  }

  /** The product code of `_build_context`: the dict's own one when given,
      otherwise derived from the type description by the keyword loop. */
  method ResolveProductCode(req: AccountRequest) returns (code: string)
    ensures code == ProductCode(req)
  {
    if req.FromDict? && Present(Get(req.fields, "product_code")) {
      code := req.fields["product_code"];
    } else {
      code := DeriveProductCode(TypeDesc(req));
    }
  }

  /** The overdraft limit, rendered with two decimals ("0.00" unless a dict gives one). */
  function Overdraft(req: AccountRequest, formatAmount: string -> string): (r: string)
    ensures !(req.FromDict? && "overdraft_limit" in req.fields) ==> r == "0.00"
  {
    match req
    case FromDict(fields) => if "overdraft_limit" in fields then formatAmount(fields["overdraft_limit"]) else "0.00"
    case FromLabel(_) => "0.00"
  }

  /** The account context for one request of customer `c`, given the
      request's product code. */
  function AccountOf(c: Customer, req: AccountRequest, productCode: string, d: AccountDraws,
                     runDate: string, formatAmount: string -> string): (a: Account)
    ensures "ACC-" <= a.id && c.customerName + " " <= a.name
    ensures |a.currency| == 3
    ensures c.countryCode + "99" <= a.iban
  {
    Account(
      id := "ACC-" + Decimal(RandInt(10000000, 99999999, d.accountNumber)),
      name := c.customerName + " " + TypeDesc(req),
      customerId := c.id,
      statusCode := "ACTIVE",
      creditDebitCode := "C",
      currency := Currency(c.countryCode),
      dateOpened := c.acquisitionDate,
      balance := d.balance,
      branchId := c.primeBranchId,
      relationshipMgrId := c.relationshipMgrId,
      iban := c.countryCode + "99" + Decimal(RandInt(1000000000, 9999999999, d.ibanNumber)),
      bic := d.bic,
      balanceDate := runDate,
      orgUnitCode := c.orgUnit,
      categoryCode := c.customerCategoryCode,
      productCode := productCode,
      address := c.overrideAddress,
      city := c.overrideCity,
      postalCode := c.postalCode,
      countryCode := c.countryCode,
      addressValidFrom := c.acquisitionDate,
      overdraftLimit := Overdraft(req, formatAmount),
      remoteFlag := "N")
  }

  /** An account inherits its owner's identity, location and dates, and its
      ID is tagged "ACC-". */
  lemma AccountOfInheritsOwner(c: Customer, req: AccountRequest, productCode: string, d: AccountDraws,
                               runDate: string, formatAmount: string -> string)
    ensures var a := AccountOf(c, req, productCode, d, runDate, formatAmount);
            && a.customerId == c.id
            && a.countryCode == c.countryCode
            && a.currency == Currency(c.countryCode)
            && a.dateOpened == c.acquisitionDate && a.addressValidFrom == c.acquisitionDate
            && a.branchId == c.primeBranchId && a.orgUnitCode == c.orgUnit
            && a.balanceDate == runDate
            && "ACC-" <= a.id
            && a.name == c.customerName + " " + TypeDesc(req)
            && a.statusCode == "ACTIVE"
            && a.Field("ACCOUNT_SOURCE_REF_ID") == a.Field("ACCOUNT_SOURCE_UNIQUE_ID") == Some(Str(a.id))
            && a.Field("DATE_OPENED") == a.Field("ADDRESS_VALID_FROM") == Some(Str(c.acquisitionDate))
  {
  }

  /** Request `j` of the customer at position `ci` becomes an account with the
      draws `draw(ci, j)`. */
  function AccountBuilder(c: Customer, ci: nat, t: AccountTables, runDate: string,
                          draw: (nat, nat) -> AccountDraws): (nat, AccountRequest) -> Account
  {
    (j: nat, req: AccountRequest) => AccountOf(c, req, ProductCode(req), draw(ci, j), runDate, t.formatAmount)
  }

  /** The accounts of the customer at position `ci`: one per request, in order. */
  function AccountsFor(c: Customer, ci: nat, t: AccountTables, runDate: string,
                       draw: (nat, nat) -> AccountDraws): (accs: seq<Account>)
    ensures |accs| == |Requests(c)|
  {
    MapWithIndex(Requests(c), AccountBuilder(c, ci, t, runDate, draw))
  }

  function GroupBuilder(t: AccountTables, runDate: string, draw: (nat, nat) -> AccountDraws)
    : (nat, Customer) -> seq<Account>
  {
    (ci: nat, c: Customer) => AccountsFor(c, ci, t, runDate, draw)
  }

  /** The account contexts of all customers, customer by customer. */
  function AllAccounts(cs: seq<Customer>, t: AccountTables, runDate: string,
                       draw: (nat, nat) -> AccountDraws): seq<Account>
  {
    Flatten(MapWithIndex(cs, GroupBuilder(t, runDate, draw)))
  }

  /** Every account of a customer inherits that customer's identity. */
  lemma AccountsInheritOwner(c: Customer, ci: nat, t: AccountTables, runDate: string,
                             draw: (nat, nat) -> AccountDraws, j: nat)
    requires j < |Requests(c)|
    ensures var a := AccountsFor(c, ci, t, runDate, draw)[j];
            && a.customerId == c.id
            && a.countryCode == c.countryCode
            && a.currency == Currency(c.countryCode)
            && a.dateOpened == c.acquisitionDate
            && "ACC-" <= a.id
  {
    var req := Requests(c)[j];
    MapWithIndexAt(Requests(c), AccountBuilder(c, ci, t, runDate, draw), j);
    AccountOfInheritsOwner(c, req, ProductCode(req), draw(ci, j), runDate, t.formatAmount);
  }

  /** The owner of an account: the customer whose request produced it. */
  lemma AccountOwner(cs: seq<Customer>, t: AccountTables, runDate: string,
                     draw: (nat, nat) -> AccountDraws, a: Account) returns (ci: nat)
    requires a in AllAccounts(cs, t, runDate, draw)
    ensures ci < |cs| && a.customerId == cs[ci].id
  {
    var groups := MapWithIndex(cs, GroupBuilder(t, runDate, draw));
    ci := FlattenMember(groups, a);
    MapWithIndexAt(cs, GroupBuilder(t, runDate, draw), ci);
    var accs := AccountsFor(cs[ci], ci, t, runDate, draw);
    var j :| 0 <= j < |accs| && accs[j] == a;
    AccountsInheritOwner(cs[ci], ci, t, runDate, draw, j);
  }

  /** The number of accounts the customers ask for: each customer's expanded
      blueprint size, or one when that is empty. */
  function AccountCount(cs: seq<Customer>): nat {
    if |cs| == 0 then 0
    else
      var n := RequestCount(cs[|cs| - 1].accountsBlueprint);
      AccountCount(cs[..|cs| - 1]) + (if n == 0 then 1 else n)
  }

  /** There are exactly as many account contexts as the customers' blueprints
      ask for, one default account counted for each empty blueprint. */
  lemma {:induction false} AllAccountsCount(cs: seq<Customer>, t: AccountTables, runDate: string,
                                            draw: (nat, nat) -> AccountDraws)
    ensures |AllAccounts(cs, t, runDate, draw)| == AccountCount(cs)
  {
    if |cs| > 0 {
      var init := cs[..|cs| - 1];
      var c := cs[|cs| - 1];
      var builder := GroupBuilder(t, runDate, draw);
      assert cs == init + [c];
      MapWithIndexSnoc(init, c, builder);
      FlattenSnoc(MapWithIndex(init, builder), AccountsFor(c, |init|, t, runDate, draw));
      AllAccountsCount(init, t, runDate, draw);
      RequestsCount(c);
    }
  }

  /** Every account belongs to one of the customers, and every customer has
      at least one account. */
  lemma AccountsOwnedByCustomers(cs: seq<Customer>, t: AccountTables, runDate: string,
                                 draw: (nat, nat) -> AccountDraws)
    ensures forall a :: a in AllAccounts(cs, t, runDate, draw) ==> exists c :: c in cs && a.customerId == c.id
    ensures |AllAccounts(cs, t, runDate, draw)| >= |cs|
  {
    var groups := MapWithIndex(cs, GroupBuilder(t, runDate, draw));
    forall a | a in AllAccounts(cs, t, runDate, draw)
      ensures exists c :: c in cs && a.customerId == c.id
    {
      var ci := AccountOwner(cs, t, runDate, draw, a);
      assert cs[ci] in cs;
    }
    forall i | 0 <= i < |groups|
      ensures |groups[i]| >= 1
    {
      MapWithIndexAt(cs, GroupBuilder(t, runDate, draw), i);
    }
    FlattenLength(groups);
  }

  // ---------------------------------------------------------------------------
  // Schema rows
  // ---------------------------------------------------------------------------

  /** One cell: the context's value for the column ("" when it has none), the
      placeholder if that is empty and the column is mandatory, cut to the
      declared length. */
  function AccountCell(a: Account, col: Column): (r: string)
    ensures Bounded(col.colType) ==> |r| <= LengthBound(col.colType).value
    ensures col.mandatory == "YES" && LengthBound(col.colType) != Some(0) ==> r != ""
  {
    var found := a.Field(Upper(col.name));
    var v := if found.Some? then found.value else Str("");
    MandatoryCellNonEmpty(v, Contains(col.colType, "NUMBER"), col.colType);
    EnforceLength(Render(FillMandatory(v, col.mandatory == "YES", Contains(col.colType, "NUMBER"))), col.colType)
  }

  function AccountRow(a: Account, cols: seq<Column>): (r: seq<string>)
    ensures |r| == |cols|
  {
    MapSeq(cols, CellBuilder(a))
  }

  function CellBuilder(a: Account): Column -> string {
    col => AccountCell(a, col)
  }

  function AccountRows(accs: seq<Account>, cols: seq<Column>): (rows: seq<seq<string>>)
    ensures |rows| == |accs|
  {
    MapSeq(accs, RowBuilder(cols))
  }

  function RowBuilder(cols: seq<Column>): Account -> seq<string> {
    a => AccountRow(a, cols)
  }

  /** The account-ID and customer-ID columns carry the account's and its
      owner's IDs. */
  lemma AccountIdColumns(a: Account, col: Column)
    requires !(col.mandatory == "YES" && (a.id == "" || a.customerId == ""))
    ensures Upper(col.name) == "ACCOUNT_SOURCE_UNIQUE_ID" ==> AccountCell(a, col) == EnforceLength(a.id, col.colType)
    ensures Upper(col.name) == "CUSTOMER_SOURCE_UNIQUE_ID" ==>
              AccountCell(a, col) == EnforceLength(a.customerId, col.colType)
  {
  }

  /** A column the context does not know is empty, or its placeholder when
      mandatory. */
  lemma UnknownAccountColumn(a: Account, col: Column)
    requires a.Field(Upper(col.name)).None?
    ensures col.mandatory != "YES" ==> AccountCell(a, col) == ""
    ensures col.mandatory == "YES" ==>
              AccountCell(a, col) == EnforceLength(Placeholder(Contains(col.colType, "NUMBER")), col.colType)
  {
  }

  /** Builds one row column by column (the inner loop of `generate_rows`). */
  method BuildAccountRow(a: Account, spec: Spec) returns (row: seq<string>)
    requires spec.WellFormed()
    ensures row == AccountRow(a, Columns(spec))
  {
    row := [];
    ghost var cols := Columns(spec);
        for j := 0 to |spec.columns|
      invariant row == AccountRow(a, cols[..j])
    {
      var colName := Upper(spec.columns[j]);
      var colType := spec.types[j];
      var val := Str("");
      var found := a.Field(colName);
      if found.Some? {
        val := found.value;
      }
      if spec.mandatory[j] == "YES" && !Truthy(val) {
        val := Str(if Contains(colType, "NUMBER") then "0" else "N");
      }
      assert EnforceLength(Render(val), colType) == AccountCell(a, cols[j]);
      MapSeqSnoc(cols[..j], cols[j], CellBuilder(a));
      TakeSnoc(cols, j);
      row := row + [EnforceLength(Render(val), colType)];
    }
    TakeAll(cols);
  }

  /** `_build_context(customer, acc_req, run_date)` for request `j`. */
  method BuildAccount(cust: Customer, ci: nat, j: nat, req: AccountRequest, t: AccountTables,
                      runDate: string, draw: (nat, nat) -> AccountDraws)
    returns (acc: Account)
    ensures acc == AccountBuilder(cust, ci, t, runDate, draw)(j, req)
  {
    var productCode := ResolveProductCode(req);
    acc := AccountOf(cust, req, productCode, draw(ci, j), runDate, t.formatAmount);
  }

  /** The second half of `generate_rows` for one customer: its account
      contexts and rows, request by request. */
  method GenerateForCustomer(cust: Customer, ci: nat, t: AccountTables, runDate: string,
                             draw: (nat, nat) -> AccountDraws)
    returns (accounts: seq<Account>, rows: seq<seq<string>>)
    requires t.spec.WellFormed()
    ensures accounts == AccountsFor(cust, ci, t, runDate, draw)
    ensures rows == AccountRows(accounts, Columns(t.spec))
  {
    accounts, rows := [], [];
    ghost var cols := Columns(t.spec);
    var requests := ExpandBlueprint(cust);
    for j := 0 to |requests|
      invariant accounts == MapWithIndex(requests[..j], AccountBuilder(cust, ci, t, runDate, draw))
      invariant rows == AccountRows(accounts, cols)
    {
      var req := requests[j];
      var acc := BuildAccount(cust, ci, j, req, t, runDate, draw);
      MapWithIndexSnoc(requests[..j], req, AccountBuilder(cust, ci, t, runDate, draw));
      TakeSnoc(requests, j);
      var row := BuildAccountRow(acc, t.spec);
      MapSeqSnoc(accounts, acc, RowBuilder(cols));
      accounts := accounts + [acc];
      rows := rows + [row];
    }
    TakeAll(requests);
  }

  /** `AccountGenerator.generate_rows(customer_contexts, run_date)` */
  method GenerateAccountRows(customers: seq<Customer>, t: AccountTables, runDate: string,
                             draw: (nat, nat) -> AccountDraws)
    returns (accounts: seq<Account>, rows: seq<seq<string>>)
    requires t.spec.WellFormed()
    ensures accounts == AllAccounts(customers, t, runDate, draw)
    ensures rows == AccountRows(accounts, Columns(t.spec))
  {
    accounts, rows := [], [];
    ghost var cols := Columns(t.spec);
    for ci := 0 to |customers|
      invariant accounts == Flatten(MapWithIndex(customers[..ci], GroupBuilder(t, runDate, draw)))
      invariant rows == AccountRows(accounts, cols)
    {
      var cust := customers[ci];
      var accs, accRows := GenerateForCustomer(cust, ci, t, runDate, draw);
      MapWithIndexSnoc(customers[..ci], cust, GroupBuilder(t, runDate, draw));
      FlattenSnoc(MapWithIndex(customers[..ci], GroupBuilder(t, runDate, draw)), accs);
      TakeSnoc(customers, ci);
      MapSeqAppend(accounts, accs, RowBuilder(cols));
      accounts := accounts + accs;
      rows := rows + accRows;
    }
    TakeAll(customers);
  }
}
