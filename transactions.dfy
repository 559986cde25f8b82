/** The transaction stage (`TransactionGenerator` in gen_transactions.py):
    accounts are grouped by owner, the global blueprint is expanded for every
    owner, and every request becomes one transaction context and one row. */
module Transactions {
  import opened Text
  import opened Shared
  import opened Reference
  import Accounts

  type Account = Accounts.Account

  // ---------------------------------------------------------------------------
  // Grouping accounts by owner
  // ---------------------------------------------------------------------------

  /** The owners of `accs`, in order of first appearance (the keys of
      `accounts_by_cust`, which a dict keeps in insertion order); no owner
      is listed twice. */
  function Owners(accs: seq<Account>): (r: seq<string>)
    ensures forall i, j :: 0 <= i < j < |r| ==> r[i] != r[j]
  {
    if |accs| == 0 then []
    else
      var init := Owners(accs[..|accs| - 1]);
      var c := accs[|accs| - 1].customerId;
      if c in init then init else init + [c]
  }

  /** The accounts of `owner`, in input order (`accounts_by_cust[owner]`). */
  function OwnedBy(accs: seq<Account>, owner: string): (r: seq<Account>)
    ensures forall i :: 0 <= i < |r| ==> r[i].customerId == owner
    ensures |r| <= |accs|
  {
    if |accs| == 0 then []
    else
      var a := accs[|accs| - 1];
      OwnedBy(accs[..|accs| - 1], owner) + (if a.customerId == owner then [a] else [])
  }

  lemma OwnersSnoc(accs: seq<Account>, a: Account)
    ensures Owners(accs + [a]) == if a.customerId in Owners(accs) then Owners(accs) else Owners(accs) + [a.customerId]
  {
    assert (accs + [a])[..|accs|] == accs;
  }

  lemma OwnedBySnoc(accs: seq<Account>, a: Account, owner: string)
    ensures OwnedBy(accs + [a], owner) == OwnedBy(accs, owner) + (if a.customerId == owner then [a] else [])
  {
    assert (accs + [a])[..|accs|] == accs;
  }

  /** An owner is listed exactly when one of the accounts names it. */
  lemma {:induction false} OwnersComplete(accs: seq<Account>, c: string)
    ensures c in Owners(accs) <==> exists i :: 0 <= i < |accs| && accs[i].customerId == c
  {
    if |accs| > 0 {
      var init := accs[..|accs| - 1];
      OwnersComplete(init, c);
      if exists i :: 0 <= i < |init| && init[i].customerId == c {
        var i :| 0 <= i < |init| && init[i].customerId == c;
        assert accs[i] == init[i];
      }
      if exists i :: 0 <= i < |accs| && accs[i].customerId == c {
        var i :| 0 <= i < |accs| && accs[i].customerId == c;
        if i < |init| {
          assert init[i] == accs[i];
        }
      }
    }
  }

  /** Each account of a group is one of the input accounts. */
  lemma {:induction false} OwnedBySubset(accs: seq<Account>, owner: string, k: nat)
    requires k < |OwnedBy(accs, owner)|
    ensures OwnedBy(accs, owner)[k] in accs
  {
    var init := accs[..|accs| - 1];
    if k < |OwnedBy(init, owner)| {
      OwnedBySubset(init, owner, k);
    }
  }

  /** Every input account lies in the group of its own owner and in no other:
      the groups partition the accounts. */
  lemma {:induction false} GroupOfOwner(accs: seq<Account>, i: nat, owner: string)
    requires i < |accs|
    ensures accs[i] in OwnedBy(accs, owner) <==> accs[i].customerId == owner
  {
    var init := accs[..|accs| - 1];
    if i < |init| {
      GroupOfOwner(init, i, owner);
      assert init[i] == accs[i];
    }
    if accs[i] in OwnedBy(accs, owner) {
      var k :| 0 <= k < |OwnedBy(accs, owner)| && OwnedBy(accs, owner)[k] == accs[i];
    }
  }

  /** A listed owner has at least one account, so the `if not accounts`
      guard never skips anyone. */
  lemma {:induction false} ListedOwnersHaveAccounts(accs: seq<Account>, c: string)
    requires c in Owners(accs)
    ensures |OwnedBy(accs, c)| >= 1
  {
    OwnersComplete(accs, c);
    var i :| 0 <= i < |accs| && accs[i].customerId == c;
    GroupOfOwner(accs, i, c);
  }

  /** `owners` and `groups` are `accounts_by_cust` after the accounts `accs`:
      its keys in insertion order and its lists. */
  ghost predicate Grouped(accs: seq<Account>, owners: seq<string>, groups: map<string, seq<Account>>) {
    && owners == Owners(accs)
    && (forall c :: c in groups <==> c in owners)
    && (forall c :: c in groups ==> groups[c] == OwnedBy(accs, c))
  }

  /** One step of the grouping loop keeps the dict in step with the accounts seen. */
  lemma GroupedSnoc(accs: seq<Account>, acc: Account, owners: seq<string>, groups: map<string, seq<Account>>)
    requires Grouped(accs, owners, groups)
    ensures var c := acc.customerId;
            Grouped(accs + [acc],
                    if c in groups then owners else owners + [c],
                    groups[c := (if c in groups then groups[c] else []) + [acc]])
  {
    var c0 := acc.customerId;
    var owners' := if c0 in groups then owners else owners + [c0];
    var groups' := groups[c0 := (if c0 in groups then groups[c0] else []) + [acc]];
    OwnersSnoc(accs, acc);
    assert owners' == Owners(accs + [acc]);
    forall c | c in groups'
      ensures groups'[c] == OwnedBy(accs + [acc], c)
    {
      OwnedBySnoc(accs, acc, c);
      if c == c0 && c0 !in groups {
        assert OwnedBy(accs, c) == [] by {
          if |OwnedBy(accs, c)| > 0 {
            OwnedBySubset(accs, c, 0);
            var i :| 0 <= i < |accs| && accs[i] == OwnedBy(accs, c)[0];
            OwnersComplete(accs, c);
          }
        }
      }
    }
  }

  /** The grouping loop over the account contexts. */
  method GroupByOwner(accs: seq<Account>) returns (owners: seq<string>, groups: map<string, seq<Account>>)
    ensures owners == Owners(accs)
    ensures forall c :: c in groups <==> c in owners
    ensures forall c :: c in groups ==> groups[c] == OwnedBy(accs, c)
  {
    owners, groups := [], map[];
    for i := 0 to |accs|
      invariant Grouped(accs[..i], owners, groups)
    {
      var acc := accs[i];
      var custId := acc.customerId;
      GroupedSnoc(accs[..i], acc, owners, groups);
      TakeSnoc(accs, i);
      var list := [];
      if custId in groups {
        list := groups[custId];
      } else {
        owners := owners + [custId];
      }
      groups := groups[custId := list + [acc]];
    }
    TakeAll(accs);
  }

  // ---------------------------------------------------------------------------
  // Transaction-type lookup
  // ---------------------------------------------------------------------------

  /** `txn_type_map`: each entry's upper-cased description maps to its code. */
  function TxnTypeMap(types: seq<TxnType>): map<string, string> {
    if |types| == 0 then map[]
    else
      var t := types[|types| - 1];
      TxnTypeMap(types[..|types| - 1])[Upper(t.desc) := t.code]
  }

  /** A description is known exactly when some entry has it (upper-cased), and
      it maps to the code of the last such entry. */
  lemma {:induction false} TxnTypeMapLookup(types: seq<TxnType>, k: string)
    ensures k in TxnTypeMap(types) <==> exists i :: 0 <= i < |types| && Upper(types[i].desc) == k
    ensures k in TxnTypeMap(types) ==>
              exists i :: 0 <= i < |types| && Upper(types[i].desc) == k && TxnTypeMap(types)[k] == types[i].code
                          && forall j :: i < j < |types| ==> Upper(types[j].desc) != k
  {
    if |types| > 0 {
      var init := types[..|types| - 1];
      var last := |types| - 1;
      TxnTypeMapLookup(init, k);
      if Upper(types[last].desc) != k && k in TxnTypeMap(init) {
        var i :| 0 <= i < |init| && Upper(init[i].desc) == k && TxnTypeMap(init)[k] == init[i].code
                 && forall j :: i < j < |init| ==> Upper(init[j].desc) != k;
        assert types[i] == init[i];
        assert forall j :: i < j < |types| ==> Upper(types[j].desc) != k by {
          forall j | i < j < |types| ensures Upper(types[j].desc) != k {
            if j < last {
              assert types[j] == init[j];
            }
          }
        }
      }
      if exists i :: 0 <= i < |types| && Upper(types[i].desc) == k {
        var i :| 0 <= i < |types| && Upper(types[i].desc) == k;
        if i < last {
          assert init[i] == types[i];
        }
      }
    }
  }

  /** The loop in `TransactionGenerator.__init__` filling `txn_type_map`. */
  method BuildTxnTypeMap(types: seq<TxnType>) returns (m: map<string, string>)
    ensures m == TxnTypeMap(types)
  {
    m := map[];
    for i := 0 to |types|
      invariant m == TxnTypeMap(types[..i])
    {
      TakeTake(types, i);
      m := m[Upper(types[i].desc) := types[i].code];
    }
    TakeAll(types);
  }

  // ---------------------------------------------------------------------------
  // Blueprint expansion
  // ---------------------------------------------------------------------------

  /** One transaction request of the global blueprint: its text entries, the
      truth value of its `is_internal` entry and its `count` entry. */
  datatype TxnRequest = TxnRequest(fields: map<string, string>, isInternal: bool, count: Option<int>)

  /** The request used when there is no blueprint: `{"TYPE_HINT": "Purchase"}`. */
  const PurchaseRequest: TxnRequest := TxnRequest(map["TYPE_HINT" := "Purchase"], false, None)

  /** Each blueprint item repeated `int(item.get('count', 1))` times, in order. */
  function ExpandTxns(bp: seq<TxnRequest>): seq<TxnRequest> {
    if |bp| == 0 then []
    else
      var item := bp[|bp| - 1];
      ExpandTxns(bp[..|bp| - 1]) + Replicate(item, Accounts.Copies(item.count))
  }

  /** The sum of the items' counts. */
  function TxnCount(bp: seq<TxnRequest>): nat {
    if |bp| == 0 then 0 else TxnCount(bp[..|bp| - 1]) + Accounts.Copies(bp[|bp| - 1].count)
  }

  /** `txns_to_make` for one customer; `d` draws `random.randint(1, 5)`. */
  function TxnRequests(bp: seq<TxnRequest>, d: nat): seq<TxnRequest> {
    if |bp| > 0 then ExpandTxns(bp) else Replicate(PurchaseRequest, RandInt(1, 5, d))
  }

  /** With a blueprint, a customer gets the sum of the counts (possibly none);
      without one, between one and five Purchase requests. */
  lemma {:induction false} TxnRequestsCount(bp: seq<TxnRequest>, d: nat)
    ensures |bp| > 0 ==> |TxnRequests(bp, d)| == TxnCount(bp)
    ensures |bp| == 0 ==> 1 <= |TxnRequests(bp, d)| <= 5
    ensures |bp| == 0 ==> forall i :: 0 <= i < |TxnRequests(bp, d)| ==> TxnRequests(bp, d)[i] == PurchaseRequest
  {
    ExpandTxnsCount(bp);
  }

  lemma {:induction false} ExpandTxnsCount(bp: seq<TxnRequest>)
    ensures |ExpandTxns(bp)| == TxnCount(bp)
  {
    if |bp| > 0 {
      ExpandTxnsCount(bp[..|bp| - 1]);
    }
  }

  /** A blueprint whose every count is zero or negative makes no transactions
      at all; the one-to-five default applies only to an empty blueprint. */
  lemma {:induction false} ZeroCountsMakeNothing(bp: seq<TxnRequest>, d: nat)
    requires |bp| > 0
    requires forall i :: 0 <= i < |bp| ==> bp[i].count.Some? && bp[i].count.value <= 0
    ensures TxnRequests(bp, d) == []
  {
    ZeroCountsExpand(bp);
  }

  lemma {:induction false} ZeroCountsExpand(bp: seq<TxnRequest>)
    requires forall i :: 0 <= i < |bp| ==> bp[i].count.Some? && bp[i].count.value <= 0
    ensures ExpandTxns(bp) == []
  {
    if |bp| > 0 {
      ZeroCountsExpand(bp[..|bp| - 1]);
    }
  }

  /** The `txns_to_make` loops. */
  method ExpandTxnBlueprint(bp: seq<TxnRequest>, d: nat) returns (reqs: seq<TxnRequest>)
    ensures reqs == TxnRequests(bp, d)
  {
    reqs := [];
    if |bp| > 0 {
      for i := 0 to |bp|
        invariant reqs == ExpandTxns(bp[..i])
      {
        TakeTake(bp, i);
        var count := Accounts.Copies(bp[i].count);
        for k := 0 to count
          invariant reqs == ExpandTxns(bp[..i]) + Replicate(bp[i], k)
        {
          reqs := reqs + [bp[i]];
        }
      }
      TakeAll(bp);
    } else {
      var n := RandInt(1, 5, d);
      for k := 0 to n
        invariant reqs == Replicate(PurchaseRequest, k)
      {
        reqs := reqs + [PurchaseRequest];
      }
    }
  }

  // ---------------------------------------------------------------------------
  // Decision rules
  // ---------------------------------------------------------------------------

  /** The channel code: the channel table's entry for the upper-cased
      `channel_desc` (default "INTERNET"), "CH001" when there is none, and the
      first channel code when the entry is empty. */
  function Channel(channels: Table, fields: map<string, string>): (r: string)
    ensures var desc := Upper(GetOr(fields, "channel_desc", "INTERNET"));
            && (desc !in channels.mapping ==> r == "CH001")
            && (desc in channels.mapping && channels.mapping[desc] != "" ==> r == channels.mapping[desc])
            && (desc in channels.mapping && channels.mapping[desc] == "" && |channels.codes| > 0 ==> r == channels.codes[0])
            && (desc in channels.mapping && channels.mapping[desc] == "" && |channels.codes| == 0 ==> r == "")
  {
    var desc := Upper(GetOr(fields, "channel_desc", "INTERNET"));
    var code := GetOr(channels.mapping, desc, "CH001");
    if code == "" && |channels.codes| > 0 then channels.codes[0] else code
  }

  /** The credit/debit code: an explicit non-empty `credit_debit` wins;
      otherwise "D" exactly for a Purchase hint, else "C". */
  function Direction(fields: map<string, string>): (cd: string)
    ensures Present(Get(fields, "credit_debit")) ==> cd == fields["credit_debit"]
    ensures !Present(Get(fields, "credit_debit")) ==>
              (cd == "D" || cd == "C") && (cd == "D" <==> Get(fields, "TYPE_HINT") == Some("Purchase"))
  {
    GetOrElse(fields, "credit_debit", if Get(fields, "TYPE_HINT") == Some("Purchase") then "D" else "C")
  }

  /** The instrument bucket of a payment mean, by keyword with fixed precedence
      CARD, then CASH/CURRENCY, then CHECK/CHEQUE, then WIRE. */
  function Instrument(payMean: string): (r: string)
    ensures r in {"CARD", "CASH", "CHEQUE", "WIRE"}
    ensures var pm := Upper(payMean);
            && (r == "CARD" <==> Contains(pm, "CARD"))
            && (r == "CASH" <==> !Contains(pm, "CARD") && (Contains(pm, "CASH") || Contains(pm, "CURRENCY")))
            && (r == "CHEQUE" <==> !Contains(pm, "CARD") && !Contains(pm, "CASH") && !Contains(pm, "CURRENCY")
                                   && (Contains(pm, "CHECK") || Contains(pm, "CHEQUE")))
  {
    var pm := Upper(payMean);
    if Contains(pm, "CARD") then "CARD"
    else if Contains(pm, "CASH") || Contains(pm, "CURRENCY") then "CASH"
    else if Contains(pm, "CHECK") || Contains(pm, "CHEQUE") then "CHEQUE"
    else "WIRE"
  }

  lemma UpperIdempotent(s: string)
    ensures Upper(Upper(s)) == Upper(s)
  {
  }

  /** The bucket does not depend on the case of the payment mean. */
  lemma InstrumentIgnoresCase(payMean: string)
    ensures Instrument(Upper(payMean)) == Instrument(payMean)
  {
    UpperIdempotent(payMean);
  }

  /** The source type code: the type table's code for the upper-cased
      `txn_type_desc`, "TT0013" when it has none. */
  function SourceTypeCode(typeMap: map<string, string>, fields: map<string, string>): (r: string)
    ensures r == "TT0013" || r in typeMap.Values
    ensures Upper(GetOr(fields, "txn_type_desc", "")) !in typeMap ==> r == "TT0013"
    ensures Upper(GetOr(fields, "txn_type_desc", "")) in typeMap ==> r == typeMap[Upper(GetOr(fields, "txn_type_desc", ""))]
  {
    GetOr(typeMap, Upper(GetOr(fields, "txn_type_desc", "")), "TT0013")
  }

  /** Through the loaded type table: a description some entry carries gets the
      code of the last entry carrying it, and any other description "TT0013". */
  lemma SourceTypeFromTable(types: seq<TxnType>, fields: map<string, string>)
    ensures var key := Upper(GetOr(fields, "txn_type_desc", ""));
            (forall i :: 0 <= i < |types| ==> Upper(types[i].desc) != key) ==>
              SourceTypeCode(TxnTypeMap(types), fields) == "TT0013"
    ensures var key := Upper(GetOr(fields, "txn_type_desc", ""));
            (exists i :: 0 <= i < |types| && Upper(types[i].desc) == key) ==>
              exists i :: 0 <= i < |types| && Upper(types[i].desc) == key
                          && SourceTypeCode(TxnTypeMap(types), fields) == types[i].code
                          && forall j :: i < j < |types| ==> Upper(types[j].desc) != key
  {
    TxnTypeMapLookup(types, Upper(GetOr(fields, "txn_type_desc", "")));
  }

  /** `"INTERNAL" if is_internal else "EXTERNAL"` */
  function Scope(isInternal: bool): (r: string)
    ensures r == "INTERNAL" <==> isInternal
    ensures r == "EXTERNAL" <==> !isInternal
  {
    if isInternal then "INTERNAL" else "EXTERNAL"
  }

  // ---------------------------------------------------------------------------
  // Counterparty
  // ---------------------------------------------------------------------------

  /** The counterparty's eighteen fields (`cpty_data`). */
  datatype Counterparty = Counterparty(
    name: string, address: string, zone: string, city: string, postalCode: string, country: string,
    accountNum: string, accountName: string, accountType: string, iban: string, bic: string,
    bankName: string, bankCode: string, bankAddress: string, bankCity: string, bankZone: string,
    bankPostalCode: string, bankCountry: string)

  /** The Faker values `_get_counterparty()` draws; its "BANK" entry is
      `bankCompany + " Bank"`. */
  datatype FakeCounterparty = FakeCounterparty(
    name: string, address: string, city: string, country: string, iban: string, bic: string,
    bankCompany: string, bankAddress: string, bankCity: string, bankCountry: string)

  /** The dict `_get_counterparty()` returns: ten entries, with "BANK" where
      the transaction code reads "BANK_NAME". */
  function FakeDict(f: FakeCounterparty): map<string, string> {
    map["NAME" := f.name, "ADDRESS" := f.address, "CITY" := f.city, "COUNTRY" := f.country,
        "IBAN" := f.iban, "BIC" := f.bic, "BANK" := f.bankCompany + " Bank",
        "BANK_ADDRESS" := f.bankAddress, "BANK_CITY" := f.bankCity, "BANK_COUNTRY" := f.bankCountry]
  }

  /** The accounts of other customers (`candidates`). */
  function Candidates(all: seq<Account>, custId: string): (r: seq<Account>)
    ensures forall i :: 0 <= i < |r| ==> r[i].customerId != custId
  {
    if |all| == 0 then []
    else
      var a := all[|all| - 1];
      Candidates(all[..|all| - 1], custId) + (if a.customerId != custId then [a] else [])
  }

  /** Each candidate is one of the accounts, and every account of another
      customer is a candidate. */
  lemma {:induction false} CandidatesExactly(all: seq<Account>, custId: string, a: Account)
    ensures a in Candidates(all, custId) <==> a in all && a.customerId != custId
  {
    if |all| > 0 {
      var init := all[..|all| - 1];
      CandidatesExactly(init, custId, a);
      assert all == init + [all[|all| - 1]];
    }
  }

  /** When every account belongs to one customer, that customer has no
      candidates. */
  lemma {:induction false} SingleOwnerNoCandidates(all: seq<Account>, custId: string)
    requires forall i :: 0 <= i < |all| ==> all[i].customerId == custId
    ensures Candidates(all, custId) == []
  {
    if |all| > 0 {
      SingleOwnerNoCandidates(all[..|all| - 1], custId);
    }
  }

  /** The internal counterparty taken from another customer's account. */
  function InternalCounterparty(a: Account): (k: Counterparty)
    ensures k.accountNum == a.id && k.name == a.name && k.accountName == k.name
    ensures k.country == a.countryCode && k.bankCountry == k.country && k.bankCity == k.city
    ensures k.bankName == "INTERNAL BANK" && k.bankCode == "BNK_INT"
  {
    Counterparty(
      name := a.name, address := a.address, zone := "", city := a.city, postalCode := a.postalCode,
      country := a.countryCode, accountNum := a.id, accountName := a.name, accountType := "Current",
      iban := a.iban, bic := a.bic, bankName := "INTERNAL BANK", bankCode := "BNK_INT",
      bankAddress := "Internal HQ", bankCity := a.city, bankZone := "", bankPostalCode := "",
      bankCountry := a.countryCode)
  }

  /** The external counterparty: the request's `counterparty_*` entries, with
      the Faker values where an `or` falls through and fixed defaults where a
      `get` has one; `accountNumber` draws `randint(1000, 9999)`. */
  function ExternalCounterparty(fields: map<string, string>, f: FakeCounterparty, accountNumber: nat): (k: Counterparty)
    ensures k.bankName != "" && k.accountNum != ""
    ensures !Present(Get(fields, "counterparty_account_num")) ==> "ACC-" <= k.accountNum
    ensures !Present(Get(fields, "counterparty_name")) && !Present(Get(fields, "counterparty_account_name")) ==>
              k.accountName == k.name
  {
    Counterparty(
      name := GetOrElse(fields, "counterparty_name", f.name),
      address := GetOrElse(fields, "counterparty_address", f.address),
      zone := GetOr(fields, "counterparty_zone", ""),
      city := GetOrElse(fields, "counterparty_city", f.city),
      postalCode := GetOr(fields, "counterparty_postal_code", ""),
      country := GetOrElse(fields, "counterparty_country", f.country),
      accountNum := GetOrElse(fields, "counterparty_account_num", "ACC-" + Decimal(RandInt(1000, 9999, accountNumber))),
      accountName := GetOrElse(fields, "counterparty_account_name", f.name),
      accountType := GetOr(fields, "counterparty_account_type", "Current"),
      iban := GetOrElse(fields, "counterparty_account_iban", f.iban),
      bic := GetOrElse(fields, "counterparty_account_bic", f.bic),
      bankName := GetOrElse(fields, "counterparty_bank_name", f.bankCompany + " Bank"),
      bankCode := GetOr(fields, "counterparty_bank_code", "BNK001"),
      bankAddress := GetOrElse(fields, "counterparty_bank_address", f.bankAddress),
      bankCity := GetOrElse(fields, "counterparty_bank_city", f.bankCity),
      bankZone := GetOr(fields, "counterparty_bank_zone", ""),
      bankPostalCode := GetOr(fields, "counterparty_bank_postal_code", ""),
      bankCountry := GetOrElse(fields, "counterparty_bank_country", f.bankCountry))
  }

  /** The counterparty of a request: another customer's account for an
      internal request when there is one (`pick` draws `random.choice`), the
      external mapping otherwise. An internal request without candidates is
      given the external mapping, which the Faker fallback completes. */
  function ResolveCounterparty(req: TxnRequest, candidates: seq<Account>, pick: nat,
                               f: FakeCounterparty, accountNumber: nat): (k: Counterparty)
    ensures k.bankName != ""
    ensures req.isInternal && |candidates| > 0 ==>
              && k.bankName == "INTERNAL BANK"
              && exists i :: 0 <= i < |candidates| && k.accountNum == candidates[i].id && k.name == candidates[i].name
    ensures !(req.isInternal && |candidates| > 0) ==> k == ExternalCounterparty(req.fields, f, accountNumber)
  {
    if req.isInternal && |candidates| > 0 then InternalCounterparty(Choice(candidates, pick))
    else ExternalCounterparty(req.fields, f, accountNumber)
  }

  /** An internal request with candidates names another customer's account
      at the internal bank; every other request names an external bank. */
  lemma CounterpartyFacts(req: TxnRequest, all: seq<Account>, custId: string, pick: nat,
                          f: FakeCounterparty, accountNumber: nat)
    ensures var cands := Candidates(all, custId);
            var cp := ResolveCounterparty(req, cands, pick, f, accountNumber);
            && (req.isInternal && |cands| > 0 ==>
                  && (exists i :: 0 <= i < |all| && all[i].customerId != custId && all[i].id == cp.accountNum
                                  && all[i].name == cp.name && all[i].countryCode == cp.country)
                  && cp.bankName == "INTERNAL BANK" && cp.bankCode == "BNK_INT")
            && (!(req.isInternal && |cands| > 0) ==>
                  && cp.bankName == GetOrElse(req.fields, "counterparty_bank_name", f.bankCompany + " Bank")
                  && cp.bankCode == GetOr(req.fields, "counterparty_bank_code", "BNK001")
                  && cp.name == GetOrElse(req.fields, "counterparty_name", f.name))
  {
    var cands := Candidates(all, custId);
    if req.isInternal && |cands| > 0 {
      var a := Choice(cands, pick);
      assert a == cands[pick % |cands|];
      CandidatesExactly(all, custId, a);
      var i :| 0 <= i < |all| && all[i] == a;
    }
  }

  /** `cpty_data['BANK_NAME']` as the code is written: the internal branch
      without candidates stores the `_get_counterparty()` dict, which has no
      "BANK_NAME" entry, so the lookup raises `KeyError` (None here). */
  function BankNameAsWritten(req: TxnRequest, candidates: seq<Account>, pick: nat,
                             f: FakeCounterparty, accountNumber: nat): Option<string>
  {
    if req.isInternal && |candidates| == 0 then Get(FakeDict(f), "BANK_NAME")
    else Some(ResolveCounterparty(req, candidates, pick, f, accountNumber).bankName)
  }

  /** The lookup fails for every internal request of a customer who owns
      every account, such as the only customer of a run. */
  lemma BankNameAsWrittenFails(req: TxnRequest, all: seq<Account>, custId: string, pick: nat,
                               f: FakeCounterparty, accountNumber: nat)
    requires req.isInternal
    requires forall i :: 0 <= i < |all| ==> all[i].customerId == custId
    ensures BankNameAsWritten(req, Candidates(all, custId), pick, f, accountNumber) == None
  {
    SingleOwnerNoCandidates(all, custId);
    assert "BANK_NAME" !in FakeDict(f);
  }

  /** The corrected resolution degrades an internal request without
      candidates to the external counterparty, so it always has a bank name
      (the Faker bank unless the request names one), and it agrees with the
      code wherever the code does not fail. */
  lemma ResolvedBankName(req: TxnRequest, candidates: seq<Account>, pick: nat,
                         f: FakeCounterparty, accountNumber: nat)
    ensures req.isInternal && |candidates| == 0 ==>
              ResolveCounterparty(req, candidates, pick, f, accountNumber)
                == ExternalCounterparty(req.fields, f, accountNumber)
    ensures req.isInternal && |candidates| == 0 ==>
              ResolveCounterparty(req, candidates, pick, f, accountNumber).bankName
                == GetOrElse(req.fields, "counterparty_bank_name", f.bankCompany + " Bank")
    ensures BankNameAsWritten(req, candidates, pick, f, accountNumber).Some? ==>
              BankNameAsWritten(req, candidates, pick, f, accountNumber).value
                == ResolveCounterparty(req, candidates, pick, f, accountNumber).bankName
  {
  }

  /** "DOMESTIC" exactly when the posting account and the counterparty are in
      the same country. */
  function GeoScope(accountCountry: string, cpty: Counterparty): (r: string)
    ensures r == "DOMESTIC" || r == "INTERNATIONAL"
    ensures r == "DOMESTIC" <==> accountCountry == cpty.country
  {
    if accountCountry == cpty.country then "DOMESTIC" else "INTERNATIONAL"
  }

  /** Originator and beneficiary, each with the bank that goes with it. */
  datatype Parties = Parties(origName: string, origBank: string, benName: string, benBank: string)

  const MyBank: string := "My Bank"

  /** The account holder with "My Bank" is one party and the counterparty
      with its bank the other. The direction decides the sides: on a debit
      the holder originates, otherwise the holder is the beneficiary. */
  function PartiesOf(cd: string, myName: string, cpty: Counterparty): (p: Parties)
    ensures || ((p.origName, p.origBank) == (myName, MyBank) && (p.benName, p.benBank) == (cpty.name, cpty.bankName))
            || ((p.origName, p.origBank) == (cpty.name, cpty.bankName) && (p.benName, p.benBank) == (myName, MyBank))
    ensures cd == "D" ==> (p.origName, p.origBank) == (myName, MyBank)
    ensures cd != "D" ==> (p.benName, p.benBank) == (myName, MyBank)
  {
    if cd == "D" then Parties(myName, MyBank, cpty.name, cpty.bankName)
    else Parties(cpty.name, cpty.bankName, myName, MyBank)
  }

  /** A credit is the debit with the two parties, and their banks, swapped. */
  lemma PartiesSwap(cd: string, myName: string, cpty: Counterparty)
    requires cd != "D"
    ensures var p := PartiesOf(cd, myName, cpty);
            var q := PartiesOf("D", myName, cpty);
            p.origName == q.benName && p.origBank == q.benBank && p.benName == q.origName && p.benBank == q.origBank
  {
  }

  // ---------------------------------------------------------------------------
  // Amounts
  // ---------------------------------------------------------------------------

  /** The mock FX table; an unknown currency counts as 1.0. */
  function Rate(currency: string): (r: real)
    ensures r > 0.0
  {
    if currency == "USD" then 1.0
    else if currency == "EUR" then 0.95
    else if currency == "GBP" then 0.80
    else if currency == "JPY" then 150.0
    else if currency == "CNY" then 7.2
    else if currency == "CAD" then 1.35
    else 1.0
  }

  /** The amount in the account's currency. */
  function BaseAmount(amountOrig: real, currOrig: string, currBase: string): (r: real)
    ensures currOrig == currBase ==> r == amountOrig
    ensures Rate(currOrig) == Rate(currBase) ==> r == amountOrig
  {
    if currOrig == currBase then amountOrig else amountOrig * (Rate(currBase) / Rate(currOrig))
  }

  /** Converting between any two currencies applies the ratio of their rates
      (1.0 for a currency the table does not list), so a round trip through
      another currency gives the amount back. */
  lemma BaseAmountRoundTrip(amount: real, a: string, b: string)
    ensures BaseAmount(BaseAmount(amount, a, b), b, a) == amount
  {
    if a != b {
      var ra, rb := Rate(a), Rate(b);
      assert amount * (rb / ra) * (ra / rb) == amount * ((rb / ra) * (ra / rb));
      assert (rb / ra) * (ra / rb) == 1.0;
    }
  }

  /** The original amount: `amount_orig`, else `AMOUNT`, else the drawn
      uniform amount; `parse` is `float()` on the text. */
  function OrigAmount(fields: map<string, string>, parse: string -> real, uniform: real): (r: real)
    ensures Present(Get(fields, "amount_orig")) ==> r == parse(fields["amount_orig"])
    ensures !Present(Get(fields, "amount_orig")) && Present(Get(fields, "AMOUNT")) ==> r == parse(fields["AMOUNT"])
    ensures !Present(Get(fields, "amount_orig")) && !Present(Get(fields, "AMOUNT")) ==> r == uniform
  {
    if Present(Get(fields, "amount_orig")) then parse(fields["amount_orig"])
    else if Present(Get(fields, "AMOUNT")) then parse(fields["AMOUNT"])
    else uniform
  }

  // ---------------------------------------------------------------------------
  // Transaction context
  // ---------------------------------------------------------------------------

  /** The random and Faker values one transaction draws: the posting account
      and internal candidate choices, the Faker counterparty, the
      `randint(1000, 9999)` account number, the `uniform(10.0, 1000.0)`
      amount, the back-dated date text and the `randint(10000000, 99999999)`
      transaction number. */
  datatype TxnDraws = TxnDraws(
    target: nat, candidate: nat, fake: FakeCounterparty, accountNumber: nat,
    uniform: real, date: string, txnNumber: nat)

  /** What `TransactionGenerator.__init__` loads, with `float()` and the
      `.2f` formatting as parameters. */
  datatype TxnTables = TxnTables(
    spec: Spec, typeMap: map<string, string>, channels: Table,
    parseAmount: string -> real, formatAmount: real -> string)

  /** The `txn_ctx` dict built for one request. */
  datatype Txn = Txn(
    runTimestamp: string, txnId: string, accountId: string, customerId: string, branchId: string,
    currencyOrig: string, currencyBase: string, amountOrig: string, amountBase: string,
    creditDebit: string, date: string, description: string, payMean: string, scope: string,
    instrument: string, geoScope: string, sourceType: string, channel: string, orgUnit: string,
    cpty: Counterparty, parties: Parties)
  {
    /** The context as the dict the schema-row mapping looks names up in. */
    function Field(name: string): Option<string> {
      if name == "RUN_TIMESTAMP" then Some(runTimestamp)
      else if name == "SOURCE_TXN_NUM" then Some(txnId)
      else if name == "SOURCE_TXN_UNIQUE_ID" then Some(txnId)
      else if name == "ACCOUNT_SOURCE_UNIQUE_ID" then Some(accountId)
      else if name == "ACCOUNT_SOURCE_REF_ID" then Some(accountId)
      else if name == "CUSTOMER_SOURCE_UNIQUE_ID" then Some(customerId)
      else if name == "PRIMARY_CUST_SRCE_REF_ID" then Some(customerId)
      else if name == "BRANCH_ID" then Some(branchId)
      else if name == "CURRENCY_CODE_ORIG" then Some(currencyOrig)
      else if name == "CURRENCY_CODE_BASE" then Some(currencyBase)
      else if name == "TXN_AMOUNT_ORIG" then Some(amountOrig)
      else if name == "TXN_AMOUNT_BASE" then Some(amountBase)
      else if name == "CREDIT_DEBIT_CODE" then Some(creditDebit)
      else if name == "ORIGINATION_DATE" then Some(date)
      else if name == "POSTING_DATE" then Some(date)
      else if name == "VALUE_DATE" then Some(date)
      else if name == "TRANS_REF_DESC" then Some(description)
      else if name == "TRANS_REF_DESC_2" then Some(payMean)
      else if name == "TRANS_REF_DESC_3" then Some(scope)
      else if name == "TRANS_REF_DESC_4" then Some(instrument)
      else if name == "TRANS_REF_DESC_5" then Some(geoScope)
      else if name == "TRANS_REF_DESC_6" then Some(payMean)
      else if name == "TXN_SOURCE_TYPE_CODE" then Some(sourceType)
      else if name == "TXN_CHANNEL_CODE" then Some(channel)
      else if name == "ORG_UNIT_CODE" then Some(orgUnit)
      else if name == "COUNTER_PARTY_NAME" then Some(cpty.name)
      else if name == "COUNTER_PARTY_ADDRESS" then Some(cpty.address)
      else if name == "COUNTER_PARTY_ZONE" then Some(cpty.zone)
      else if name == "COUNTER_PARTY_POSTAL_CODE" then Some(cpty.postalCode)
      else if name == "COUNTER_PARTY_CITY" then Some(cpty.city)
      else if name == "COUNTER_PARTY_COUNTRY_CODE" then Some(cpty.country)
      else if name == "COUNTER_PARTY_ACCOUNT_NUM" then Some(cpty.accountNum)
      else if name == "COUNTER_PARTY_ACCOUNT_NAME" then Some(cpty.accountName)
      else if name == "COUNTER_PARTY_ACCOUNT_TYPE" then Some(cpty.accountType)
      else if name == "COUNTER_PARTY_ACCOUNT_IBAN" then Some(cpty.iban)
      else if name == "COUNTER_PARTY_ACCOUNT_BIC" then Some(cpty.bic)
      else if name == "COUNTER_PARTY_BANK_NAME" then Some(cpty.bankName)
      else if name == "COUNTER_PARTY_BANK_CODE" then Some(cpty.bankCode)
      else if name == "COUNTER_PARTY_BANK_ADDRESS" then Some(cpty.bankAddress)
      else if name == "COUNTER_PARTY_BANK_CITY" then Some(cpty.bankCity)
      else if name == "COUNTER_PARTY_BANK_ZONE" then Some(cpty.bankZone)
      else if name == "COUNTER_PARTY_BANK_POSTAL_CODE" then Some(cpty.bankPostalCode)
      else if name == "COUNTER_PARTY_BNK_CNTRY_CD" then Some(cpty.bankCountry)
      else if name == "ORIGINATOR_NAME" then Some(parties.origName)
      else if name == "BENEFICIARY_NAME" then Some(parties.benName)
      else if name == "ORIGINATOR_BANK_NAME" then Some(parties.origBank)
      else if name == "BENEFICIARY_BANK_NAME" then Some(parties.benBank)
      else if name == "CASHBACK_AMT" then Some("0")
      else None
    }
  }

  /** The context of one request posted to `target`, an account of `custId`;
      `all` is every account of the run (the internal candidates' source). */
  function TxnOf(custId: string, target: Account, all: seq<Account>, req: TxnRequest,
                 t: TxnTables, runDate: string, d: TxnDraws): (x: Txn)
    ensures x.scope == "INTERNAL" <==> req.isInternal
    ensures x.instrument in {"CARD", "CASH", "CHEQUE", "WIRE"}
    ensures x.geoScope == "DOMESTIC" || x.geoScope == "INTERNATIONAL"
    ensures x.cpty.bankName != "" && "TXN-" <= x.txnId
  {
    var fields := req.fields;
    var cd := Direction(fields);
    var payMean := GetOr(fields, "payment_mean", "Wire Transfer");
    var cpty := ResolveCounterparty(req, Candidates(all, custId), d.candidate, d.fake, d.accountNumber);
    var currOrig := GetOr(fields, "currency_orig", target.currency);
    var amount := OrigAmount(fields, t.parseAmount, d.uniform);
    var txnId := "TXN-" + Decimal(RandInt(10000000, 99999999, d.txnNumber));
    Txn(
      runTimestamp := runDate + "000000",
      txnId := txnId,
      accountId := target.id,
      customerId := custId,
      branchId := target.branchId,
      currencyOrig := currOrig,
      currencyBase := target.currency,
      amountOrig := t.formatAmount(amount),
      amountBase := t.formatAmount(BaseAmount(amount, currOrig, target.currency)),
      creditDebit := cd,
      date := GetOrElse(fields, "date", d.date),
      description := GetOr(fields, "description", "Generic"),
      payMean := payMean,
      scope := Scope(req.isInternal),
      instrument := Instrument(payMean),
      geoScope := GeoScope(target.countryCode, cpty),
      sourceType := SourceTypeCode(t.typeMap, fields),
      channel := Channel(t.channels, fields),
      orgUnit := target.orgUnitCode,
      cpty := cpty,
      parties := PartiesOf(cd, target.name, cpty))
  }

  /** The context of a request, posted to the drawn account of the owner. */
  function TxnAt(custId: string, accs: seq<Account>, all: seq<Account>, req: TxnRequest,
                 t: TxnTables, runDate: string, d: TxnDraws): (x: Txn)
    requires |accs| > 0
    ensures exists i :: 0 <= i < |accs| && x.accountId == accs[i].id && x.branchId == accs[i].branchId
                        && x.currencyBase == accs[i].currency
  {
    TxnOf(custId, Choice(accs, d.target), all, req, t, runDate, d)
  }

  /** A transaction posts to the chosen account on behalf of `custId`, and
      its amount in the account currency equals the original amount when the
      two currencies agree. */
  lemma TxnOfPosting(custId: string, target: Account, all: seq<Account>, req: TxnRequest,
                     t: TxnTables, runDate: string, d: TxnDraws)
    ensures var x := TxnOf(custId, target, all, req, t, runDate, d);
            && x.accountId == target.id && x.customerId == custId
            && x.currencyBase == target.currency
            && (x.currencyOrig == x.currencyBase ==> x.amountBase == x.amountOrig)
  {
  }

  /** The geo scope compares the account's and the counterparty's countries,
      and the originator and beneficiary follow the direction. */
  lemma TxnOfParties(custId: string, target: Account, all: seq<Account>, req: TxnRequest,
                     t: TxnTables, runDate: string, d: TxnDraws)
    ensures var x := TxnOf(custId, target, all, req, t, runDate, d);
            && (x.geoScope == "DOMESTIC" <==> target.countryCode == x.cpty.country)
            && (x.creditDebit == "D" ==> x.parties.origName == target.name && x.parties.benName == x.cpty.name
                                         && x.parties.benBank == x.cpty.bankName)
            && (x.creditDebit != "D" ==> x.parties.origName == x.cpty.name && x.parties.benName == target.name
                                         && x.parties.origBank == x.cpty.bankName)
  {
  }

  /** The three date columns carry one date. */
  lemma TxnDatesAgree(x: Txn)
    ensures x.Field("ORIGINATION_DATE") == Some(x.date)
    ensures x.Field("POSTING_DATE") == Some(x.date)
    ensures x.Field("VALUE_DATE") == Some(x.date)
  {
  }

  /** The two account-reference columns, the two transaction-number columns
      and the two customer columns carry one value each. */
  lemma TxnFieldAliases(x: Txn)
    ensures x.Field("ACCOUNT_SOURCE_REF_ID") == x.Field("ACCOUNT_SOURCE_UNIQUE_ID") == Some(x.accountId)
    ensures x.Field("SOURCE_TXN_NUM") == x.Field("SOURCE_TXN_UNIQUE_ID") == Some(x.txnId)
    ensures x.Field("PRIMARY_CUST_SRCE_REF_ID") == x.Field("CUSTOMER_SOURCE_UNIQUE_ID") == Some(x.customerId)
  {
  }

  // ---------------------------------------------------------------------------
  // Schema rows
  // ---------------------------------------------------------------------------

  /** The columns whose type names a number get "0" as the placeholder. */
  predicate NumericType(colType: string) {
    Contains(colType, "NUMBER") || Contains(colType, "DECIMAL")
  }

  /** One cell: the context's value for the upper-cased column name (blank if
      there is none), the placeholder if that is empty and the column is
      mandatory, cut to the declared length. */
  function TxnCell(x: Txn, col: Column): (r: string)
    ensures Bounded(col.colType) ==> |r| <= LengthBound(col.colType).value
    ensures col.mandatory == "YES" && LengthBound(col.colType) != Some(0) ==> r != ""
  {
    var found := x.Field(Upper(col.name));
    var val := if found.Some? then found.value else "";
    var filled := if col.mandatory == "YES" && val == "" then Placeholder(NumericType(col.colType)) else val;
    EnforceLength(filled, col.colType)
  }

  /** A mandatory column left empty by the context holds "0" when its type is
      numeric and "N" otherwise (cut to the declared length); a non-empty value
      is only cut. */
  lemma TxnCellFacts(x: Txn, col: Column)
    ensures var found := x.Field(Upper(col.name));
            && (col.mandatory == "YES" && (found.None? || found.value == "") ==>
                  TxnCell(x, col) == EnforceLength(if NumericType(col.colType) then "0" else "N", col.colType))
            && (found.Some? && found.value != "" ==> TxnCell(x, col) == EnforceLength(found.value, col.colType))
            && (found.None? && col.mandatory != "YES" ==> TxnCell(x, col) == "")
  {
  }

  function CellBuilder(x: Txn): Column -> string {
    col => TxnCell(x, col)
  }

  function TxnRow(x: Txn, cols: seq<Column>): (r: seq<string>)
    ensures |r| == |cols|
  {
    MapSeq(cols, CellBuilder(x))
  }

  function RowBuilder(cols: seq<Column>): Txn -> seq<string> {
    x => TxnRow(x, cols)
  }

  function TxnRows(txns: seq<Txn>, cols: seq<Column>): (rows: seq<seq<string>>)
    ensures |rows| == |txns|
  {
    MapSeq(txns, RowBuilder(cols))
  }

  /** Cell `i` of row `k` is column `i` rendered from transaction `k`. */
  lemma TxnRowsAt(txns: seq<Txn>, cols: seq<Column>, k: nat, i: nat)
    requires k < |txns| && i < |cols|
    ensures |TxnRows(txns, cols)[k]| == |cols|
    ensures TxnRows(txns, cols)[k][i] == TxnCell(txns[k], cols[i])
  {
    MapSeqAt(txns, RowBuilder(cols), k);
    MapSeqAt(cols, CellBuilder(txns[k]), i);
  }

  // ---------------------------------------------------------------------------
  // Generation
  // ---------------------------------------------------------------------------

  /** The transactions of one owner with accounts `accs`, one per request in
      order; request `j` of owner number `gi` uses the draws `draws(gi, j)`. */
  function CustomerTxns(custId: string, accs: seq<Account>, all: seq<Account>, reqs: seq<TxnRequest>,
                        t: TxnTables, runDate: string, gi: nat, draws: (nat, nat) -> TxnDraws): (r: seq<Txn>)
    requires |accs| > 0
    ensures |r| == |reqs|
  {
    if |reqs| == 0 then []
    else
      var j := |reqs| - 1;
      CustomerTxns(custId, accs, all, reqs[..j], t, runDate, gi, draws)
        + [TxnAt(custId, accs, all, reqs[j], t, runDate, draws(gi, j))]
  }

  lemma CustomerTxnsSnoc(custId: string, accs: seq<Account>, all: seq<Account>, reqs: seq<TxnRequest>,
                         req: TxnRequest, t: TxnTables, runDate: string, gi: nat, draws: (nat, nat) -> TxnDraws)
    requires |accs| > 0
    ensures CustomerTxns(custId, accs, all, reqs + [req], t, runDate, gi, draws)
              == CustomerTxns(custId, accs, all, reqs, t, runDate, gi, draws)
                 + [TxnAt(custId, accs, all, req, t, runDate, draws(gi, |reqs|))]
  {
    assert (reqs + [req])[..|reqs|] == reqs;
  }

  /** Transaction `j` of an owner is request `j` posted to one of its accounts. */
  lemma {:induction false} CustomerTxnsAt(custId: string, accs: seq<Account>, all: seq<Account>, reqs: seq<TxnRequest>,
                                          t: TxnTables, runDate: string, gi: nat, draws: (nat, nat) -> TxnDraws, j: nat)
    requires |accs| > 0 && j < |reqs|
    ensures CustomerTxns(custId, accs, all, reqs, t, runDate, gi, draws)[j]
              == TxnAt(custId, accs, all, reqs[j], t, runDate, draws(gi, j))
  {
    if j < |reqs| - 1 {
      CustomerTxnsAt(custId, accs, all, reqs[..|reqs| - 1], t, runDate, gi, draws, j);
    }
  }

  /** The transactions of the owner at position `gi` of the grouping; an
      owner without accounts is skipped. */
  function GroupTxns(accounts: seq<Account>, custId: string, gi: nat, bp: seq<TxnRequest>, t: TxnTables,
                     runDate: string, countDraw: nat -> nat, draws: (nat, nat) -> TxnDraws): (r: seq<Txn>)
    ensures |OwnedBy(accounts, custId)| == 0 ==> r == []
    ensures |OwnedBy(accounts, custId)| > 0 ==> |r| == |TxnRequests(bp, countDraw(gi))|
  {
    var accs := OwnedBy(accounts, custId);
    if |accs| == 0 then []
    else CustomerTxns(custId, accs, accounts, TxnRequests(bp, countDraw(gi)), t, runDate, gi, draws)
  }

  function GroupBuilder(accounts: seq<Account>, bp: seq<TxnRequest>, t: TxnTables, runDate: string,
                        countDraw: nat -> nat, draws: (nat, nat) -> TxnDraws): (nat, string) -> seq<Txn>
  {
    (gi: nat, custId: string) => GroupTxns(accounts, custId, gi, bp, t, runDate, countDraw, draws)
  }

  /** Every transaction context of a run, owner by owner. */
  function AllTxns(accounts: seq<Account>, bp: seq<TxnRequest>, t: TxnTables, runDate: string,
                   countDraw: nat -> nat, draws: (nat, nat) -> TxnDraws): seq<Txn>
  {
    Flatten(MapWithIndex(Owners(accounts), GroupBuilder(accounts, bp, t, runDate, countDraw, draws)))
  }

  /** Each owner gets as many transactions as its expanded requests. */
  lemma GroupTxnsCount(accounts: seq<Account>, gi: nat, bp: seq<TxnRequest>, t: TxnTables, runDate: string,
                       countDraw: nat -> nat, draws: (nat, nat) -> TxnDraws, custId: string)
    requires custId in Owners(accounts)
    ensures |GroupTxns(accounts, custId, gi, bp, t, runDate, countDraw, draws)| == |TxnRequests(bp, countDraw(gi))|
  {
    ListedOwnersHaveAccounts(accounts, custId);
  }

  /** Every transaction is posted to an account of the customer it names. */
  lemma TxnsPostToOwnAccounts(accounts: seq<Account>, bp: seq<TxnRequest>, t: TxnTables, runDate: string,
                              countDraw: nat -> nat, draws: (nat, nat) -> TxnDraws)
    ensures forall x :: x in AllTxns(accounts, bp, t, runDate, countDraw, draws) ==>
              exists a :: a in accounts && a.id == x.accountId && a.customerId == x.customerId
  {
    var owners := Owners(accounts);
    var builder := GroupBuilder(accounts, bp, t, runDate, countDraw, draws);
    var groups := MapWithIndex(owners, builder);
    forall x | x in AllTxns(accounts, bp, t, runDate, countDraw, draws)
      ensures exists a :: a in accounts && a.id == x.accountId && a.customerId == x.customerId
    {
      var gi := FlattenMember(groups, x);
      MapWithIndexAt(owners, builder, gi);
      var custId := owners[gi];
      var accs := OwnedBy(accounts, custId);
      var reqs := TxnRequests(bp, countDraw(gi));
      var txns := CustomerTxns(custId, accs, accounts, reqs, t, runDate, gi, draws);
      var j :| 0 <= j < |txns| && txns[j] == x;
      CustomerTxnsAt(custId, accs, accounts, reqs, t, runDate, gi, draws, j);
      var d := draws(gi, j);
      var k := d.target % |accs|;
      TxnOfPosting(custId, accs[k], accounts, reqs[j], t, runDate, d);
      OwnedBySubset(accounts, custId, k);
    }
  }

  /** Where a transaction of the run comes from: a request of the blueprint
      (or the default), posted on behalf of an owner with accounts. */
  lemma TxnOrigin(accounts: seq<Account>, bp: seq<TxnRequest>, t: TxnTables, runDate: string,
                  countDraw: nat -> nat, draws: (nat, nat) -> TxnDraws, x: Txn)
    returns (gi: nat, j: nat, custId: string, req: TxnRequest, d: TxnDraws)
    requires x in AllTxns(accounts, bp, t, runDate, countDraw, draws)
    ensures gi < |Owners(accounts)| && custId == Owners(accounts)[gi]
    ensures |OwnedBy(accounts, custId)| > 0
    ensures j < |TxnRequests(bp, countDraw(gi))| && req == TxnRequests(bp, countDraw(gi))[j]
    ensures d == draws(gi, j)
    ensures x == TxnAt(custId, OwnedBy(accounts, custId), accounts, req, t, runDate, d)
  {
    var owners := Owners(accounts);
    var builder := GroupBuilder(accounts, bp, t, runDate, countDraw, draws);
    gi := FlattenMember(MapWithIndex(owners, builder), x);
    MapWithIndexAt(owners, builder, gi);
    custId := owners[gi];
    var accs := OwnedBy(accounts, custId);
    var reqs := TxnRequests(bp, countDraw(gi));
    var txns := CustomerTxns(custId, accs, accounts, reqs, t, runDate, gi, draws);
    j :| 0 <= j < |txns| && txns[j] == x;
    CustomerTxnsAt(custId, accs, accounts, reqs, t, runDate, gi, draws, j);
    req, d := reqs[j], draws(gi, j);
  }

  /** Across the run, an internal transaction's counterparty is an account of
      a different customer at the internal bank, unless the posting customer
      owns every account of the run (the fallback case). */
  lemma InternalCounterpartiesOtherCustomer(accounts: seq<Account>, bp: seq<TxnRequest>, t: TxnTables,
                                            runDate: string, countDraw: nat -> nat, draws: (nat, nat) -> TxnDraws)
    ensures forall x :: x in AllTxns(accounts, bp, t, runDate, countDraw, draws) && x.scope == "INTERNAL" ==>
              || (&& (exists a :: a in accounts && a.customerId != x.customerId
                                 && a.id == x.cpty.accountNum && a.name == x.cpty.name)
                  && x.cpty.bankName == "INTERNAL BANK" && x.cpty.bankCode == "BNK_INT")
              || (forall a :: a in accounts ==> a.customerId == x.customerId)
  {
    forall x | x in AllTxns(accounts, bp, t, runDate, countDraw, draws) && x.scope == "INTERNAL"
      ensures || (&& (exists a :: a in accounts && a.customerId != x.customerId
                                 && a.id == x.cpty.accountNum && a.name == x.cpty.name)
                  && x.cpty.bankName == "INTERNAL BANK" && x.cpty.bankCode == "BNK_INT")
              || (forall a :: a in accounts ==> a.customerId == x.customerId)
    {
      var gi, j, custId, req, d := TxnOrigin(accounts, bp, t, runDate, countDraw, draws, x);
      var cands := Candidates(accounts, custId);
      assert req.isInternal;
      CounterpartyFacts(req, accounts, custId, d.candidate, d.fake, d.accountNumber);
      if |cands| == 0 {
        forall a | a in accounts ensures a.customerId == custId {
          CandidatesExactly(accounts, custId, a);
        }
      }
    }
  }

  /** `txn_ctx` for one request, step by step as the loop body computes it. */
  method BuildTxn(custId: string, accs: seq<Account>, all: seq<Account>, req: TxnRequest,
                  t: TxnTables, runDate: string, d: TxnDraws) returns (txn: Txn)
    requires |accs| > 0
    ensures txn == TxnAt(custId, accs, all, req, t, runDate, d)
  {
    var target := accs[d.target % |accs|];
    var orgUnit := target.orgUnitCode;
    var chanCode := Channel(t.channels, req.fields);
    var cdCode := Direction(req.fields);
    var payMean := GetOr(req.fields, "payment_mean", "Wire Transfer");
    var sourceType := SourceTypeCode(t.typeMap, req.fields);
    var scopeDesc := Scope(req.isInternal);
    var instrument := Instrument(payMean);
    var candidates := Candidates(all, custId);
    var cpty := ResolveCounterparty(req, candidates, d.candidate, d.fake, d.accountNumber);
    var geoScope := GeoScope(target.countryCode, cpty);
    var parties := PartiesOf(cdCode, target.name, cpty);
    var currOrig := GetOr(req.fields, "currency_orig", target.currency);
    var currBase := target.currency;
    var amtOrig := OrigAmount(req.fields, t.parseAmount, d.uniform);
    var amtBase := BaseAmount(amtOrig, currOrig, currBase);
    var origDate := GetOrElse(req.fields, "date", d.date);
    var txnId := "TXN-" + Decimal(RandInt(10000000, 99999999, d.txnNumber));
    txn := Txn(runDate + "000000", txnId, target.id, custId, target.branchId, currOrig, currBase,
               t.formatAmount(amtOrig), t.formatAmount(amtBase), cdCode, origDate,
               GetOr(req.fields, "description", "Generic"), payMean, scopeDesc, instrument, geoScope,
               sourceType, chanCode, orgUnit, cpty, parties);
  }

  /** The cells of one transaction row, column by column. */
  method BuildTxnRow(x: Txn, spec: Spec) returns (row: seq<string>)
    requires spec.WellFormed()
    ensures row == TxnRow(x, Columns(spec))
  {
    row := [];
    ghost var cols := Columns(spec);
    for i := 0 to |spec.columns|
      invariant row == TxnRow(x, cols[..i])
    {
      var colName := Upper(spec.columns[i]);
      var colType := spec.types[i];
      var val := "";
      var found := x.Field(colName);
      if found.Some? {
        val := found.value;
      }
      if spec.mandatory[i] == "YES" && val == "" {
        val := if Contains(colType, "NUMBER") || Contains(colType, "DECIMAL") then "0" else "N";
      }
      MapSeqSnoc(cols[..i], cols[i], CellBuilder(x));
      TakeSnoc(cols, i);
      row := row + [EnforceLength(val, colType)];
    }
    TakeAll(cols);
  }

  /** The transactions and rows of one owner. */
  method GenerateForOwner(custId: string, accs: seq<Account>, accounts: seq<Account>, gi: nat,
                          bp: seq<TxnRequest>, t: TxnTables, runDate: string,
                          countDraw: nat -> nat, draws: (nat, nat) -> TxnDraws)
    returns (txns: seq<Txn>, rows: seq<seq<string>>)
    requires t.spec.WellFormed()
    requires accs == OwnedBy(accounts, custId)
    ensures txns == GroupTxns(accounts, custId, gi, bp, t, runDate, countDraw, draws)
    ensures rows == TxnRows(txns, Columns(t.spec))
  {
    txns, rows := [], [];
    if |accs| == 0 {
      return;
    }
    ghost var cols := Columns(t.spec);
    var reqs := ExpandTxnBlueprint(bp, countDraw(gi));
    for j := 0 to |reqs|
      invariant txns == CustomerTxns(custId, accs, accounts, reqs[..j], t, runDate, gi, draws)
      invariant rows == TxnRows(txns, cols)
    {
      var txn := BuildTxn(custId, accs, accounts, reqs[j], t, runDate, draws(gi, j));
      CustomerTxnsSnoc(custId, accs, accounts, reqs[..j], reqs[j], t, runDate, gi, draws);
      TakeSnoc(reqs, j);
      var row := BuildTxnRow(txn, t.spec);
      MapSeqSnoc(txns, txn, RowBuilder(cols));
      txns := txns + [txn];
      rows := rows + [row];
    }
    TakeAll(reqs);
  }

  /** `TransactionGenerator.generate_rows(account_contexts, run_date, global_blueprint)`;
      `countDraw(gi)` draws the `randint(1, 5)` of owner number `gi`. */
  method GenerateTransactionRows(accounts: seq<Account>, t: TxnTables, runDate: string, bp: seq<TxnRequest>,
                                 countDraw: nat -> nat, draws: (nat, nat) -> TxnDraws)
    returns (txns: seq<Txn>, rows: seq<seq<string>>)
    requires t.spec.WellFormed()
    ensures txns == AllTxns(accounts, bp, t, runDate, countDraw, draws)
    ensures rows == TxnRows(txns, Columns(t.spec))
  {
    txns, rows := [], [];
    ghost var cols := Columns(t.spec);
    ghost var builder := GroupBuilder(accounts, bp, t, runDate, countDraw, draws);
    var owners, groups := GroupByOwner(accounts);
    for gi := 0 to |owners|
      invariant txns == Flatten(MapWithIndex(owners[..gi], builder))
      invariant rows == TxnRows(txns, cols)
    {
      var custId := owners[gi];
      var batch, batchRows := GenerateForOwner(custId, groups[custId], accounts, gi, bp, t, runDate, countDraw, draws);
      MapWithIndexSnoc(owners[..gi], custId, builder);
      FlattenSnoc(MapWithIndex(owners[..gi], builder), batch);
      TakeSnoc(owners, gi);
      MapSeqAppend(txns, batch, RowBuilder(cols));
      txns := txns + batch;
      rows := rows + batchRows;
    }
    TakeAll(owners);
  }

  /** `TransactionGenerator.__init__`: the transaction specification, the
      type table with its description-to-code map, and the channel table,
      loaded with key column 1 and value column 0. */
  method NewTxnTables(specLines: seq<string>, typeLines: seq<string>, channelLines: seq<string>,
                      parseAmount: string -> real, formatAmount: real -> string)
    returns (t: TxnTables)
    ensures t == TxnTables(SpecOf(specLines), TxnTypeMap(TxnTypesOf(DataLines(typeLines))),
                           TableOf(channelLines, 1, 0), parseAmount, formatAmount)
  {
    var spec := LoadSpec(specLines);
    var types := LoadTransactionTypes(typeLines);
    var typeMap := BuildTxnTypeMap(types);
    var channels := LoadFile(channelLines, 1, 0);
    t := TxnTables(spec, typeMap, channels, parseAmount, formatAmount);
  }

  /** The channel code under the table as the constructor loads it. The
      description column is the key, so the "first channel code" of the
      fallback is the first data row's description. With no data row every
      request gets "CH001". Every result is "CH001" or a value written in the
      channel file. */
  lemma ChannelFromFile(lines: seq<string>, fields: map<string, string>)
    ensures var t := TableOf(lines, 1, 0);
            var es := Entries(DataLines(lines));
            var desc := Upper(GetOr(fields, "channel_desc", "INTERNET"));
            && (|es| == 0 ==> Channel(t, fields) == "CH001")
            && (|es| > 0 && desc in t.mapping && t.mapping[desc] == "" ==> Channel(t, fields) == KeyOf(es[0], 1))
            && (Channel(t, fields) == "CH001" || Channel(t, fields) in EntryParts(es, 0) + EntryParts(es, 1))
  {
    var rows := DataLines(lines);
    var es := Entries(rows);
    var desc := Upper(GetOr(fields, "channel_desc", "INTERNET"));
    LoadRowsCodes(rows, 1, 0);
    LoadRowsDomainKey(rows, 1, 0, desc);
    if desc in LoadRows(rows, 1, 0).mapping {
      LoadRowsRange(rows, 1, 0, desc);
    }
  }
}
