/** `generate_custom_data` (gen_orchestrator.py): the four stages run in
    order, each feeding its contexts to the next, and the rows the four output
    files would receive. */
module Pipeline {
  import opened Text
  import opened Shared
  import Customers
  import Accounts
  import Links
  import Transactions

  /** The four generators as initialised: their specifications and tables. */
  datatype Engines = Engines(
    customers: Customers.CustomerTables,
    accounts: Accounts.AccountTables,
    linkSpec: Spec,
    txns: Transactions.TxnTables)
  {
    predicate WellFormed() {
      customers.spec.WellFormed() && accounts.spec.WellFormed() && txns.spec.WellFormed()
    }
  }

  /** The random and Faker draws of a whole run, stage by stage. */
  datatype RunDraws = RunDraws(
    customer: nat -> Customers.CustomerDraws,
    account: (nat, nat) -> Accounts.AccountDraws,
    txnCount: nat -> nat,
    txn: (nat, nat) -> Transactions.TxnDraws)

  /** The rows of the four output files. */
  datatype Output = Output(
    customerRows: seq<seq<string>>,
    accountRows: seq<seq<string>>,
    linkRows: seq<seq<string>>,
    txnRows: seq<seq<string>>)

  function CustomersOf(profiles: seq<Customers.Profile>, e: Engines, d: RunDraws): seq<Customers.Customer> {
    Customers.Contexts(profiles, e.customers, d.customer)
  }

  function AccountsOf(profiles: seq<Customers.Profile>, runDate: string, e: Engines, d: RunDraws)
    : seq<Accounts.Account>
  {
    Accounts.AllAccounts(CustomersOf(profiles, e, d), e.accounts, runDate, d.account)
  }

  function TxnsOf(profiles: seq<Customers.Profile>, runDate: string, bp: seq<Transactions.TxnRequest>,
                  e: Engines, d: RunDraws): seq<Transactions.Txn>
  {
    Transactions.AllTxns(AccountsOf(profiles, runDate, e, d), bp, e.txns, runDate, d.txnCount, d.txn)
  }

  /** The rows of a run: customers from the profiles, accounts from the
      customer contexts, links from the account contexts, transactions from
      the account contexts and the transaction blueprint. */
  function Run(profiles: seq<Customers.Profile>, runDate: string, bp: seq<Transactions.TxnRequest>,
               e: Engines, d: RunDraws): (out: Output)
    requires e.WellFormed()
    ensures |out.customerRows| == |profiles|
    ensures |out.linkRows| == |out.accountRows| == |AccountsOf(profiles, runDate, e, d)|
    ensures |out.txnRows| == |TxnsOf(profiles, runDate, bp, e, d)|
  {
    var cs := CustomersOf(profiles, e, d);
    var accs := AccountsOf(profiles, runDate, e, d);
    Output(
      Customers.CustomerRows(cs, Columns(e.customers.spec), runDate),
      Accounts.AccountRows(accs, Columns(e.accounts.spec)),
      Links.LinkRows(accs, Links.LinkColumns(e.linkSpec)),
      Transactions.TxnRows(TxnsOf(profiles, runDate, bp, e, d), Columns(e.txns.spec)))
  }

  /** Steps A to D of `generate_custom_data`. */
  method GenerateCustomData(profiles: seq<Customers.Profile>, runDate: string, bp: seq<Transactions.TxnRequest>,
                            e: Engines, d: RunDraws)
    returns (out: Output)
    requires e.WellFormed()
    ensures out == Run(profiles, runDate, bp, e, d)
  {
    var customerContexts, customerRows := Customers.GenerateRows(profiles, e.customers, runDate, d.customer);
    var accountContexts, accountRows := Accounts.GenerateAccountRows(customerContexts, e.accounts, runDate, d.account);
    var linkRows := Links.GenerateLinkRows(accountContexts, e.linkSpec);
    var txns, txnRows := Transactions.GenerateTransactionRows(accountContexts, e.txns, runDate, bp, d.txnCount, d.txn);
    out := Output(customerRows, accountRows, linkRows, txnRows);
  }

  /** Every customer ID is tagged "CUST-". */
  lemma CustomerIdTagged(profiles: seq<Customers.Profile>, e: Engines, d: RunDraws, i: nat)
    requires i < |profiles|
    ensures "CUST-" <= CustomersOf(profiles, e, d)[i].id
  {
    MapWithIndexAt(profiles, Customers.ProfileBuilder(e.customers, d.customer), i);
    Customers.ProfileIdTagged(profiles[i], e.customers, d.customer(i));
  }

  /** Across the stages every reference resolves: each account's owner is a
      customer, each transaction is posted to an account of the customer it
      names, there is one link row per account and at least one account per
      customer. */
  lemma ReferentialIntegrity(profiles: seq<Customers.Profile>, runDate: string, bp: seq<Transactions.TxnRequest>,
                             e: Engines, d: RunDraws)
    ensures var cs := CustomersOf(profiles, e, d);
            var accs := AccountsOf(profiles, runDate, e, d);
            && (forall a :: a in accs ==> exists c :: c in cs && a.customerId == c.id)
            && (forall x :: x in TxnsOf(profiles, runDate, bp, e, d) ==>
                  exists a :: a in accs && a.id == x.accountId && a.customerId == x.customerId)
            && (forall x :: x in TxnsOf(profiles, runDate, bp, e, d) ==> exists c :: c in cs && x.customerId == c.id)
            && |Links.LinkRows(accs, Links.LinkColumns(e.linkSpec))| == |accs| >= |cs|
  {
    var cs := CustomersOf(profiles, e, d);
    var accs := AccountsOf(profiles, runDate, e, d);
    Accounts.AccountsOwnedByCustomers(cs, e.accounts, runDate, d.account);
    Transactions.TxnsPostToOwnAccounts(accs, bp, e.txns, runDate, d.txnCount, d.txn);
    forall x | x in TxnsOf(profiles, runDate, bp, e, d)
      ensures exists c :: c in cs && x.customerId == c.id
    {
      var a :| a in accs && a.id == x.accountId && a.customerId == x.customerId;
      var c :| c in cs && a.customerId == c.id;
    }
  }

  /** The owner of every account is a customer of the run, with a tagged ID. */
  lemma AccountOwnerTagged(profiles: seq<Customers.Profile>, runDate: string, e: Engines, d: RunDraws, k: nat)
    requires k < |AccountsOf(profiles, runDate, e, d)|
    ensures var owner := AccountsOf(profiles, runDate, e, d)[k].customerId;
            "CUST-" <= owner && exists c :: c in CustomersOf(profiles, e, d) && owner == c.id
  {
    var cs := CustomersOf(profiles, e, d);
    var accs := AccountsOf(profiles, runDate, e, d);
    var ci := Accounts.AccountOwner(cs, e.accounts, runDate, d.account, accs[k]);
    CustomerIdTagged(profiles, e, d, ci);
    assert cs[ci] in cs;
  }

  /** In an unbounded customer column, the link row of account `k` holds the
      ID of one of the run's customers, the owner of account `k`. */
  lemma LinksReferToCustomers(profiles: seq<Customers.Profile>, runDate: string, e: Engines, d: RunDraws, k: nat, i: nat)
    requires k < |AccountsOf(profiles, runDate, e, d)| && i < |e.linkSpec.columns|
    requires var col := Links.LinkColumns(e.linkSpec)[i];
             Upper(col.name) == "CUSTOMER_SOURCE_UNIQUE_ID" && !Bounded(col.colType)
    ensures var rows := Links.LinkRows(AccountsOf(profiles, runDate, e, d), Links.LinkColumns(e.linkSpec));
            && |rows[k]| == |e.linkSpec.columns|
            && exists c :: c in CustomersOf(profiles, e, d) && rows[k][i] == c.id
  {
    var accs := AccountsOf(profiles, runDate, e, d);
    AccountOwnerTagged(profiles, runDate, e, d, k);
    Links.LinkRowNamesOwner(accs, Links.LinkColumns(e.linkSpec), k, i);
  }
}
