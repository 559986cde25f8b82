/** `LinkGenerator` (gen_links.py): one customer-account link row per
    account context, marking the account's owner as its primary holder. */
module Links {
  import opened Text
  import opened Shared
  import opened Accounts

  /** Column `i` of the link specification. A column past the end of the
      declared types is an unbounded "STRING", one past the end of the
      mandatory flags is optional. */
  function LinkColumn(spec: Spec, i: nat): Column
    requires i < |spec.columns|
  {
    Column(spec.columns[i],
           if i < |spec.types| then spec.types[i] else "STRING",
           if i < |spec.mandatory| then spec.mandatory[i] else "NO")
  }

  function LinkColumns(spec: Spec): (cols: seq<Column>)
    ensures |cols| == |spec.columns|
  {
    seq(|spec.columns|, i requires 0 <= i < |spec.columns| => LinkColumn(spec, i))
  }

  /** On a specification whose three arrays line up, the link columns are the
      ordinary ones; past the declared types, a cell is never truncated. */
  lemma LinkColumnsDefaults(spec: Spec)
    ensures spec.WellFormed() ==> LinkColumns(spec) == Columns(spec)
    ensures forall i :: |spec.types| <= i < |spec.columns| ==>
              LinkColumns(spec)[i].colType == "STRING" && !Bounded(LinkColumns(spec)[i].colType)
    ensures forall i :: |spec.mandatory| <= i < |spec.columns| ==> LinkColumns(spec)[i].mandatory == "NO"
  {
    assert '(' !in "STRING";
  }

  /** The value of a link column before the mandatory fill. */
  function LinkValue(a: Account, colName: string): (r: string)
    ensures r in {a.id, a.customerId, "PRIMARY", a.dateOpened, ""}
    ensures colName !in {"ACCOUNT_SOURCE_UNIQUE_ID", "CUSTOMER_SOURCE_UNIQUE_ID", "CUSTOMER_ROLE", "FROM_DATE"} ==> r == ""
  {
    if colName == "ACCOUNT_SOURCE_UNIQUE_ID" then a.id
    else if colName == "CUSTOMER_SOURCE_UNIQUE_ID" then a.customerId
    else if colName == "CUSTOMER_ROLE" then "PRIMARY"
    else if colName == "FROM_DATE" then a.dateOpened
    else ""
  }

  /** One cell: an empty mandatory value becomes "N", then the declared length applies. */
  function LinkCell(a: Account, col: Column): (r: string)
    ensures Bounded(col.colType) ==> |r| <= LengthBound(col.colType).value
    ensures col.mandatory == "YES" && LengthBound(col.colType) != Some(0) ==> r != ""
  {
    var val := LinkValue(a, Upper(col.name));
    var filled := if col.mandatory == "YES" && val == "" then "N" else val;
    EnforceLength(filled, col.colType)
  }

  function CellBuilder(a: Account): Column -> string {
    col => LinkCell(a, col)
  }

  function LinkRow(a: Account, cols: seq<Column>): seq<string> {
    MapSeq(cols, CellBuilder(a))
  }

  function RowBuilder(cols: seq<Column>): Account -> seq<string> {
    a => LinkRow(a, cols)
  }

  /** The link rows of a run: one per account, in account order. */
  function LinkRows(accs: seq<Account>, cols: seq<Column>): (rows: seq<seq<string>>)
    ensures |rows| == |accs|
  {
    MapSeq(accs, RowBuilder(cols))
  }

  /** What each recognised column holds: the account's ID, its owner's ID,
      the role "PRIMARY" and the opening date; every other column is blank,
      or "N" when mandatory. A mandatory cell is never blank unless its
      declared bound is zero. */
  lemma LinkCellFacts(a: Account, col: Column)
    ensures Upper(col.name) == "ACCOUNT_SOURCE_UNIQUE_ID" && a.id != "" ==>
              LinkCell(a, col) == EnforceLength(a.id, col.colType)
    ensures Upper(col.name) == "CUSTOMER_SOURCE_UNIQUE_ID" && a.customerId != "" ==>
              LinkCell(a, col) == EnforceLength(a.customerId, col.colType)
    ensures Upper(col.name) == "CUSTOMER_ROLE" ==> LinkCell(a, col) == EnforceLength("PRIMARY", col.colType)
    ensures Upper(col.name) == "FROM_DATE" && a.dateOpened != "" ==>
              LinkCell(a, col) == EnforceLength(a.dateOpened, col.colType)
    ensures Upper(col.name) !in {"ACCOUNT_SOURCE_UNIQUE_ID", "CUSTOMER_SOURCE_UNIQUE_ID", "CUSTOMER_ROLE", "FROM_DATE"} ==>
              LinkCell(a, col) == if col.mandatory == "YES" then EnforceLength("N", col.colType) else ""
    ensures col.mandatory == "YES" && LengthBound(col.colType) != Some(0) ==> LinkCell(a, col) != ""
  {
    var val := LinkValue(a, Upper(col.name));
    var filled := if col.mandatory == "YES" && val == "" then "N" else val;
    if col.mandatory == "YES" && Bounded(col.colType) {
      assert filled != "";
    }
  }

  /** Cell `i` of row `k` is column `i` rendered from account `k`. */
  lemma LinkRowsAt(accs: seq<Account>, cols: seq<Column>, k: nat, i: nat)
    requires k < |accs| && i < |cols|
    ensures |LinkRows(accs, cols)[k]| == |cols|
    ensures LinkRows(accs, cols)[k][i] == LinkCell(accs[k], cols[i])
  {
    MapSeqAt(accs, RowBuilder(cols), k);
    MapSeqAt(cols, CellBuilder(accs[k]), i);
  }

  /** In an unbounded customer column, each link row names its account's owner. */
  lemma LinkRowNamesOwner(accs: seq<Account>, cols: seq<Column>, k: nat, i: nat)
    requires k < |accs| && i < |cols|
    requires Upper(cols[i].name) == "CUSTOMER_SOURCE_UNIQUE_ID" && !Bounded(cols[i].colType)
    requires accs[k].customerId != ""
    ensures |LinkRows(accs, cols)[k]| == |cols|
    ensures LinkRows(accs, cols)[k][i] == accs[k].customerId
  {
    LinkRowsAt(accs, cols, k, i);
    LinkCellFacts(accs[k], cols[i]);
  }

  /** In an unbounded account column, each link row names its own account. */
  lemma LinkRowNamesAccount(accs: seq<Account>, cols: seq<Column>, k: nat, i: nat)
    requires k < |accs| && i < |cols|
    requires Upper(cols[i].name) == "ACCOUNT_SOURCE_UNIQUE_ID" && !Bounded(cols[i].colType)
    requires accs[k].id != ""
    ensures |LinkRows(accs, cols)[k]| == |cols|
    ensures LinkRows(accs, cols)[k][i] == accs[k].id
  {
    LinkRowsAt(accs, cols, k, i);
    LinkCellFacts(accs[k], cols[i]);
  }

  /** The cells of one link row, column by column. */
  method BuildLinkRow(a: Account, spec: Spec) returns (row: seq<string>)
    ensures row == LinkRow(a, LinkColumns(spec))
  {
    row := [];
    ghost var cols := LinkColumns(spec);
    for i := 0 to |spec.columns|
      invariant row == LinkRow(a, cols[..i])
    {
      var colName := Upper(spec.columns[i]);
      var colType := if i < |spec.types| then spec.types[i] else "STRING";
      var val := LinkValue(a, colName);
      var isMandatory := if i < |spec.mandatory| then spec.mandatory[i] else "NO";
      if isMandatory == "YES" && val == "" {
        val := "N";
      }
      assert cols[i] == LinkColumn(spec, i);
      MapSeqSnoc(cols[..i], cols[i], CellBuilder(a));
      TakeSnoc(cols, i);
      row := row + [EnforceLength(val, colType)];
    }
    TakeAll(cols);
  }

  /** `LinkGenerator.generate_rows(customer_contexts, account_contexts)` */
  method GenerateLinkRows(accounts: seq<Account>, spec: Spec) returns (rows: seq<seq<string>>)
    ensures rows == LinkRows(accounts, LinkColumns(spec))
  {
    rows := [];
    ghost var cols := LinkColumns(spec);
    for k := 0 to |accounts|
      invariant rows == LinkRows(accounts[..k], cols)
    {
      var row := BuildLinkRow(accounts[k], spec);
      MapSeqSnoc(accounts[..k], accounts[k], RowBuilder(cols));
      TakeSnoc(accounts, k);
      rows := rows + [row];
    }
    TakeAll(accounts);
  }
}
