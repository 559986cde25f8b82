/** The reference-table loaders (`ReferenceLoader` in gen_shared.py), over the
    lines of a pipe-delimited file. A missing file and an empty file give the
    same result, so a missing file is simply no lines. */
module Reference {
  import opened Text
  import opened Shared

  /** What `load_file` returns: the two-way code/description map and the
      valid keys in file order. */
  datatype Table = Table(mapping: map<string, string>, codes: seq<string>)

  /** The loop state of `load_file`; `failed` records that a row raised
      (an index past its parts), which ends the loop early. */
  datatype LoadState = LoadState(mapping: map<string, string>, codes: seq<string>, failed: bool)

  /** `line.strip().split('|')` */
  function Parts(line: string): seq<string> {
    Split(Trim(line), '|')
  }

  /** Everything after the header line (`readlines()[1:]`). */
  function DataLines(lines: seq<string>): seq<string> {
    if |lines| == 0 then [] else lines[1..]
  }

  /** One turn of the loop of `load_file`. */
  function LoadStep(st: LoadState, line: string, keyIdx: nat, valIdx: nat): LoadState {
    var parts := Parts(line);
    if st.failed || |parts| < 2 then st
    else if keyIdx >= |parts| || valIdx >= |parts| then st.(failed := true)
    else
      var key := Trim(parts[keyIdx]);
      var val := Trim(parts[valIdx]);
      LoadState(st.mapping[key := val][Upper(val) := key], st.codes + [key], false)
  }

  /** The loop of `load_file` over the data rows. */
  function LoadRows(rows: seq<string>, keyIdx: nat, valIdx: nat): (st: LoadState)
    ensures |st.codes| <= |rows|
  {
    if |rows| == 0 then LoadState(map[], [], false)
    else LoadStep(LoadRows(rows[..|rows| - 1], keyIdx, valIdx), rows[|rows| - 1], keyIdx, valIdx)
  }

  /** The table `load_file` returns: the header line never becomes a key, and
      a file with no data line gives the empty table. */
  function TableOf(lines: seq<string>, keyIdx: nat, valIdx: nat): (t: Table)
    ensures |lines| > 0 ==> |t.codes| < |lines|
    ensures |lines| <= 1 ==> t == Table(map[], [])
  {
    var st := LoadRows(DataLines(lines), keyIdx, valIdx);
    Table(st.mapping, st.codes)
  }

  lemma LoadRowsStep(rows: seq<string>, i: nat, keyIdx: nat, valIdx: nat)
    requires i < |rows|
    ensures LoadRows(rows[..i + 1], keyIdx, valIdx) == LoadStep(LoadRows(rows[..i], keyIdx, valIdx), rows[i], keyIdx, valIdx)
  {
    TakeTake(rows, i);
  }

  /** Once a row has raised, the later rows are never read. */
  lemma {:induction false} FailedAbsorbs(rows: seq<string>, n: nat, keyIdx: nat, valIdx: nat)
    requires n <= |rows| && LoadRows(rows[..n], keyIdx, valIdx).failed
    ensures LoadRows(rows, keyIdx, valIdx) == LoadRows(rows[..n], keyIdx, valIdx)
    decreases |rows|
  {
    if |rows| > n {
      var init := rows[..|rows| - 1];
      assert init[..n] == rows[..n];
      FailedAbsorbs(init, n, keyIdx, valIdx);
    } else {
      assert rows[..n] == rows;
    }
  }

  /** `ReferenceLoader.load_file(path, key_idx, val_idx)` */
  method LoadFile(lines: seq<string>, keyIdx: nat, valIdx: nat) returns (t: Table)
    ensures t == TableOf(lines, keyIdx, valIdx)
  {
    var dataMap: map<string, string> := map[];
    var validKeys: seq<string> := [];
    var failed := false;
    var rows := DataLines(lines);
    var i := 0;
    while i < |rows| && !failed
      invariant 0 <= i <= |rows|
      invariant LoadRows(rows[..i], keyIdx, valIdx) == LoadState(dataMap, validKeys, failed)
    {
      LoadRowsStep(rows, i, keyIdx, valIdx);
      var parts := Split(Trim(rows[i]), '|');
      assert parts == Parts(rows[i]);
      if |parts| >= 2 {
        if keyIdx >= |parts| || valIdx >= |parts| {
          failed := true;
        } else {
          var key := Trim(parts[keyIdx]);
          var val := Trim(parts[valIdx]);
          dataMap := dataMap[key := val];
          dataMap := dataMap[Upper(val) := key];
          validKeys := validKeys + [key];
        }
      }
      i := i + 1;
    }
    if failed {
      FailedAbsorbs(rows, i, keyIdx, valIdx);
    } else {
      TakeAll(rows);
    }
    t := Table(dataMap, validKeys);
  }

  // ---------------------------------------------------------------------------
  // What a loaded table contains (every caller passes indices 0 and 1, in
  // either order)
  // ---------------------------------------------------------------------------

  /** A data row with at least two parts becomes an entry. */
  predicate IsEntry(line: string) {
    |Parts(line)| >= 2
  }

  /** The entry rows, in file order. */
  function Entries(rows: seq<string>): (r: seq<string>)
    ensures forall i :: 0 <= i < |r| ==> IsEntry(r[i])
  {
    if |rows| == 0 then []
    else Entries(rows[..|rows| - 1]) + (if IsEntry(rows[|rows| - 1]) then [rows[|rows| - 1]] else [])
  }

  function KeyOf(line: string, idx: nat): string
    requires IsEntry(line) && idx < 2
  {
    Trim(Parts(line)[idx])
  }

  /** The keys (`idx == 0`) or values (`idx == 1`) of some entries. */
  function EntryParts(es: seq<string>, idx: nat): (r: seq<string>)
    requires idx < 2 && forall i :: 0 <= i < |es| ==> IsEntry(es[i])
    ensures |r| == |es|
  {
    seq(|es|, j requires 0 <= j < |es| => KeyOf(es[j], idx))
  }

  function UpperAll(s: seq<string>): (r: seq<string>)
    ensures |r| == |s|
  {
    seq(|s|, j requires 0 <= j < |s| => Upper(s[j]))
  }

  /** One data row, for indices below two: an entry adds its key and value, any other row is skipped. */
  lemma EntryStep(st: LoadState, line: string, keyIdx: nat, valIdx: nat)
    requires !st.failed && keyIdx < 2 && valIdx < 2
    ensures IsEntry(line) ==>
              var key, val := KeyOf(line, keyIdx), KeyOf(line, valIdx);
              LoadStep(st, line, keyIdx, valIdx) == LoadState(st.mapping[key := val][Upper(val) := key], st.codes + [key], false)
    ensures !IsEntry(line) ==> LoadStep(st, line, keyIdx, valIdx) == st
  {
  }

  /** With indices below two (as every caller passes) no row can raise, and
      the valid keys are the entries' keys in file order. */
  lemma {:induction false} LoadRowsCodes(rows: seq<string>, keyIdx: nat, valIdx: nat)
    requires keyIdx < 2 && valIdx < 2
    ensures !LoadRows(rows, keyIdx, valIdx).failed
    ensures LoadRows(rows, keyIdx, valIdx).codes == EntryParts(Entries(rows), keyIdx)
  {
    if |rows| > 0 {
      var init := rows[..|rows| - 1];
      var last := rows[|rows| - 1];
      LoadRowsCodes(init, keyIdx, valIdx);
      var st0 := LoadRows(init, keyIdx, valIdx);
      EntryStep(st0, last, keyIdx, valIdx);
      if IsEntry(last) {
        var es := Entries(init);
        assert Entries(rows) == es + [last];
        EntryPartsSnoc(es, last, keyIdx);
      } else {
        assert Entries(rows) == Entries(init);
      }
    }
  }

  lemma EntryPartsSnoc(es: seq<string>, e: string, idx: nat)
    requires idx < 2 && IsEntry(e) && forall i :: 0 <= i < |es| ==> IsEntry(es[i])
    ensures EntryParts(es + [e], idx) == EntryParts(es, idx) + [KeyOf(e, idx)]
  {
  }

  lemma UpperAllSnoc(s: seq<string>, x: string)
    ensures UpperAll(s + [x]) == UpperAll(s) + [Upper(x)]
  {
  }

  /** One entry row adds its key and its upper-cased value to the domain. */
  lemma DomainStep(m: map<string, string>, keys: seq<string>, vals: seq<string>, key: string, val: string, k: string)
    requires k in m <==> k in keys || k in UpperAll(vals)
    ensures k in m[key := val][Upper(val) := key] <==> k in keys + [key] || k in UpperAll(vals + [val])
  {
    UpperAllSnoc(vals, val);
  }

  /** One key at a time: it is in the map exactly when it is an entry's key
      or an entry's upper-cased value. */
  lemma {:induction false} LoadRowsDomainKey(rows: seq<string>, keyIdx: nat, valIdx: nat, k: string)
    requires keyIdx < 2 && valIdx < 2
    ensures k in LoadRows(rows, keyIdx, valIdx).mapping <==>
              k in EntryParts(Entries(rows), keyIdx) || k in UpperAll(EntryParts(Entries(rows), valIdx))
  {
    if |rows| > 0 {
      var init := rows[..|rows| - 1];
      var last := rows[|rows| - 1];
      LoadRowsDomainKey(init, keyIdx, valIdx, k);
      LoadRowsCodes(init, keyIdx, valIdx);
      var st0 := LoadRows(init, keyIdx, valIdx);
      var es := Entries(init);
      EntryStep(st0, last, keyIdx, valIdx);
      if IsEntry(last) {
        var key, val := KeyOf(last, keyIdx), KeyOf(last, valIdx);
        assert Entries(rows) == es + [last];
        EntryPartsSnoc(es, last, keyIdx);
        EntryPartsSnoc(es, last, valIdx);
        DomainStep(st0.mapping, EntryParts(es, keyIdx), EntryParts(es, valIdx), key, val, k);
      } else {
        assert Entries(rows) == es;
      }
    }
  }

  /** The map's keys are exactly the entries' keys and their upper-cased values. */
  lemma LoadRowsDomain(rows: seq<string>, keyIdx: nat, valIdx: nat)
    requires keyIdx < 2 && valIdx < 2
    ensures forall k :: k in LoadRows(rows, keyIdx, valIdx).mapping <==>
              k in EntryParts(Entries(rows), keyIdx) || k in UpperAll(EntryParts(Entries(rows), valIdx))
  {
    forall k {
      LoadRowsDomainKey(rows, keyIdx, valIdx, k);
    }
  }

  /** Every value of the map was written in the file: it is some entry's key
      or some entry's value. */
  lemma {:induction false} LoadRowsRange(rows: seq<string>, keyIdx: nat, valIdx: nat, k: string)
    requires keyIdx < 2 && valIdx < 2 && k in LoadRows(rows, keyIdx, valIdx).mapping
    ensures LoadRows(rows, keyIdx, valIdx).mapping[k] in
              EntryParts(Entries(rows), keyIdx) + EntryParts(Entries(rows), valIdx)
  {
    var init := rows[..|rows| - 1];
    var last := rows[|rows| - 1];
    LoadRowsCodes(init, keyIdx, valIdx);
    var st0 := LoadRows(init, keyIdx, valIdx);
    var es := Entries(init);
    EntryStep(st0, last, keyIdx, valIdx);
    if IsEntry(last) {
      var key, val := KeyOf(last, keyIdx), KeyOf(last, valIdx);
      assert Entries(rows) == es + [last];
      EntryPartsSnoc(es, last, keyIdx);
      EntryPartsSnoc(es, last, valIdx);
      if k != Upper(val) && k != key {
        LoadRowsRange(init, keyIdx, valIdx, k);
      }
    } else {
      assert Entries(rows) == es;
      LoadRowsRange(init, keyIdx, valIdx, k);
    }
  }

  /** Every valid key can be looked up in the map. */
  lemma CodesAreMapKeys(rows: seq<string>, keyIdx: nat, valIdx: nat)
    requires keyIdx < 2 && valIdx < 2
    ensures var st := LoadRows(rows, keyIdx, valIdx);
            forall c :: c in st.codes ==> c in st.mapping
  {
    LoadRowsCodes(rows, keyIdx, valIdx);
    LoadRowsDomain(rows, keyIdx, valIdx);
  }

  /** The last entry's upper-cased value maps back to its key: later rows
      override earlier ones. */
  lemma LastEntryWins(rows: seq<string>, keyIdx: nat, valIdx: nat)
    requires keyIdx < 2 && valIdx < 2 && |rows| > 0 && IsEntry(rows[|rows| - 1])
    ensures var last := rows[|rows| - 1];
            var m := LoadRows(rows, keyIdx, valIdx).mapping;
            Upper(KeyOf(last, valIdx)) in m && m[Upper(KeyOf(last, valIdx))] == KeyOf(last, keyIdx)
  {
    LoadRowsCodes(rows[..|rows| - 1], keyIdx, valIdx);
  }

  // ---------------------------------------------------------------------------
  // Transaction types (`load_transaction_types`)
  // ---------------------------------------------------------------------------

  /** One transaction-type entry: the four columns the loader keeps. */
  datatype TxnType = TxnType(code: string, desc: string, scope: string, instrument: string)

  predicate IsTypeRow(line: string) {
    |Parts(line)| >= 4
  }

  function TxnTypeOf(line: string): TxnType
    requires IsTypeRow(line)
  {
    var p := Parts(line);
    TxnType(Trim(p[0]), Trim(p[1]), Trim(p[2]), Trim(p[3]))
  }

  /** The entries kept from the data rows, in file order. */
  function TxnTypesOf(rows: seq<string>): seq<TxnType> {
    if |rows| == 0 then []
    else
      var last := rows[|rows| - 1];
      TxnTypesOf(rows[..|rows| - 1]) + (if IsTypeRow(last) then [TxnTypeOf(last)] else [])
  }

  /** `ReferenceLoader.load_transaction_types(path)` */
  method LoadTransactionTypes(lines: seq<string>) returns (data: seq<TxnType>)
    ensures data == TxnTypesOf(DataLines(lines))
  {
    data := [];
    var rows := DataLines(lines);
    for i := 0 to |rows|
      invariant data == TxnTypesOf(rows[..i])
    {
      var parts := Split(Trim(rows[i]), '|');
      if |parts| >= 4 {
        data := data + [TxnType(Trim(parts[0]), Trim(parts[1]), Trim(parts[2]), Trim(parts[3]))];
      }
      TakeTake(rows, i);
    }
    TakeAll(rows);
  }

  /** The rows with at least four parts, in file order. */
  function TypeRows(rows: seq<string>): (r: seq<string>)
    ensures forall i :: 0 <= i < |r| ==> IsTypeRow(r[i])
  {
    if |rows| == 0 then []
    else TypeRows(rows[..|rows| - 1]) + (if IsTypeRow(rows[|rows| - 1]) then [rows[|rows| - 1]] else [])
  }

  /** Rows with fewer than four parts are dropped and each remaining row gives
      exactly one entry, in file order. */
  lemma {:induction false} TxnTypesContents(rows: seq<string>)
    ensures |TxnTypesOf(rows)| == |TypeRows(rows)|
    ensures forall j :: 0 <= j < |TypeRows(rows)| ==> TxnTypesOf(rows)[j] == TxnTypeOf(TypeRows(rows)[j])
  {
    if |rows| > 0 {
      var init := rows[..|rows| - 1];
      var last := rows[|rows| - 1];
      TxnTypesContents(init);
      if IsTypeRow(last) {
        assert TxnTypesOf(rows) == TxnTypesOf(init) + [TxnTypeOf(last)];
        assert TypeRows(rows) == TypeRows(init) + [last];
      } else {
        assert TxnTypesOf(rows) == TxnTypesOf(init);
        assert TypeRows(rows) == TypeRows(init);
      }
    }
  }
}
