/** The table loader (`load_customer_data_csv`) after the file has been read
    and split into records: skips empty records, repairs a header that is
    shorter than the first data row, builds the table and cleans the column
    names and the `Customer_ID` cells. */
module DataLoader {
  import opened Wrappers
  import opened Text
  import opened Numbers
  import opened Counting

  /** One csv record. */
  type Record = seq<string>

  datatype Table = Table(columns: seq<string>, rows: seq<Record>)

  datatype LoadError =
    | NoHeader             // the file has no first record
    | ShapeMismatch        // the widest row is not as wide as the header
    | MissingCustomerId    // no column is named Customer_ID
    | DuplicateCustomerId  // more than one column is named Customer_ID

  const CustomerIdColumn: string := "Customer_ID"
  const ExtraColumnPrefix: string := "Extra_Column_"

  function NonEmpty(r: Record): bool {
    |r| > 0
  }

  /** The data records that are kept: the non-empty ones, in file order. */
  function NonEmptyRows(records: seq<Record>): (rows: seq<Record>)
    ensures forall r :: r in rows <==> r in records && |r| > 0
    ensures forall r :: |r| > 0 ==> Count(rows, r) == Count(records, r)
    ensures IsSubsequence(rows, records)
  {
    Filter(records, NonEmpty)
  }

  /** The generic name of the column at index `i`. */
  function ExtraColumnName(i: nat): string {
    ExtraColumnPrefix + NatToString(i)
  }

  /** The names for the columns at indices `from` up to `to - 1`. */
  function ExtraColumns(from: nat, to: nat): (names: seq<string>)
    ensures |names| == if to > from then to - from else 0
    ensures forall k :: 0 <= k < |names| ==> names[k] == ExtraColumnName(from + k)
  {
    if to > from then seq(to - from, k requires 0 <= k < to - from => ExtraColumnName(from + k)) else []
  }

  /** The header after repair: when the first kept row has a different
      length, one generic name per index from the header's length up to the
      row's length is appended (nothing when the row is shorter). */
  function ExtendedHeader(header: Record, rows: seq<Record>): Record {
    if |rows| > 0 && |rows[0]| != |header| then header + ExtraColumns(|header|, |rows[0]|) else header
  }

  /** The length of the longest row. */
  function MaxWidth(rows: seq<Record>): (w: nat)
    ensures forall r :: r in rows ==> |r| <= w
    ensures rows != [] ==> exists r :: r in rows && |r| == w
  {
    if rows == [] then 0
    else
      var w := MaxWidth(rows[1..]);
      assert forall r :: r in rows ==> r == rows[0] || r in rows[1..];
      if |rows[0]| > w then |rows[0]| else w
  }

  /** `df.columns.str.strip()`. */
  function StripAll(names: seq<string>): (r: seq<string>)
    ensures |r| == |names|
    ensures forall i :: 0 <= i < |names| ==> r[i] == Strip(names[i])
  {
    seq(|names|, i requires 0 <= i < |names| => Strip(names[i]))
  }

  /** A row with its `Customer_ID` cell (index `k`) stripped, when it has one. */
  function StripCell(row: Record, k: nat): (r: Record)
    ensures |r| == |row|
    ensures forall i :: 0 <= i < |row| && i != k ==> r[i] == row[i]
    ensures k < |row| ==> r[k] == Strip(row[k])
  {
    if k < |row| then row[k := Strip(row[k])] else row
  }

  function StripColumn(rows: seq<Record>, k: nat): (r: seq<Record>)
    ensures |r| == |rows|
    ensures forall i :: 0 <= i < |rows| ==> r[i] == StripCell(rows[i], k)
  {
    seq(|rows|, i requires 0 <= i < |rows| => StripCell(rows[i], k))
  }

  /** The whole load, from the records of the file. It fails exactly when
      there is no header, when the widest kept row is not as wide as the
      repaired header, or when the stripped names do not hold exactly one
      Customer_ID. */
  function LoadTable(records: seq<Record>): (r: Result<Table, LoadError>)
    ensures r == Err(NoHeader) <==> records == []
    ensures records != [] ==>
      var rows := NonEmptyRows(records[1..]);
      var header := ExtendedHeader(records[0], rows);
      && (r == Err(ShapeMismatch) <==> rows != [] && MaxWidth(rows) != |header|)
      && (r.Err? <==> (rows != [] && MaxWidth(rows) != |header|) || Count(StripAll(header), CustomerIdColumn) != 1)
  {
    if records == [] then Err(NoHeader)
    else
      var rows := NonEmptyRows(records[1..]);
      var header := ExtendedHeader(records[0], rows);
      if rows != [] && MaxWidth(rows) != |header| then Err(ShapeMismatch)
      else
        var columns := StripAll(header);
        if CustomerIdColumn !in columns then Err(MissingCustomerId)
        else if Count(columns, CustomerIdColumn) > 1 then Err(DuplicateCustomerId)
        else Ok(Table(columns, StripColumn(rows, FirstIndex(columns, CustomerIdColumn))))
  }

  /** The reading loop: keeps each non-empty record. */
  method CollectRows(records: seq<Record>) returns (rows: seq<Record>)
    ensures rows == NonEmptyRows(records)
  {
    rows := [];
    for i := 0 to |records|
      invariant rows == Filter(records[..i], NonEmpty)
    {
      assert records[..i + 1] == records[..i] + [records[i]];
      FilterAppend(records[..i], [records[i]], NonEmpty);
      if |records[i]| > 0 {
        rows := rows + [records[i]];
      }
    }
    assert records[..|records|] == records;
  }

  /** The header repair: a copy of the header, extended by one generic name
      per missing column index. */
  method ExtendHeader(header: Record, rows: seq<Record>) returns (extended: Record)
    ensures extended == ExtendedHeader(header, rows)
  {
    extended := header;
    if |rows| > 0 && |rows[0]| != |header| {
      var i := |header|;
      while i < |rows[0]|
        invariant |header| <= i
        invariant i <= |rows[0]| || i == |header|
        invariant extended == header + ExtraColumns(|header|, i)
      {
        extended := extended + [ExtraColumnPrefix + NatToString(i)];
        i := i + 1;
      }
    }
  }

  /** `load_customer_data_csv`. */
  method Load(records: seq<Record>) returns (r: Result<Table, LoadError>)
    ensures r == LoadTable(records)
  {
    if records == [] {
      return Err(NoHeader);
    }
    var header := records[0];
    var rows := CollectRows(records[1..]);
    header := ExtendHeader(header, rows);
    if rows != [] && MaxWidth(rows) != |header| {
      return Err(ShapeMismatch);
    }
    var columns := StripAll(header);
    if CustomerIdColumn !in columns {
      return Err(MissingCustomerId);
    }
    if Count(columns, CustomerIdColumn) > 1 {
      return Err(DuplicateCustomerId);
    }
    var k := FirstIndex(columns, CustomerIdColumn);
    r := Ok(Table(columns, StripColumn(rows, k)));
  }

  /** Without data rows, or with a first row no longer than the header, the
      header is left as it is. */
  lemma HeaderUnchanged(header: Record, rows: seq<Record>)
    requires rows == [] || |rows[0]| <= |header|
    ensures ExtendedHeader(header, rows) == header
  {
    if rows != [] && |rows[0]| < |header| {
      assert ExtraColumns(|header|, |rows[0]|) == [];
    }
  }

  /** A longer first row makes the header exactly that long, keeps the old
      header as a prefix and names each added column `Extra_Column_i` after
      its index `i`. */
  lemma HeaderExtended(header: Record, rows: seq<Record>)
    requires rows != [] && |rows[0]| > |header|
    ensures var h := ExtendedHeader(header, rows);
      && |h| == |rows[0]|
      && h[..|header|] == header
      && forall i :: |header| <= i < |h| ==> h[i] == ExtraColumnPrefix + NatToString(i)
  {
    var h := ExtendedHeader(header, rows);
    forall i | |header| <= i < |h| ensures h[i] == ExtraColumnPrefix + NatToString(i) {
      assert h[i] == ExtraColumns(|header|, |rows[0]|)[i - |header|];
    }
  }

  /** Different indices give different generic names. */
  lemma ExtraColumnNamesDistinct(i: nat, j: nat)
    requires i != j
    ensures ExtraColumnName(i) != ExtraColumnName(j)
  {
    DigitsValueOfNatToString(i);
    DigitsValueOfNatToString(j);
    assert ExtraColumnName(i)[|ExtraColumnPrefix|..] == NatToString(i);
    assert ExtraColumnName(j)[|ExtraColumnPrefix|..] == NatToString(j);
  }

  /** A loaded table: exactly one column is named Customer_ID; every column
      name is the stripped header name; the rows are the non-empty records in
      order, each with its Customer_ID cell stripped and nothing else changed. */
  lemma LoadedTable(records: seq<Record>)
    requires LoadTable(records).Ok?
    ensures var t := LoadTable(records).value;
      var rows := NonEmptyRows(records[1..]);
      var header := ExtendedHeader(records[0], rows);
      var k := FirstIndex(t.columns, CustomerIdColumn);
      && Count(t.columns, CustomerIdColumn) == 1
      && |t.columns| == |header|
      && (forall i :: 0 <= i < |header| ==> t.columns[i] == Strip(header[i]) && IsStripped(t.columns[i]))
      && |t.rows| == |rows|
      && (forall i :: 0 <= i < |rows| ==> |t.rows[i]| == |rows[i]| <= |t.columns|)
      && (forall i :: 0 <= i < |rows| && k < |rows[i]| ==> t.rows[i][k] == Strip(rows[i][k]))
      && (forall i, j :: 0 <= i < |rows| && 0 <= j < |rows[i]| && j != k ==> t.rows[i][j] == rows[i][j])
  {
    var t := LoadTable(records).value;
    var rows := NonEmptyRows(records[1..]);
    forall i | 0 <= i < |rows| ensures |rows[i]| <= |t.columns| {
      assert rows[i] in rows;
    }
  }
}
