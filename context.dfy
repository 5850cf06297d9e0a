/** The profile builder (`customer_context_agent`): selects one customer's rows
    by normalised id and aggregates them into a profile. */
module CustomerContext {
  import opened Wrappers
  import opened Text
  import opened Numbers
  import opened Counting
  import opened Records

  datatype Profile = Profile(
    customerId: string,
    companyName: string,
    industry: string,
    annualRevenue: real,
    employees: int,
    priorityRating: string,
    accountType: string,
    location: string,
    currentProducts: string,
    productUsage: real,
    totalSpent: real,
    avgOrderValue: real,
    purchaseFrequency: nat,
    productsPurchased: seq<string>,
    lastActivity: string,
    opportunityStage: string,
    opportunityAmount: real,
    competitors: string
  )

  /** The rows whose normalised `Customer_ID` equals the normalised `query`,
      in table order. */
  function CustomerRecords(query: string, rows: seq<Row>): (recs: seq<Row>)
    ensures forall r :: r in recs <==> r in rows && Normalize(r.customerId) == Normalize(query)
    ensures forall r :: Count(recs, r) == if Normalize(r.customerId) == Normalize(query) then Count(rows, r) else 0
    ensures IsSubsequence(recs, rows)
    ensures |recs| <= |rows|
  {
    Filter(rows, (r: Row) => Normalize(r.customerId) == Normalize(query))
  }

  /** A matching row that occurs twice in the table is selected twice, so it
      counts twice in the purchase frequency and the spend. */
  lemma RepeatedRowKept(query: string, a: Row)
    requires Normalize(a.customerId) == Normalize(query)
    ensures CustomerRecords(query, [a, a]) == [a, a]
  {
    var recs := CustomerRecords(query, [a, a]);
    assert Count([a, a], a) == 2 by {
      assert [a, a][1..] == [a];
      assert [a][1..] == [];
    }
    assert |recs| == 2 by {
      assert Count(recs, a) == 2;
    }
    assert recs[0] in recs && recs[1] in recs;
  }

  /** The first selected row is the first row of the table that matches. */
  lemma FirstRecordIsFirstMatch(query: string, rows: seq<Row>, k: nat)
    requires k < |rows| && Normalize(rows[k].customerId) == Normalize(query)
    requires forall j :: 0 <= j < k ==> Normalize(rows[j].customerId) != Normalize(query)
    ensures CustomerRecords(query, rows) != [] && CustomerRecords(query, rows)[0] == rows[k]
  {
    var matches := (r: Row) => Normalize(r.customerId) == Normalize(query);
    FilterFirst(rows, matches, k);
    assert CustomerRecords(query, rows) == Filter(rows, matches);
  }

  /** The `Total_Price(USD)` column. */
  function Prices(rows: seq<Row>): (ps: seq<string>)
    ensures |ps| == |rows|
    ensures forall i :: 0 <= i < |rows| ==> ps[i] == rows[i].totalPrice
  {
    seq(|rows|, i requires 0 <= i < |rows| => rows[i].totalPrice)
  }

  /** `astype(float)` on a column: every cell parsed, in order, or nothing
      when some cell fails to parse. */
  function ParseAll(cells: seq<string>): (r: Option<seq<real>>)
    ensures r.Some? <==> forall i :: 0 <= i < |cells| ==> ParseDecimal(cells[i]).Some?
    ensures r.Some? ==> |r.value| == |cells|
    ensures r.Some? ==> forall i :: 0 <= i < |cells| ==> r.value[i] == ParseDecimal(cells[i]).value
  {
    if forall i :: 0 <= i < |cells| ==> ParseDecimal(cells[i]).Some? then
      Some(seq(|cells|, i requires 0 <= i < |cells| => ParseDecimal(cells[i]).value))
    else None
  }

  function Sum(xs: seq<real>): real {
    if xs == [] then 0.0 else xs[0] + Sum(xs[1..])
  }

  /** The mean of `n` values whose sum is `total`. */
  function Mean(total: real, n: nat): (m: real)
    requires n > 0
    ensures m * n as real == total
  {
    total / n as real
  }

  /** `total_spent` and `avg_order_value`: the sum and the mean of the prices,
      or both zero when any price fails to parse. */
  function Spend(recs: seq<Row>): (r: (real, real))
    requires recs != []
    ensures ParseAll(Prices(recs)).Some? ==> r.0 == Sum(ParseAll(Prices(recs)).value)
    ensures ParseAll(Prices(recs)).Some? ==> r.1 == Mean(r.0, |recs|)
    ensures ParseAll(Prices(recs)).None? ==> r == (0.0, 0.0)
  {
    var parsed := ParseAll(Prices(recs));
    if parsed.Some? then
      var total := Sum(parsed.value);
      var mean := Mean(total, |recs|);
      (total, mean)
    else (0.0, 0.0)
  }

  /** `customer_context_agent`: `None` when no row matches the normalised id;
      otherwise the profile, with identity and firmographic fields taken from
      the first matching row, numeric ones parsed with a zero fallback. */
  function BuildProfile(query: string, rows: seq<Row>): (r: Option<Profile>)
    ensures r.None? <==> forall i :: 0 <= i < |rows| ==> Normalize(rows[i].customerId) != Normalize(query)
    ensures r.Some? ==>
      var recs := CustomerRecords(query, rows);
      && recs != []
      && r.value.customerId == Normalize(query)
      && r.value.purchaseFrequency == |recs|
      && r.value.productsPurchased == Distinct(Products(recs))
      && (r.value.totalSpent, r.value.avgOrderValue) == Spend(recs)
      && r.value.companyName == recs[0].customerName
      && r.value.industry == recs[0].industry
      && r.value.annualRevenue == OrZero(ParseDecimal(recs[0].annualRevenue))
      && r.value.employees == OrZeroInt(ParseInteger(recs[0].employees))
      && r.value.productUsage == OrZero(ParseDecimal(recs[0].productUsage))
      && r.value.opportunityAmount == OrZero(ParseDecimal(recs[0].opportunityAmount))
      && r.value.priorityRating == recs[0].priorityRating
      && r.value.accountType == recs[0].accountType
      && r.value.location == recs[0].location
      && r.value.currentProducts == recs[0].currentProducts
      && r.value.lastActivity == recs[0].lastActivity
      && r.value.opportunityStage == recs[0].opportunityStage
      && r.value.competitors == recs[0].competitors
  {
    var id := Normalize(query);
    var recs := CustomerRecords(query, rows);
    if recs == [] then
      assert forall i :: 0 <= i < |rows| ==> rows[i] in rows;
      None
    else
      var info := recs[0];
      var spend := Spend(recs);
      Some(Profile(
        customerId := id,
        companyName := info.customerName,
        industry := info.industry,
        annualRevenue := OrZero(ParseDecimal(info.annualRevenue)),
        employees := OrZeroInt(ParseInteger(info.employees)),
        priorityRating := info.priorityRating,
        accountType := info.accountType,
        location := info.location,
        currentProducts := info.currentProducts,
        productUsage := OrZero(ParseDecimal(info.productUsage)),
        totalSpent := spend.0,
        avgOrderValue := spend.1,
        purchaseFrequency := |recs|,
        productsPurchased := Distinct(Products(recs)),
        lastActivity := info.lastActivity,
        opportunityStage := info.opportunityStage,
        opportunityAmount := OrZero(ParseDecimal(info.opportunityAmount)),
        competitors := info.competitors))
  }

  /** A built profile lists at least one product: the first matching row's. */
  lemma BuiltProfileHasProducts(query: string, rows: seq<Row>)
    requires BuildProfile(query, rows).Some?
    ensures BuildProfile(query, rows).value.productsPurchased != []
  {
    var recs := CustomerRecords(query, rows);
    assert Products(recs)[0] in Products(recs);
  }

  /** A price that does not parse, such as "n/a", zeroes both the total and
      the mean, whatever the other prices are. */
  lemma SpendWithBadPrice(a: Row, b: Row)
    requires b.totalPrice == "n/a"
    ensures Spend([a, b]) == (0.0, 0.0)
  {
    assert Prices([a, b])[1] == "n/a";
    assert ParseDecimal("n/a").None? by {
      StripOfStripped("n/a");
      assert SplitSign("n/a") == (false, "n/a");
    }
  }

  /** The prices "100" and "200" parse as 100 and 200. */
  lemma ScenarioPrices()
    ensures ParseDecimal("100") == Some(100.0)
    ensures ParseDecimal("200") == Some(200.0)
  {
    assert NatToString(1) == "1" && NatToString(10) == "10" && NatToString(100) == "100";
    assert NatToString(2) == "2" && NatToString(20) == "20" && NatToString(200) == "200";
    ParseDecimalOfNatToString(100);
    ParseDecimalOfNatToString(200);
  }

  /** Two rows of one customer select both, in order. */
  lemma TwoRowsOfOneCustomer(query: string, a: Row, b: Row)
    requires Normalize(a.customerId) == Normalize(query) && Normalize(b.customerId) == Normalize(query)
    ensures CustomerRecords(query, [a, b]) == [a, b]
  {
    AllRowsOfOneCustomer(query, [a, b]);
  }

  /** A table whose every row matches the query is selected whole. */
  lemma AllRowsOfOneCustomer(query: string, rows: seq<Row>)
    requires forall i :: 0 <= i < |rows| ==> Normalize(rows[i].customerId) == Normalize(query)
    ensures CustomerRecords(query, rows) == rows
  {
    FilterAll(rows, (r: Row) => Normalize(r.customerId) == Normalize(query));
  }

  /** Two cells that parse give both values, in order. */
  lemma TwoCellsParsed(c: string, d: string, x: real, y: real)
    requires ParseDecimal(c) == Some(x) && ParseDecimal(d) == Some(y)
    ensures ParseAll([c, d]) == Some([x, y])
  {
    var cells := [c, d];
    forall i | 0 <= i < |cells| ensures ParseDecimal(cells[i]).Some? {
      if i == 0 { assert cells[i] == c; } else { assert cells[i] == d; }
    }
    var v := ParseAll(cells).value;
    assert v[0] == x && v[1] == y;
    assert v == [x, y];
  }

  lemma SumOfTwo(x: real, y: real)
    ensures Sum([x, y]) == x + y
  {
    assert [y][1..] == [];
    assert Sum([y]) == y;
    assert [x, y][1..] == [y];
  }

  /** Prices that all parse give their sum and its mean. */
  lemma ParsedSpend(recs: seq<Row>, values: seq<real>)
    requires recs != [] && ParseAll(Prices(recs)) == Some(values)
    ensures Spend(recs) == (Sum(values), Mean(Sum(values), |recs|))
  {
  }

  lemma PricesOfTwo(a: Row, b: Row)
    ensures Prices([a, b]) == [a.totalPrice, b.totalPrice]
  {
  }

  /** The scenario's prices parse as 100 and 200. */
  lemma ScenarioParsed(a: Row, b: Row)
    requires ParseDecimal(a.totalPrice) == Some(100.0) && ParseDecimal(b.totalPrice) == Some(200.0)
    ensures ParseAll(Prices([a, b])) == Some([100.0, 200.0])
  {
    PricesOfTwo(a, b);
    TwoCellsParsed(a.totalPrice, b.totalPrice, 100.0, 200.0);
  }

  /** Prices of 100 and 200 give a total of 300 and a mean of 150. */
  lemma ScenarioSpend(a: Row, b: Row)
    requires ParseAll(Prices([a, b])) == Some([100.0, 200.0])
    ensures Spend([a, b]) == (300.0, 150.0)
  {
    ParsedSpend([a, b], [100.0, 200.0]);
    SumOfTwo(100.0, 200.0);
  }
}
