/** The purchase-pattern stage (`purchase_pattern_agent`): compares one
    customer with the other customers of the same industry. */
module PurchasePattern {
  import opened Text
  import opened Counting
  import opened ValueCounting
  import opened Records
  import opened CustomerContext

  datatype Pattern = Pattern(
    frequentProducts: seq<string>,             // frequent_products_industry
    missingOpportunities: seq<string>,         // missing_opportunities
    customerProductFrequency: map<string, nat>, // customer_product_frequency
    totalIndustryCustomers: nat                // total_industry_customers
  )

  /** How many industry products are listed. */
  const FrequentLimit: nat := 10

  /** The peer rows: same `Industry` (compared verbatim) and a normalised
      `Customer_ID` other than the customer's. */
  function PeerRows(profile: Profile, rows: seq<Row>): (peers: seq<Row>)
    ensures forall r :: r in peers <==>
      r in rows && r.industry == profile.industry && Normalize(r.customerId) != Normalize(profile.customerId)
    ensures forall r ::
              Count(peers, r) == if r.industry == profile.industry && Normalize(r.customerId) != Normalize(profile.customerId)
                                 then Count(rows, r) else 0
    ensures IsSubsequence(peers, rows)
  {
    var id := Normalize(profile.customerId);
    Filter(rows, (r: Row) => r.industry == profile.industry && Normalize(r.customerId) != id)
  }

  /** `value_counts().head(10).index` over the peers' products. */
  function FrequentProducts(peers: seq<Row>): seq<string> {
    Keys(TopCounts(Products(peers), [], FrequentLimit))
  }

  /** The frequent products the customer does not own, in their order. */
  function MissingProducts(frequent: seq<string>, owned: seq<string>): (missing: seq<string>)
    ensures forall p :: p in missing <==> p in frequent && p !in owned
    ensures IsSubsequence(missing, frequent)
    ensures |missing| <= |frequent|
    ensures NoDuplicates(frequent) ==> NoDuplicates(missing)
  {
    var notOwned := (p: string) => p !in owned;
    if NoDuplicates(frequent) then
      FilterNoDuplicates(frequent, notOwned);
      Filter(frequent, notOwned)
    else Filter(frequent, notOwned)
  }

  /** The rows of customer `id` (already normalised) that bought `p`. */
  function OwnPurchase(id: string, p: string): Row -> bool {
    (r: Row) => Normalize(r.customerId) == id && r.product == p
  }

  /** `customer_product_frequency`: for each owned product, how many rows of
      the customer bought it. */
  function ProductFrequency(customerId: string, owned: seq<string>, rows: seq<Row>): (m: map<string, nat>)
    ensures m.Keys == set p | p in owned
  {
    var id := Normalize(customerId);
    map p | p in owned :: |Filter(rows, OwnPurchase(id, p))|
  }

  /** `purchase_pattern_agent`. `missing_opportunities` is an order-preserving
      selection of at most ten frequent products, exactly those the customer
      does not own, each listed once; the frequency map has exactly the owned
      products as keys. */
  function Analyze(profile: Profile, rows: seq<Row>): (pat: Pattern)
    ensures |pat.frequentProducts| <= FrequentLimit
    ensures NoDuplicates(pat.frequentProducts) && NoDuplicates(pat.missingOpportunities)
    ensures IsSubsequence(pat.missingOpportunities, pat.frequentProducts)
    ensures |pat.missingOpportunities| <= FrequentLimit
    ensures forall p :: p in pat.missingOpportunities <==>
      p in pat.frequentProducts && p !in profile.productsPurchased
    ensures pat.customerProductFrequency.Keys == set p | p in profile.productsPurchased
  {
    var peers := PeerRows(profile, rows);
    var frequent := FrequentProducts(peers);
    TopCountsEntries(Products(peers), [], FrequentLimit);
    RankedKeysDistinct(Products(peers), TopCounts(Products(peers), [], FrequentLimit));
    Pattern(
      frequentProducts := frequent,
      missingOpportunities := MissingProducts(frequent, profile.productsPurchased),
      customerProductFrequency := ProductFrequency(profile.customerId, profile.productsPurchased, rows),
      totalIndustryCustomers := |Distinct(CustomerIds(peers))|)
  }

  /** The frequent products are distinct peer products, most bought first
      (ties in first-seen order), and none is left out that outsells a listed one. */
  lemma FrequentProductsRanked(peers: seq<Row>)
    ensures var f := FrequentProducts(peers);
      && |f| <= FrequentLimit
      && NoDuplicates(f)
      && (forall p :: p in f ==> p in Products(peers))
      && (forall i, j :: 0 <= i < j < |f| ==> RanksBefore(Products(peers), f[i], f[j]))
  {
    var s := Products(peers);
    var top := TopCounts(s, [], FrequentLimit);
    TopCountsEntries(s, [], FrequentLimit);
    RankedKeysDistinct(s, top);
    forall p | p in Keys(top) ensures p in s {
      var i :| 0 <= i < |top| && Keys(top)[i] == p;
      assert top[i] in top;
    }
  }

  /** A peer product missing from the frequent list is outranked by every
      listed product, and the list is full. */
  lemma FrequentProductsMaximal(peers: seq<Row>, x: string)
    requires x in Products(peers) && x !in FrequentProducts(peers)
    ensures |FrequentProducts(peers)| == FrequentLimit
    ensures forall p :: p in FrequentProducts(peers) ==> RanksBefore(Products(peers), p, x)
  {
    var s := Products(peers);
    var top := TopCounts(s, [], FrequentLimit);
    TopCountsMaximal(s, [], FrequentLimit, x);
    forall p | p in Keys(top) ensures RanksBefore(s, p, x) {
      var i :| 0 <= i < |top| && Keys(top)[i] == p;
      assert top[i] in top;
    }
  }

  /** Own-rows counting: restricting to the customer's rows and then counting a
      product gives the number of the customer's rows with that product. */
  lemma {:induction false} OwnPurchaseCount(customerId: string, p: string, rows: seq<Row>)
    ensures |Filter(rows, OwnPurchase(Normalize(customerId), p))|
         == Count(Products(CustomerRecords(customerId, rows)), p)
  {
    var f := OwnPurchase(Normalize(customerId), p);
    if rows != [] {
      OwnPurchaseCount(customerId, p, rows[1..]);
      var r := rows[0];
      var rest := CustomerRecords(customerId, rows[1..]);
      var head: seq<Row> := if Normalize(r.customerId) == Normalize(customerId) then [r] else [];
      assert CustomerRecords(customerId, rows) == head + rest;
      ProductsAppend(head, rest);
      CountAppend(Products(head), Products(rest), p);
      assert Filter(rows, f) == (if f(r) then [r] else []) + Filter(rows[1..], f);
    }
  }

  /** Every count in `customer_product_frequency` is taken over the customer's
      own rows only. */
  lemma ProductFrequencyOwnRows(profile: Profile, rows: seq<Row>)
    ensures var m := Analyze(profile, rows).customerProductFrequency;
      forall p :: p in m ==> m[p] == Count(Products(CustomerRecords(profile.customerId, rows)), p)
  {
    var m := Analyze(profile, rows).customerProductFrequency;
    forall p | p in m ensures m[p] == Count(Products(CustomerRecords(profile.customerId, rows)), p) {
      OwnPurchaseCount(profile.customerId, p, rows);
    }
  }

  /** A product bought in one of the rows selected by `query` is bought in a
      row selected by any id with the same normalised form. */
  lemma SameCustomerRows(query: string, customerId: string, rows: seq<Row>, p: string)
    requires Normalize(customerId) == Normalize(query)
    requires p in Products(CustomerRecords(query, rows))
    ensures Count(Products(CustomerRecords(customerId, rows)), p) > 0
  {
    var recs := CustomerRecords(query, rows);
    var i :| 0 <= i < |recs| && Products(recs)[i] == p;
    assert recs[i] in recs;
    var own := CustomerRecords(customerId, rows);
    assert recs[i] in own;
    var k :| 0 <= k < |own| && own[k] == recs[i];
    assert Products(own)[k] == p;
  }

  /** For a profile built from the same table, every owned product has a
      positive count: its rows are the rows the profile was built from. */
  lemma ProductFrequencyPositive(query: string, rows: seq<Row>)
    requires BuildProfile(query, rows).Some?
    ensures var profile := BuildProfile(query, rows).value;
      var m := Analyze(profile, rows).customerProductFrequency;
      forall p :: p in profile.productsPurchased ==> p in m && m[p] > 0
  {
    var profile := BuildProfile(query, rows).value;
    NormalizeIdempotent(query);
    ProductFrequencyOwnRows(profile, rows);
    forall p | p in profile.productsPurchased
      ensures Count(Products(CustomerRecords(profile.customerId, rows)), p) > 0
    {
      SameCustomerRows(query, profile.customerId, rows, p);
    }
  }

  /** Peers share the customer's industry and never its normalised id; the
      industry count is at most the number of peer rows and zero exactly when
      there are none. */
  lemma PeersAndIndustryCount(profile: Profile, rows: seq<Row>)
    ensures var pat := Analyze(profile, rows);
      var peers := PeerRows(profile, rows);
      && (forall r :: r in peers ==> r.industry == profile.industry)
      && (forall r :: r in peers ==> Normalize(r.customerId) != Normalize(profile.customerId))
      && pat.totalIndustryCustomers <= |peers|
      && (pat.totalIndustryCustomers == 0 <==> peers == [])
  {
    var peers := PeerRows(profile, rows);
    var ids := Distinct(CustomerIds(peers));
    if peers != [] {
      assert CustomerIds(peers)[0] in ids;
    }
  }
}
