/** The product-affinity stage (`product_affinity_agent`): what else the buyers
    of the customer's products bought. Customer ids are compared as loaded
    (raw), not normalised. */
module ProductAffinity {
  import opened Counting
  import opened ValueCounting
  import opened Records
  import opened CustomerContext

  datatype Affinity = Affinity(
    productAffinities: map<string, Counts>, // product_affinities
    topRecommendations: Counts,             // top_recommendations
    relatedCustomerCount: nat               // related_customer_count
  )

  /** Entries kept per owned product. */
  const AffinityLimit: nat := 5
  /** Entries kept in the overall recommendation list. */
  const RecommendationLimit: nat := 10

  /** The rows whose `Product` is `p`. */
  function RowsWithProduct(p: string, rows: seq<Row>): (r: seq<Row>)
    ensures forall x :: x in r <==> x in rows && x.product == p
  {
    Filter(rows, (x: Row) => x.product == p)
  }

  /** The rows whose `Product` is one of `owned` (`isin`). */
  function RowsWithProductIn(owned: seq<string>, rows: seq<Row>): (r: seq<Row>)
    ensures forall x :: x in r <==> x in rows && x.product in owned
  {
    Filter(rows, (x: Row) => x.product in owned)
  }

  /** The rows whose `Customer_ID` is one of `ids` (`isin`). */
  function RowsOfCustomers(ids: seq<string>, rows: seq<Row>): (r: seq<Row>)
    ensures forall x :: x in r <==> x in rows && x.customerId in ids
    ensures forall x :: Count(r, x) == if x.customerId in ids then Count(rows, x) else 0
  {
    Filter(rows, (x: Row) => x.customerId in ids)
  }

  /** The customers who bought `p`, each once, in first-seen order. */
  function BuyersOf(p: string, rows: seq<Row>): seq<string> {
    Distinct(CustomerIds(RowsWithProduct(p, rows)))
  }

  /** The customers who bought any owned product (`related_customers`). */
  function RelatedCustomers(owned: seq<string>, rows: seq<Row>): seq<string> {
    Distinct(CustomerIds(RowsWithProductIn(owned, rows)))
  }

  /** `product_affinities[p]`: the five products most bought by the buyers of
      `p`, owned products dropped. */
  function CoPurchased(p: string, owned: seq<string>, rows: seq<Row>): Counts {
    TopCounts(Products(RowsOfCustomers(BuyersOf(p, rows), rows)), owned, AffinityLimit)
  }

  /** `top_recommendations`: the ten products most bought by the related
      customers, owned products dropped. */
  function Recommendations(owned: seq<string>, rows: seq<Row>): Counts {
    TopCounts(Products(RowsOfCustomers(RelatedCustomers(owned, rows), rows)), owned, RecommendationLimit)
  }

  /** `product_affinity_agent`: fills the affinity dict one owned product at a
      time, then computes the overall recommendations. */
  method Analyze(profile: Profile, rows: seq<Row>) returns (aff: Affinity)
    ensures aff.productAffinities.Keys == set p | p in profile.productsPurchased
    ensures forall p :: p in aff.productAffinities ==>
      aff.productAffinities[p] == CoPurchased(p, profile.productsPurchased, rows)
    ensures aff.topRecommendations == Recommendations(profile.productsPurchased, rows)
    ensures aff.relatedCustomerCount == |RelatedCustomers(profile.productsPurchased, rows)|
  {
    var owned := profile.productsPurchased;
    var related := RelatedCustomers(owned, rows);
    var affinities: map<string, Counts> := map[];
    var i := 0;
    while i < |owned|
      invariant 0 <= i <= |owned|
      invariant forall p :: p in affinities <==> p in owned[..i]
      invariant forall p :: p in affinities ==> affinities[p] == CoPurchased(p, owned, rows)
    {
      var product := owned[i];
      var productCustomers := BuyersOf(product, rows);
      var coPurchased := ValueCounts(Products(RowsOfCustomers(productCustomers, rows)));
      coPurchased := Drop(coPurchased, owned);
      CoPurchasedSteps(product, owned, rows);
      affinities := affinities[product := Take(coPurchased, AffinityLimit)];
      assert owned[..i + 1] == owned[..i] + [product];
      i := i + 1;
    }
    assert owned[..i] == owned;
    var allCoPurchased := ValueCounts(Products(RowsOfCustomers(related, rows)));
    var recommendations := Take(Drop(allCoPurchased, owned), RecommendationLimit);
    aff := Affinity(affinities, recommendations, |related|);
  }

  /** The loop body's three steps compute `CoPurchased`. */
  lemma CoPurchasedSteps(p: string, owned: seq<string>, rows: seq<Row>)
    ensures Take(Drop(ValueCounts(Products(RowsOfCustomers(BuyersOf(p, rows), rows))), owned), AffinityLimit)
      == CoPurchased(p, owned, rows)
  {
  }

  /** Each affinity list has at most five entries, none of them owned, each
      with its true count among the buyers' rows, most bought first. */
  lemma CoPurchasedEntries(p: string, owned: seq<string>, rows: seq<Row>)
    ensures var c := CoPurchased(p, owned, rows);
      var s := Products(RowsOfCustomers(BuyersOf(p, rows), rows));
      && |c| <= AffinityLimit
      && (forall e :: e in c ==> e.0 !in owned && e.1 == Count(s, e.0))
      && (forall i, j :: 0 <= i < j < |c| ==> RanksBefore(s, c[i].0, c[j].0))
  {
    TopCountsEntries(Products(RowsOfCustomers(BuyersOf(p, rows), rows)), owned, AffinityLimit);
  }

  /** A product bought by one of the selected customers was bought, in some
      row, under the id of a selected row. */
  lemma BoughtBySelected(sel: seq<Row>, rows: seq<Row>, product: string)
    requires product in Products(RowsOfCustomers(Distinct(CustomerIds(sel)), rows))
    ensures exists x, y :: x in rows && y in sel && x.product == product && x.customerId == y.customerId
  {
    var cs := RowsOfCustomers(Distinct(CustomerIds(sel)), rows);
    var k :| 0 <= k < |cs| && Products(cs)[k] == product;
    var x := cs[k];
    assert x in cs;
    var j :| 0 <= j < |sel| && CustomerIds(sel)[j] == x.customerId;
    assert sel[j] in sel;
  }

  /** An entry of a top list over the rows of some selected customers is a
      product bought by one of them, and is not owned. */
  lemma TopOfCustomers(sel: seq<Row>, owned: seq<string>, n: nat, rows: seq<Row>, e: (string, nat))
    requires e in TopCounts(Products(RowsOfCustomers(Distinct(CustomerIds(sel)), rows)), owned, n)
    ensures e.0 !in owned
    ensures exists x, y :: x in rows && y in sel && x.product == e.0 && x.customerId == y.customerId
  {
    TopCountsEntries(Products(RowsOfCustomers(Distinct(CustomerIds(sel)), rows)), owned, n);
    BoughtBySelected(sel, rows, e.0);
  }

  /** Every product in the affinity list of `p` was bought by some customer
      who also bought `p`. */
  lemma CoPurchasedByBuyers(p: string, owned: seq<string>, rows: seq<Row>, e: (string, nat))
    requires e in CoPurchased(p, owned, rows)
    ensures exists x, y :: x in rows && y in rows && x.product == e.0 && y.product == p
                        && x.customerId == y.customerId
  {
    var sel := RowsWithProduct(p, rows);
    TopOfCustomers(sel, owned, AffinityLimit, rows, e);
    var x, y :| x in rows && y in sel && x.product == e.0 && x.customerId == y.customerId;
    assert y in rows && y.product == p;
  }

  /** The recommendation list has at most ten entries, none of them owned,
      each bought by a customer who bought an owned product. */
  /** The affinity list of `p` holds the top entries: a product the buyers of
      `p` bought that is neither owned nor listed means the list is full and
      every listed product ranks before it. */
  lemma CoPurchasedTop(p: string, owned: seq<string>, rows: seq<Row>, x: string)
    requires x in Products(RowsOfCustomers(BuyersOf(p, rows), rows))
    requires x !in owned && x !in Keys(CoPurchased(p, owned, rows))
    ensures |CoPurchased(p, owned, rows)| == AffinityLimit
    ensures forall e :: e in CoPurchased(p, owned, rows) ==>
      RanksBefore(Products(RowsOfCustomers(BuyersOf(p, rows), rows)), e.0, x)
  {
    TopCountsMaximal(Products(RowsOfCustomers(BuyersOf(p, rows), rows)), owned, AffinityLimit, x);
  }

  /** The recommendations are the top entries: a product the related
      customers bought that is neither owned nor recommended means the list is
      full and every recommended product ranks before it. */
  lemma RecommendationsTop(owned: seq<string>, rows: seq<Row>, x: string)
    requires x in Products(RowsOfCustomers(RelatedCustomers(owned, rows), rows))
    requires x !in owned && x !in Keys(Recommendations(owned, rows))
    ensures |Recommendations(owned, rows)| == RecommendationLimit
    ensures forall e :: e in Recommendations(owned, rows) ==>
      RanksBefore(Products(RowsOfCustomers(RelatedCustomers(owned, rows), rows)), e.0, x)
  {
    TopCountsMaximal(Products(RowsOfCustomers(RelatedCustomers(owned, rows), rows)), owned, RecommendationLimit, x);
  }

  lemma RecommendationsEntries(owned: seq<string>, rows: seq<Row>)
    ensures var c := Recommendations(owned, rows);
      && |c| <= RecommendationLimit
      && (forall e :: e in c ==> e.0 !in owned)
      && (forall e :: e in c ==> exists x, y :: x in rows && y in rows && x.product == e.0
                                  && y.product in owned && x.customerId == y.customerId)
  {
    var sel := RowsWithProductIn(owned, rows);
    var c := Recommendations(owned, rows);
    TopCountsEntries(Products(RowsOfCustomers(RelatedCustomers(owned, rows), rows)), owned, RecommendationLimit);
    forall e | e in c
      ensures exists x, y :: x in rows && y in rows && x.product == e.0
                          && y.product in owned && x.customerId == y.customerId
    {
      TopOfCustomers(sel, owned, RecommendationLimit, rows, e);
      var x, y :| x in rows && y in sel && x.product == e.0 && x.customerId == y.customerId;
      assert y in rows && y.product in owned;
    }
  }

  /** The number of related customers is the number of distinct customers with
      a row for an owned product. */
  lemma RelatedCustomersCounted(owned: seq<string>, rows: seq<Row>)
    ensures var ids := RelatedCustomers(owned, rows);
      && NoDuplicates(ids)
      && (forall c :: c in ids <==> exists x :: x in rows && x.product in owned && x.customerId == c)
  {
    var related := RowsWithProductIn(owned, rows);
    var ids := RelatedCustomers(owned, rows);
    forall c | c in ids ensures exists x :: x in rows && x.product in owned && x.customerId == c {
      var j :| 0 <= j < |related| && CustomerIds(related)[j] == c;
      assert related[j] in related;
    }
    forall x | x in rows && x.product in owned ensures x.customerId in ids {
      var j :| 0 <= j < |related| && related[j] == x;
      assert CustomerIds(related)[j] == x.customerId;
    }
  }

  /** A customer with no products has no affinities, no recommendations and no
      related customers. `product_affinity_agent` accepts any profile, but a
      profile built from a table always has a product
      (`CustomerContext.BuiltProfileHasProducts`), so this case arises only for
      a profile made by hand. */
  lemma NoProductsNoAffinity(profile: Profile, rows: seq<Row>)
    requires profile.productsPurchased == []
    ensures Recommendations(profile.productsPurchased, rows) == []
    ensures RelatedCustomers(profile.productsPurchased, rows) == []
  {
    var owned := profile.productsPurchased;
    assert RowsWithProductIn(owned, rows) == [];
    assert RowsOfCustomers([], rows) == [];
    assert Take(Drop(ValueCounts([]), owned), RecommendationLimit) == [];
  }
}
