/** The analysis pipeline (`SimplePipeline.run`): the four stages in order,
    failing when the customer is not found. The report stage is not part of
    this model. */
module Pipeline {
  import opened Wrappers
  import opened Text
  import opened Counting
  import opened Records
  import opened CustomerContext
  import opened PurchasePattern
  import opened ProductAffinity
  import opened OpportunityScoring

  datatype Analysis = Analysis(
    customerId: string,              // the query as given
    profile: Profile,
    pattern: Pattern,
    affinity: Affinity,
    opportunities: seq<Opportunity>
  )

  datatype PipelineError = CustomerNotFound(customerId: string)

  /** `SimplePipeline.run`: not found exactly when no row's normalised id is
      the normalised query; otherwise each stage's result, computed from the
      previous ones. */
  method Run(query: string, rows: seq<Row>) returns (r: Result<Analysis, PipelineError>)
    ensures r.Err? <==> forall i :: 0 <= i < |rows| ==> Normalize(rows[i].customerId) != Normalize(query)
    ensures r.Err? ==> r.error == CustomerNotFound(query)
    ensures r.Ok? ==>
      && r.value.customerId == query
      && BuildProfile(query, rows) == Some(r.value.profile)
      && r.value.pattern == PurchasePattern.Analyze(r.value.profile, rows)
      && r.value.affinity.productAffinities.Keys == set p | p in r.value.profile.productsPurchased
      && (forall p :: p in r.value.affinity.productAffinities ==>
            r.value.affinity.productAffinities[p] == CoPurchased(p, r.value.profile.productsPurchased, rows))
      && r.value.affinity.topRecommendations == Recommendations(r.value.profile.productsPurchased, rows)
      && r.value.affinity.relatedCustomerCount == |RelatedCustomers(r.value.profile.productsPurchased, rows)|
      && r.value.opportunities == Ranked(r.value.profile, r.value.pattern, r.value.affinity)
  {
    var found := BuildProfile(query, rows);
    if found.None? {
      return Err(CustomerNotFound(query));
    }
    var profile := found.value;
    var pattern := PurchasePattern.Analyze(profile, rows);
    var affinity := ProductAffinity.Analyze(profile, rows);
    var opportunities := Score(profile, pattern, affinity);
    r := Ok(Analysis(query, profile, pattern, affinity, opportunities));
  }

  /** Queries that normalise alike select the same rows. */
  lemma {:induction false} SameRecords(q1: string, q2: string, rows: seq<Row>)
    requires Normalize(q1) == Normalize(q2)
    ensures CustomerRecords(q1, rows) == CustomerRecords(q2, rows)
  {
    if rows != [] {
      SameRecords(q1, q2, rows[1..]);
    }
  }

  /** Queries that normalise alike build the same profile. */
  lemma SameProfile(q1: string, q2: string, rows: seq<Row>)
    requires Normalize(q1) == Normalize(q2)
    ensures BuildProfile(q1, rows) == BuildProfile(q2, rows)
  {
    SameRecords(q1, q2, rows);
  }

  /** "c001" normalises to "C001". */
  lemma LowerSpelling()
    ensures Normalize("c001") == "C001"
  {
    assert LeadingSpaces("c001") == 0 && TrailingSpaces("c001") == 0;
    assert Strip("c001") == "c001";
    assert Upper("c001") == "C001";
  }

  /** " C001 " normalises to "C001". */
  lemma PaddedSpelling()
    ensures Normalize(" C001 ") == "C001"
  {
    assert LeadingSpaces(" C001 ") == 1 && TrailingSpaces(" C001 ") == 1;
    assert Strip(" C001 ") == "C001";
    assert Upper("C001") == "C001";
  }

  /** "C001 " normalises to "C001". */
  lemma TrailingSpelling()
    ensures Normalize("C001 ") == "C001"
  {
    assert LeadingSpaces("C001 ") == 0 && TrailingSpaces("C001 ") == 1;
    assert Strip("C001 ") == "C001";
    assert Upper("C001") == "C001";
  }

  /** "c001" and " C001 " are the same customer. */
  lemma LowerAndPaddedQuery(rows: seq<Row>)
    ensures BuildProfile("c001", rows) == BuildProfile(" C001 ", rows)
  {
    LowerSpelling();
    PaddedSpelling();
    SameProfile("c001", " C001 ", rows);
  }

  /** Two different products are the distinct products, in order. */
  lemma TwoProducts(a: Row, b: Row)
    requires a.product != b.product
    ensures Distinct(Products([a, b])) == [a.product, b.product]
  {
    var ps := Products([a, b]);
    assert ps == [a.product, b.product];
    assert ps[..1] == [a.product] && ps[..1][..0] == [];
  }

  /** Customer "c001" bought "A" for "100" and "B" for "200". Queried as
      "C001 ", the profile has a total of 300, a mean of 150, two purchases
      and the products "A" and "B", in that order. */
  lemma TwoPurchaseScenario(a: Row, b: Row)
    requires a.customerId == "c001" && b.customerId == "c001"
    requires a.product == "A" && b.product == "B"
    requires a.totalPrice == "100" && b.totalPrice == "200"
    ensures BuildProfile("C001 ", [a, b]).Some?
    ensures var p := BuildProfile("C001 ", [a, b]).value;
      && p.customerId == "C001"
      && p.totalSpent == 300.0 && p.avgOrderValue == 150.0
      && p.purchaseFrequency == 2 && p.productsPurchased == ["A", "B"]
  {
    LowerSpelling();
    TrailingSpelling();
    ScenarioPrices();
    TwoRowsOfOneCustomer("C001 ", a, b);
    ScenarioParsed(a, b);
    ScenarioSpend(a, b);
    TwoProducts(a, b);
  }

  /** Appending the same suffix to two strings keeps them apart. */
  lemma SuffixCancel(a: string, b: string, suffix: string)
    requires a + suffix == b + suffix
    ensures a == b
  {
    assert a == (a + suffix)[..|a|];
    assert b == (b + suffix)[..|b|];
  }

  /** End to end, for a customer that exists: every cross-sell is a product
      frequent among the customer's industry peers that the customer does not
      own, scoring between 0.3 and 1.0; and an owned product's upsell is in the
      result exactly when its raw upsell score is above 0.3. */
  lemma RecommendedOpportunities(query: string, rows: seq<Row>, affinity: Affinity)
    requires BuildProfile(query, rows).Some?
    ensures var profile := BuildProfile(query, rows).value;
      var pattern := PurchasePattern.Analyze(profile, rows);
      var ops := Ranked(profile, pattern, affinity);
      && (forall o :: o in ops && o.kind == CrossSell ==>
            && o.product !in profile.productsPurchased
            && o.product in pattern.frequentProducts
            && 30 <= o.score <= MaxScore)
      && (forall p :: p in profile.productsPurchased ==>
            (UpsellOf(p, profile, pattern) in ops <==>
               Weight(UpsellRules(pattern.customerProductFrequency[p], profile)) > UpsellThreshold))
  {
    var profile := BuildProfile(query, rows).value;
    var pattern := PurchasePattern.Analyze(profile, rows);
    var ops := Ranked(profile, pattern, affinity);
    ProductFrequencyPositive(query, rows);
    RankedUpsells(profile, pattern, affinity);
    forall o | o in ops && o.kind == CrossSell
      ensures o.product !in profile.productsPurchased && o.product in pattern.frequentProducts
           && 30 <= o.score <= MaxScore
    {
      RankedCrossSells(profile, pattern, affinity, o.product);
      CrossSellScore(o.product, profile, pattern, affinity);
    }
    forall p | p in profile.productsPurchased && UpsellOf(p, profile, pattern) in ops
      ensures Weight(UpsellRules(pattern.customerProductFrequency[p], profile)) > UpsellThreshold
    {
      var o := UpsellOf(p, profile, pattern);
      UpsellScore(p, profile, pattern);
      var p' :| p' in profile.productsPurchased && Qualifies(p', profile, pattern) && o == UpsellOf(p', profile, pattern);
      UpsellScore(p', profile, pattern);
      SuffixCancel(p, p', ExpansionSuffix);
    }
  }
}
