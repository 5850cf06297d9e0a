/** The opportunity-scoring stage (`opportunity_scoring_agent`): a fixed
    weighted rule set over the three earlier results. Scores are integer
    hundredths: weight 30 stands for 0.3, the cap 100 for 1.0. */
module OpportunityScoring {
  import opened Text
  import opened Counting
  import opened ValueCounting
  import opened Records
  import opened CustomerContext
  import opened PurchasePattern
  import opened ProductAffinity

  datatype Kind = CrossSell | Upsell

  datatype Opportunity = Opportunity(product: string, kind: Kind, score: nat, reason: string)

  /** A fired rule: its weight and its reason text. */
  type Rule = (nat, string)

  /** The score cap, 1.0. */
  const MaxScore: nat := 100
  /** An upsell needs a raw score above 0.3. */
  const UpsellThreshold: nat := 30
  /** "High revenue potential" needs an annual revenue above this. */
  const RevenueThreshold: real := 100000000.0
  /** Joins the reasons. */
  const ReasonSeparator: string := "; "
  const ExpansionSuffix: string := " (Expansion)"
  /** The stages that count as an active opportunity. */
  const ActiveStages: seq<string> := ["Prospecting", "Qualification"]

  const FrequentInIndustry: string := "Frequently purchased in industry"
  const CoPurchaseAffinity: string := "High co-purchase affinity"
  const HighPriority: string := "High priority customer"
  const HighRevenue: string := "High revenue potential"
  const FrequentPurchaser: string := "Frequent purchaser"
  const LowUsage: string := "Low product usage indicates expansion opportunity"
  const LowFrequency: string := "Low purchase frequency suggests upsell potential"
  const ActiveStage: string := "Active opportunity stage"

  function Fire(condition: bool, weight: nat, text: string): seq<Rule> {
    if condition then [(weight, text)] else []
  }

  /** The cross-sell rules that fire for `product`, in evaluation order. */
  function CrossSellRules(product: string, profile: Profile, pattern: Pattern, affinity: Affinity): seq<Rule> {
    Fire(product in pattern.frequentProducts, 30, FrequentInIndustry)
    + Fire(product in Keys(affinity.topRecommendations), 20, CoPurchaseAffinity)
    + Fire(profile.priorityRating == "High", 20, HighPriority)
    + Fire(profile.annualRevenue > RevenueThreshold, 15, HighRevenue)
    + Fire(profile.purchaseFrequency > 5, 15, FrequentPurchaser)
  }

  /** The upsell rules that fire for an owned product bought `frequency` times. */
  function UpsellRules(frequency: nat, profile: Profile): seq<Rule> {
    Fire(profile.productUsage < 80.0, 30, LowUsage)
    + Fire(frequency < 3, 20, LowFrequency)
    + Fire(profile.priorityRating == "High", 20, HighPriority)
    + Fire(profile.annualRevenue > RevenueThreshold, 15, HighRevenue)
    + Fire(profile.opportunityStage in ActiveStages, 15, ActiveStage)
  }

  /** The raw score: the sum of the fired weights. */
  function Weight(rules: seq<Rule>): nat {
    if rules == [] then 0 else rules[0].0 + Weight(rules[1..])
  }

  function Labels(rules: seq<Rule>): (ls: seq<string>)
    ensures |ls| == |rules|
    ensures forall i :: 0 <= i < |rules| ==> ls[i] == rules[i].1
  {
    seq(|rules|, i requires 0 <= i < |rules| => rules[i].1)
  }

  /** `min(score, 1.0)`. */
  function Clamp(score: nat): (c: nat)
    ensures c <= MaxScore
    ensures c <= score
    ensures c == score || c == MaxScore
  {
    if score < MaxScore then score else MaxScore
  }

  /** The opportunity a set of fired rules makes. */
  function Scored(product: string, kind: Kind, rules: seq<Rule>): Opportunity {
    Opportunity(product, kind, Clamp(Weight(rules)), Join(Labels(rules), ReasonSeparator))
  }

  function CrossSellOf(product: string, profile: Profile, pattern: Pattern, affinity: Affinity): Opportunity {
    Scored(product, CrossSell, CrossSellRules(product, profile, pattern, affinity))
  }

  /** `customer_product_frequency.get(product, 0)`. */
  function CurrentFrequency(product: string, pattern: Pattern): nat {
    if product in pattern.customerProductFrequency then pattern.customerProductFrequency[product] else 0
  }

  /** An owned product earns an upsell when it has been bought and its raw
      score is above the threshold. */
  predicate Qualifies(product: string, profile: Profile, pattern: Pattern) {
    var frequency := CurrentFrequency(product, pattern);
    frequency > 0 && Weight(UpsellRules(frequency, profile)) > UpsellThreshold
  }

  function UpsellOf(product: string, profile: Profile, pattern: Pattern): Opportunity {
    Scored(product + ExpansionSuffix, Upsell, UpsellRules(CurrentFrequency(product, pattern), profile))
  }

  /** One cross-sell per missing product, in order. */
  function CrossSells(missing: seq<string>, profile: Profile, pattern: Pattern, affinity: Affinity): (os: seq<Opportunity>)
    ensures |os| == |missing|
    ensures forall i :: 0 <= i < |missing| ==> os[i] == CrossSellOf(missing[i], profile, pattern, affinity)
  {
    seq(|missing|, i requires 0 <= i < |missing| => CrossSellOf(missing[i], profile, pattern, affinity))
  }

  /** The upsells of the qualifying owned products, in order. */
  function Upsells(owned: seq<string>, profile: Profile, pattern: Pattern): seq<Opportunity> {
    if owned == [] then []
    else
      var last := owned[|owned| - 1];
      Upsells(owned[..|owned| - 1], profile, pattern)
      + (if Qualifies(last, profile, pattern) then [UpsellOf(last, profile, pattern)] else [])
  }

  /** The list before sorting: every cross-sell, then every upsell. */
  function Candidates(profile: Profile, pattern: Pattern, affinity: Affinity): seq<Opportunity> {
    CrossSells(pattern.missingOpportunities, profile, pattern, affinity)
    + Upsells(profile.productsPurchased, profile, pattern)
  }

  function ScoreOf(o: Opportunity): int {
    o.score
  }

  /** The result: the candidates stably sorted by descending score. */
  function Ranked(profile: Profile, pattern: Pattern, affinity: Affinity): seq<Opportunity> {
    SortDesc(Candidates(profile, pattern, affinity), ScoreOf)
  }

  /** One rule of a loop body: when `condition` holds, add `weight` to the
      score and append `text` to the reasons. */
  method ApplyRule(condition: bool, weight: nat, text: string, score: nat, reason: seq<string>, ghost fired: seq<Rule>)
    returns (score': nat, reason': seq<string>)
    requires score == Weight(fired) && reason == Labels(fired)
    ensures score' == Weight(fired + Fire(condition, weight, text))
    ensures reason' == Labels(fired + Fire(condition, weight, text))
  {
    score', reason' := score, reason;
    if condition {
      score' := score + weight;
      reason' := reason + [text];
    }
    AddRule(fired, condition, weight, text);
  }

  /** The first loop's body: the cross-sell rules applied one after another. */
  method EvaluateCrossSell(product: string, profile: Profile, pattern: Pattern, affinity: Affinity)
    returns (score: nat, reason: seq<string>)
    ensures score == Weight(CrossSellRules(product, profile, pattern, affinity))
    ensures reason == Labels(CrossSellRules(product, profile, pattern, affinity))
  {
    var r1 := Fire(product in pattern.frequentProducts, 30, FrequentInIndustry);
    var r2 := Fire(product in Keys(affinity.topRecommendations), 20, CoPurchaseAffinity);
    var r3 := Fire(profile.priorityRating == "High", 20, HighPriority);
    var r4 := Fire(profile.annualRevenue > RevenueThreshold, 15, HighRevenue);
    assert [] + r1 == r1;
    score, reason := ApplyRule(product in pattern.frequentProducts, 30, FrequentInIndustry, 0, [], []);
    score, reason := ApplyRule(product in Keys(affinity.topRecommendations), 20, CoPurchaseAffinity, score, reason, r1);
    score, reason := ApplyRule(profile.priorityRating == "High", 20, HighPriority, score, reason, r1 + r2);
    score, reason := ApplyRule(profile.annualRevenue > RevenueThreshold, 15, HighRevenue, score, reason, r1 + r2 + r3);
    score, reason := ApplyRule(profile.purchaseFrequency > 5, 15, FrequentPurchaser, score, reason, r1 + r2 + r3 + r4);
  }

  /** The second loop's body: the upsell rules applied one after another. */
  method EvaluateUpsell(frequency: nat, profile: Profile) returns (score: nat, reason: seq<string>)
    ensures score == Weight(UpsellRules(frequency, profile))
    ensures reason == Labels(UpsellRules(frequency, profile))
  {
    var r1 := Fire(profile.productUsage < 80.0, 30, LowUsage);
    var r2 := Fire(frequency < 3, 20, LowFrequency);
    var r3 := Fire(profile.priorityRating == "High", 20, HighPriority);
    var r4 := Fire(profile.annualRevenue > RevenueThreshold, 15, HighRevenue);
    assert [] + r1 == r1;
    score, reason := ApplyRule(profile.productUsage < 80.0, 30, LowUsage, 0, [], []);
    score, reason := ApplyRule(frequency < 3, 20, LowFrequency, score, reason, r1);
    score, reason := ApplyRule(profile.priorityRating == "High", 20, HighPriority, score, reason, r1 + r2);
    score, reason := ApplyRule(profile.annualRevenue > RevenueThreshold, 15, HighRevenue, score, reason, r1 + r2 + r3);
    score, reason := ApplyRule(profile.opportunityStage in ActiveStages, 15, ActiveStage, score, reason, r1 + r2 + r3 + r4);
  }

  /** `opportunity_scoring_agent`: appends the cross-sells, then the
      qualifying upsells, then sorts by score. */
  method Score(profile: Profile, pattern: Pattern, affinity: Affinity) returns (opportunities: seq<Opportunity>)
    ensures opportunities == Ranked(profile, pattern, affinity)
  {
    var missing := pattern.missingOpportunities;
    var owned := profile.productsPurchased;
    opportunities := [];
    for i := 0 to |missing|
      invariant |opportunities| == i
      invariant forall k :: 0 <= k < i ==> opportunities[k] == CrossSellOf(missing[k], profile, pattern, affinity)
    {
      var product := missing[i];
      var score, reason := EvaluateCrossSell(product, profile, pattern, affinity);
      opportunities := opportunities + [Opportunity(product, CrossSell, Clamp(score), Join(reason, ReasonSeparator))];
    }
    var crossSells := opportunities;
    assert crossSells == CrossSells(missing, profile, pattern, affinity);
    for j := 0 to |owned|
      invariant opportunities == crossSells + Upsells(owned[..j], profile, pattern)
    {
      var product := owned[j];
      UpsellsStep(owned, j, profile, pattern);
      var currentFrequency := CurrentFrequency(product, pattern);
      if currentFrequency > 0 {
        var score, reason := EvaluateUpsell(currentFrequency, profile);
        if score > UpsellThreshold {
          opportunities := opportunities
            + [Opportunity(product + ExpansionSuffix, Upsell, Clamp(score), Join(reason, ReasonSeparator))];
        }
      }
    }
    assert owned[..|owned|] == owned;
    opportunities := SortDesc(opportunities, ScoreOf);
  }

  /** Extending the owned prefix by one product adds its upsell, if it qualifies. */
  lemma UpsellsStep(owned: seq<string>, j: nat, profile: Profile, pattern: Pattern)
    requires j < |owned|
    ensures Upsells(owned[..j + 1], profile, pattern)
         == Upsells(owned[..j], profile, pattern)
            + (if Qualifies(owned[j], profile, pattern) then [UpsellOf(owned[j], profile, pattern)] else [])
  {
    assert owned[..j + 1][..j] == owned[..j];
  }

  /** One more optional rule adds its weight and its label. */
  lemma AddRule(fired: seq<Rule>, condition: bool, weight: nat, text: string)
    ensures Weight(fired + Fire(condition, weight, text)) == Weight(fired) + (if condition then weight else 0)
    ensures Labels(fired + Fire(condition, weight, text)) == Labels(fired) + (if condition then [text] else [])
  {
    WeightAppend(fired, Fire(condition, weight, text));
  }

  lemma {:induction false} WeightAppend(a: seq<Rule>, b: seq<Rule>)
    ensures Weight(a + b) == Weight(a) + Weight(b)
  {
    if a != [] {
      assert (a + b)[0] == a[0] && (a + b)[1..] == a[1..] + b;
      WeightAppend(a[1..], b);
    } else {
      assert a + b == b;
    }
  }

  /** The five cross-sell weights add up to at most 1.0, so the cap never
      lowers a cross-sell score; a product frequent in the industry scores at
      least 0.3 and gives that as its first reason. */
  lemma CrossSellScore(product: string, profile: Profile, pattern: Pattern, affinity: Affinity)
    ensures var o := CrossSellOf(product, profile, pattern, affinity);
      var rules := CrossSellRules(product, profile, pattern, affinity);
      && o.product == product && o.kind == CrossSell
      && o.score == Weight(rules) <= MaxScore
      && (product in pattern.frequentProducts ==> o.score >= 30 && Labels(rules)[0] == FrequentInIndustry)
  {
    var r1 := Fire(product in pattern.frequentProducts, 30, FrequentInIndustry);
    var r2 := Fire(product in Keys(affinity.topRecommendations), 20, CoPurchaseAffinity);
    var r3 := Fire(profile.priorityRating == "High", 20, HighPriority);
    var r4 := Fire(profile.annualRevenue > RevenueThreshold, 15, HighRevenue);
    var r5 := Fire(profile.purchaseFrequency > 5, 15, FrequentPurchaser);
    assert [] + r1 == r1;
    AddRule([], product in pattern.frequentProducts, 30, FrequentInIndustry);
    AddRule(r1, product in Keys(affinity.topRecommendations), 20, CoPurchaseAffinity);
    AddRule(r1 + r2, profile.priorityRating == "High", 20, HighPriority);
    AddRule(r1 + r2 + r3, profile.annualRevenue > RevenueThreshold, 15, HighRevenue);
    AddRule(r1 + r2 + r3 + r4, profile.purchaseFrequency > 5, 15, FrequentPurchaser);
    if product in pattern.frequentProducts {
      assert (r1 + r2 + r3 + r4 + r5)[0] == r1[0];
    }
  }

  /** The five upsell weights add up to at most 1.0, so the cap never lowers
      an upsell score either; a qualifying product's upsell scores above 0.3 and
      is labelled with the product name and " (Expansion)". */
  lemma UpsellScore(product: string, profile: Profile, pattern: Pattern)
    ensures var o := UpsellOf(product, profile, pattern);
      var rules := UpsellRules(CurrentFrequency(product, pattern), profile);
      && o.product == product + ExpansionSuffix && o.kind == Upsell
      && o.score == Weight(rules) <= MaxScore
      && (Qualifies(product, profile, pattern) ==> o.score > UpsellThreshold)
  {
    var frequency := CurrentFrequency(product, pattern);
    var r1 := Fire(profile.productUsage < 80.0, 30, LowUsage);
    var r2 := Fire(frequency < 3, 20, LowFrequency);
    var r3 := Fire(profile.priorityRating == "High", 20, HighPriority);
    var r4 := Fire(profile.annualRevenue > RevenueThreshold, 15, HighRevenue);
    assert [] + r1 == r1;
    AddRule([], profile.productUsage < 80.0, 30, LowUsage);
    AddRule(r1, frequency < 3, 20, LowFrequency);
    AddRule(r1 + r2, profile.priorityRating == "High", 20, HighPriority);
    AddRule(r1 + r2 + r3, profile.annualRevenue > RevenueThreshold, 15, HighRevenue);
    AddRule(r1 + r2 + r3 + r4, profile.opportunityStage in ActiveStages, 15, ActiveStage);
  }

  /** The cross-sells of `missing` list each missing product's cross-sell as
      often as the product is listed. */
  lemma {:induction false} CrossSellsCount(missing: seq<string>, product: string,
                                           profile: Profile, pattern: Pattern, affinity: Affinity)
    ensures Count(CrossSells(missing, profile, pattern, affinity), CrossSellOf(product, profile, pattern, affinity))
         == Count(missing, product)
  {
    if missing != [] {
      var os := CrossSells(missing, profile, pattern, affinity);
      var rest := CrossSells(missing[1..], profile, pattern, affinity);
      assert os == [os[0]] + rest;
      assert os[0] == CrossSellOf(missing[0], profile, pattern, affinity);
      assert os[0].product == missing[0];
      CountAppend([os[0]], rest, CrossSellOf(product, profile, pattern, affinity));
      CrossSellsCount(missing[1..], product, profile, pattern, affinity);
    }
  }

  /** The upsells are exactly those of the qualifying owned products. */
  lemma {:induction false} UpsellsElements(owned: seq<string>, profile: Profile, pattern: Pattern)
    ensures forall o :: o in Upsells(owned, profile, pattern) <==>
      exists p :: p in owned && Qualifies(p, profile, pattern) && o == UpsellOf(p, profile, pattern)
  {
    if owned != [] {
      var init := owned[..|owned| - 1];
      var last := owned[|owned| - 1];
      UpsellsElements(init, profile, pattern);
      assert owned == init + [last];
      forall o ensures o in Upsells(owned, profile, pattern) <==>
        exists p :: p in owned && Qualifies(p, profile, pattern) && o == UpsellOf(p, profile, pattern)
      {
        if exists p :: p in owned && Qualifies(p, profile, pattern) && o == UpsellOf(p, profile, pattern) {
          var p :| p in owned && Qualifies(p, profile, pattern) && o == UpsellOf(p, profile, pattern);
          if p != last {
            assert p in init;
          }
        }
      }
    }
  }

  /** Every candidate is a cross-sell of a missing product or an upsell of a
      qualifying owned product. */
  lemma CandidatesElements(profile: Profile, pattern: Pattern, affinity: Affinity)
    ensures forall o :: o in Candidates(profile, pattern, affinity) ==>
      (o.kind == CrossSell && o.product in pattern.missingOpportunities
         && o == CrossSellOf(o.product, profile, pattern, affinity))
      || (o.kind == Upsell && (exists p :: p in profile.productsPurchased && Qualifies(p, profile, pattern)
                                && o == UpsellOf(p, profile, pattern)))
  {
    var cs := CrossSells(pattern.missingOpportunities, profile, pattern, affinity);
    UpsellsElements(profile.productsPurchased, profile, pattern);
    forall o | o in cs
      ensures o.kind == CrossSell && o.product in pattern.missingOpportunities
           && o == CrossSellOf(o.product, profile, pattern, affinity)
    {
      var k :| 0 <= k < |cs| && cs[k] == o;
      assert cs[k] == CrossSellOf(pattern.missingOpportunities[k], profile, pattern, affinity);
    }
  }

  /** The result is the candidates in non-increasing score order, as a
      permutation, and stably: the opportunities with equal scores keep the
      order in which they were appended. */
  lemma RankedOrder(profile: Profile, pattern: Pattern, affinity: Affinity, score: int)
    ensures SortedDesc(Ranked(profile, pattern, affinity), ScoreOf)
    ensures multiset(Ranked(profile, pattern, affinity)) == multiset(Candidates(profile, pattern, affinity))
    ensures WithKey(Ranked(profile, pattern, affinity), ScoreOf, score)
         == WithKey(Candidates(profile, pattern, affinity), ScoreOf, score)
  {
    SortDescSorted(Candidates(profile, pattern, affinity), ScoreOf);
    SortDescStable(Candidates(profile, pattern, affinity), ScoreOf, score);
  }

  /** One cross-sell per missing product: the result holds each missing
      product's cross-sell as often as the product is missing, and every
      cross-sell in it is that of a missing product. */
  lemma RankedCrossSells(profile: Profile, pattern: Pattern, affinity: Affinity, product: string)
    ensures Count(Ranked(profile, pattern, affinity), CrossSellOf(product, profile, pattern, affinity))
         == Count(pattern.missingOpportunities, product)
    ensures forall o :: o in Ranked(profile, pattern, affinity) && o.kind == CrossSell ==>
      o.product in pattern.missingOpportunities && o == CrossSellOf(o.product, profile, pattern, affinity)
  {
    var c := Candidates(profile, pattern, affinity);
    var x := CrossSellOf(product, profile, pattern, affinity);
    var ups := Upsells(profile.productsPurchased, profile, pattern);
    UpsellsElements(profile.productsPurchased, profile, pattern);
    CandidatesElements(profile, pattern, affinity);
    CountIsMultiplicity(Ranked(profile, pattern, affinity), x);
    CountIsMultiplicity(c, x);
    CountAppend(CrossSells(pattern.missingOpportunities, profile, pattern, affinity), ups, x);
    CrossSellsCount(pattern.missingOpportunities, product, profile, pattern, affinity);
    assert x !in ups;
    forall o | o in Ranked(profile, pattern, affinity) ensures o in c {
      assert o in multiset(Ranked(profile, pattern, affinity));
    }
  }

  /** For the pattern of the table, each missing product has exactly one
      cross-sell in the result, and every other product none. */
  lemma OneCrossSellPerMissing(profile: Profile, rows: seq<Row>, affinity: Affinity, product: string)
    ensures var pattern := PurchasePattern.Analyze(profile, rows);
      Count(Ranked(profile, pattern, affinity), CrossSellOf(product, profile, pattern, affinity))
        == if product in pattern.missingOpportunities then 1 else 0
  {
    var pattern := PurchasePattern.Analyze(profile, rows);
    RankedCrossSells(profile, pattern, affinity, product);
    NoDuplicatesCount(pattern.missingOpportunities, product);
  }

  /** An upsell is in the result exactly when it is that of an owned product
      that has been bought and scores above 0.3. */
  lemma RankedUpsells(profile: Profile, pattern: Pattern, affinity: Affinity)
    ensures forall o :: o in Ranked(profile, pattern, affinity) && o.kind == Upsell ==>
      exists p :: p in profile.productsPurchased && Qualifies(p, profile, pattern) && o == UpsellOf(p, profile, pattern)
    ensures forall p :: p in profile.productsPurchased && Qualifies(p, profile, pattern) ==>
      UpsellOf(p, profile, pattern) in Ranked(profile, pattern, affinity)
  {
    var r := Ranked(profile, pattern, affinity);
    var c := Candidates(profile, pattern, affinity);
    UpsellsElements(profile.productsPurchased, profile, pattern);
    CandidatesElements(profile, pattern, affinity);
    forall o ensures o in r <==> o in c {
      assert o in r <==> o in multiset(r);
    }
  }

  /** Every score in the result lies in 0..1.0, and every upsell's is above 0.3. */
  lemma RankedScores(profile: Profile, pattern: Pattern, affinity: Affinity)
    ensures forall o :: o in Ranked(profile, pattern, affinity) ==> o.score <= MaxScore
    ensures forall o :: o in Ranked(profile, pattern, affinity) && o.kind == Upsell ==> o.score > UpsellThreshold
  {
    var r := Ranked(profile, pattern, affinity);
    CandidatesElements(profile, pattern, affinity);
    forall o | o in r ensures o.score <= MaxScore && (o.kind == Upsell ==> o.score > UpsellThreshold) {
      assert o in multiset(r);
      if o.kind == CrossSell {
        CrossSellScore(o.product, profile, pattern, affinity);
      } else {
        var p :| p in profile.productsPurchased && Qualifies(p, profile, pattern) && o == UpsellOf(p, profile, pattern);
        UpsellScore(p, profile, pattern);
      }
    }
  }
}
