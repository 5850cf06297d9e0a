# Sales opportunity pipeline: a Dafny model

This project models the analysis core of a sales-report agent. It takes a flat
table of customer purchase transactions and, for one customer, produces a
ranked list of cross-sell and upsell opportunities. The pipeline has four
stages, run in order by `SimplePipeline.run`:

1. **Customer context** (`customer_context_agent`). Selects the customer's
   rows by normalised id (`strip().upper()`). Fails when no row matches.
   Otherwise builds a profile: identity and firmographic fields come from the
   first matching row, and there are aggregates for spend, purchase count and
   distinct products. Numeric fields are parsed with a zero fallback.
2. **Purchase pattern** (`purchase_pattern_agent`). Looks at peers (same
   industry, different normalised id) and takes their ten most-bought
   products. The missing opportunities are those the customer does not own.
   The customer's own per-product row counts are also recorded.
3. **Product affinity** (`product_affinity_agent`). For each owned product, it
   takes the five products most bought by that product's buyers, with owned
   products dropped. It also takes the ten products most bought by all
   customers related through any owned product.
4. **Opportunity scoring** (`opportunity_scoring_agent`). A fixed weighted
   rule set gives one cross-sell per missing product. It gives one upsell per
   owned product whose raw score is above 0.3. Everything is then stably
   sorted by descending score.

The table loader (`load_customer_data_csv`) is modelled from the point where
the file has been split into records:

- it skips empty records;
- it repairs a header that is shorter than the first data row with
  `Extra_Column_<i>` names;
- it builds the table;
- it strips the column names and the `Customer_ID` cells.

Modules, in dependency order:

- `Wrappers`: `Option` and `Result`.
- `Text`: Python's `strip`, `upper`, `join`, and id normalisation.
- `Numbers`: `int()` and `float()` with the zero fallback.
- `Counting`: counting, boolean-mask selection, `unique`, and a stable sort.
- `ValueCounting`: `value_counts`, `drop` and `head`.
- `Records`: the transaction row.
- `CustomerContext`, `PurchasePattern`, `ProductAffinity`,
  `OpportunityScoring`, `DataLoader`, `Pipeline`: one module per source
  function or file.

Modelling choices:

- Money, usage and revenue values are exact decimals (`real`). Employee counts
  are `int`.
- Scores are integer hundredths: weight 30 stands for 0.3 and the cap 100 for
  1.0.
- Pandas `value_counts` order is modelled as descending count, with ties in
  first-seen order.
- Spend is computed over the whole price column at once (`agents.py:21-26`).
  One unparseable price zeroes both the total and the mean; rows with bad
  prices are not skipped.

## Model

| member | source | states |
|---|---|---|
| Text.Strip | agents.py:12 | The result has no leading or trailing whitespace. It is the slice of the input that starts after the leading whitespace, and only whitespace follows it. |
| Text.StripIdempotent | agents.py:14 | Stripping an id the loader already stripped changes nothing. |
| Text.StripOfStripped | data_loader.py:41 | A string without surrounding whitespace is its own strip. |
| Text.UpperChar | agents.py:12 | Lower-case ASCII letters map to their upper-case letter. Every other character is unchanged. No lower-case letter remains, and whitespace stays whitespace. |
| Text.Upper | agents.py:12 | Same length as the input. Each character is upper-cased. |
| Text.UpperIdempotent | agents.py:12 | Upper-casing twice is upper-casing once. |
| Text.Normalize | agents.py:12 | A normalised id has no surrounding whitespace and is no longer than the input. |
| Text.NormalizeIdempotent | agents.py:77 | Normalising the profile's already normalised id again gives the same id. |
| Text.Join | agents.py:141 | Joining no reasons gives the empty string. Joining one reason gives that reason. |
| Text.JoinAppend | agents.py:141 | Joining one more reason appends the separator and that reason, so the reason text lists the fired reasons in evaluation order, separated by "; ". |
| Text.NatToString | data_loader.py:31 | The decimal rendering of `i` is non-empty, all digits, and has no leading zero. |
| Numbers.ParseInteger | agents.py:37-40 | `int(x)` succeeds only on optional whitespace and sign around at least one digit. |
| Numbers.ParseDecimal | agents.py:33 | Definition of `float(x)` on plain decimal notation; ParseDecimalExtendsParseInteger and ParseDecimalOfNatToString state what it accepts. |
| Numbers.OrZero | agents.py:32-50 | A parsed value is kept. A failed parse becomes 0. |
| Numbers.OrZeroInt | agents.py:37-40 | A parsed integer is kept. A failed parse becomes 0. |
| Numbers.DigitsValueOfNatToString | data_loader.py:31 | Reading the digits of `str(i)` gives back `i`. |
| Numbers.ParseIntegerOfNatToString | agents.py:38 | `int(str(n)) == n`. |
| Numbers.ParseDecimalExtendsParseInteger | agents.py:33 | `float` agrees with `int` on every string that `int` accepts. |
| Numbers.ParseDecimalOfNatToString | agents.py:33 | `float(str(n)) == n`. |
| Counting.Count | agents.py:82 | An occurrence count is at most the length, and is positive exactly for members. |
| Counting.CountAppend | agents.py:82 | Counts add up over concatenation. |
| Counting.CountIsMultiplicity | agents.py:170 | The occurrence count is the multiplicity in the multiset of elements. |
| Counting.Filter | agents.py:14 | Boolean-mask selection keeps exactly the rows that satisfy the mask, with their counts, in table order. It is no longer than the table. |
| Counting.FilterAppend | data_loader.py:21-23 | Selecting from a concatenation concatenates the selections. |
| Counting.FilterAll | agents.py:14 | A mask that every element satisfies selects the whole sequence. |
| Counting.FilterFirst | agents.py:14-18 | The first selected element is the first element that satisfies the mask. |
| Counting.FilterNoDuplicates | agents.py:84 | A selection from a list without duplicates has none either. |
| Counting.NoDuplicatesCount | agents.py:119 | In a list without duplicates each member occurs exactly once. |
| Counting.FirstIndex | data_loader.py:41 | The column lookup finds the first position holding the name. |
| Counting.FirstIndexOfPrefix | agents.py:29 | Within a prefix that holds a value, the value's first position is the same as in the whole sequence. |
| Counting.Distinct | agents.py:29 | `unique()` has no duplicates and the same elements as its input, and is no longer than it. |
| Counting.DistinctFirstSeen | agents.py:29 | `unique()` lists values in order of first appearance. |
| Counting.SortDesc | agents.py:170 | The sort keeps the length and is a permutation of its input. |
| Counting.SortDescElements | agents.py:170 | The sort keeps exactly the same elements. |
| Counting.SortDescSorted | agents.py:170 | The sort output is in non-increasing key order. |
| Counting.SortDescStable | agents.py:170 | The sort is stable: the elements with any one key keep their relative order. |
| Counting.FilterPairwise | agents.py:106 | A selection keeps every pairwise order relation of its input. |
| Counting.SortDescThenRank | agents.py:82 | Stably sorting a list that is increasing in some rank gives descending key, with ties in rank order. |
| ValueCounting.Rank | agents.py:82 | The tie-break rank of a present value is its first position. |
| ValueCounting.Keys | agents.py:83 | Definition of `.index` (a projection of the entries' values). |
| ValueCounting.Drop | agents.py:106 | `drop(owned, errors='ignore')` keeps exactly the entries whose value is not owned. |
| ValueCounting.Take | agents.py:107 | `head(n)` is the prefix of length `min(n, len)`. |
| ValueCounting.ValueCounts | agents.py:82 | Definition of `value_counts`: the distinct values with their counts, stably sorted by count. ValueCountsEntries, ValueCountsCovers and ValueCountsOrder state its properties. |
| ValueCounting.TopCounts | agents.py:105-107 | Definition of `value_counts().drop(owned).head(n)`; TopCountsEntries and TopCountsMaximal state its properties. |
| ValueCounting.ValueCountsEntries | agents.py:82 | `value_counts` has one entry per distinct value. Each entry is a value of the column with its true count. |
| ValueCounting.ValueCountsCovers | agents.py:82 | Every value of the column is listed. |
| ValueCounting.ValueCountsOrder | agents.py:82 | Entries are in descending count order, with ties in first-seen order. |
| ValueCounting.DropOrder | agents.py:106 | After `drop`, the entries keep the `value_counts` order. |
| ValueCounting.TopCountsEntries | agents.py:105-107 | `value_counts().drop(owned).head(n)` has at most `n` entries. None is owned, each has its true count, and they are in ranking order. |
| ValueCounting.TakeMissing | agents.py:107 | An entry left out by `head(n)` means that `n` entries were kept, all before it. |
| ValueCounting.TopCountsMaximal | agents.py:105-107 | An unowned value missing from the top-`n` list leaves the list full. Every listed value outranks it. |
| ValueCounting.RankedKeysDistinct | agents.py:83 | A list in strict ranking order has distinct values. |
| Records.Products | agents.py:82 | Definition of the `Product` column (a projection); its properties are stated by the lemmas that use it. |
| Records.CustomerIds | agents.py:93 | Definition of the `Customer_ID` column (a projection). |
| Records.ProductsAppend | agents.py:86 | The product column of concatenated rows is the concatenation. |
| CustomerContext.CustomerRecords | agents.py:12-14 | Selects exactly the rows whose normalised id equals the normalised query, in table order, each as many times as it occurs in the table. |
| CustomerContext.RepeatedRowKept | agents.py:14-28 | A matching row that occurs twice is selected twice, so it counts twice in the purchase frequency and the spend. |
| CustomerContext.FirstRecordIsFirstMatch | agents.py:18 | `iloc[0]` is the first matching row of the table. |
| CustomerContext.Prices | agents.py:22 | Definition of the `Total_Price(USD)` column (a projection). |
| CustomerContext.ParseAll | agents.py:21-24 | `astype(float)` succeeds exactly when every cell parses. It then gives every cell's value, in order. |
| CustomerContext.Sum | agents.py:22 | Definition of the column `.sum()` as a left-to-right sum of exact values. |
| CustomerContext.Mean | agents.py:23 | The mean times the count is the total. |
| CustomerContext.Spend | agents.py:21-26 | When every price parses, total spent is the sum of the prices and the average is their mean. Otherwise both are 0. |
| CustomerContext.BuildProfile | agents.py:10-72 | `None` exactly when no row's normalised id matches. Otherwise the id is normalised and the frequency is the number of matching rows. The products are the distinct products in first-seen order, and spend is as above. Every identity and firmographic field (name, industry, priority, account type, location, current products, last activity, stage, competitors) is the first matching row's. Revenue, employees, usage and opportunity amount are parsed from that row with a zero fallback. |
| CustomerContext.BuiltProfileHasProducts | agents.py:14-29 | A profile is built only when a row matches, so its product list is never empty. |
| CustomerContext.SpendWithBadPrice | agents.py:21-26 | A price "n/a" zeroes both total and mean, whatever the other prices are. |
| CustomerContext.ScenarioPrices | agents.py:22 | The price cells "100" and "200" parse as 100 and 200. |
| CustomerContext.AllRowsOfOneCustomer | agents.py:14 | A table whose every row matches the query is selected whole, in order. |
| CustomerContext.TwoRowsOfOneCustomer | agents.py:14 | Two rows whose ids normalise to the query are both selected, in order. |
| CustomerContext.TwoCellsParsed | agents.py:22 | `astype(float)` on two cells that parse gives both values, in order. |
| CustomerContext.ScenarioSpend | agents.py:22-23 | Prices of 100 and 200 give a total of 300 and a mean of 150. |
| PurchasePattern.PeerRows | agents.py:78-81 | Peers are exactly the rows of the same industry with a different normalised id, in table order, each as many times as it occurs in the table. |
| PurchasePattern.FrequentProducts | agents.py:82-83 | Definition of `value_counts().head(10).index` over the peers' products; FrequentProductsRanked and FrequentProductsMaximal state its properties. |
| PurchasePattern.MissingProducts | agents.py:84 | Exactly the frequent products that are not owned, in their order. No longer than the frequent list, and without duplicates when the frequent list has none. |
| PurchasePattern.ProductFrequency | agents.py:85-88 | The frequency map's keys are exactly the owned products. |
| PurchasePattern.Analyze | agents.py:75-94 | At most ten frequent products, each listed once. The missing products are an order-preserving selection of them: exactly those not owned, each listed once. The frequency keys are the owned products. |
| PurchasePattern.FrequentProductsRanked | agents.py:82-83 | The frequent products are at most ten distinct peer products, most bought first, with ties in first-seen order. |
| PurchasePattern.FrequentProductsMaximal | agents.py:82-83 | A peer product not listed means the list is full of products that outrank it. |
| PurchasePattern.OwnPurchaseCount | agents.py:86 | The mask count for a product is the number of the customer's own rows with that product. |
| PurchasePattern.ProductFrequencyOwnRows | agents.py:85-88 | Every frequency counts only the customer's own rows. |
| PurchasePattern.SameCustomerRows | agents.py:14 | A product in rows selected by one id is in rows selected by any id that normalises alike. |
| PurchasePattern.ProductFrequencyPositive | agents.py:85-88 | For a profile built from the same table, every owned product has a positive frequency. |
| PurchasePattern.PeersAndIndustryCount | agents.py:78-81 | Peers share the industry and not the normalised id. The industry customer count is at most the peer row count, and 0 exactly when there are no peers. |
| ProductAffinity.RowsWithProduct | agents.py:104 | Exactly the rows of product `p`. |
| ProductAffinity.RowsWithProductIn | agents.py:100 | Exactly the rows of an owned product (`isin`). |
| ProductAffinity.RowsOfCustomers | agents.py:105 | Exactly the rows of the given customers (`isin`), in table order, each as many times as it occurs in the table. |
| ProductAffinity.BuyersOf | agents.py:104 | Definition of the distinct buyers of a product, in first-seen order. |
| ProductAffinity.RelatedCustomers | agents.py:100-101 | Definition of the distinct customers with a row for an owned product; RelatedCustomersCounted states its properties. |
| ProductAffinity.CoPurchased | agents.py:104-107 | Definition of `product_affinities[p]`; CoPurchasedEntries and CoPurchasedByBuyers state its properties. |
| ProductAffinity.Recommendations | agents.py:108-109 | Definition of `top_recommendations`; RecommendationsEntries states its properties. |
| ProductAffinity.Analyze | agents.py:97-114 | The loop builds a map keyed by exactly the owned products. Each value is that product's top-five co-purchase list, and the recommendations are the top-ten list of the related customers. The related count is the number of distinct related customers. |
| ProductAffinity.CoPurchasedEntries | agents.py:104-107 | Each affinity list has at most five entries, none owned, each with its true count, most bought first. |
| ProductAffinity.BoughtBySelected | agents.py:105 | A product in the rows of the selected customers was bought under a selected id. |
| ProductAffinity.TopOfCustomers | agents.py:105-109 | A top-list entry over the selected customers is unowned and was bought by one of them. |
| ProductAffinity.CoPurchasedByBuyers | agents.py:104-107 | Every product in `p`'s affinity list was bought by a customer who also bought `p`. |
| ProductAffinity.CoPurchasedTop | agents.py:104-107 | The affinity list holds the top entries: a product the buyers bought that is neither owned nor listed means the list has five entries, each ranking before it. |
| ProductAffinity.RecommendationsTop | agents.py:108-109 | The recommendations are the top entries: a product the related customers bought that is neither owned nor recommended means there are ten, each ranking before it. |
| ProductAffinity.RecommendationsEntries | agents.py:108-109 | At most ten recommendations, none owned. Each was bought by a customer who bought an owned product. |
| ProductAffinity.RelatedCustomersCounted | agents.py:100-101 | The related customers are distinct: exactly the ids with a row for an owned product. |
| ProductAffinity.NoProductsNoAffinity | agents.py:98-113 | A hand-made profile with no products has no recommendations and no related customers. A profile built from a table never has an empty product list (CustomerContext.BuiltProfileHasProducts). |
| OpportunityScoring.CrossSellRules | agents.py:122-136 | Definition of the cross-sell rules that fire, in evaluation order, with weights 30/20/20/15/15 (hundredths). |
| OpportunityScoring.UpsellRules | agents.py:148-162 | Definition of the upsell rules that fire, in evaluation order, with weights 30/20/20/15/15 (hundredths). |
| OpportunityScoring.Weight | agents.py:120-136 | Definition of the raw score as the sum of the fired weights; WeightAppend and AddRule state how it grows. |
| OpportunityScoring.Scored | agents.py:137-142 | Definition of an opportunity from fired rules: the capped weight and the joined reasons. |
| OpportunityScoring.CrossSellOf | agents.py:137-142 | Definition of a product's cross-sell; CrossSellScore states its score and first reason. |
| OpportunityScoring.CurrentFrequency | agents.py:144 | Definition of `customer_product_frequency.get(product, 0)`. |
| OpportunityScoring.Qualifies | agents.py:144-163 | Definition of the upsell condition: a positive frequency and a raw score above 0.3. |
| OpportunityScoring.UpsellOf | agents.py:164-169 | Definition of a product's upsell; UpsellScore states its label and score. |
| OpportunityScoring.Upsells | agents.py:143-169 | Definition of the upsells appended by the second loop; UpsellsElements states exactly which they are. |
| OpportunityScoring.Candidates | agents.py:119-169 | Definition of the list before sorting: the cross-sells, then the upsells. |
| OpportunityScoring.Ranked | agents.py:170 | Definition of the result: the candidates stably sorted by descending score; RankedOrder states order, permutation and stability. |
| OpportunityScoring.Labels | agents.py:121-136 | Definition of the reason list (a projection of the fired rules' texts); EvaluateCrossSell and EvaluateUpsell tie it to the loop bodies. |
| OpportunityScoring.Clamp | agents.py:140 | `min(score, 1.0)`: at most 1.0 and at most the score, and equal to one of them. |
| OpportunityScoring.CrossSells | agents.py:119-142 | One cross-sell per missing product, in order. |
| OpportunityScoring.ApplyRule | agents.py:122-124 | One `if` of a loop body: the score and the reasons become those of the fired rules plus this one, if it fires. |
| OpportunityScoring.EvaluateCrossSell | agents.py:120-136 | The first loop's body gives the summed weight and the labels of the fired cross-sell rules. |
| OpportunityScoring.EvaluateUpsell | agents.py:146-162 | The second loop's body gives the summed weight and the labels of the fired upsell rules. |
| OpportunityScoring.Score | agents.py:117-171 | The result is the cross-sells, then the qualifying upsells, stably sorted by descending score. |
| OpportunityScoring.UpsellsStep | agents.py:143-169 | Each step of the second loop appends the product's upsell exactly when it qualifies. |
| OpportunityScoring.WeightAppend | agents.py:120-136 | Weights add up over concatenated rule lists. |
| OpportunityScoring.AddRule | agents.py:122-136 | An optional rule adds its weight and its label exactly when it fires. |
| OpportunityScoring.CrossSellScore | agents.py:119-142 | The cross-sell weights total at most 1.0, so the cap never lowers a cross-sell. A frequent product scores at least 0.3 with "Frequently purchased in industry" as its first reason. |
| OpportunityScoring.UpsellScore | agents.py:143-169 | An upsell is labelled with the product and " (Expansion)". Its score is its raw weight, at most 1.0, and above 0.3 when it qualifies. |
| OpportunityScoring.CrossSellsCount | agents.py:119-142 | Each product's cross-sell appears as often as the product is missing. |
| OpportunityScoring.UpsellsElements | agents.py:143-169 | The upsells are exactly those of the owned products that were bought and score above 0.3. |
| OpportunityScoring.CandidatesElements | agents.py:119-169 | Every candidate is the cross-sell of a missing product or the upsell of a qualifying owned product. |
| OpportunityScoring.RankedOrder | agents.py:170 | The result is in non-increasing score order, is a permutation of the candidates, and is stable. |
| OpportunityScoring.RankedCrossSells | agents.py:119-142 | The result holds each missing product's cross-sell as often as the product is missing, and no other cross-sell. |
| OpportunityScoring.OneCrossSellPerMissing | agents.py:119-142 | For the pattern computed from the table, each missing product has exactly one cross-sell in the result, and any other product none. |
| OpportunityScoring.RankedUpsells | agents.py:143-170 | An upsell is in the result exactly when it belongs to a qualifying owned product. |
| OpportunityScoring.RankedScores | agents.py:140 | Every score in the result is at most 1.0. Every upsell scores above 0.3. |
| DataLoader.NonEmptyRows | data_loader.py:21-23 | Exactly the non-empty records, with their counts, in file order. |
| DataLoader.ExtraColumns | data_loader.py:30-31 | Definition of the generic names for a range of indices; HeaderExtended and ExtraColumnNamesDistinct state what they give. |
| DataLoader.ExtendedHeader | data_loader.py:26-32 | Definition of the repaired header; HeaderUnchanged and HeaderExtended state both cases. |
| DataLoader.MaxWidth | data_loader.py:35 | The width of the widest row: no row is wider, and some row has that width. |
| DataLoader.StripAll | data_loader.py:38 | Definition of `df.columns.str.strip()` (a map of Strip); LoadedTable states what it gives. |
| DataLoader.StripCell | data_loader.py:41 | Only the `Customer_ID` cell changes, to its strip. |
| DataLoader.StripColumn | data_loader.py:41 | Definition of the id-cell strip over all rows (a map of StripCell); LoadedTable states what it gives. |
| DataLoader.LoadTable | data_loader.py:13-49 | No header exactly when there are no records. Shape mismatch exactly when the widest row differs from the repaired header. Any failure exactly when that happens or the stripped names do not hold exactly one `Customer_ID`. |
| DataLoader.CollectRows | data_loader.py:15-23 | The reading loop keeps the non-empty records. |
| DataLoader.ExtendHeader | data_loader.py:26-32 | The header repair loop gives the repaired header. |
| DataLoader.Load | data_loader.py:9-49 | `load_customer_data_csv` gives the loaded table or the error. |
| DataLoader.HeaderUnchanged | data_loader.py:26 | Without rows, or with a first row no longer than the header, the header is unchanged. |
| DataLoader.HeaderExtended | data_loader.py:26-32 | A longer first row makes the header as long as it. The old header is a prefix, and each added column `i` is named `Extra_Column_i`. |
| DataLoader.ExtraColumnNamesDistinct | data_loader.py:30-31 | Different indices give different generic names. |
| DataLoader.LoadedTable | data_loader.py:35-41 | A loaded table has exactly one `Customer_ID` column and stripped column names. Its rows are the non-empty records in order, each with only its id cell stripped. |
| Pipeline.Run | simple_pipeline.py:18-35 | Not found exactly when no normalised id matches, with the query in the error. Otherwise the profile is the one built for the query; the pattern, the affinity map, the recommendations, the related-customer count and the ranked opportunities are each the stage's result on the earlier ones. |
| Pipeline.SameRecords | agents.py:12-14 | Queries that normalise alike select the same rows. |
| Pipeline.SameProfile | agents.py:12-14 | Queries that normalise alike build the same profile. |
| Pipeline.LowerAndPaddedQuery | agents.py:12-14 | "c001" and " C001 " build the same profile. |
| Pipeline.TwoPurchaseScenario | agents.py:10-72 | Customer "c001" with rows for "A" at "100" and "B" at "200", queried as "C001 ": id "C001", total 300, mean 150, two purchases, products ["A", "B"]. |
| Pipeline.SuffixCancel | agents.py:165 | Two upsell labels with the same suffix are equal only for equal products. |
| Pipeline.RecommendedOpportunities | simple_pipeline.py:22-35 | For an existing customer, every cross-sell is an unowned product that is frequent among peers and scores 0.3 to 1.0. An owned product's upsell is in the result exactly when its raw upsell score is above 0.3. |

## Left out

- `recommendation_report_agent` is left out: it calls an external language model, so the pipeline result does not include the report.
- The web dashboard, the HTTP API, the graph-based pipeline and the debugging scripts are not part of this model.
- Opening the file and csv tokenising (quotes, escapes, encodings) are not modelled. `Load` starts from the list of records.
- The progress and error `print`s of the loader are not modelled. The loader's re-raise is modelled as an `Err` result.
- Short rows are not modelled as pandas models them. Pandas pads a row shorter than the widest one with missing values. The model keeps the row short, so a missing cell is absent.
- The mapping from the loaded table's named columns to the `Row` record is not modelled. The agents take their rows as `Row` values, with every cell a string.
- Floating point is not modelled. Scores are exact hundredths and money is exact decimals. In IEEE double arithmetic, adding from 0.0 in rule order, two rule subsets reach score 70 with different floats: 0.3+0.2+0.2 gives 0.7 and 0.2+0.2+0.15+0.15 gives 0.7000000000000001. The first has the revenue rule off and the second has it on. That rule tests one profile value (`agents.py:131`, `agents.py:157`), so it has the same outcome for every candidate of one call, and the two sums never meet in one list. For every combination of rule outcomes a single call can produce, the float scores order and tie exactly as the hundredths do, so the model's sort order (`agents.py:170`) and its `> 0.3` verdict (`agents.py:163`) agree with the source's.
- Numbers.ParseDecimal: accepts only plain decimal notation (sign, digits, one point). Exponents, `inf`, `nan`, underscores and non-ASCII digits are treated as parse failures.
- Numbers.ParseInteger: underscores and non-ASCII digits are treated as parse failures.
- Text.Upper: upper-cases ASCII letters only, not the full Unicode case mapping of Python's `upper()`.
- Text.UpperChar: maps one character to one character and changes only `a`-`z`. Python maps other lower-case letters too, and some to several characters ("ß" becomes "SS").
- Text.Normalize: "no longer than the input" holds for the ASCII model only. In Python a normalised id can be longer than the original, and non-ASCII letters are upper-cased too.
- ValueCounting.ValueCounts: tie entries are in first-seen order. The model does not claim this equals pandas' order for ties.
- ProductAffinity.Analyze: `product_affinities` is a map, so the insertion order of the Python dict is not modelled. Each per-product list keeps its order.
- OpportunityScoring.Score: the in-place `list.sort` is modelled as a stable sort function applied to the list the loops built.
