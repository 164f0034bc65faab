# Canadian sales-tax calculator, modelled in Dafny

This project models the calculation core of a Canadian sales-tax calculator (tax-smart-canadian-calculator). It covers:

- the rate table of the 13 provinces and territories, and their four tax structures: GST only, GST plus PST, GST plus QST, and HST;
- the 19 purchase categories;
- the per-line engine: the federal and provincial flags of a category, the province overrides (with the Manitoba $150 and Ontario $4 thresholds), and the federal, provincial and harmonized components of a line;
- the totals of several lines, and category validation;
- two older single-rate calculators (`taxMath.ts` and `tax.ts`) and the percentage table with its hook (`useTaxCalculations`);
- the tax presets;
- the Free and Pro plan entitlements;
- the editable line-item list;
- two share-link codecs: `state=<percent-encoded base64 JSON>`, and URL-safe base64 without padding.

Modelling choices:

- **Money and rates.** Money is `real`. Rounding to the cent, `Math.round(x * 100) / 100`, is the floor of `100x + 1/2`, divided by 100 (module `Rounding`).
- **Identifiers.** Provinces and categories are datatypes. Their two-letter codes and labels are the strings the source compares.
- **Libraries.** The JSON, base64 and percent-encoding libraries are function-valued fields of a `Codecs` record. None stands for a thrown exception. A `Lawful` predicate states the laws the base64 and percent-encoding libraries obey. `ParsesBack` states that JSON parsing gives back the one value that was printed. The round-trip lemmas take both as preconditions, and `ShareState.LawfulCodecsExist` shows that both can hold together for every state.
- **Random ids.** The UUID generator of the line-item list is the `freshId` argument.

Modules, one per source file:

| Module | Source file |
|---|---|
| `TaxData` | `src/lib/taxData.ts` |
| `TaxCalculator` | `src/lib/taxCalculator.ts` |
| `TaxMath` | `src/lib/taxMath.ts` |
| `TaxRatesTable` | `src/lib/tax.ts` |
| `PercentRates` | `src/components/TaxSmartCalculator/data/rates.ts` |
| `TaxCalculations` | `src/components/TaxSmartCalculator/hooks/useTaxCalculations.ts` |
| `TaxPresets` | `src/lib/taxPresets.ts` |
| `Entitlements` | `src/lib/entitlements.ts` |
| `LineItems` | `src/components/TaxSmartCalculator/hooks/useLineItems.ts` |
| `ShareState` | `src/lib/share.ts` |
| `UrlShare` | `src/utils/share.ts` |

Three more modules hold shared definitions:

- `Rounding`: rounding to the cent.
- `Text`: `startsWith`, `trim` emptiness, `split` on one character, decimal rendering.
- `Wrappers`: `Option`.

## Model

| member | source | states |
|---|---|---|
| TaxData.Code | src/lib/taxData.ts:1-4 | every province code has two characters |
| TaxData.Provinces | src/lib/taxData.ts:4 | the province list; `TaxData.ProvincesComplete` states that it holds each province once |
| TaxData.CodeInjective | src/lib/taxData.ts:1-4 | two provinces with the same code are the same province |
| TaxData.TaxRates | src/lib/taxData.ts:16-30 | the rate table; `TaxData.TaxRatesWellFormed` states its invariants |
| TaxData.TaxRatesWellFormed | src/lib/taxData.ts:16-30 | GST is 0.05 everywhere; each entry fills exactly the optional rate its kind names; an HST rate exceeds GST; PST and QST rates are positive |
| TaxData.GstOnlyProvinces | src/lib/taxData.ts:16-30 | the GST-only structure is exactly AB, NT, NU and YT |
| TaxData.LookupName | src/lib/taxData.ts:42-48 | a found category is in the list and has the searched label; not found means no category in the list has that label |
| TaxData.Name | src/lib/taxData.ts:32-48 | the label of each category; `TaxData.NameInjective` states that labels are distinct |
| TaxData.CategoryOptions | src/lib/taxData.ts:42-48 | the offered category list; `TaxData.CategoryOptionsComplete` states that it holds each category once |
| TaxData.NameInjective | src/lib/taxData.ts:32-48 | two categories with the same label are the same category |
| TaxData.ProvincesComplete | src/lib/taxData.ts:4-50 | `PROVINCES` has 13 entries with distinct codes, every province among them, and holds the default province |
| TaxData.CategoryOptionsComplete | src/lib/taxData.ts:42-48 | `CATEGORY_OPTIONS` has 19 entries with distinct labels and lists every category |
| TaxData.CombinedRate | src/lib/taxData.ts:16-30 | the full rate of a province is GST plus its provincial rate, or the HST rate itself; it is positive |
| TaxData.ProvincialLabel | src/lib/taxData.ts:52-63 | HST, QST, PST for their structures; "Provincial" for GST only |
| TaxData.ProvincialRate | src/lib/taxData.ts:65-71 | the HST, PST or QST field of the entry as its kind says; zero exactly for the four GST-only territories and provinces |
| TaxCalculator.BaseFlags | src/lib/taxCalculator.ts:5-23 | federal applies unless the category is untaxed or provincial-only; provincial applies unless it is untaxed or GST-only |
| TaxCalculator.ApplyProvinceOverrides | src/lib/taxCalculator.ts:25-78 | the overrides never change the federal flag |
| TaxCalculator.OverridesFollowTable | src/lib/taxCalculator.ts:33-75 | a (category, province) pair with no rule keeps the flags; a pair with a rule sets the provincial flag as that rule says |
| TaxCalculator.ThresholdOverrides | src/lib/taxCalculator.ts:34-54 | children's clothing in MB is PST-taxed exactly above $150; an ON restaurant meal of at most $4 is HST-relieved, above $4 flags are kept |
| TaxCalculator.ClampAmount | src/lib/taxCalculator.ts:104 | the amount used is never negative: a negative amount becomes zero, others are kept |
| TaxCalculator.LineFlags | src/lib/taxCalculator.ts:104-106 | the federal flag is the category's base flag; the provincial flag is set by `TaxCalculator.OverridesFollowTable` |
| TaxCalculator.TaxComponents | src/lib/taxCalculator.ts:107-125 | components are non-negative. In an HST province: both flags give the whole HST, federal only gives GST, provincial only gives HST minus GST, neither gives nothing. Elsewhere: GST when federal applies and the provincial rate when provincial applies, never HST. GST-only provinces have no provincial part |
| TaxCalculator.CalculateLine | src/lib/taxCalculator.ts:100-136 | the amount is the clamped input; each of the three components is the dispatch's component for that amount and the line's flags, so none is negative; total tax is their sum; grand total is amount plus tax |
| TaxCalculator.ComponentsSumToEffectiveRate | src/lib/taxCalculator.ts:113-127 | the components sum to the amount times the rate the flags select (HST, GST, HST minus GST, GST plus PST/QST, or nothing) |
| TaxCalculator.LineTaxIsEffectiveRate | src/lib/taxCalculator.ts:100-136 | a line's tax is its clamped amount times the effective rate of its category's flags after overrides |
| TaxCalculator.NegativeAmountIsZero | src/test/taxCalculator.test.ts:91-98 | an amount of zero or less yields the all-zero breakdown |
| TaxCalculator.EffectiveRateBounds | src/lib/taxCalculator.ts:113-125 | full flags give the combined rate, no flags give zero, and the effective rate grows with the flags between those two |
| TaxCalculator.StandardLineUsesCombinedRate | src/lib/taxCalculator.ts:100-136 | a Standard item pays its amount times the province's combined rate |
| TaxCalculator.AlbertaStandardExample | src/test/taxCalculator.test.ts:7-17 | 100 Standard in AB: 5 GST, 105 total |
| TaxCalculator.OntarioStandardExample | src/test/taxCalculator.test.ts:19-29 | 100 Standard in ON: 13 HST, 113 total |
| TaxCalculator.BritishColumbiaStandardExample | src/test/taxCalculator.test.ts:31-41 | 100 Standard in BC: 5 GST and 7 PST |
| TaxCalculator.ExemptExample | src/test/taxCalculator.test.ts:43-53 | an Exempt item pays nothing |
| TaxCalculator.GroceriesExample | src/test/taxCalculator.test.ts:55-65 | zero-rated groceries pay nothing |
| TaxCalculator.ChildrensClothingExample | src/test/taxCalculator.test.ts:67-77 | children's clothing in ON pays GST only |
| TaxCalculator.SmallMealExample | src/test/taxCalculator.test.ts:79-89 | a 3.50 meal in ON pays GST only |
| TaxCalculator.QuebecStandardExample | src/test/taxCalculator.test.ts:159-173 | 100 Standard in QC: 5 GST and 9.975 QST |
| TaxCalculator.AggregateConcat | src/lib/taxCalculator.ts:147-159 | the totals of a concatenation are the field-wise sum of the parts' totals |
| TaxCalculator.Aggregate | src/lib/taxCalculator.ts:147-159 | the left fold of the lines into totals; no contract of its own, its meaning is stated by `TaxCalculator.AggregateConcat`, `TaxCalculator.AggregateSwap` and `TaxCalculator.AggregateConsistent` |
| TaxCalculator.AggregateSwap | src/lib/taxCalculator.ts:147-159 | the totals do not depend on the order of two blocks of lines |
| TaxCalculator.AggregateConsistent | src/lib/taxCalculator.ts:147-159 | consistent lines give totals whose tax is the sum of the components and whose grand total is subtotal plus tax, all non-negative |
| TaxCalculator.AggregateExample | src/test/taxCalculator.test.ts:111-138 | three sample lines total 175 with 18 tax; no lines total zero |
| TaxCalculator.CalculateTotals | src/lib/taxCalculator.ts:161-164 | one breakdown per item, in order, each the item's own; totals aggregate them and are consistent |
| TaxCalculator.MixedCartExample | src/test/taxCalculator.test.ts:141-157 | the BC mixed cart has 3 lines, subtotal 175, tax 13.25, grand total 188.25 |
| TaxCalculator.ValidateCategory | src/lib/taxCalculator.ts:166-168 | a known label validates to the category with that label; any other string becomes Standard |
| TaxCalculator.ValidateCategoryOfName | src/lib/taxCalculator.ts:166-168 | validating a category's label gives that category back |
| TaxCalculator.ValidateCategoryIdempotent | src/lib/taxCalculator.ts:166-168 | validating the label of a validated value changes nothing |
| TaxCalculator.LowerCaseStandardFallsBack | src/lib/taxCalculator.ts:166-168 | the lower-case "standard" is no label and falls back to Standard |
| Rounding.Cents | src/components/TaxSmartCalculator/hooks/useTaxCalculations.ts:12 | the cent count is within half a cent of 100x, rounding half up |
| Rounding.RoundToCents | src/components/TaxSmartCalculator/hooks/useTaxCalculations.ts:12 | the result is a whole number of cents, above the input minus half a cent and at most the input plus half a cent; that window holds only one such number, so a half cent rounds up |
| Rounding.RoundingWindowUnique | src/components/TaxSmartCalculator/hooks/useTaxCalculations.ts:12 | any whole number of cents in that window is the rounded value |
| Rounding.RoundWholeCents | src/components/TaxSmartCalculator/hooks/useTaxCalculations.ts:12 | a whole number of cents is unchanged |
| Rounding.RoundIdempotent | src/components/TaxSmartCalculator/hooks/useTaxCalculations.ts:12 | rounding twice is rounding once |
| Rounding.RoundMonotone | src/components/TaxSmartCalculator/hooks/useTaxCalculations.ts:12 | rounding keeps the order of two amounts |
| Rounding.RoundNonNegative | src/components/TaxSmartCalculator/hooks/useTaxCalculations.ts:12 | a non-negative amount rounds to a non-negative amount; zero stays zero |
| TaxMath.GetTaxRateInfo | src/lib/taxMath.ts:120-129 | the info carries the entry's GST, PST, HST and name unchanged |
| TaxMath.MathRates | src/lib/taxMath.ts:17-56 | the rate table of this calculator; `TaxMath.TotalRateIsCombinedRate` ties it to the engine's rates |
| TaxMath.TotalRateIsCombinedRate | src/lib/taxMath.ts:17-56 | this table's total rate equals the engine's combined rate in every province |
| TaxMath.CalculateTax | src/lib/taxMath.ts:64-79 | a negative amount pays nothing; otherwise the tax is amount times total rate rounded to the cent, so within half a cent of it and non-negative |
| TaxMath.CalculateTotal | src/lib/taxMath.ts:87-91 | a negative amount gives 0; otherwise the amount plus its rounded tax, rounded to the cent, so within a cent of amount plus amount times total rate |
| TaxMath.ReverseTax | src/lib/taxMath.ts:99-113 | a total of zero or less gives 0; otherwise the total over one plus the total rate, rounded to the cent |
| TaxMath.ReverseTaxInverts | src/lib/taxMath.ts:99-113 | reversing a positive amount grossed up by the total rate gives the amount rounded to the cent |
| TaxMath.GetProvinces | src/lib/taxMath.ts:135-140 | one entry per table key, in key order, with that key's code and name |
| TaxMath.GetProvincesCoversAll | src/lib/taxMath.ts:135-140 | 13 entries; every province appears with its code and name |
| TaxMath.GetProvincesDistinct | src/lib/taxMath.ts:135-140 | no code appears twice |
| TaxMath.TaxExamples | src/lib/taxMath.test.ts:5-55 | the ON and AB amounts, totals and reversals the tests expect |
| TaxMath.OneCentExample | src/lib/taxMath.test.ts:58-62 | one cent in ON pays 0 tax and totals 0.01 |
| TaxRatesTable.Lookup | src/lib/tax.ts:10-24 | a found province has that code; not found means no province has it |
| TaxRatesTable.Info | src/lib/tax.ts:10-24 | the rate, name and description of each entry; `TaxRatesTable.GetTaxRateIsCombinedRate` ties the rates to the engine |
| TaxRatesTable.ByLetters | src/lib/tax.ts:10-24 | the same lookup for a two-letter code |
| TaxRatesTable.LookupOfCode | src/lib/tax.ts:10-24 | looking up a province's code finds that province |
| TaxRatesTable.GetTaxRate | src/lib/tax.ts:29-31 | an unknown code has rate 0; every rate is non-negative |
| TaxRatesTable.GetTaxRateIsCombinedRate | src/lib/tax.ts:10-31 | each province's single rate equals the engine's combined rate |
| TaxRatesTable.CalculateTax | src/lib/tax.ts:36-47 | an amount of zero or less, or an unknown code, pays nothing; otherwise amount times the code's rate, rounded to the cent when asked |
| TaxRatesTable.TaxAtRate | src/lib/tax.ts:41-47 | nothing for an amount of zero or less; otherwise amount times rate, exactly or rounded to the cent (so within half a cent) |
| TaxRatesTable.ReverseCalculateTax | src/lib/tax.ts:52-63 | a total of zero or less gives 0; otherwise the total over one plus the code's rate, rounded to the cent when asked |
| TaxRatesTable.ReverseAtRate | src/lib/tax.ts:57-62 | a total of zero or less gives 0; otherwise an amount that, grown by the rate, is the total again, or that amount rounded to the cent |
| TaxRatesTable.ReverseAtRateUndoesTax | src/lib/tax.ts:52-63 | at any rate of zero or more, reversing amount plus its unrounded tax gives the amount |
| TaxRatesTable.ReverseUndoesTax | src/lib/tax.ts:36-63 | reversing amount plus its unrounded tax gives the amount back, or the amount rounded to the cent when rounding |
| TaxRatesTable.BreakdownWithQst | src/lib/tax.ts:99-139 | an unknown code has no breakdown; a known one starts with GST |
| TaxRatesTable.GetTaxBreakdownAsWritten | src/lib/tax.ts:99-139 | the breakdown with QST at 0.0975; `TaxRatesTable.QuebecBreakdownMismatch` states where it falls short |
| TaxRatesTable.GetTaxBreakdown | src/lib/tax.ts:99-139 | the breakdown with QST at 0.09975; `TaxRatesTable.BreakdownSumsToRate` states that it sums to the rate |
| TaxRatesTable.BreakdownSumsToRate | src/lib/tax.ts:99-139 | with QST at 0.09975, every province's breakdown sums to its rate; GST-only provinces have one GST line at the full rate, the others GST at 0.05 followed by a line named HST, PST or QST for the remainder |
| TaxRatesTable.QuebecBreakdownMismatch | src/lib/tax.ts:104-109 | as written, QC's breakdown is GST 0.05 and QST 0.0975, summing to 0.1475 while 0.14975 is charged |
| TaxRatesTable.BreakdownAgreesOutsideQuebec | src/lib/tax.ts:99-139 | for every code but QC the written and the corrected breakdowns coincide |
| TaxRatesTable.GetProvinces | src/lib/tax.ts:144-149 | one entry per province, in table order, with its code |
| TaxRatesTable.GetProvincesMatchesTable | src/lib/tax.ts:144-149 | 13 distinct codes, each with its code's rate |
| TaxRatesTable.TaxExamples | src/lib/tax.test.ts:5-25 | ON 13 and 6.50, AB 5 and 2.50, QC 14.98, no tax on zero or negative amounts, rate 0 for "XX" |
| PercentRates.Label | src/components/TaxSmartCalculator/data/rates.ts:26-40 | every province has a non-empty name |
| PercentRates.Rate | src/components/TaxSmartCalculator/data/rates.ts:10-24 | the percentage table; `PercentRates.RatesAgreeWithEngine` ties it to the engine |
| PercentRates.RatesAgreeWithEngine | src/components/TaxSmartCalculator/data/rates.ts:10-24 | each percentage entry has the engine's structure, and its rates are 100 times the engine's |
| PercentRates.GstIsFivePercent | src/components/TaxSmartCalculator/data/rates.ts:10-24 | GST is 5 percent wherever present; the GST kind is exactly AB, NT, NU and YT |
| PercentRates.PercentIsCombinedRate | src/components/TaxSmartCalculator/data/rates.ts:10-24 | an entry's combined percentage is 100 times the engine's combined rate |
| TaxCalculations.ComponentTax | src/components/TaxSmartCalculator/hooks/useTaxCalculations.ts:12-23 | a component is subtotal times its percentage rounded to the cent, so within half a cent of it |
| TaxCalculations.CalcTotalsFromSubtotal | src/components/TaxSmartCalculator/hooks/useTaxCalculations.ts:14-37 | the subtotal rounded to the cent; each component of the province's structure is the subtotal times its percentage rounded to the cent, the others are zero; total tax is the rounded sum of the components; grand total is subtotal plus total tax, rounded |
| TaxCalculations.TotalsForRate | src/components/TaxSmartCalculator/hooks/useTaxCalculations.ts:14-37 | the body of `calcTotalsFromSubtotal` for one rate shape; `TaxCalculations.TotalsForRateNear` bounds its tax and grand total |
| TaxCalculations.TotalsForRateNear | src/components/TaxSmartCalculator/hooks/useTaxCalculations.ts:14-37 | the tax is within 1.5 cents of subtotal times the combined percentage; the grand total within 2 cents of subtotal plus that |
| TaxCalculations.SubtotalTotalsMatchEngine | src/components/TaxSmartCalculator/hooks/useTaxCalculations.ts:14-37 | the same bounds, stated with the engine's combined rate |
| TaxCalculations.SubtotalExamples | src/components/TaxSmartCalculator/hooks/useTaxCalculations.ts:14-37 | 100 in BC is 5 + 7 = 112, in ON 13 HST = 113, in QC 5 + 9.98 = 114.98 |
| TaxCalculations.ZeroSubtotal | src/components/TaxSmartCalculator/hooks/useTaxCalculations.ts:14-37 | a zero subtotal gives all-zero totals |
| TaxCalculations.TaxableItems | src/components/TaxSmartCalculator/hooks/useTaxCalculations.ts:42-43 | exactly the items not explicitly excluded remain, never more than the input |
| TaxCalculations.TaxableItemsConcat | src/components/TaxSmartCalculator/hooks/useTaxCalculations.ts:42-43 | filtering keeps order: the taxable items of a concatenation are those of each part, in turn |
| TaxCalculations.SumAmounts | src/components/TaxSmartCalculator/hooks/useTaxCalculations.ts:40-41 | the reduce over all amounts; no contract of its own |
| TaxCalculations.TaxableAmounts | src/components/TaxSmartCalculator/hooks/useTaxCalculations.ts:42-43 | the reduce over taxable amounts; `TaxCalculations.TaxableAmountsIsSumOfTaxable` states it is the sum over the taxable items |
| TaxCalculations.TaxableAmountsIsSumOfTaxable | src/components/TaxSmartCalculator/hooks/useTaxCalculations.ts:40-43 | the taxable base is the sum of the taxable items' amounts |
| TaxCalculations.CalcTotalsFromItemsAsWritten | src/components/TaxSmartCalculator/hooks/useTaxCalculations.ts:39-48 | subtotal is the rounded sum of all items; the grand total is that of the taxable base alone |
| TaxCalculations.NonTaxableItemDropsFromGrandTotal | src/components/TaxSmartCalculator/hooks/useTaxCalculations.ts:39-48 | one non-taxable item of 100 gives subtotal 100, no tax, grand total 0 |
| TaxCalculations.CalcTotalsFromItems | src/components/TaxSmartCalculator/hooks/useTaxCalculations.ts:5-48 | subtotal is the rounded sum of all items; grand total is subtotal plus tax, rounded |
| TaxCalculations.ItemTaxesUseTaxableItems | src/components/TaxSmartCalculator/hooks/useTaxCalculations.ts:39-48 | every tax component equals that of the subtotal of the taxable items alone |
| TaxCalculations.NothingTaxableNoTax | src/components/TaxSmartCalculator/hooks/useTaxCalculations.ts:39-48 | when every item is excluded, every tax is zero and the grand total is the subtotal |
| TaxCalculations.CorrectedAgreesWhenAllTaxable | src/components/TaxSmartCalculator/hooks/useTaxCalculations.ts:39-48 | with no excluded item the corrected and the written totals coincide |
| TaxCalculations.ReverseTaxInverts | src/components/TaxSmartCalculator/hooks/useTaxCalculations.ts:62-70 | backing the tax out of an amount grossed up by the province's percentage gives the amount rounded to the cent |
| TaxCalculations.ReverseTaxUsesCombinedRate | src/components/TaxSmartCalculator/hooks/useTaxCalculations.ts:62-70 | the same, grossed up by the engine's combined rate |
| TaxCalculations.ReverseTax | src/components/TaxSmartCalculator/hooks/useTaxCalculations.ts:62-70 | within half a cent of the grand total over one plus the province's percentage |
| TaxPresets.FindById | src/lib/taxPresets.ts:109-111 | absent exactly when no preset from that position has the id; otherwise the first preset with the id |
| TaxPresets.TaxPresets | src/lib/taxPresets.ts:26-107 | the preset list; `TaxPresets.IdLengthsDistinct` and `TaxPresets.PresetCategoriesOffered` state its invariants |
| TaxPresets.PresetCategoryMap | src/lib/taxPresets.ts:13-24 | the id-to-category side table; `TaxPresets.MapAgreesWithPresets` ties it to the presets |
| TaxPresets.FilterByLabel | src/lib/taxPresets.ts:113-115 | exactly the presets from that position whose category label is the given string |
| TaxPresets.FilterByLabelShift | src/lib/taxPresets.ts:113-115 | filtering after a prefix is filtering the rest alone |
| TaxPresets.FilterByLabelConcatFrom | src/lib/taxPresets.ts:113-115 | filtering a concatenation from inside its first part is the rest of that part filtered, then the second part filtered |
| TaxPresets.FilterByLabelConcat | src/lib/taxPresets.ts:113-115 | the filter keeps order: filtering a concatenation concatenates the filtered parts |
| TaxPresets.FilterByLabelSingle | src/lib/taxPresets.ts:113-115 | a single preset is kept exactly when its label matches |
| TaxPresets.GetPresetById | src/lib/taxPresets.ts:109-111 | a found preset is in the list with that id; absent means no preset has it |
| TaxPresets.GetPresetsByCategory | src/lib/taxPresets.ts:113-115 | exactly the presets whose category label is the given string |
| TaxPresets.GetPresetsByCategorySplit | src/lib/taxPresets.ts:113-115 | the result is in catalogue order: cutting the catalogue anywhere splits the result there |
| TaxPresets.FilterByNameIsByCategory | src/lib/taxPresets.ts:113-115 | filtering by a category's label is filtering by the category |
| TaxPresets.StandardPresetsByCategory | src/lib/taxPresets.ts:26-107 | the Standard presets are clothing, electronics and education, in order |
| TaxPresets.StandardPresets | src/lib/taxPresets.ts:113-115 | looking up "Standard" gives clothing, electronics and education |
| TaxPresets.IdLengthsDistinct | src/lib/taxPresets.ts:26-107 | the preset ids have pairwise distinct lengths and are pairwise distinct |
| TaxPresets.GetPresetByOwnId | src/lib/taxPresets.ts:109-111 | every preset is found by its own id |
| TaxPresets.MapAgreesWithPresets | src/lib/taxPresets.ts:13-24 | the side table maps each preset id to that preset's category |
| TaxPresets.MapKeysArePresetIds | src/lib/taxPresets.ts:13-24 | the side table's keys are exactly the preset ids |
| TaxPresets.PresetCategoriesOffered | src/lib/taxPresets.ts:26-107 | every preset's category is one of the offered categories |
| Entitlements.GetEntitlements | src/lib/entitlements.ts:13-35 | the record belongs to the plan; Pro has every capability, no line limit and 30 days of share expiry; Free has none, a limit of 5 and 24 hours |
| Entitlements.CanAddLineItem | src/lib/entitlements.ts:37-39 | no limit always allows; otherwise allowed exactly below the limit |
| Entitlements.CanAddDownwardClosed | src/lib/entitlements.ts:37-39 | an allowed count makes every smaller count allowed |
| Entitlements.ProAlwaysAllows | src/lib/entitlements.ts:23-39 | Pro allows every count |
| Entitlements.FreeLimitIsFive | src/lib/entitlements.ts:13-39 | Free allows exactly the counts below five |
| Entitlements.LimitExamples | src/test/entitlements.test.ts:23-38 | Free allows 3 and 4 but not 5 or 10; Pro allows 100 and 1000 |
| Entitlements.GetUpgradeMessage | src/lib/entitlements.ts:41-43 | the message starts with the feature and names "Pro" |
| LineItems.Merge | src/components/TaxSmartCalculator/hooks/useLineItems.ts:27-31 | each field present in the patch wins and each absent one keeps the item's value; the empty patch changes nothing |
| LineItems.MergeIdempotent | src/components/TaxSmartCalculator/hooks/useLineItems.ts:27-31 | merging the same patch twice is merging it once |
| LineItems.CreateLineItem | src/components/TaxSmartCalculator/hooks/useLineItems.ts:15-21 | defaults are the fresh id, "Item n", "standard" and an empty amount; each override replaces its field |
| LineItems.DefaultCategoryIsNotAName | src/components/TaxSmartCalculator/hooks/useLineItems.ts:18 | the default category is no category label and validates to Standard |
| LineItems.Updated | src/components/TaxSmartCalculator/hooks/useLineItems.ts:27-31 | same length; rows with the id are merged, every other row is unchanged |
| LineItems.UpdateAbsentId | src/components/TaxSmartCalculator/hooks/useLineItems.ts:27-31 | updating an id no row has changes nothing |
| LineItems.UpdateKeepsIds | src/components/TaxSmartCalculator/hooks/useLineItems.ts:27-31 | a patch without an id keeps every row's id |
| LineItems.Removed | src/components/TaxSmartCalculator/hooks/useLineItems.ts:33-35 | a row survives exactly when it was there and has another id |
| LineItems.RemoveAbsentId | src/components/TaxSmartCalculator/hooks/useLineItems.ts:33-35 | removing an id no row has changes nothing |
| LineItems.RemovedOfConcat | src/components/TaxSmartCalculator/hooks/useLineItems.ts:33-35 | removal keeps the order of the surviving rows |
| LineItems.RemoveIdempotent | src/components/TaxSmartCalculator/hooks/useLineItems.ts:33-35 | removing twice is removing once |
| LineItems.LineItemList.constructor | src/components/TaxSmartCalculator/hooks/useLineItems.ts:12-13 | the list starts as the initial items |
| LineItems.LineItemList.AddItem | src/components/TaxSmartCalculator/hooks/useLineItems.ts:23-25 | the new list is the old one plus one new row, numbered one past the old length |
| LineItems.LineItemList.UpdateItem | src/components/TaxSmartCalculator/hooks/useLineItems.ts:27-31 | the new list is the old one with the rows carrying the id merged |
| LineItems.LineItemList.RemoveItem | src/components/TaxSmartCalculator/hooks/useLineItems.ts:33-35 | the new list is the old one without the rows carrying the id |
| LineItems.LineItemList.ClearItems | src/components/TaxSmartCalculator/hooks/useLineItems.ts:37-39 | the list becomes empty |
| UrlShare.TrailingPads | src/utils/share.ts:9 | counts exactly the run of '=' at the end |
| UrlShare.ToUrlSafe | src/utils/share.ts:9 | same length, no '+' or '/' left, '=' kept in place |
| UrlShare.ToStandard | src/utils/share.ts:14 | same length, no '-' or '_' left |
| UrlShare.StripPadding | src/utils/share.ts:9 | a prefix that does not end in '=', with only '=' removed after it |
| UrlShare.Pad | src/utils/share.ts:15 | a length that is a multiple of four, at most three '=' added after the unchanged input |
| UrlShare.EncodeState | src/utils/share.ts:6-10 | the output has no '+', '/' or trailing '='; it fails exactly when base64 encoding throws |
| UrlShare.DecodeState | src/utils/share.ts:12-21 | nothing when base64 decoding throws; otherwise exactly the parse of the decoded text |
| UrlShare.ToShareableItems | src/utils/share.ts:25-27 | the same items in the same order |
| UrlShare.UrlSafeRoundTrip | src/utils/share.ts:9-14 | on the standard alphabet, converting to URL-safe and back is the identity |
| UrlShare.StripDropsTrailingPads | src/utils/share.ts:9 | stripping removes exactly the trailing '=' run |
| UrlShare.PadRestoresStripped | src/utils/share.ts:9-15 | re-padding a stripped base64 output restores it |
| UrlShare.StripCommutesWithUrlSafe | src/utils/share.ts:9 | stripping and alphabet conversion commute |
| UrlShare.UrlFormRoundTrip | src/utils/share.ts:9-15 | the string steps of decoding undo those of encoding on any base64 output |
| UrlShare.DecodeEncoded | src/utils/share.ts:6-21 | decoding an encoded value gives the value back |
| ShareState.Property | src/lib/share.ts:43-58 | a property is present exactly when the value is an object with that key |
| ShareState.Prefix | src/lib/share.ts:15-34 | the prefix is "state=", the key plus '=', with no '&' |
| ShareState.EncodeState | src/lib/share.ts:31-35 | the output starts with the prefix; it fails exactly when base64 encoding throws |
| ShareState.DefaultLabel | src/lib/share.ts:52 | the default label starts with "Item " and is not blank |
| ShareState.ItemToJson | src/lib/share.ts:31-32 | the JSON object of an item; `ShareState.ItemJsonFields` states its three properties |
| ShareState.ItemJsonFields | src/lib/share.ts:31-32 | an item's JSON object carries its label, its category's label and its amount text |
| ShareState.StateToJson | src/lib/share.ts:31-32 | the JSON object of a state, items in order |
| ShareState.NormalizeItem | src/lib/share.ts:50-58 | the label is never blank (a non-blank string label is kept, otherwise `Item n`); a string category is validated, any other becomes Standard; a string amount is kept, a number becomes its `String` form, anything else becomes "0" |
| ShareState.ItemsInput | src/lib/share.ts:46 | a missing or non-array `items` gives no items |
| ShareState.FromPayload | src/lib/share.ts:42-60 | a state exists exactly for a truthy object with a truthy province; it keeps the province, one normalised item per entry |
| ShareState.DecodeState | src/lib/share.ts:37-65 | a fragment without the prefix gives nothing; a failed percent-decoding, base64 decoding or parse gives nothing; otherwise the result is the state read from the parsed payload, with a truthy province and no blank label |
| ShareState.StripLeadingHash | src/lib/share.ts:69 | exactly one leading '#' is removed, nothing else changes |
| ShareState.Segments | src/lib/share.ts:69-70 | at least one segment, none containing '&' |
| ShareState.FirstDecoded | src/lib/share.ts:71-75 | the first segment from a position on that decodes; `ShareState.FirstDecodedIsFirst` states it |
| ShareState.FirstDecodedIsFirst | src/lib/share.ts:71-75 | nothing is found exactly when no segment decodes; otherwise the result is the first segment that decodes |
| ShareState.ExtractStateFromHash | src/lib/share.ts:67-76 | an empty hash gives nothing; otherwise the first segment that decodes |
| ShareState.DecodeFirstSegment | src/lib/share.ts:71-75 | the loop returns the first segment that decodes, or nothing |
| ShareState.NormalizeEncodedItem | src/lib/share.ts:50-58 | an item with a non-blank label survives writing and normalising unchanged |
| ShareState.DecodeEncodedState | src/lib/share.ts:31-65 | decoding an encoded state gives it back when its province is truthy, no label is blank, and JSON parses its own text back |
| ShareState.SharedLinkIsOneSegment | src/lib/share.ts:67-76 | a `#state=` link is a single segment and reading the hash gives the state back |
| ShareState.LawfulCodecsExist | src/lib/share.ts:31-65 | for every state some library obeys all the laws the round trip relies on |
| Text.NatToString | src/lib/share.ts:52 | a non-empty string of decimal digits without a leading zero whose value is the number |
| Text.Split | src/lib/share.ts:70 | at least one piece, none containing the separator, and joining them back gives the input |
| Text.SplitJoin | src/lib/share.ts:70 | splitting a join of separator-free pieces gives the pieces back |

## Left out

- Not-a-number and infinite amounts are not modelled: every real is finite. `Number.isFinite(x) ? Math.max(x, 0) : 0` becomes `max(x, 0)`, and `isNaN(amount)` in `tax.ts` never holds.
- The `Number.EPSILON` that `roundToCents` in `src/lib/taxMath.ts` adds before rounding is not modelled. All three calculators share one rounding. Floating-point error in products and sums is not modelled either.
- JSON, base64 (`btoa`/`atob`, the `Buffer` fallback), `encodeURIComponent`/`decodeURIComponent` and `String(number)` are parameters. The `typeof btoa === 'function'` fallback to the raw payload is not modelled: the base64 path is always taken.
- JavaScript strings are UTF-16 code units and Dafny strings are sequences of characters. A label with characters outside the Basic Multilingual Plane is not measured the same way.
- `String.prototype.trim` is modelled only through `Blank`, the test that the trimmed string is empty. The trimmed string itself is never used.
- `console.warn` on a failed decode is left out; only the None result is modelled.
- The UUID generator is the `freshId` argument.
- React state, `useCallback`, `useMemo` and `setItems` are replaced by the `LineItemList` class and its `items` field. The `useTaxCalculations` dispatch on `Array.isArray` is left out: its two branches are the modelled `CalcTotalsFromItemsAsWritten` (the code as written; its corrected form is `CalcTotalsFromItems`, see "## Findings") and `CalcTotalsFromSubtotal`.
- `formatCurrency` and `formatPercentage` in `src/lib/tax.ts` are left out: they are locale formatting through `Intl`.
- `Merge` treats a key as present when the patch gives it a value. A key spread with an explicit `undefined` value is not modelled.
- In `share.ts`, the decoded province is kept as the JSON value the payload carried, because the source does not check it against the province list. The round-trip lemmas take a truthy province.
- `extractStateFromHash` keeps its loop, in `ShareState.DecodeFirstSegment`, beside the hash preparation in `ShareState.ExtractStateFromHash`.
- TaxRatesTable.BreakdownWithQst: a code is any string. In the source, a code naming a property every JavaScript object inherits (`toString`, `constructor`, `__proto__`) makes `TAX_RATES[code]` truthy. The model treats such a code as unknown, giving an empty breakdown, where the source gives one GST entry with an undefined rate. For these codes `GetTaxRate` agrees with the source: `?.rate || 0` gives 0.
- ShareState.ParsesBack: JSON numbers are reals, and no printer gives every real back. The round trip therefore asks that JSON parse back the one value printed, not every value.

Test expectations that differ from the code:

- `src/lib/taxMath.test.ts:58-59` expects about 0.0013 of tax and a total of about 0.0113 on one cent in Ontario. `calculateTax` rounds to the cent and gives 0, and `calculateTotal` gives 0.01 (`TaxMath.OneCentExample`).
- `src/test/entitlements.test.ts:45` expects the upgrade message to contain the lower-case "upgrade". The message only has "Upgrade", so `GetUpgradeMessage` does not state it.

## Findings

| source | as written | input that shows it | evidently intended | confidence | as-written member | corrected member |
|---|---|---|---|---|---|---|
| src/components/TaxSmartCalculator/hooks/useTaxCalculations.ts:39-48 | the grand total is computed from the taxable base only, so items marked `taxable: false` vanish from it although they stay in the subtotal | province AB, one item of 100 with `taxable: false`: subtotal 100, tax 0, grand total 0 | grand total = subtotal + tax, where the subtotal includes non-taxable items (the `LineItem` comment at line 9) | not executed | TaxCalculations.CalcTotalsFromItemsAsWritten | TaxCalculations.CalcTotalsFromItems |
| src/lib/tax.ts:104-109 | Quebec's breakdown lists QST at 0.0975, summing to 0.1475 | `getTaxBreakdown('QC')` against `getTaxRate('QC')` = 0.14975 | QST 0.09975, so that the breakdown sums to the rate charged | not executed | TaxRatesTable.QuebecBreakdownMismatch | TaxRatesTable.GetTaxBreakdown |
