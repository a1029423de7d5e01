# L.U.M.I.A. liability calculator and client list, in Dafny

L.U.M.I.A. is a single-page tool for insurance agents. An agent enters a client's
contact details, five amounts (home value, vehicle value, annual income, life
insurance, investments), a claims-history category and safety features. The page
computes a liability exposure, puts it in one of four coverage tiers, keeps the
clients in an in-memory list and shows dashboard figures and summary reports.

This project models the decision logic of `script.js`:

- `numeric.dfy` (`Numeric`): `parseFloat(x) || 0` and `parseInt(x) || 0` over field text. Parsing is a scan of the leading decimal number and yields an exact `real`.
- `liability.dfy` (`Liability`): the exposure formula `calculateLiabilityExposure`. The total is home + vehicle + 10·income + max(0, 10·income − life insurance) + 0.5·investments.
- `tiers.dfy` (`Tiers`): the tier classifier `getInsuranceTier`, the two narrative switches keyed on the tier label, and the CSS slug of a label.
- `calculator.dfy` (`Calculator`): the asset-calculator form `handleAssetCalculation`, which repeats the formula inline.
- `store.dfy` (`Store`): the client record and the validation and derivation steps of `handleNewClient` and `handleUpdateClient`. The class `ClientList` holds `currentClients` as a `seq<Client>` and its methods `Create`, `Update` and `Load` change it.
- `dashboard.dfy` (`Dashboard`): the four figures of `updateDashboard`.
- `wrappers.dfy` (`Wrappers`): the `Option` type.

Inputs the page reads from the DOM become parameters. So do the clock values (`Date.now()` as the id, ISO times as `createdAt` and `updatedAt`). A field the page lacks reads as the empty string.

Some consequences of `script.js` as written, each proved in the model:

- The exposure counts the income twice: ten times directly, and ten times again inside the life-insurance gap when the gap is positive. (300000, 20000, 80000, 200000, 100000) gives 1,770,000 (`Liability.ExampleHighExposure`). (50000, 10000, 5000, 50000, 0) gives 110,000 and Tier 2 (`Liability.ExampleModestExposure`, `Calculator.ExampleTiers`).
- An update overwrites every form field: an empty amount becomes "0" and an empty claims history becomes "". Only `id` and `createdAt` survive from the old record (`Store.Revised`).
- Create defaults each empty amount to "0" (script.js:175-179) before its asset-value check (script.js:190-194), so that check never fails (`Store.CreateCheck`).
- Names are never checked for uniqueness. A duplicate create is accepted but shadowed (`Store.DuplicateCreateShadowed`), and an update can rename a client to a name already present (`Store.UpdateCanDuplicateName`).
- Negative amounts are not clamped. The exposure is non-negative if the inputs other than life insurance are non-negative (`Liability.NonNegativeExposure`).

## Model

| member | source | states |
|---|---|---|
| `Numeric.ParseNatText` | script.js:415-419 | a whole number written in decimal parses back to itself with both `parseFloat` and `parseInt` |
| `Numeric.ParseFloat` | script.js:415-419 | `parseFloat` reads a number only from text that holds a digit |
| `Numeric.ParseInt` | script.js:475 | `parseInt` reads a number only from text that holds a digit |
| `Numeric.ParseFloatDecimal` | script.js:415-419 | `parseFloat` of digits `a`, a point and digits `b` is NaN when both are empty and otherwise the digits of `a` and `b` read as one whole number divided by 10 to the length of `b` |
| `Numeric.ParseIntDecimal` | script.js:475 | `parseInt` of digits `a`, a point and digits `b` is the value of `a`, and NaN when `a` is empty |
| `Numeric.DigitsValueAppend` | script.js:415-419 | digits laid end to end are worth the first part times 10 to the length of the second, plus the second |
| `Numeric.ParseFloatNegated` | script.js:415-419 | text starting with a digit or a point reads as a number at least 0 or NaN, and a leading `-` negates the number and keeps NaN as NaN |
| `Numeric.ParseIntNegated` | script.js:475 | text starting with a digit or a point reads as an integer at least 0 or NaN, and a leading `-` negates the integer and keeps NaN as NaN |
| `Numeric.ParseFloatSkipsSpace` | script.js:415-419 | a leading blank does not change what `parseFloat` reads |
| `Numeric.ParseIntSkipsSpace` | script.js:475 | a leading blank does not change what `parseInt` reads |
| `Numeric.FloatOrZero` | script.js:415-419 | `parseFloat(x) || 0` is 0 where `parseFloat` is NaN, and the number `parseFloat` read otherwise |
| `Numeric.IntOrZero` | script.js:475 | `parseInt(x) || 0` is 0 where `parseInt` is NaN, and the number `parseInt` read otherwise |
| `Numeric.ZeroText` | script.js:175-179 | the default text "0" reads as 0 with both parsers |
| `Numeric.NoDigitsIsZero` | script.js:415-419 | for the modelled number grammar (no exponent, hex prefix or `Infinity`), text without any digit is NaN for both parsers, so `|| 0` makes it contribute 0 |
| `Numeric.ParseIntTruncates` | script.js:475 | for the modelled number grammar (no exponent, hex prefix or `Infinity`), where `parseInt` reads a number `parseFloat` reads one too, and `parseInt`'s is it truncated toward zero |
| `Numeric.OrZeroTextInvisible` | script.js:175-179 | the form default `value || '0'` never changes the parsed amount |
| `Liability.LifeInsuranceGap` | script.js:423 | the gap is never negative, is at least ten times income minus life insurance, and is one of those two values |
| `Liability.ParseAmounts` | script.js:415-419 | each amount is the number `parseFloat` reads from its field, or 0 where it reads NaN |
| `Liability.CalculateLiabilityExposure` | script.js:414-427 | the exposure of the five texts is home + vehicle + 10·income + the life-insurance gap + half the investments, over the amounts read from them |
| `Liability.Components` | script.js:422-424 | the income multiplier is ten times income, the gap is `max(0, 10·income − life insurance)` and so non-negative, the investment part is half the investments |
| `Liability.Exposure` | script.js:421-426 | closed form in two cases: without a gap the income counts ten times; with a gap it counts twenty times minus life insurance; never below home + vehicle + 10·income + investments/2 |
| `Liability.NonNegativeExposure` | script.js:414-427 | non-negative home, vehicle, income and investments give a non-negative exposure |
| `Liability.ExposureMonotone` | script.js:414-427 | more assets or income never lower the exposure; more life insurance never raises it |
| `Liability.UnparsableIsZero` | script.js:415-419 | any of the five texts that does not parse gives the same exposure as the text "0" in its place |
| `Liability.WholeNumberFields` | script.js:414-427 | decimal whole-number fields contribute exactly their values |
| `Liability.ExampleHighExposure` | script.js:414-427 | (300000, 20000, 80000, 200000, 100000) gives components 800000, 600000, 50000 and total 1,770,000 |
| `Liability.ExampleModestExposure` | script.js:414-427 | (50000, 10000, 5000, 50000, 0) gives a zero gap and total 110,000 |
| `Tiers.GetInsuranceTier` | script.js:429-439 | each tier holds exactly when the exposure lies in its band, with inclusive upper bounds 100000, 300000, 500000 |
| `Tiers.TierByBoundsExceeded` | script.js:429-439 | a tier's rank is one more than the number of bounds the exposure exceeds |
| `Tiers.TierMonotone` | script.js:429-439 | a larger exposure never gets a lower tier |
| `Tiers.BoundariesInclusive` | script.js:430-435 | 100000, 300000 and 500000 fall in the lower tier, values just above them in the next |
| `Tiers.LabelToTier` | script.js:448-461 | a label matches a case only if it is exactly that tier's label |
| `Tiers.LabelRoundTrip` | script.js:429-439 | each of the four labels matches its own case, so the labels are distinct |
| `Tiers.CalculatorRecommendation` | script.js:448-465 | the CSS class is empty exactly when the label matches no case (no default branch) |
| `Tiers.SummaryRecommendation` | script.js:701-721 | the headline is "Coverage Assessment Needed" exactly when the label matches no case |
| `Tiers.ClassifiedLabelsRecognized` | script.js:701-721 | every label the classifier returns hits a non-default case of both switches |
| `Tiers.Slug` | script.js:724 | the slug keeps the length, holds only lower-case letters and dashes, dashes exactly the non-letters, keeps lower-case letters and lower-cases upper-case ones |
| `Tiers.SlugIdempotent` | script.js:724 | slugging a slug changes nothing |
| `Tiers.SlugOfTierOne` | script.js:724 | the tier 1 label slugs to `tier----up-to---------` |
| `Tiers.SummaryTierClass` | script.js:724 | the class is `tier-` followed by lower-case letters and dashes; an empty tier gives `tier-basic`; for a non-empty tier the suffix is the label's slug, so it has the label's length and a dash exactly where the label has a non-letter |
| `Tiers.TierClassesDistinct` | script.js:448-465 | for every tier, the summary box's class differs both from the calculator's class for that tier and from the `tier-basic` fallback |
| `Calculator.AssetCalculation` | script.js:381-393 | the calculator's total on the form's text equals `calculateLiabilityExposure` on the same text, and its tier is the classifier's tier of that total |
| `Calculator.InlineFormula` | script.js:387-393 | the inline copy of the formula shows exactly the components of `calculateLiabilityExposure`, their sum is its total, that total agrees with the exposure formula, and the gap shown is never negative |
| `Calculator.CalculatorNoteAlwaysSet` | script.js:393-404 | the calculator's tier note is never the empty one |
| `Calculator.ExampleTiers` | script.js:429-439 | the two worked examples fall in tier 4 and tier 2 |
| `Store.CreateCheck` | script.js:184-199 | create succeeds exactly when name, email, phone, address and claims history are non-empty; the asset-value error never occurs |
| `Store.NewClient` | script.js:170-207 | the created record keeps the form's contact fields and claims, stores each amount as typed or "0" when empty, carries the given id and creation time, and its exposure and tier are the formula and classifier applied to its own amounts, which equal those of the typed form |
| `Store.Revised` | script.js:242-266 | the updated record keeps id and creation time, takes every form field with each empty amount stored as "0", gets the update time and recomputed derived fields |
| `Store.FindIndex` | script.js:236 | the result is the first position holding the name, or none when no position holds it |
| `Store.FindClient` | script.js:565 | a client is found exactly when some record has the name, and the found record is the one at the first position holding it |
| `Store.UpdateCheck` | script.js:230-262 | update fails on an empty selection, fails with not-found exactly for an unknown name, and succeeds exactly when the name is known and the contact fields are non-empty |
| `Store.ClientList.constructor` | script.js:5 | the session starts with an empty list |
| `Store.ClientList.Load` | script.js:355-365 | nothing saved keeps the list, unreadable content empties it, a saved list replaces it |
| `Store.ClientList.Create` | script.js:166-211 | on success exactly one new record is appended after the untouched old ones; on refusal the list is unchanged; consistent derived fields stay consistent |
| `Store.ClientList.Update` | script.js:226-270 | the length is unchanged; on success only the first matching position is replaced, by the revised record; on refusal nothing changes |
| `Store.AppendKeepsConsistent` | script.js:202-210 | appending a record with consistent derived fields keeps every record's derived fields consistent |
| `Store.ReplaceKeepsConsistent` | script.js:265-269 | writing a consistent record back at an index keeps every record's derived fields consistent |
| `Store.FindAfterReplace` | script.js:236 | a record written at a position under a name no earlier record has is what a lookup of that name finds |
| `Store.FindIndexAppend` | script.js:236 | appending a record never moves the first match of a name already present |
| `Store.FindIndexFirst` | script.js:236 | a position holding the name with no earlier one holding it is what the lookup returns |
| `Store.CreateThenFind` | script.js:202-210 | a client created under a new name is the one found by that name, with the formula's exposure and the classifier's tier |
| `Store.DuplicateCreateShadowed` | script.js:185-210 | a duplicate name is accepted, but lookups still reach the earlier record |
| `Store.UpdateCanDuplicateName` | script.js:259-269 | an update can rename a client to a name another client has |
| `Store.UpdateThenFind` | script.js:236-269 | after an update, the new name finds the updated position unless an earlier record has it |
| `Dashboard.HighRiskClients` | script.js:478-481 | the filter keeps exactly the clients whose claims history is "3-5" or "more", with a missing value read as "none" |
| `Dashboard.HighRiskCount` | script.js:478-481 | the high-risk count never exceeds the client count |
| `Dashboard.HighRiskCountAppend` | script.js:478-481 | the count over two lists laid end to end is the sum of their counts |
| `Dashboard.HighRiskCountIsCount` | script.js:478-481 | the high-risk count equals the count of high-risk positions, is at most the client count, is 0 exactly when no client is high-risk and full exactly when all are |
| `Dashboard.TotalHomeValue` | script.js:474-476 | home values that all read as non-negative sum to a non-negative total |
| `Dashboard.TotalHomeValueAppend` | script.js:474-476 | the sum over two lists laid end to end is the sum of their sums |
| `Dashboard.TotalExposure` | script.js:484-486 | non-negative exposures sum to a non-negative total |
| `Dashboard.TotalExposureAppend` | script.js:484-486 | the sum over two lists laid end to end is the sum of their sums |
| `Dashboard.AverageExposure` | script.js:483-487 | the average is 0 for an empty list and otherwise the total divided by the count |
| `Dashboard.TotalExposureBounds` | script.js:484-486 | exposures all within a range sum to between count·low and count·high |
| `Dashboard.AverageWithinBounds` | script.js:483-487 | the average lies between the smallest and largest exposure |
| `Dashboard.DashboardStats` | script.js:473-487 | the client count is the list length, the high-risk figure is the count of high-risk positions and never exceeds it, the home-value and average figures are the sums' figures, and an empty list shows zeros |
| `Dashboard.DashboardAfterCreate` | script.js:473-487 | a create adds one client and that client's home value, high-risk mark and exposure to the figures |
| `Dashboard.AppendOne` | script.js:473-487 | appending one client adds its home value, its exposure and its high-risk mark to the three sums |

## Left out

- DOM work is not modelled: navigation, modals and their messages, form resets, `handleClientSelect`, `loadClientSelects`, `createClientCard`, `editClient`, the report builders (`populate*`, `generateClientSummary`) and `printSummary`. The checked safety-feature values (`getCheckedValues`) arrive as a parameter.
- `localStorage` and JSON are not modelled. `ClientList.Load` takes the read's outcome as a value. `saveClients` is left out: its failure only shows a message and never changes the in-memory list.
- `Date.now()`, `toISOString`, `toLocaleString`, `toLocaleDateString` and `Math.round` on the displayed average are clock and formatting concerns. Times and ids are parameters.
- `setTimeout` in `editClient` and `generateSummaryForClient` is UI timing.
- Amounts are exact reals, not IEEE doubles. Rounding and NaN beyond "unparsable gives 0" are not modelled.
- `Numeric.ParseFloat` covers leading white space, sign, digits and a fraction. Exponents, `Infinity` and the Unicode space separators other than those listed in `IsSpace` are not modelled. `Numeric.ParseInt` does not model the `0x` hexadecimal prefix.
- `Tiers.Slug` lower-cases ASCII letters only. Other letters become dashes, whereas `toLowerCase` would first lower-case them. `toLowerCase` can also turn a non-ASCII letter into an ASCII one (U+212A KELVIN SIGN becomes `k`) or into two characters (U+0130 becomes `i` plus a combining dot), so the length-preserving, letter-for-letter contract of `Tiers.Slug` holds for ASCII labels only. The four tier labels are ASCII.
- The `parseInt`-based figures of `populateAssetSummary` and `populateLiabilitySection` (script.js:612-692) are presentation only. They can disagree with the stored exposure for fractional amounts.
- Records have a fixed shape. Extra properties a loaded record may carry through the update spread are not represented. Every record carries a numeric exposure, so the `|| 0` fallback on a missing exposure in `updateDashboard` does not arise. A missing tier is represented as the empty label.
- `ClientList.Load` takes a saved list as a list of records. A saved value that parses to something other than a list of records (such as `null`) is not represented.
- The `try`/`catch` around both handlers only catches exceptions from DOM calls, which are not modelled.
