# VRF sizing app — verified model of the component logic

This project is a Dafny model of the logic inside five React components of an
HVAC sizing application. It covers:

- **VRF condensing-unit calculator** (`VrfCalculator`). The operator keeps a list of
  evaporators. Each line has a type, a nominal rating, a real capacity and a
  quantity. Adding a line with an existing `(type, nominal)` merges it into that
  line. Quantities are clamped to at least 1. Switching brand re-reads each
  line's real capacity from that brand's catalog. The total demand is the sum
  of capacity × quantity. No result is computed when the demand is zero.
  Otherwise the condenser search runs once per brand: Samsung with the selected
  simultaneity (diversity) factor, Daikin with 130 in place of any factor above
  130 (the code compares the stored number with 130, so a factor stored as a
  fraction such as 1.45 is never capped; see "## Findings"). The model also
  covers the loading of the factor options, the default factor choice, the
  percent reading of a factor, and the advisories shown beside the result.
- **Simultaneity-mode selector** (`ModeSelection`). It loads the option list and
  resolves a mode token into the value it shows. The tokens are `residencial`,
  `corporativo`, a numeric string, `maximo`, or anything else. When the
  resolved value differs from the token, the selector reports it back.
- **Simultaneity administration tab** (`SimultaneityAdmin`). It covers:
  - the table chosen for each family;
  - the rows each page fetches;
  - the form check and the saved record;
  - the sort-header state machine and the dialog/form state.
- **Product registration tab** (`ProductRegistration`). It covers the distinct,
  sorted filter lists, the `active`-column detection, the checks and saved
  records of the evaporator, condenser and multi-split forms, and the page
  range and page counter.
- **Manufacturer selector** (`BrandOptions`). It builds the option list from the
  manufacturer names (trim, drop empty, de-duplicate, sort, prepend "Todas as
  marcas", lower-case values) and keeps a selection that mirrors its prop.

Three shared modules model the JavaScript built-ins the components rely on:

- `Wrappers`: `Option` (for `null`/`undefined`) and `JsNumber` (`NaN`, the
  infinities, or an exact finite value).
- `Text`: `trim`, `toLowerCase`, `startsWith`, and whether `parseFloat` finds a
  number.
- `Collections`: de-duplication through a `Set` (first occurrence wins) and a
  stable sort under a comparator.

Numbers are exact `int`/`real`. `x || d` on a number is modelled as JavaScript
evaluates it: a missing value or 0 gives `d`. `Math.round(x)` is `floor(x + 0.5)`.

Some collaborators are parameters, because their code is not part of this model:

- the condenser search `calcularCondensadoraVRF`, as `search`;
- `Number(...)`, as `toNumber`;
- `parseFloat` in the admin form, as `parseFloat`;
- `Number.prototype.toString`, as `show`;
- `localeCompare(a, b) <= 0`, as `leq`;
- a successful `JSON.parse`, as `parsesJson`.

The evaporator catalog `evaporadoras` is a `Catalog` value. Its contents are not
part of this model.

Where a component's state changes through handlers, the model is a class with
`modifies` methods:

- `VrfCalculator.Calculator`: the list, the options, the factor form, the
  pickers and the brand;
- `SimultaneityAdmin.AdminState`: sort, family, dialogs and form;
- `ProductRegistration.Pager`: page and page size.

Each method's `ensures` gives the whole new state in terms of the pure functions.
Lemmas about those functions state the properties. The calculator's results are
not a stored field, because the source recomputes them after every change of
list, factor or orientation. `Calculator.Results` therefore computes them with
`Recalculate` from the current state. `RecalculateCorrected` is the
recalculation with the Daikin cap of "## Findings" applied.

## Model

| member | source | states |
|---|---|---|
| `VrfCalculator.FindModels` | src/components/hvac/VRFCondensadoraCalculator.tsx:18 | the models of the first catalog entry with the given type label, or no models when no entry has it |
| `VrfCalculator.ToMapKeepsLast` | src/components/hvac/VRFCondensadoraCalculator.tsx:19-20 | a nominal is a key iff some model has it; a nominal listed twice maps to its last model's capacity |
| `VrfCalculator.LookupFindsLastModel` | src/components/hvac/VRFCondensadoraCalculator.tsx:16-29 | for one of the five picker keys, the lookup yields the capacity of the last model with that nominal in the first entry with the key's label |
| `VrfCalculator.Lookup` | src/components/hvac/VRFCondensadoraCalculator.tsx:16-29 | a capacity is found unless the picker key names no catalog type, or no model of that type has the nominal |
| `VrfCalculator.LookupMisses` | src/components/hvac/VRFCondensadoraCalculator.tsx:16-29 | an unknown picker key, or a label missing from the brand's catalog, yields nothing |
| `VrfCalculator.Added` | src/components/hvac/VRFCondensadoraCalculator.tsx:164-184 | after `handleAdd` the list has a line with the added type and nominal; it is as long as before when such a line existed and one longer otherwise |
| `VrfCalculator.AddMergesIntoExisting` | src/components/hvac/VRFCondensadoraCalculator.tsx:170-178 | adding an existing `(type, nominal)` raises only that line's quantity by the added amount and keeps its stored capacity |
| `VrfCalculator.AddKeepsInvariants` | src/components/hvac/VRFCondensadoraCalculator.tsx:164-184 | after adding, keys stay unique, quantities stay ≥ 1 when a positive quantity is added, the key is present, and the list grows by one line exactly when the key was new |
| `VrfCalculator.RemoveAt` | src/components/hvac/VRFCondensadoraCalculator.tsx:194-196 | removing index i drops exactly line i and keeps the others in order; an index outside the list changes nothing |
| `VrfCalculator.RemoveKeepsInvariants` | src/components/hvac/VRFCondensadoraCalculator.tsx:194-196 | removal keeps keys unique and quantities ≥ 1 |
| `VrfCalculator.ClampQuantity` | src/components/hvac/VRFCondensadoraCalculator.tsx:189 | the new quantity is ≥ 1; it is floor(v) for v ≥ 1, and 1 for a missing/NaN value, 0, or anything below 2 |
| `VrfCalculator.WithQuantity` | src/components/hvac/VRFCondensadoraCalculator.tsx:186-191 | same length; line `index` keeps its type, nominal and capacity and gets the clamped quantity; every other line is unchanged |
| `VrfCalculator.ChangeQuantityKeepsInvariants` | src/components/hvac/VRFCondensadoraCalculator.tsx:186-192 | editing one quantity keeps keys unique and quantities ≥ 1 |
| `VrfCalculator.Relookup` | src/components/hvac/VRFCondensadoraCalculator.tsx:211-217 | same length; a line whose new-brand lookup finds a non-zero capacity takes it, any other line keeps its capacity |
| `VrfCalculator.RelookupKeepsLines` | src/components/hvac/VRFCondensadoraCalculator.tsx:211-217 | a brand change keeps the length and every line's type, nominal and quantity (so both invariants); a capacity the new brand's catalog has (non-zero) replaces the old one, otherwise the line is unchanged; a capacity changes only to a catalog value |
| `VrfCalculator.RelookupForgetsPreviousBrand` | src/components/hvac/VRFCondensadoraCalculator.tsx:211-217 | when the new brand's catalog knows every line, the list does not depend on the brand selected before |
| `VrfCalculator.RelookupIdempotent` | src/components/hvac/VRFCondensadoraCalculator.tsx:211-217 | re-looking up twice with the same brand equals doing it once |
| `VrfCalculator.TotalDemandNonNegative` | src/components/hvac/VRFCondensadoraCalculator.tsx:128 | the sum of capacity × quantity is never negative when no capacity or quantity is |
| `VrfCalculator.TotalDemandAppend` | src/components/hvac/VRFCondensadoraCalculator.tsx:128 | the demand of a concatenation is the sum of the demands |
| `VrfCalculator.TotalDemandUpdate` | src/components/hvac/VRFCondensadoraCalculator.tsx:128 | replacing one line changes the demand by the difference of the two lines' capacity × quantity |
| `VrfCalculator.TotalDemandRemove` | src/components/hvac/VRFCondensadoraCalculator.tsx:194-196 | removing a line takes exactly its capacity × quantity off the demand |
| `VrfCalculator.AddDemandMerge` | src/components/hvac/VRFCondensadoraCalculator.tsx:171-178 | merging raises the demand by the stored capacity × the added quantity |
| `VrfCalculator.AddDemandAppend` | src/components/hvac/VRFCondensadoraCalculator.tsx:179-182 | appending raises the demand by the new line's capacity × quantity |
| `VrfCalculator.DemandOfMore` | src/components/hvac/VRFCondensadoraCalculator.tsx:176 | raising one line's quantity by q raises the demand by q × its capacity |
| `VrfCalculator.TotalDemandPositive` | src/components/hvac/VRFCondensadoraCalculator.tsx:128-133 | with positive capacities and quantities the demand is ≥ 0, and it is 0 exactly for the empty list |
| `VrfCalculator.BestCorporate` | src/components/hvac/VRFCondensadoraCalculator.tsx:48-49 | picks a row whose lower-cased name starts with "corporativo" and has the highest value, earlier rows winning ties; nothing iff there is no such row |
| `VrfCalculator.LoadedSimultOptions` | src/components/hvac/VRFCondensadoraCalculator.tsx:59-107 | the main table's rows whenever it answered (even with none); else the legacy rows when it answered with some; else the two static rows; the list is empty iff the main table answered with no rows |
| `VrfCalculator.DefaultOption` | src/components/hvac/VRFCondensadoraCalculator.tsx:46-49 | there is a default exactly when the option list is non-empty |
| `VrfCalculator.DefaultOptionIsBestCorporate` | src/components/hvac/VRFCondensadoraCalculator.tsx:48-49 | the default is the earliest highest-valued corporate row, or the first row when no row is corporate |
| `VrfCalculator.ApplyDefault` | src/components/hvac/VRFCondensadoraCalculator.tsx:46-51 | an empty list leaves the form unchanged; otherwise the form holds the default row and its value |
| `VrfCalculator.StaticDefaultIsCorporate` | src/components/hvac/VRFCondensadoraCalculator.tsx:93-100 | the fallback list defaults to "Corporativo" at 110 |
| `VrfCalculator.FindOption` | src/components/hvac/VRFCondensadoraCalculator.tsx:239 | the first option with the chosen id, or nothing when no option has it |
| `VrfCalculator.Round` | src/components/hvac/VRFCondensadoraCalculator.tsx:56 | `Math.round` gives the integer n with n − ½ ≤ x < n + ½ |
| `VrfCalculator.Percent` | src/components/hvac/VRFCondensadoraCalculator.tsx:53-57 | a missing factor reads as 110; otherwise the percent is the nearest integer to v (v > 10) or to 100·v |
| `VrfCalculator.PercentAgreesAcrossScales` | src/components/hvac/VRFCondensadoraCalculator.tsx:56 | a percent p in (10, 1000] reads as p whether stored as p or as p/100 |
| `VrfCalculator.RawFactor` | src/components/hvac/VRFCondensadoraCalculator.tsx:136 | the raw factor is never 0: it is the form's value when present and non-zero, and 110 when the value is missing or 0 |
| `VrfCalculator.DaikinFactor` | src/components/hvac/VRFCondensadoraCalculator.tsx:142 | the Daikin factor as written: the raw factor when that is ≤ 130, and exactly 130 when it is above 130 |
| `VrfCalculator.DaikinFactorNormalised` | src/components/hvac/VRFCondensadoraCalculator.tsx:142 | the corrected Daikin factor: never above 130% on either scale; the raw factor when that is ≤ 130%; exactly 130% when it is above (1.3 for a fraction above 1.3); equal to the code's cap for percent-stored factors |
| `VrfCalculator.DaikinCapNotice` | src/components/hvac/VRFCondensadoraCalculator.tsx:388-389 | the Daikin notice condition: Daikin selected and the factor's percent above 130; its relation to the cap is the lemmas below |
| `VrfCalculator.InvalidCombinationNotice` | src/components/hvac/VRFCondensadoraCalculator.tsx:262-263 | the 145%-on-vertical condition: the factor's percent is 145 and the unit is vertical |
| `VrfCalculator.CappedBadge` | src/components/hvac/VRFCondensadoraCalculator.tsx:468-469 | the badge condition: Daikin selected and the stored factor above 130 |
| `VrfCalculator.InvalidCombinationBothScales` | src/components/hvac/VRFCondensadoraCalculator.tsx:262-263 | the 145%-on-vertical advisory fires for 145 and for 1.45 exactly when the orientation is vertical |
| `VrfCalculator.DaikinCapMissedOnFractionScale` | src/components/hvac/VRFCondensadoraCalculator.tsx:389 | as written, a factor of 1.45 raises the "calculations use 130%" notice while Daikin is computed with 1.45 (145%) |
| `VrfCalculator.DaikinNoticeMatchesCap` | src/components/hvac/VRFCondensadoraCalculator.tsx:388-393 | with the corrected cap, whenever the Daikin notice shows, the factor used is exactly 130%, and it never exceeds 130% |
| `VrfCalculator.CappedBadgeMatchesCap` | src/components/hvac/VRFCondensadoraCalculator.tsx:468-471 | the "capped at 130%" badge shows only when Daikin is computed with 130; without it, a percent-stored factor is used unchanged |
| `VrfCalculator.RecalculateWith` | src/components/hvac/VRFCondensadoraCalculator.tsx:126-162 | no result iff the demand is 0; otherwise each brand's search runs on [demand] and the orientation, Samsung with the raw factor and Daikin with the given cap of it; both record the raw factor as selected, their own factor as used, and the orientation |
| `VrfCalculator.Recalculate` | src/components/hvac/VRFCondensadoraCalculator.tsx:126-162 | as written: no result iff the demand is 0; otherwise both searches run on [demand]; Samsung uses the raw factor; Daikin uses the raw factor when it is ≤ 130 and 130 when it is above; both record the raw factor as selected |
| `VrfCalculator.RecalculateCorrected` | src/components/hvac/VRFCondensadoraCalculator.tsx:126-162 | corrected: as `Recalculate`, but Daikin's factor never exceeds 130% on either scale, is the raw factor when that is ≤ 130%, and is exactly 130% when it is above |
| `VrfCalculator.RecalculateCorrectedAgrees` | src/components/hvac/VRFCondensadoraCalculator.tsx:142 | the two agree for percent-stored factors and for fractions up to 1.3; for a fraction in (1.3, 10] the corrected one uses 1.3 and the one as written the raw factor |
| `VrfCalculator.RecalculateFractionEscapesCap` | src/components/hvac/VRFCondensadoraCalculator.tsx:142 | as written, a non-empty list at 1.45 shows the 130% notice, yet Daikin is searched with 1.45; the corrected recalculation uses 130% |
| `VrfCalculator.RecalculateSplitsAt145` | src/components/hvac/VRFCondensadoraCalculator.tsx:136-161 | a 145 selection computes Samsung with 145 and Daikin with 130, and both record 145 as selected |
| `VrfCalculator.RecalculateTwoHiWalls` | src/components/hvac/VRFCondensadoraCalculator.tsx:128-146 | two hi-wall units of 7034 at 110 give a demand of 14068, and both brands search with [14068] and 110 |
| `VrfCalculator.Calculator.constructor` | src/components/hvac/VRFCondensadoraCalculator.tsx:32-42 | the initial pickers (corporativo, vertical, hi-wall, 1, 7), the form at 110 with no row, an empty list, Samsung |
| `VrfCalculator.Calculator.Results` | src/components/hvac/VRFCondensadoraCalculator.tsx:126-162 | the results of the current state: one iff the list's demand is non-zero, Samsung with the form's raw factor and Daikin with it capped as written |
| `VrfCalculator.Calculator.LoadOptions` | src/components/hvac/VRFCondensadoraCalculator.tsx:59-107 | the options become those of the main/legacy/static chain and the default is applied to them; the form is unchanged when the main table answered with no rows; nothing else changes |
| `VrfCalculator.Calculator.SelectOption` | src/components/hvac/VRFCondensadoraCalculator.tsx:238-243 | choosing an id sets the form to that row and its value; an unknown id changes nothing |
| `VrfCalculator.Calculator.SetOrientation` | src/components/hvac/VRFCondensadoraCalculator.tsx:280-293 | only the orientation changes |
| `VrfCalculator.Calculator.SetPicker` | src/components/hvac/VRFCondensadoraCalculator.tsx:300-338 | only the type, nominal and quantity pickers change, the quantity being one of 1 to 10 |
| `VrfCalculator.Calculator.Add` | src/components/hvac/VRFCondensadoraCalculator.tsx:164-184 | the list becomes the add-or-merge of the picked type and parsed nominal (default 7), quantity (default 1) and catalog capacity (default 7507); invariants kept, nothing else changes |
| `VrfCalculator.Calculator.ChangeQuantity` | src/components/hvac/VRFCondensadoraCalculator.tsx:186-192 | only line `index` changes, to the clamped quantity; invariants kept |
| `VrfCalculator.Calculator.Remove` | src/components/hvac/VRFCondensadoraCalculator.tsx:194-196 | the list loses exactly line `index`; invariants kept |
| `VrfCalculator.Calculator.Clear` | src/components/hvac/VRFCondensadoraCalculator.tsx:198-203 | empty list, initial pickers, and the default factor re-applied |
| `VrfCalculator.Calculator.SelectBrand` | src/components/hvac/VRFCondensadoraCalculator.tsx:211-217 | a different brand re-looks up every line; selecting the current brand leaves the list as it is |
| `ModeSelection.KeptRows` | src/components/hvac/ModeSelector.tsx:38-40 | the filter never yields more options than there are rows |
| `ModeSelection.KeptRowsMembers` | src/components/hvac/ModeSelector.tsx:38-40 | an option is kept iff some row has that string `nome` and number `valor` |
| `ModeSelection.KeptRowsAllWellFormed` | src/components/hvac/ModeSelector.tsx:38-40 | when every row is well formed, the options are the rows one for one, in order |
| `ModeSelection.LoadedOptions` | src/components/hvac/ModeSelector.tsx:29-41 | an error gives exactly [Corporativo 1.1, Residencial 1.4]; `null` data gives no options; otherwise only well-formed rows |
| `ModeSelection.FindNamed` | src/components/hvac/ModeSelector.tsx:48 | the first option whose lower-cased name equals the word, or nothing iff there is none |
| `ModeSelection.ResidDefault` | src/components/hvac/ModeSelector.tsx:47-50 | the first "residencial" option's value, else the first option's value, else the empty string |
| `ModeSelection.Resolve` | src/components/hvac/ModeSelector.tsx:52-72 | nothing happens without options; otherwise a value is reported exactly when the resolved value is non-empty and differs from the token, and it is the resolved value |
| `ModeSelection.ResolveResidential` | src/components/hvac/ModeSelector.tsx:58-59 | `residencial` resolves to the residential default |
| `ModeSelection.ResolveCorporate` | src/components/hvac/ModeSelector.tsx:60-62 | `corporativo` resolves to the first "corporativo" option's value, else to the residential default |
| `ModeSelection.ResolveKeepsNumbers` | src/components/hvac/ModeSelector.tsx:56-65 | a token `parseFloat` reads as a number, or `maximo`, is kept and nothing is reported |
| `ModeSelection.ResolveOtherTokens` | src/components/hvac/ModeSelector.tsx:63-65 | any other non-numeric token resolves to the residential default |
| `ModeSelection.ResolveSettles` | src/components/hvac/ModeSelector.tsx:67-71 | when option values are shown as numbers, resolving a reported value keeps it and reports nothing more |
| `ModeSelection.Choose` | src/components/hvac/ModeSelector.tsx:74-77 | a user choice is shown and reported unchanged |
| `ModeSelection.ChoiceIsStable` | src/components/hvac/ModeSelector.tsx:74-77 | a choice of an option's value or `maximo` survives the resolution that follows it |
| `ModeSelection.FallbackTokens` | src/components/hvac/ModeSelector.tsx:29-35 | on the fallback list the residential default is 1.4 and `corporativo` resolves to 1.1 |
| `Text.WordsDoNotParse` | src/components/hvac/ModeSelector.tsx:56 | a token starting with a lower-case letter is not a number to `parseFloat` |
| `Text.ParsesAsFloat` | src/components/hvac/ModeSelector.tsx:56 | `!Number.isNaN(parseFloat(s))`: after leading white space and an optional sign, a digit, a point and a digit, or `Infinity` |
| `Text.Trim` | src/components/settings/SimultaneidadeTab.tsx:88 | the result is no longer than the input and neither starts nor ends with white space |
| `Text.TrimEmptyIffBlank` | src/components/settings/SimultaneidadeTab.tsx:88 | `s.trim()` is empty iff every character of s is white space |
| `Text.TrimIdempotent` | src/components/settings/SimultaneidadeTab.tsx:127 | trimming a trimmed string changes nothing |
| `SimultaneityAdmin.TableName` | src/components/settings/SimultaneidadeTab.tsx:44-46 | multi maps to `simultaneidade`, VRF to `simultaneidade_vrf` |
| `SimultaneityAdmin.TableNameInjective` | src/components/settings/SimultaneidadeTab.tsx:44-46 | two families share a table iff they are the same family |
| `SimultaneityAdmin.FetchRange` | src/components/settings/SimultaneidadeTab.tsx:52-68 | every page asks for exactly 25 rows, starting at a non-negative row for pages ≥ 1 |
| `SimultaneityAdmin.AdminState.Range` | src/components/settings/SimultaneidadeTab.tsx:52-68 | the current page asks for 25 rows, from row 0 on for pages ≥ 1 |
| `SimultaneityAdmin.PagesContiguousAndDisjoint` | src/components/settings/SimultaneidadeTab.tsx:52-68 | the next page starts right after the current one ends, and a later page starts after an earlier one ends |
| `SimultaneityAdmin.RowOnExactlyOnePage` | src/components/settings/SimultaneidadeTab.tsx:38-62 | row k lies in page p's range iff p = k div 25 + 1 |
| `SimultaneityAdmin.ValidateForm` | src/components/settings/SimultaneidadeTab.tsx:87-117 | the name error iff the trimmed name is empty; the number error iff the name is fine and `parseFloat` gives NaN; a non-positive error only for VRF |
| `SimultaneityAdmin.ValidateFormAccepts` | src/components/settings/SimultaneidadeTab.tsx:87-117 | accepted iff the name is not blank, the value parses, and for VRF only the value is above 0 |
| `SimultaneityAdmin.MultiAcceptsNonPositive` | src/components/settings/SimultaneidadeTab.tsx:107 | a value ≤ 0 is accepted for multi-split and refused for VRF |
| `SimultaneityAdmin.SubmitPayload` | src/components/settings/SimultaneidadeTab.tsx:119-162 | a record is written iff the form is accepted; it goes to the family's table with the trimmed non-empty name and exactly `parseFloat` of the value (never NaN), updating the edited row or inserting |
| `SimultaneityAdmin.SavedNameIsTrimmed` | src/components/settings/SimultaneidadeTab.tsx:127 | the saved name is its own trim, so saving it again stores the same name |
| `SimultaneityAdmin.Clicked` | src/components/settings/SimultaneidadeTab.tsx:310-343 | a click selects the header's column; the current column flips its direction, another column starts ascending |
| `SimultaneityAdmin.CodeActsAsName` | src/components/settings/SimultaneidadeTab.tsx:310-330 | the "Código" header behaves exactly like the "Nome" header |
| `SimultaneityAdmin.DoubleClick` | src/components/settings/SimultaneidadeTab.tsx:310-343 | two clicks on the current column restore its order; two on another leave it descending |
| `SimultaneityAdmin.AdminState.constructor` | src/components/settings/SimultaneidadeTab.tsx:26-36 | page 1, by name ascending, multi-split, dialogs closed, empty form, nothing edited |
| `SimultaneityAdmin.AdminState.ClickHeader` | src/components/settings/SimultaneidadeTab.tsx:310-343 | the sort state becomes `Clicked` of the old one; nothing else changes |
| `SimultaneityAdmin.AdminState.ResetForm` | src/components/settings/SimultaneidadeTab.tsx:213-216 | both fields empty and nothing edited; nothing else changes |
| `SimultaneityAdmin.AdminState.OpenNewItemDialog` | src/components/settings/SimultaneidadeTab.tsx:218-223 | the family is set, the type dialog closed, and a fresh form opened |
| `SimultaneityAdmin.AdminState.Edit` | src/components/settings/SimultaneidadeTab.tsx:177-184 | the row becomes the edited one, the form shows its name and value, and the dialog opens |
| `SimultaneityAdmin.AdminState.SelectType` | src/components/settings/SimultaneidadeTab.tsx:248 | the family toggles to the chosen one; an empty value changes nothing |
| `SimultaneityAdmin.AdminState.Saved` | src/components/settings/SimultaneidadeTab.tsx:164-166 | after a save the dialog closes and the form is reset |
| `ProductRegistration.Meaningful` | src/components/settings/ProductRegistrationTab.tsx:89 | the filter's test: present and not blank |
| `ProductRegistration.NonBlank` | src/components/settings/ProductRegistrationTab.tsx:89 | a string survives the filter iff it is present and not blank |
| `ProductRegistration.UniqueSorted` | src/components/settings/ProductRegistrationTab.tsx:88-91 | the sorted values are a permutation of the de-duplicated non-blank values |
| `ProductRegistration.UniqueSortedSpec` | src/components/settings/ProductRegistrationTab.tsx:88-91 | no blank strings, no duplicates, exactly the non-blank inputs (untrimmed), sorted under a total-preorder comparator |
| `ProductRegistration.UniqueSortedLength` | src/components/settings/ProductRegistrationTab.tsx:88-91 | one entry per distinct non-blank input |
| `ProductRegistration.HasActiveSupport` | src/components/settings/ProductRegistrationTab.tsx:83-85 | true iff some row has a boolean `active` |
| `ProductRegistration.ValidateEvap` | src/components/settings/ProductRegistrationTab.tsx:184-196 | missing fields iff marca, tipo or modelo is blank; accepted iff none is blank and nominal and real are finite numbers |
| `ProductRegistration.SaveEvap` | src/components/settings/ProductRegistrationTab.tsx:198-206 | a record iff accepted, with trimmed non-empty strings and the finite numbers of the fields |
| `ProductRegistration.ValidateCond` | src/components/settings/ProductRegistrationTab.tsx:488-502 | missing fields iff marca, orientacao or modelo is blank; accepted iff none is blank, hp is an integer and real is finite |
| `ProductRegistration.SaveCond` | src/components/settings/ProductRegistrationTab.tsx:504-513 | a record iff accepted, strings trimmed, hp and real the fields' numbers, a blank voltage saved as `null` and otherwise trimmed |
| `ProductRegistration.ValidateMulti` | src/components/settings/ProductRegistrationTab.tsx:802-823 | accepted iff the four names are not blank, both capacities are integers, a non-empty maximum is an integer, and the combinations are non-blank and parse as JSON |
| `ProductRegistration.SaveMulti` | src/components/settings/ProductRegistrationTab.tsx:825-836 | a record iff accepted, names trimmed, integer capacities, an empty maximum saved as `null`, and parsing combinations |
| `ProductRegistration.PageRange` | src/components/settings/ProductRegistrationTab.tsx:140-142 | the inclusive range spans exactly `pageSize` rows |
| `ProductRegistration.PageRangePartitions` | src/components/settings/ProductRegistrationTab.tsx:140-142 | consecutive pages are contiguous, and row k is on page p iff p = k div pageSize + 1 |
| `ProductRegistration.Pager.constructor` | src/components/settings/ProductRegistrationTab.tsx:102-103 | page 1 of 20 rows |
| `ProductRegistration.Pager.Range` | src/components/settings/ProductRegistrationTab.tsx:140-142 | the current page asks for `pageSize` rows, never before row 0 in a valid state |
| `ProductRegistration.Pager.Previous` | src/components/settings/ProductRegistrationTab.tsx:365 | one page back, never below page 1; the size is kept |
| `ProductRegistration.Pager.Next` | src/components/settings/ProductRegistrationTab.tsx:366 | one page forward; the size is kept |
| `ProductRegistration.Pager.SetPageSize` | src/components/settings/ProductRegistrationTab.tsx:301 | the chosen size of 20, 50 or 100, back on page 1 |
| `Collections.Dedupe` | src/components/hvac/BrandSelector.tsx:32-35 | the output is distinct, contains every input element, holds only input elements, and is no longer than the input |
| `Collections.FirstIndex` | src/components/hvac/BrandSelector.tsx:32 | the position of the first occurrence of an element |
| `Collections.DedupeKeepsFirstOrder` | src/components/hvac/BrandSelector.tsx:32-35 | the output lists the elements in the order of their first occurrences in the input |
| `Collections.DedupeLength` | src/components/hvac/BrandSelector.tsx:32-35 | the output has one element per distinct input element |
| `Collections.Sort` | src/components/hvac/BrandSelector.tsx:37 | the sorted copy is a permutation of the input (same multiset) |
| `Collections.SortSorted` | src/components/hvac/BrandSelector.tsx:37 | under a total-preorder comparator the sorted copy is sorted |
| `Collections.SortKeepsDistinct` | src/components/hvac/BrandSelector.tsx:37 | sorting distinct elements keeps them distinct, keeps the length, and keeps exactly the same elements |
| `BrandOptions.Trimmed` | src/components/hvac/BrandSelector.tsx:33 | every row's manufacturer, missing as empty, trimmed |
| `BrandOptions.NonEmpty` | src/components/hvac/BrandSelector.tsx:34 | a name survives iff it is non-empty |
| `BrandOptions.Names` | src/components/hvac/BrandSelector.tsx:32-35 | no manufacturer name is empty |
| `BrandOptions.NamesAreTrimmed` | src/components/hvac/BrandSelector.tsx:32-35 | every name is non-empty and trimmed, and a string is a name iff it is some row's trimmed non-empty manufacturer |
| `BrandOptions.FailedLoadOffersAllBrands` | src/components/hvac/BrandSelector.tsx:24-29 | an error gives exactly [Todas as marcas / todas] |
| `BrandOptions.NullDataIsEmpty` | src/components/hvac/BrandSelector.tsx:32 | `null` data gives only the all-brands entry |
| `BrandOptions.ToOptions` | src/components/hvac/BrandSelector.tsx:39 | one option per name, labelled with it and valued with its lower-case form |
| `BrandOptions.WithAllBrands` | src/components/hvac/BrandSelector.tsx:39 | the all-brands entry, then for each name in order an entry labelled with it and valued with its lower-case form |
| `BrandOptions.SortedNames` | src/components/hvac/BrandSelector.tsx:32-37 | the sorted names are a permutation of the de-duplicated names |
| `BrandOptions.LoadedOptions` | src/components/hvac/BrandSelector.tsx:24-40 | the all-brands entry always comes first, and is the only entry on an error |
| `BrandOptions.LoadedOptionsShape` | src/components/hvac/BrandSelector.tsx:39 | the all-brands entry first, then one entry per sorted name with label = name and value = lower-cased name |
| `BrandOptions.SortedNamesSpec` | src/components/hvac/BrandSelector.tsx:32-37 | the labels are the distinct names, each once, sorted under a total-preorder comparator, so the list has one entry more than there are distinct names |
| `BrandOptions.CaseVariantsShareValue` | src/components/hvac/BrandSelector.tsx:32-39 | names that differ only in case both stay and report the same value |
| `BrandOptions.FollowProp` | src/components/hvac/BrandSelector.tsx:46-48 | a new prop is shown as it is and nothing is reported |
| `BrandOptions.Choose` | src/components/hvac/BrandSelector.tsx:50-53 | a choice is shown and reported unchanged |
| `BrandOptions.ChoiceRoundTrip` | src/components/hvac/BrandSelector.tsx:46-53 | when the parent passes the reported value back, the selection stays where it is |

## Left out

- Supabase I/O is not modelled: queries, inserts, updates, deletes, the `active`-column probe before inserting, and the search/filter/order clauses. `Calculator.LoadOptions` receives what each table answered. The caller passes `Some(rows)` when a table answered without an error and with non-`null` data, even when there are no rows, and `None` otherwise. When the main table answers with no rows, the source keeps them and does not fall back (lines 68 and 104-107), and so does the model. The legacy rows' `id ?? idx` fallback is not modelled: rows arrive with their ids.
- `VrfCalculator.Calculator.Results` and `VrfCalculator.Calculator.LoadOptions` model the calculator as written. The corrected cap of "## Findings" is stated by `RecalculateCorrected`; the class does not use it.
- `DaikinCapNotice` and `InvalidCombinationNotice` are the advisory conditions only. The render guard `results && evaporators.length > 0` around the result panel (`VRFCondensadoraCalculator.tsx` line 372) is not modelled. The same applies to what that guard encloses: the panel's copy of the 145% notice (lines 375-377) and the badges (lines 460-471).
- The async load-cancellation flags, effect scheduling and the debounce timer are timing concerns and are not modelled. The calculator's results are derived from the state, as though the effect had already run.
- JSX rendering, toasts, dialogs other than their open flags, `toLocaleString`/`formatValue` and the `Math.round(valor*100)` labels are presentation only.
- Parsing is abstract (`search`, `toNumber`, `parseFloat`, `show`, `leq`, `parsesJson`). So the model does not know, for example, that `Number("")` is 0. The exception is the selector's numeric-token test (`ParsesAsFloat`), which follows the grammar `parseFloat` accepts.
- The condenser search and the evaporator catalog data are not part of this model.
- `NaN` and the infinities as simultaneity factors are not modelled: a factor is a real or `null`. Catalog nominals are integers, so the string keys of `Object.fromEntries` are modelled as integers.
- `Text.LowerChar` lower-cases ASCII and Latin-1 letters only; other Unicode case mappings are not modelled.
- `VrfCalculator.Calculator.ChangeQuantity` writes the new quantity into a copy of the line. The source writes into the same object shared with the previous list (aliasing), which the model does not capture. The source crashes on an index outside the list, so the method requires a valid index.
- `VrfCalculator.Calculator.SetPicker` takes the nominal as given. The type picker's choice of the first catalog nominal (`Object.keys` order) when the type changes is not modelled.
- The multi-split `combinacoes` is saved as the text that was parsed, not as a JSON value.
- The sort uses an insertion sort. Every stable sort gives the same result under a total preorder, so this matches `Array.prototype.sort`. The result is only claimed sorted when `leq` is a total preorder.
- The edit-dialog fillers of the product forms (`openNew`, `openEdit`) and the evaporator type list loaded by `fetchDistincts` are not modelled.

## Findings

| source | as written | input that shows it | evidently intended | confidence | as-written member | corrected member |
|---|---|---|---|---|---|---|
| src/components/hvac/VRFCondensadoraCalculator.tsx:142 | the Daikin cap tests `raw > 130`, so it only caps factors stored as percents. The notice at line 389 tests the normalised percent (`getSimultPercent() > 130`) and says the calculations use 130% | a factor stored as the fraction 1.45: Percent gives 145 and the notice shows, yet Daikin is computed with 1.45, i.e. 145% | cap at 130% on the scale the factor is stored in (130 for percents, 1.3 for fractions), so the notice tells the truth | medium, not executed | `VrfCalculator.RecalculateFractionEscapesCap` | `VrfCalculator.RecalculateCorrected` |
