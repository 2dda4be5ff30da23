# GardenQuote estimating core in Dafny

This project models the estimating core of GardenQuote, a web app that landscapers use
to price a patio. The user types the length and width of the job, picks a base depth
and says whether soil is dug out. The app then works out:

- the area, volume, waste, skips, 600x600 slabs, sub-base and sand;
- the labour cost, the total cost and the client price (cost plus 20%);
- an editable bill of materials with optional VAT;
- a WhatsApp share link.

A locale context picks the currency and the interface language. It does this from a
saved record, from an IP lookup, or from the browser's language and time zone.

The model has eight modules, one file each, plus `Wrappers` for `Option`:

- `Calculations` (`calculations.dfy`) covers `src/utils/calculations.ts`:
  - the seven quantity formulas and `calculateAll`;
  - the standard prices and `estimateMaterialsCost`;
  - `calculateQuote`;
  - the share message and `generateWhatsAppUrl`.
- `Materials` (`materials.dfy`) covers `src/components/MaterialsCalculator.tsx`:
  - the default lines of a calculation and the catalogue of extras;
  - the edits, removals, additions and reset;
  - the subtotal, the VAT and the total reported to the owner.

  The panel's state is the class `MaterialsLedger`.
- `Estimator` (`estimator.dfy`) covers `src/components/Estimator.tsx`:
  - the depth options;
  - the two effects that derive the calculation and the quote from the text fields;
  - reset, save and share.

  The screen's state is the class `EstimatorState`. Its invariant `Valid` says that both
  derived values are those of the current inputs.
- `Locale` (`locale.dfy`) and `Translations` (`translations.dfy`) cover
  `src/contexts/LocaleContext.tsx`:
  - the currency, language, country and time-zone tables;
  - the interface strings in five languages;
  - `setCurrency` and `setLanguage`;
  - the load of the saved record;
  - `autoDetectLocale`, `currencySymbol` and `t`.

  The provider's state is the class `LocaleState`. Its invariant is that the currency and
  the language are always codes the tables list.
- `Numeric`, `JsNumber` and `UriEncoding` model the JavaScript built-ins that the core
  depends on:
  - `Math.ceil`, and `Number(x.toFixed(n))`, rounded half away from zero;
  - `String(x)` for whole-pence amounts and `x.toFixed(2)`;
  - `parseFloat(s) || 0`;
  - `encodeURIComponent` and its inverse.

Numbers are exact reals, so `0.36 * 1.1` is exactly `0.396`. Each text field is a
string, and `parseFloat` is modelled character by character: leading white space, a
sign, digits, a point, and an exponent.

## Model

| member | source | states |
|---|---|---|
| Calculations.CalculateArea | src/utils/calculations.ts:24-26 | the area is non-negative for non-negative sides and positive for positive sides |
| Calculations.CalculateVolume | src/utils/calculations.ts:32-34 | the depth is read as millimetres: the volume times 1000 is area times depth; positive area and depth give a positive volume |
| Calculations.CalculateWasteVolume | src/utils/calculations.ts:40-43 | no waste without digging out; for a positive volume that is dug out, the waste is more than the volume (the exact 30% bulking, waste = volume * 1.3, is stated against the inputs in Calculations.CalculateAllSpec) |
| Calculations.CalculateSkipsNeeded | src/utils/calculations.ts:48-51 | no skip for zero waste; otherwise the count n with 6(n-1) < waste <= 6n |
| Calculations.CalculateSlabs | src/utils/calculations.ts:58-62 | the least whole n with area/0.36*1.1 <= n |
| Calculations.CalculateSubBase | src/utils/calculations.ts:68-71 | volume * 2.2 to the nearest penny, a tie going away from zero |
| Calculations.CalculateSand | src/utils/calculations.ts:77-80 | volume * 1.7 to the nearest penny, a tie going away from zero |
| Calculations.CalculateAll | src/utils/calculations.ts:85-103 | the reported area and tonnages are 2-place figures; volume and waste are 3-place figures |
| Calculations.CalculateAllSpec | src/utils/calculations.ts:85-103 | each reported figure against the exact inputs: area and tonnages within 0.005, volume and waste within 0.0005; slabs and skips bound the unrounded area and waste |
| Calculations.NoDiggingNoSkips | src/utils/calculations.ts:40-51 | without digging out, the waste is 0 and no skip is needed |
| Calculations.SkipsZeroIffNoWaste | src/utils/calculations.ts:48-51 | for non-negative waste, zero skips exactly when there is no waste, and at least one skip otherwise |
| Calculations.SkipsLeast | src/utils/calculations.ts:48-51 | any skip count that holds the waste is at least the computed one |
| Calculations.SlabsLeast | src/utils/calculations.ts:58-62 | any count that covers the area with the 10% allowance is at least the computed one |
| Calculations.SlabsMonotone | src/utils/calculations.ts:58-62 | a larger area never needs fewer slabs |
| Calculations.OneSlabAreaNeedsTwo | src/utils/calculations.ts:58-62 | 0.36 m2 needs 2 slabs once 10% is added |
| Calculations.SkipsIffDigging | src/utils/calculations.ts:85-103 | for a job with positive dimensions and depth, skips are needed exactly when soil is dug out |
| Calculations.SlabsUseUnroundedArea | src/utils/calculations.ts:86-99 | slabs come from the unrounded area: 0.3272 m2 reports as 0.33 m2 with 1 slab, though 0.33 m2 would need 2 |
| Calculations.PatioExample | src/utils/calculations.ts:85-125 | 5 m x 4 m at 100 mm, dug out: 20 m2, 2 m3, 2.6 m3 of waste, 1 skip, 62 slabs, 4.4 t and 3.4 t, costing 752 |
| Calculations.EstimateMaterialsCost | src/utils/calculations.ts:108-125 | to the nearest penny, a tie going away from zero, 3.5 per slab + 30 per tonne of sub-base + 45 per tonne of sand + 250 per skip |
| Calculations.MaterialsCostExact | src/utils/calculations.ts:118-125 | for whole-pence tonnages the cost is exactly the bill at the standard prices |
| Calculations.HalfPenceOfInt | src/utils/calculations.ts:119 | any whole number of slabs at 3.50 costs whole pence |
| Calculations.CalculateQuote | src/utils/calculations.ts:142-152 | labour, total and client price are each rate*days, materials+labour and 1.2*(materials+labour) to the nearest penny, a tie going away from zero |
| Calculations.QuoteExample | src/utils/calculations.ts:142-152 | one day at 250 on 100 of materials gives 250, 350 and 420 |
| Calculations.QuoteRoundsEachFigure | src/utils/calculations.ts:143-150 | the client price is rounded from the unrounded total: 0.125 shows a total of 0.13 but a price of 0.15, not 0.16 |
| Calculations.Template | src/utils/calculations.ts:164-176 | the message template has thirteen lines |
| Calculations.NewlineIndex | src/utils/calculations.ts:164-176 | the first line feed of a text, or its length when it has none |
| Calculations.NewlineIndexOfLine | src/utils/calculations.ts:164-176 | a line without a line feed ends at the separator that follows it |
| Calculations.SplitJoinLines | src/utils/calculations.ts:164-176 | splitting lines joined by line feeds gives the lines back |
| Calculations.SplitFirstLine | src/utils/calculations.ts:164-176 | a line without a line feed, followed by a line feed, splits off as the first line; alone it is one line |
| Calculations.NoNewlineConcat | src/utils/calculations.ts:164-176 | two texts without a line feed concatenate to one without |
| Calculations.TemplateNoNewline | src/utils/calculations.ts:164-176 | figures without line feeds give template lines without line feeds |
| Calculations.MessageLines | src/utils/calculations.ts:164-173 | thirteen lines, none holding a line feed, whatever the figures (figures written by `String` and `toFixed(2)`) |
| Calculations.WhatsAppMessage | src/utils/calculations.ts:164-176 | read line by line with `split("\n")`, the message is exactly the thirteen message lines, in order |
| Calculations.GenerateWhatsAppUrl | src/utils/calculations.ts:178 | the URL starts with the wa.me prefix; the rest holds only URI-safe characters and decodes to the message |
| Materials.DefaultMaterials | src/components/MaterialsCalculator.tsx:35-72 | no lines without a calculation; otherwise four lines when skips are needed and three when not (each line's id, name, unit, quantity and price in DefaultLabels and DefaultFigures) |
| Materials.With | src/components/MaterialsCalculator.tsx:121 | the edited field has the new value and every other field is as it was |
| Materials.Ids | src/components/MaterialsCalculator.tsx:21-27 | one id per line, in order |
| Materials.Updated | src/components/MaterialsCalculator.tsx:118-124 | same length; lines with the id are edited and every other line is unchanged |
| Materials.Removed | src/components/MaterialsCalculator.tsx:126-128 | a line survives exactly when its id differs |
| Materials.Subtotal | src/components/MaterialsCalculator.tsx:160-164 | no contract of its own: a left-to-right sum of parsed quantity times parsed price; its laws are SubtotalConcat and SubtotalSingle |
| Materials.VatAmount | src/components/MaterialsCalculator.tsx:166 | no contract of its own: 20% of the subtotal when VAT is on, else 0; used by DisplayedTotal |
| Materials.DisplayedTotal | src/components/MaterialsCalculator.tsx:166-167 | subtotal plus VAT is the subtotal times 1.2 with VAT on and the subtotal with VAT off |
| Materials.ExtraItem | src/components/MaterialsCalculator.tsx:131-137 | no contract of its own: the catalogue line with quantity "1"; its properties are AddExtraAddsPrice and ExtraItemIdsDiffer |
| Materials.CustomItem | src/components/MaterialsCalculator.tsx:143-149 | no contract of its own: the "Custom Item" line at "1" x "0"; its properties are AddCustomKeepsSubtotal and CustomItemIdsDiffer |
| Materials.KeyOf | src/components/MaterialsCalculator.tsx:104 | the re-initialisation key is absent exactly when there is no calculation |
| Materials.ReportedTotal | src/components/MaterialsCalculator.tsx:107-116 | the subtotal (times 1.2 with VAT) to the nearest penny, a tie going away from zero |
| Materials.MaterialsLedger.constructor | src/components/MaterialsCalculator.tsx:95-104 | the first render: VAT off, and the default lines of the calculation it is given |
| Materials.MaterialsLedger.ReceiveResults | src/components/MaterialsCalculator.tsx:100-104 | the lines are replaced by the defaults only when a key figure changed and a calculation exists; otherwise they are kept |
| Materials.MaterialsLedger.UpdateMaterial | src/components/MaterialsCalculator.tsx:118-124 | the lines become the edited lines; nothing else changes |
| Materials.MaterialsLedger.RemoveMaterial | src/components/MaterialsCalculator.tsx:126-128 | the lines become the lines without the id; nothing else changes |
| Materials.MaterialsLedger.AddMaterial | src/components/MaterialsCalculator.tsx:130-140 | a catalogue line with quantity 1 is appended; nothing else changes |
| Materials.MaterialsLedger.AddCustomMaterial | src/components/MaterialsCalculator.tsx:142-152 | a "Custom Item" line with quantity 1 at price 0 is appended; nothing else changes |
| Materials.MaterialsLedger.ResetToDefaults | src/components/MaterialsCalculator.tsx:154-158 | the defaults of the current calculation; no change without one |
| Materials.MaterialsLedger.SetIncludeVAT | src/components/MaterialsCalculator.tsx:97 | only the VAT switch changes |
| Materials.MaterialsLedger.Total | src/components/MaterialsCalculator.tsx:107-116 | what `onTotalChange` receives: the total the panel shows, to the nearest penny with a tie going away from zero |
| Materials.GetWithField | src/components/MaterialsCalculator.tsx:121 | reading a field back after an edit gives the new value for that field and the old value for any other |
| Materials.UpdateAbsentId | src/components/MaterialsCalculator.tsx:118-124 | editing an id that no line carries changes nothing |
| Materials.UpdatedLines | src/components/MaterialsCalculator.tsx:118-124 | other lines are untouched; an edited line carries the new value and keeps its other fields |
| Materials.RemovedConcat | src/components/MaterialsCalculator.tsx:126-128 | removal distributes over concatenation, so the remaining lines keep their order |
| Materials.RemovedSingle | src/components/MaterialsCalculator.tsx:126-128 | a single line is dropped exactly when it has the id |
| Materials.RemoveAbsentId | src/components/MaterialsCalculator.tsx:126-128 | removing an id that no line carries changes nothing |
| Materials.SumOfConcat | src/components/MaterialsCalculator.tsx:160-164 | the sum over two lists one after the other is the sum of their sums |
| Materials.SumOfSingle | src/components/MaterialsCalculator.tsx:160-164 | the sum over one line is that line's cost |
| Materials.SumOfThree | src/components/MaterialsCalculator.tsx:160-164 | the sum over three lines is their three costs added |
| Materials.SubtotalConcat | src/components/MaterialsCalculator.tsx:160-164 | the subtotal is additive over concatenation |
| Materials.SubtotalSingle | src/components/MaterialsCalculator.tsx:160-164 | the subtotal of one line is its quantity times its price, as parsed |
| Materials.AddCustomKeepsSubtotal | src/components/MaterialsCalculator.tsx:142-152 | appending a custom line leaves the subtotal unchanged |
| Materials.AddExtraAddsPrice | src/components/MaterialsCalculator.tsx:130-140 | appending a catalogue line adds its unit price to the subtotal |
| Materials.DisplayedTotalAgrees | src/components/MaterialsCalculator.tsx:107-116 | the reported total is the shown subtotal plus VAT (lines 166-167), rounded to pence |
| Materials.NoResultsNoDefaults | src/components/MaterialsCalculator.tsx:35-36 | no calculation, no default lines |
| Materials.DefaultIds | src/components/MaterialsCalculator.tsx:35-72 | the default lines are slabs, sub-base and sand, plus skips exactly when skips are needed |
| Materials.IdsConcat | src/components/MaterialsCalculator.tsx:35-72 | taking ids distributes over concatenation |
| Materials.PriceWithOf | src/components/MaterialsCalculator.tsx:161-163 | a line whose fields read as q and p costs q*p |
| Materials.LineCostOfShown | src/components/MaterialsCalculator.tsx:42-66 | a line whose fields are `String` of whole-pence amounts q and p costs exactly q*p |
| Materials.DefaultLineCosts | src/components/MaterialsCalculator.tsx:35-72 | each default line costs the calculated quantity times the standard price: 3.50 per slab, 30 and 45 per tonne, 250 per skip |
| Materials.DefaultLabels | src/components/MaterialsCalculator.tsx:37-70 | the default lines are slabs "Slabs (600x600)" in pcs, subbase "Sub-base (Limestone)" in tonnes, sand "Sharp Sand" in tonnes, and, when skips are needed, skips "Skip Hire (6-yard)" in skips |
| Materials.ShownFieldsReadBack | src/components/MaterialsCalculator.tsx:40-65 | fields written by `String` from whole-pence figures read back as those figures |
| Materials.DefaultFigures | src/components/MaterialsCalculator.tsx:35-72 | each default quantity reads back as the calculated figure (slabs, sub-base tonnes, sand tonnes, skips) and each price as the standard price (3.50, 30, 45, 250) |
| Materials.DefaultSubtotalIsEstimate | src/components/MaterialsCalculator.tsx:35-72 | the default bill, rounded to pence, is what `estimateMaterialsCost` gives for the same calculation |
| Materials.ExtraItemIdsDiffer | src/components/MaterialsCalculator.tsx:132 | catalogue lines added at different times get different ids |
| Materials.CustomItemIdsDiffer | src/components/MaterialsCalculator.tsx:144 | custom lines added at different times get different ids |
| Estimator.JobInputs | src/components/Estimator.tsx:100-108 | the depth is the option the slider index points at, `DEPTH_OPTIONS[depthIndex]`; length and width are `parseFloat(s) \|\| 0` of the fields |
| Estimator.ResultsFor | src/components/Estimator.tsx:99-115 | there is a calculation exactly when both dimensions parse as positive, and it is `calculateAll` of the parsed inputs |
| Estimator.QuoteFor | src/components/Estimator.tsx:118-133 | there is a quote exactly when there is a calculation, and it is `calculateQuote` of the parsed quote fields |
| Estimator.ShareOf | src/components/Estimator.tsx:171-177 | the share figures are the area, slabs, tonnages and client price |
| Estimator.EstimatorState.constructor | src/components/Estimator.tsx:48-60 | default fields (50 mm depth, 250 a day, 1 day, 0 materials), with no calculation and no quote |
| Estimator.EstimatorState.Recompute | src/components/Estimator.tsx:99-133 | after both effects run, the derived state agrees with the inputs and the inputs are unchanged |
| Estimator.EstimatorState.SetLength | src/components/Estimator.tsx:99-115 | the new length, with derived state recomputed; no other input changes |
| Estimator.EstimatorState.SetWidth | src/components/Estimator.tsx:99-115 | the new width, with derived state recomputed; no other input changes |
| Estimator.EstimatorState.SetDepthIndex | src/components/Estimator.tsx:214-221 | the slider's index, with derived state recomputed; no other input changes |
| Estimator.EstimatorState.SetDiggingOut | src/components/Estimator.tsx:99-115 | the new switch, with derived state recomputed; no other input changes |
| Estimator.EstimatorState.SetDayRate | src/components/Estimator.tsx:118-133 | the new rate; the calculation is untouched and the quote follows |
| Estimator.EstimatorState.SetDaysEstimated | src/components/Estimator.tsx:118-133 | the new days; the calculation is untouched and the quote follows |
| Estimator.EstimatorState.SetMaterialsCost | src/components/Estimator.tsx:118-133 | the new materials cost; the calculation is untouched and the quote follows |
| Estimator.EstimatorState.HandleReset | src/components/Estimator.tsx:135-144 | every field is back to its default, leaving no calculation and no quote |
| Estimator.EstimatorState.HandleSaveQuote | src/components/Estimator.tsx:146-166 | nothing without a calculation and a quote; otherwise a record whose results are `calculateAll` of its inputs and whose quote prices its figures, with the clock readings as id and timestamp |
| Estimator.EstimatorState.HandleWhatsAppShare | src/components/Estimator.tsx:168-180 | nothing without a calculation and a quote; otherwise the link for the current figures |
| Estimator.DefaultsCalculateNothing | src/components/Estimator.tsx:48-60 | the default fields give neither a calculation nor a quote |
| Estimator.UnreadableLengthCalculatesNothing | src/components/Estimator.tsx:100-114 | a length that `parseFloat` reads as NaN gives no calculation |
| Translations.KeyName | src/contexts/LocaleContext.tsx:111-124 | every key has a non-empty name |
| Translations.EnglishText | src/contexts/LocaleContext.tsx:127-198 | every English string is non-empty |
| Translations.SpanishText | src/contexts/LocaleContext.tsx:199-270 | every Spanish string is non-empty |
| Translations.FrenchText | src/contexts/LocaleContext.tsx:271-342 | every French string is non-empty |
| Translations.GermanText | src/contexts/LocaleContext.tsx:343-414 | every German string is non-empty |
| Translations.PortugueseText | src/contexts/LocaleContext.tsx:415-487 | every Portuguese string is non-empty |
| Translations.Translate | src/contexts/LocaleContext.tsx:585-591 | a non-empty string: the language's own string if it has a table, English otherwise |
| Locale.CurrencyRow | src/contexts/LocaleContext.tsx:6-50 | every row is filed under its own code and has a non-empty symbol |
| Locale.LanguageRow | src/contexts/LocaleContext.tsx:53-84 | every row is filed under its own code |
| Locale.CountryCurrency | src/contexts/LocaleContext.tsx:87-97 | every currency the country table names has a row in the currency table |
| Locale.CountryLanguage | src/contexts/LocaleContext.tsx:100-108 | every language the country table names has a row in the language table |
| Locale.CountryFromTimezone | src/contexts/LocaleContext.tsx:676-703 | a listed zone gives a two-letter country code, and any other zone gives null (examples in TimezoneExamples and SofiaIsBulgaria) |
| Locale.WithCurrency | src/contexts/LocaleContext.tsx:552-556 | a listed code is taken and any other leaves the settings as they were; a supported state stays supported |
| Locale.WithLanguage | src/contexts/LocaleContext.tsx:558-562 | the corrected `setLanguage`: a listed code is taken and any other leaves the settings as they were; a supported state stays supported (the guard as written also takes inherited names, see Findings) |
| Locale.Loaded | src/contexts/LocaleContext.tsx:518-535 | an unreadable record changes nothing; a stored currency or language is adopted exactly when it is non-empty and listed, otherwise the old one stays; a non-empty country is adopted; the state stays supported |
| Locale.BeforeDash | src/contexts/LocaleContext.tsx:624 | the prefix of the tag before the first dash |
| Locale.WithCountryCurrency | src/contexts/LocaleContext.tsx:608-612 | a country the table lists switches to its currency; any other country changes nothing; language and country are kept; the state stays supported |
| Locale.WithCountryLanguage | src/contexts/LocaleContext.tsx:614-618 | a country the table lists switches to its language; any other country changes nothing; currency and country are kept; the state stays supported |
| Locale.Detected | src/contexts/LocaleContext.tsx:593-645 | a refused lookup or an empty code changes nothing; a located country is recorded and its listed currency and language adopted, else the old ones kept; a failed lookup adopts the browser language when listed (the corrected guard; the guard as written is in Findings) and the time zone's country and its listed currency, else keeps the old ones; the state stays supported |
| Locale.SymbolOf | src/contexts/LocaleContext.tsx:564 | the table's symbol, or "£" for a code that is not listed |
| Locale.LocaleState.constructor | src/contexts/LocaleContext.tsx:511-514 | GBP, English, no country |
| Locale.LocaleState.SetCurrency | src/contexts/LocaleContext.tsx:552-556 | the state becomes `WithCurrency` of the old state and stays valid |
| Locale.LocaleState.SetLanguage | src/contexts/LocaleContext.tsx:558-562 | the state becomes `WithLanguage` of the old state and stays valid |
| Locale.LocaleState.LoadSaved | src/contexts/LocaleContext.tsx:518-540 | the state becomes `Loaded` of the old state and stays valid |
| Locale.LocaleState.ApplyDetection | src/contexts/LocaleContext.tsx:593-645 | the state becomes `Detected` of the old state and stays valid |
| Locale.LocaleState.Symbol | src/contexts/LocaleContext.tsx:564 | in a valid state, the symbol of the current currency's row (the fallback is never used) |
| Locale.LocaleState.T | src/contexts/LocaleContext.tsx:585-591 | never empty; the selected language's own string when it has a table, English otherwise |
| Locale.SymbolsNonEmpty | src/contexts/LocaleContext.tsx:6-50 | every listed currency has a non-empty symbol |
| Locale.CountryTablesListed | src/contexts/LocaleContext.tsx:87-108 | every currency and language the country tables name is listed |
| Locale.TranslatedLanguagesListed | src/contexts/LocaleContext.tsx:127-487 | every language with its own strings is listed; any other language reads English |
| Locale.DetectGermany | src/contexts/LocaleContext.tsx:602-619 | a German address gives EUR, German and DE |
| Locale.DetectTaiwan | src/contexts/LocaleContext.tsx:602-619 | a Taiwanese address gives Chinese and TW but keeps GBP |
| Locale.FallbackSofia | src/contexts/LocaleContext.tsx:620-638 | with the lookup failed, "bg-BG" in Europe/Sofia gives Bulgarian and BG but keeps GBP |
| Locale.SofiaIsBulgaria | src/contexts/LocaleContext.tsx:676-703 | Europe/Sofia maps to BG, which has no currency entry |
| Locale.TimezoneExamples | src/contexts/LocaleContext.tsx:676-703 | London gives GB, Kolkata gives IN, and an unlisted zone gives nothing |
| Locale.WithCurrencyAsWritten | src/contexts/LocaleContext.tsx:552-556 | the guard as written takes every code that is truthy as a property, inherited names included |
| Locale.AsWrittenGuardAdmitsConstructor | src/contexts/LocaleContext.tsx:552-556 | with the guard as written, "constructor" leaves a supported state unsupported |
| Locale.GuardsAgree | src/contexts/LocaleContext.tsx:552-556 | the own-key guard and the guard as written agree on every code except the inherited names |
| Locale.LoadedAsWritten | src/contexts/LocaleContext.tsx:518-535 | the load with the guards as written: a stored code is adopted whenever its table lookup is truthy, inherited names included |
| Locale.AsWrittenLoadAdmitsConstructor | src/contexts/LocaleContext.tsx:523-528 | a stored currency or language "constructor" makes the load as written leave the state unsupported, while the own-key load keeps GBP and English |
| Locale.LoadGuardsAgree | src/contexts/LocaleContext.tsx:523-528 | the two loads agree on every record that names no inherited property |
| Locale.WithLanguageAsWritten | src/contexts/LocaleContext.tsx:558-562 | `setLanguage` with the guard as written: a code is taken whenever its lookup in the language table is truthy, inherited names included |
| Locale.AsWrittenLanguageGuardAdmitsConstructor | src/contexts/LocaleContext.tsx:558-562 | under the guard as written `setLanguage("constructor")` leaves the state unsupported, while the own-key guard keeps English |
| Locale.LanguageGuardsAgree | src/contexts/LocaleContext.tsx:558-562 | the two language guards agree on every code except the inherited names |
| Locale.AsWrittenFallbackAdmitsValueOf | src/contexts/LocaleContext.tsx:624-627 | under the guard as written a browser language tag "valueOf" becomes the language and leaves the state unsupported; the tag is no listed language |
| Locale.ValueOfUnlisted | src/contexts/LocaleContext.tsx:624-627 | "valueOf" is an inherited name and no language of the table |
| Locale.FallbackKeepsUnlistedLanguage | src/contexts/LocaleContext.tsx:624-627 | a failed lookup whose browser language is not listed keeps the language |
| Locale.BeforeDashOfPlainTag | src/contexts/LocaleContext.tsx:624 | a tag without a dash is its own primary subtag |
| Numeric.Ceil | src/utils/calculations.ts:50 | `Math.ceil`: the least integer not below x |
| Numeric.HalfUp | src/utils/calculations.ts:70 | the nearest whole number, with ties rounded up |
| Numeric.FixedUnits | src/utils/calculations.ts:70 | `toFixed`'s unit count: the nearest whole number, with a tie going up for non-negative input and down for negative input, so away from zero |
| Numeric.Round2 | src/utils/calculations.ts:70 | `Number(x.toFixed(2))`: whole pence, the nearest hundredth with ties away from zero, sign kept |
| Numeric.Round3 | src/utils/calculations.ts:96-97 | `Number(x.toFixed(3))`: whole thousandths, the nearest thousandth with ties away from zero, sign kept |
| Numeric.Round2Exact | src/utils/calculations.ts:70 | rounding leaves whole pence alone |
| Numeric.Round2Idempotent | src/utils/calculations.ts:148-150 | rounding to pence twice is rounding once |
| Numeric.Round3Exact | src/utils/calculations.ts:96-97 | rounding to 3 places leaves whole thousandths alone |
| Numeric.HasCentsAdd | src/utils/calculations.ts:124 | sums of whole pence are whole pence |
| Numeric.HasCentsInt | src/utils/calculations.ts:122 | integers are whole pence |
| Numeric.HasCentsMul | src/utils/calculations.ts:120-121 | integer multiples of whole pence are whole pence |
| Numeric.HalfUpOfPence | src/utils/calculations.ts:173 | the magnitude of a whole-pence amount, in pence, needs no rounding |
| Numeric.HalfUpOfWhole | src/utils/calculations.ts:173 | a whole number needs no rounding |
| Numeric.Round2TiesAwayFromZero | src/utils/calculations.ts:148-150 | 0.125 rounds to 0.13 and -0.125 to -0.13 |
| JsNumber.ParseFloat | src/components/Estimator.tsx:100-101 | no contract of its own: `parseFloat`, with NaN as None; its round trips are ParseShowNumber and ParseToFixed2 |
| JsNumber.Parse | src/components/Estimator.tsx:100-101 | no contract of its own: `parseFloat(s) \|\| 0`; ParseDefaults and ParseShowNumber pin its values |
| JsNumber.ShowNumber | src/components/MaterialsCalculator.tsx:42-66 | no contract of its own: `String(x)` for whole-pence x; ParseShowNumber proves it reads back as x |
| JsNumber.ToFixed2 | src/utils/calculations.ts:173 | no contract of its own: `x.toFixed(2)`; ParseToFixed2 proves it reads back as Round2(x) |
| JsNumber.NatToString | src/components/Estimator.tsx:150 | `Date.now().toString()`: digits with no leading zero that read back as the number |
| JsNumber.CentsFraction | src/components/MaterialsCalculator.tsx:42-66 | the fraction digits `String` writes for f hundredths: none for 0, and otherwise at most two, without a trailing zero |
| JsNumber.TwoDigits | src/utils/calculations.ts:173 | exactly two digits that read back as f |
| JsNumber.SkipSpace | src/components/Estimator.tsx:100 | `parseFloat` skips leading white space: the rest does not start with white space (exactly what is dropped is stated in SkipSpaceDropsLeadingSpace) |
| JsNumber.SkipSpaceDropsLeadingSpace | src/components/Estimator.tsx:100 | what remains is a suffix of the text, and everything dropped before it is white space |
| JsNumber.LeadingDigits | src/components/Estimator.tsx:100 | the length of the leading run of digits |
| JsNumber.ApplySign | src/components/Estimator.tsx:100 | a minus sign negates the literal, and NaN stays NaN |
| JsNumber.ParseShowNumber | src/components/MaterialsCalculator.tsx:109-110 | `parseFloat(String(x))` is x for every whole-pence amount, negative ones included |
| JsNumber.ParseNonNegativeShowNumber | src/components/MaterialsCalculator.tsx:109-110 | the non-negative half of that round trip |
| JsNumber.ParseNegativeShowNumber | src/components/MaterialsCalculator.tsx:109-110 | the negative half of that round trip |
| JsNumber.ParseToFixed2 | src/utils/calculations.ts:173 | `parseFloat(x.toFixed(2))` is the pence rounding of x |
| JsNumber.ParseNonNegativeToFixed2 | src/utils/calculations.ts:173 | the non-negative half of that round trip |
| JsNumber.ParseNegativeToFixed2 | src/utils/calculations.ts:173 | the negative half of that round trip |
| JsNumber.ParseDefaults | src/components/Estimator.tsx:48-58 | "250", "1", "0" and "" read as 250, 1, 0 and 0 |
| JsNumber.ParseFloatUnsigned | src/components/Estimator.tsx:100 | text that starts with a digit is read as an unsigned decimal literal |
| JsNumber.ParseFloatNegative | src/components/Estimator.tsx:100 | a leading minus negates the literal after it |
| JsNumber.ReadCentsText | src/components/MaterialsCalculator.tsx:42-66 | `String` of m hundredths reads back as m/100 |
| JsNumber.ReadFixedText | src/utils/calculations.ts:173 | two-place text of m hundredths reads back as m/100 |
| JsNumber.FractionOfCents | src/components/MaterialsCalculator.tsx:109-110 | fraction digits of f hundredths read back as f/100 |
| JsNumber.ShowNumberNumeral | src/utils/calculations.ts:166-171 | `String(x)` holds only digits, a point and a sign |
| JsNumber.ToFixed2Numeral | src/utils/calculations.ts:173 | `toFixed(2)` holds only digits, a point and a sign |
| UriEncoding.EncodeURIComponent | src/utils/calculations.ts:178 | no contract of its own: `encodeURIComponent`; its partners are DecodeEncode and EncodeSafe |
| UriEncoding.DecodeURIComponent | src/utils/calculations.ts:178 | no contract of its own: `decodeURIComponent`, None where it throws; DecodeEncode proves it inverts the encoding |
| UriEncoding.Utf8 | src/utils/calculations.ts:178 | one to four bytes per character |
| UriEncoding.PercentBytes | src/utils/calculations.ts:178 | three characters per byte |
| UriEncoding.ReadGroups | src/utils/calculations.ts:178 | n percent groups yield n bytes |
| UriEncoding.HexRoundTrip | src/utils/calculations.ts:178 | a hex digit reads back as its value |
| UriEncoding.ReadPercentBytes | src/utils/calculations.ts:178 | percent-encoded bytes read back as those bytes |
| UriEncoding.Utf8RoundTrip | src/utils/calculations.ts:178 | a character's UTF-8 bytes decode back to it |
| UriEncoding.DecodeEncodedChar | src/utils/calculations.ts:178 | the encoding of one character decodes to it, whatever follows |
| UriEncoding.DecodeEncode | src/utils/calculations.ts:178 | `decodeURIComponent(encodeURIComponent(s)) == s` |
| UriEncoding.PercentBytesSafe | src/utils/calculations.ts:178 | percent groups hold only `%` and hex digits |
| UriEncoding.EncodeSafe | src/utils/calculations.ts:178 | the encoding holds only unreserved characters and `%` |

## Left out

- Persistence. The model leaves out `localStorage`:
  - the estimator's draft (src/components/Estimator.tsx:62-96);
  - the removal of the draft on reset;
  - the writes of the locale record (src/contexts/LocaleContext.tsx:542-550).

  The saved locale is an input to `LoadSaved`. Its guards are modelled, and the
  `isInitialized` flag is left out.
- The Estimator's draft restores `depthIndex` unchecked (src/components/Estimator.tsx:73). An out-of-range index
  gives an undefined depth. The model keeps the slider's range as its invariant.
- The stored locale record may hold non-string values. `StoredLocale` holds strings or
  nothing.
- Saved quotes go to a page outside this model. The new-quote and saved-jobs pages use
  different storage keys. Those pages are not part of this model.
- The network request of `autoDetectLocale`, its five-second timeout, and `response.json`
  are left out. `Detection` is the outcome:
  - located;
  - refused;
  - or thrown, with the browser language and the time zone as parameters.

  The `isDetecting` flag is left out.
- `formatCurrency` (src/contexts/LocaleContext.tsx:566-583) is left out. It rests on
  `Intl.NumberFormat`, whose output is locale data.
- `window.open` of the share link is left out; the model returns the URL. `onSaveQuote`
  and `onTotalChange` are modelled by what they receive: the saved record and
  `MaterialsLedger.Total`.
- `Date.now()` is a parameter: `idClock` and `clock` in the estimator, `now` in the ledger.
  The model claims nothing about unique ids.
- JavaScript doubles are modelled as exact reals:
  - there is no binary rounding error, so `toFixed` rounds the exact value half away
    from zero;
  - there is no Infinity, so `parseFloat("Infinity")` is NaN here;
  - there are no exponent forms from `toFixed` at 1e21 and above.
- `JsNumber.ShowNumber`: `String(x)` is exact only for whole-pence amounts below 1e21. From 1e21 up, JavaScript writes an exponent form ("1e+21") and the model writes every digit. Values with
  more decimals are rounded to pence in the model. Every figure the core passes to it is
  whole pence, or whole thousandths for volume and waste, which the UI shows but the
  model does not print.
- React effect timing is modelled as one synchronous `Recompute` after each input
  change. Renders between a change and its effects are left out.
- `MaterialsCalculator` is not mounted by the Estimator in this source. The two are
  modelled side by side, and `DefaultSubtotalIsEstimate` links them.
- Inherited `Object.prototype` names as keys:
  - the country and time-zone lookups are modelled with own keys only;
  - for the country lookups this is equivalent: an inherited value is a function or an
    object, and it names no listed currency or language;
  - a time zone named like an inherited property (say "constructor") would record a
    function as the country, which the model does not capture.
- The UI components are not part of this model: the layout, the buttons, the selector
  and the background.

## Findings

| source | as written | input that shows it | evidently intended | confidence | as-written member | corrected member |
|---|---|---|---|---|---|---|
| src/contexts/LocaleContext.tsx:523-528 | `if (data.currency && CURRENCIES[data.currency])` and the same test on `LANGUAGES` are also true for names inherited from `Object.prototype` | a saved locale record `{"currency":"constructor"}` (or `{"language":"constructor"}`) makes the restored currency (or language) "constructor", which has no table row | adopt a saved code only when it is an own key of the table | not executed | Locale.AsWrittenLoadAdmitsConstructor | Locale.Loaded |
| src/contexts/LocaleContext.tsx:552-556 | `if (CURRENCIES[code])` is also true for names inherited from `Object.prototype` | `setCurrency("constructor")` from any caller other than the selector (which only offers listed codes) makes the currency "constructor", so `currencySymbol` falls back to "£" and `formatCurrency` gets an unknown code | accept only codes that are own keys of the table | not executed | Locale.AsWrittenGuardAdmitsConstructor | Locale.WithCurrency |
| src/contexts/LocaleContext.tsx:558-562 | `if (LANGUAGES[code])` is also true for names inherited from `Object.prototype` | `setLanguage("constructor")` from any caller other than the selector (which only offers listed codes) makes the language "constructor", which has no table, so every string falls back to English and the language is no listed code | accept only codes that are own keys of the table | not executed | Locale.AsWrittenLanguageGuardAdmitsConstructor | Locale.WithLanguage |
| src/contexts/LocaleContext.tsx:624-627 | the fallback `if (LANGUAGES[browserLang])` is also true for inherited names | a failed location lookup in a browser whose language tag is "valueOf" (not a registered tag, so only a non-standard browser setting reaches it) makes the language "valueOf" | adopt the browser's language only when the table lists it | not executed | Locale.AsWrittenFallbackAdmitsValueOf | Locale.FallbackKeepsUnlistedLanguage |
