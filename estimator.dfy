/** The estimator screen: the text the user types for the job and the quote, the
    calculation and quote derived from it, and the reset, save and share actions. */
module Estimator {
  import opened Wrappers
  import opened JsNumber
  import opened Calculations

  /** The depths the slider offers, in millimetres. */
  const DEPTH_OPTIONS: seq<real> := [25.0, 50.0, 75.0, 100.0, 150.0]

  /** The slider starts on 50 mm. */
  const DEFAULT_DEPTH_INDEX: nat := 1

  /** A quote as it is handed to the save callback. */
  datatype SavedQuote = SavedQuote(
    id: string,
    timestamp: nat,
    inputs: EstimatorInputs,
    results: CalculationResults,
    quote: QuoteResults,
    dayRate: real,
    daysEstimated: real,
    materialsCost: real)

  /** The job as the calculator receives it: both dimensions read with
      `parseFloat(s) || 0` and the depth the slider points at. */
  function JobInputs(length: string, width: string, depthIndex: nat, diggingOut: bool)
    : (inputs: EstimatorInputs)
    requires depthIndex < |DEPTH_OPTIONS|
    ensures inputs.depth == DEPTH_OPTIONS[depthIndex]
    ensures inputs.length == Parse(length) && inputs.width == Parse(width)
    ensures inputs.diggingOut == diggingOut
  {
    EstimatorInputs(Parse(length), Parse(width), DEPTH_OPTIONS[depthIndex], diggingOut)
  }

  /** The results effect: a calculation exactly when both dimensions read as positive. */
  function ResultsFor(length: string, width: string, depthIndex: nat, diggingOut: bool)
    : (r: Option<CalculationResults>)
    requires depthIndex < |DEPTH_OPTIONS|
    ensures r.Some? <==> Parse(length) > 0.0 && Parse(width) > 0.0
    ensures r.Some? ==> r.value == CalculateAll(JobInputs(length, width, depthIndex, diggingOut))
  {
    if Parse(length) > 0.0 && Parse(width) > 0.0 then
      Some(CalculateAll(JobInputs(length, width, depthIndex, diggingOut)))
    else None
  }

  /** The quote figures as the quote calculator receives them. */
  function PricingInputs(dayRate: string, daysEstimated: string, materialsCost: string)
    : QuoteInputs
  {
    QuoteInputs(Parse(dayRate), Parse(daysEstimated), Parse(materialsCost))
  }

  /** The quote effect: a quote exactly when there is a calculation, priced from the
      quote fields alone. */
  function QuoteFor(results: Option<CalculationResults>, dayRate: string,
                    daysEstimated: string, materialsCost: string)
    : (q: Option<QuoteResults>)
    ensures q.Some? <==> results.Some?
    ensures q.Some? ==> q.value == CalculateQuote(PricingInputs(dayRate, daysEstimated, materialsCost))
  {
    if results.Some? then Some(CalculateQuote(PricingInputs(dayRate, daysEstimated, materialsCost)))
    else None
  }

  /** What a saved record promises: its results are the calculation of its inputs and its
      quote the pricing of its figures. */
  predicate Consistent(s: SavedQuote) {
    && s.inputs.depth in DEPTH_OPTIONS
    && s.inputs.length > 0.0 && s.inputs.width > 0.0
    && s.results == CalculateAll(s.inputs)
    && s.quote == CalculateQuote(QuoteInputs(s.dayRate, s.daysEstimated, s.materialsCost))
  }

  /** The figures the share message is built from. */
  function ShareOf(results: CalculationResults, quote: QuoteResults): (q: ShareQuote)
    ensures q.area == results.area && q.slabs == results.slabs600x600
    ensures q.subBase == results.subBaseTonnes && q.sand == results.sandTonnes
    ensures q.clientPrice == quote.clientPrice
  {
    ShareQuote(results.area, results.slabs600x600, results.subBaseTonnes, results.sandTonnes,
               quote.clientPrice)
  }

  /** The state of the estimator screen. The two effects are taken to have run after
      every change of input, which `Valid` states. */
  class EstimatorState {
    var length: string
    var width: string
    var depthIndex: nat
    var diggingOut: bool
    var dayRate: string
    var daysEstimated: string
    var materialsCost: string
    var results: Option<CalculationResults>
    var quoteResults: Option<QuoteResults>

    /** The slider index is in range and both derived values are those of the inputs. */
    predicate Valid()
      reads this
    {
      && depthIndex < |DEPTH_OPTIONS|
      && results == ResultsFor(length, width, depthIndex, diggingOut)
      && quoteResults == QuoteFor(results, dayRate, daysEstimated, materialsCost)
    }

    /** The first render: the default fields, no calculation and no quote. */
    constructor()
      ensures Valid()
      ensures length == "" && width == "" && depthIndex == DEFAULT_DEPTH_INDEX && !diggingOut
      ensures dayRate == "250" && daysEstimated == "1" && materialsCost == "0"
      ensures results == None && quoteResults == None
    {
      length, width, depthIndex, diggingOut := "", "", DEFAULT_DEPTH_INDEX, false;
      dayRate, daysEstimated, materialsCost := "250", "1", "0";
      results := None;
      quoteResults := None;
      DefaultsCalculateNothing();
    }

    /** Runs both effects, in their order. */
    method Recompute()
      requires depthIndex < |DEPTH_OPTIONS|
      modifies this
      ensures Valid()
      ensures length == old(length) && width == old(width) && depthIndex == old(depthIndex)
      ensures diggingOut == old(diggingOut) && dayRate == old(dayRate)
      ensures daysEstimated == old(daysEstimated) && materialsCost == old(materialsCost)
    {
      results := ResultsFor(length, width, depthIndex, diggingOut);
      quoteResults := QuoteFor(results, dayRate, daysEstimated, materialsCost);
    }

    method SetLength(s: string)
      requires Valid()
      modifies this
      ensures Valid() && length == s
      ensures width == old(width) && depthIndex == old(depthIndex)
      ensures diggingOut == old(diggingOut) && dayRate == old(dayRate)
      ensures daysEstimated == old(daysEstimated) && materialsCost == old(materialsCost)
    {
      length := s;
      Recompute();
    }

    method SetWidth(s: string)
      requires Valid()
      modifies this
      ensures Valid() && width == s
      ensures length == old(length) && depthIndex == old(depthIndex)
      ensures diggingOut == old(diggingOut) && dayRate == old(dayRate)
      ensures daysEstimated == old(daysEstimated) && materialsCost == old(materialsCost)
    {
      width := s;
      Recompute();
    }

    /** The slider reports an index between 0 and the last depth. */
    method SetDepthIndex(i: nat)
      requires Valid() && i < |DEPTH_OPTIONS|
      modifies this
      ensures Valid() && depthIndex == i
      ensures length == old(length) && width == old(width)
      ensures diggingOut == old(diggingOut) && dayRate == old(dayRate)
      ensures daysEstimated == old(daysEstimated) && materialsCost == old(materialsCost)
    {
      depthIndex := i;
      Recompute();
    }

    method SetDiggingOut(on: bool)
      requires Valid()
      modifies this
      ensures Valid() && diggingOut == on
      ensures length == old(length) && width == old(width) && depthIndex == old(depthIndex)
      ensures dayRate == old(dayRate)
      ensures daysEstimated == old(daysEstimated) && materialsCost == old(materialsCost)
    {
      diggingOut := on;
      Recompute();
    }

    /** Editing a quote field never changes the calculation. */
    method SetDayRate(s: string)
      requires Valid()
      modifies this
      ensures Valid() && dayRate == s && results == old(results)
      ensures length == old(length) && width == old(width) && depthIndex == old(depthIndex)
      ensures diggingOut == old(diggingOut)
      ensures daysEstimated == old(daysEstimated) && materialsCost == old(materialsCost)
    {
      dayRate := s;
      Recompute();
    }

    method SetDaysEstimated(s: string)
      requires Valid()
      modifies this
      ensures Valid() && daysEstimated == s && results == old(results)
      ensures length == old(length) && width == old(width) && depthIndex == old(depthIndex)
      ensures diggingOut == old(diggingOut) && dayRate == old(dayRate)
      ensures materialsCost == old(materialsCost)
    {
      daysEstimated := s;
      Recompute();
    }

    method SetMaterialsCost(s: string)
      requires Valid()
      modifies this
      ensures Valid() && materialsCost == s && results == old(results)
      ensures length == old(length) && width == old(width) && depthIndex == old(depthIndex)
      ensures diggingOut == old(diggingOut) && dayRate == old(dayRate)
      ensures daysEstimated == old(daysEstimated)
    {
      materialsCost := s;
      Recompute();
    }

    /** `handleReset`: every field back to its default, so nothing is calculated. */
    method HandleReset()
      modifies this
      ensures Valid()
      ensures length == "" && width == "" && depthIndex == DEFAULT_DEPTH_INDEX && !diggingOut
      ensures dayRate == "250" && daysEstimated == "1" && materialsCost == "0"
      ensures results == None && quoteResults == None
    {
      length, width, depthIndex, diggingOut := "", "", DEFAULT_DEPTH_INDEX, false;
      dayRate, daysEstimated, materialsCost := "250", "1", "0";
      Recompute();
      DefaultsCalculateNothing();
    }

    /** `handleSaveQuote`: nothing without a calculation and a quote; otherwise a record of
        the parsed inputs with the current results and quote. `idClock` and `clock` stand
        for the two readings of `Date.now()`. */
    method HandleSaveQuote(idClock: nat, clock: nat) returns (saved: Option<SavedQuote>)
      requires Valid()
      ensures saved.None? <==> results.None? || quoteResults.None?
      ensures saved.Some? ==> Consistent(saved.value)
      ensures saved.Some? ==>
                && saved.value.id == NatToString(idClock) && saved.value.timestamp == clock
                && saved.value.inputs == JobInputs(length, width, depthIndex, diggingOut)
                && saved.value.results == results.value
                && saved.value.quote == quoteResults.value
                && saved.value.dayRate == Parse(dayRate)
                && saved.value.daysEstimated == Parse(daysEstimated)
                && saved.value.materialsCost == Parse(materialsCost)
    {
      if results.None? || quoteResults.None? {
        return None;
      }
      var inputs := JobInputs(length, width, depthIndex, diggingOut);
      saved := Some(SavedQuote(NatToString(idClock), clock, inputs, results.value,
                               quoteResults.value, Parse(dayRate), Parse(daysEstimated),
                               Parse(materialsCost)));
    }

    /** `handleWhatsAppShare`: nothing without a calculation and a quote; otherwise the
        link for the current area, slabs, tonnages and client price. */
    method HandleWhatsAppShare() returns (url: Option<string>)
      requires Valid()
      ensures url.None? <==> results.None? || quoteResults.None?
      ensures url.Some? ==>
                url.value == GenerateWhatsAppUrl(ShareOf(results.value, quoteResults.value))
    {
      if results.None? || quoteResults.None? {
        return None;
      }
      url := Some(GenerateWhatsAppUrl(ShareOf(results.value, quoteResults.value)));
    }
  }

  // ---------------------------------------------------------------------------------
  // Properties of the screen

  /** The default fields give neither a calculation nor a quote. */
  lemma DefaultsCalculateNothing()
    ensures ResultsFor("", "", DEFAULT_DEPTH_INDEX, false) == None
    ensures QuoteFor(ResultsFor("", "", DEFAULT_DEPTH_INDEX, false), "250", "1", "0") == None
  {
    ParseDefaults();
  }

  /** Text that does not read as a number leaves the screen without a calculation. */
  lemma UnreadableLengthCalculatesNothing(length: string, width: string, depthIndex: nat,
                                          diggingOut: bool)
    requires depthIndex < |DEPTH_OPTIONS|
    requires ParseFloat(length).None?
    ensures ResultsFor(length, width, depthIndex, diggingOut) == None
  {
  }
}
