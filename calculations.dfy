/** The estimating engine: from the length and width of a patio (metres), the depth of
    its base (millimetres) and whether soil is dug out, the material quantities, their
    price at the standard rates, the labour and client price, and the WhatsApp share
    link. All arithmetic is exact; rounding happens only where the engine calls
    `toFixed`. */
module Calculations {
  import opened Numeric
  import opened Wrappers
  import JsNumber
  import UriEncoding

  datatype EstimatorInputs = EstimatorInputs(
    length: real,      // metres
    width: real,       // metres
    depth: real,       // millimetres
    diggingOut: bool)

  datatype CalculationResults = CalculationResults(
    area: real,          // square metres
    volume: real,        // cubic metres
    wasteVolume: real,   // cubic metres, after bulking
    skipsNeeded: int,    // 6-yard skips
    slabs600x600: int,
    subBaseTonnes: real,
    sandTonnes: real)

  /** Each slab covers 0.6 m by 0.6 m. */
  const SlabArea: real := 0.36
  /** 10% extra slabs for cuts and breakage. */
  const SlabWasteMultiplier: real := 1.1
  /** Dug soil bulks up by 30%. */
  const BulkingFactor: real := 1.3
  /** Cubic metres one 6-yard skip holds. */
  const SkipCapacity: real := 6.0
  /** Tonnes per cubic metre of limestone sub-base and of sharp sand. */
  const LimestoneDensity: real := 2.2
  const SandDensity: real := 1.7

  function CalculateArea(length: real, width: real): (a: real)
    ensures length >= 0.0 && width >= 0.0 ==> a >= 0.0
    ensures length > 0.0 && width > 0.0 ==> a > 0.0
  {
    length * width
  }

  /** The depth is given in millimetres. */
  function CalculateVolume(area: real, depthMm: real): (v: real)
    ensures v * 1000.0 == area * depthMm
    ensures area > 0.0 && depthMm > 0.0 ==> v > 0.0
  {
    area * (depthMm / 1000.0)
  }

  function CalculateWasteVolume(volume: real, diggingOut: bool): (w: real)
    ensures !diggingOut ==> w == 0.0
    ensures diggingOut && volume > 0.0 ==> w > volume
  {
    if !diggingOut then 0.0 else volume * BulkingFactor
  }

  /** No skip for no waste; otherwise the fewest skips that hold it. */
  function CalculateSkipsNeeded(wasteVolume: real): (n: int)
    ensures wasteVolume == 0.0 ==> n == 0
    ensures wasteVolume != 0.0 ==>
              SkipCapacity * (n - 1) as real < wasteVolume <= SkipCapacity * n as real
  {
    if wasteVolume == 0.0 then 0 else Ceil(wasteVolume / SkipCapacity)
  }

  /** The fewest slabs that cover the area with the 10% allowance. */
  function CalculateSlabs(area: real): (n: int)
    ensures (n - 1) as real < area / SlabArea * SlabWasteMultiplier <= n as real
  {
    Ceil(area / SlabArea * SlabWasteMultiplier)
  }

  function CalculateSubBase(volume: real): (t: real)
    ensures HasCents(t)
    ensures -0.005 <= t - volume * LimestoneDensity <= 0.005
    ensures NearestCents(t, volume * LimestoneDensity)
  {
    Round2(volume * LimestoneDensity)
  }

  function CalculateSand(volume: real): (t: real)
    ensures HasCents(t)
    ensures -0.005 <= t - volume * SandDensity <= 0.005
    ensures NearestCents(t, volume * SandDensity)
  {
    Round2(volume * SandDensity)
  }

  /** `calculateAll`: every quantity is taken from the unrounded area, volume and waste;
      only the reported area (2 places), volume and waste (3 places) are rounded. */
  function CalculateAll(inputs: EstimatorInputs): (r: CalculationResults)
    ensures HasCents(r.area) && HasMillis(r.volume) && HasMillis(r.wasteVolume)
    ensures HasCents(r.subBaseTonnes) && HasCents(r.sandTonnes)
  {
    var area := CalculateArea(inputs.length, inputs.width);
    var volume := CalculateVolume(area, inputs.depth);
    var wasteVolume := CalculateWasteVolume(volume, inputs.diggingOut);
    CalculationResults(
      Round2(area),
      Round3(volume),
      Round3(wasteVolume),
      CalculateSkipsNeeded(wasteVolume),
      CalculateSlabs(area),
      CalculateSubBase(volume),
      CalculateSand(volume))
  }

  // ---------------------------------------------------------------------------------
  // Pricing

  datatype MaterialPrices = MaterialPrices(
    slabPer600x600: real,
    subBasePerTonne: real,
    sandPerTonne: real,
    skipHire6Yard: real)

  /** Typical UK prices in pounds. */
  const MATERIAL_PRICES: MaterialPrices := MaterialPrices(3.5, 30.0, 45.0, 250.0)

  /** The cost of the materials of a job at the standard prices, before rounding. */
  function MaterialsBill(r: CalculationResults): real {
    r.slabs600x600 as real * MATERIAL_PRICES.slabPer600x600
    + r.subBaseTonnes * MATERIAL_PRICES.subBasePerTonne
    + r.sandTonnes * MATERIAL_PRICES.sandPerTonne
    + r.skipsNeeded as real * MATERIAL_PRICES.skipHire6Yard
  }

  function EstimateMaterialsCost(r: CalculationResults): (cost: real)
    ensures HasCents(cost)
    ensures -0.005 <= cost - (3.5 * r.slabs600x600 as real + 30.0 * r.subBaseTonnes
                              + 45.0 * r.sandTonnes + 250.0 * r.skipsNeeded as real) <= 0.005
    ensures NearestCents(cost, 3.5 * r.slabs600x600 as real + 30.0 * r.subBaseTonnes
                               + 45.0 * r.sandTonnes + 250.0 * r.skipsNeeded as real)
  {
    Round2(MaterialsBill(r))
  }

  datatype QuoteInputs = QuoteInputs(dayRate: real, daysEstimated: real, materialsCost: real)

  datatype QuoteResults = QuoteResults(laborCost: real, totalCost: real, clientPrice: real)

  /** The client pays cost plus 20%. */
  const Markup: real := 1.2

  /** `calculateQuote`: each figure is rounded on its own, from unrounded intermediates. */
  function CalculateQuote(inputs: QuoteInputs): (q: QuoteResults)
    ensures var labor := inputs.dayRate * inputs.daysEstimated;
            var total := inputs.materialsCost + labor;
            && HasCents(q.laborCost) && -0.005 <= q.laborCost - labor <= 0.005
            && HasCents(q.totalCost) && -0.005 <= q.totalCost - total <= 0.005
            && HasCents(q.clientPrice) && -0.005 <= q.clientPrice - total * 1.2 <= 0.005
    ensures var labor := inputs.dayRate * inputs.daysEstimated;
            var total := inputs.materialsCost + labor;
            && NearestCents(q.laborCost, labor)
            && NearestCents(q.totalCost, total)
            && NearestCents(q.clientPrice, total * 1.2)
  {
    var laborCost := inputs.dayRate * inputs.daysEstimated;
    var totalCost := inputs.materialsCost + laborCost;
    var clientPrice := totalCost * Markup;
    QuoteResults(Round2(laborCost), Round2(totalCost), Round2(clientPrice))
  }

  // ---------------------------------------------------------------------------------
  // Properties of the job calculator

  /** What `calculateAll` reports, in terms of its inputs: the area to 2 places and the
      volume and waste to 3, while the slabs, skips and tonnages are computed from the
      exact area and volume. */
  lemma CalculateAllSpec(inputs: EstimatorInputs)
    ensures var r := CalculateAll(inputs);
            var a := CalculateArea(inputs.length, inputs.width);
            var v := CalculateVolume(a, inputs.depth);
            && -0.005 <= r.area - a <= 0.005
            && -0.0005 <= r.volume - v <= 0.0005
            && (r.slabs600x600 - 1) as real < a / 0.36 * 1.1 <= r.slabs600x600 as real
            && -0.005 <= r.subBaseTonnes - v * 2.2 <= 0.005
            && -0.005 <= r.sandTonnes - v * 1.7 <= 0.005
            && (inputs.diggingOut ==> -0.0005 <= r.wasteVolume - v * 1.3 <= 0.0005)
            && (inputs.diggingOut && v != 0.0 ==>
                  6.0 * (r.skipsNeeded - 1) as real < v * 1.3 <= 6.0 * r.skipsNeeded as real)
  {
    var v := CalculateVolume(CalculateArea(inputs.length, inputs.width), inputs.depth);
    if inputs.diggingOut && v != 0.0 {
      assert v * 1.3 != 0.0;
    }
  }

  /** Without digging out there is no waste and no skip. */
  lemma NoDiggingNoSkips(inputs: EstimatorInputs)
    requires !inputs.diggingOut
    ensures CalculateAll(inputs).wasteVolume == 0.0
    ensures CalculateAll(inputs).skipsNeeded == 0
  {
    Round3Exact(0.0);
  }

  /** Skips are needed exactly when there is waste (for the non-negative waste of a real
      job), and then at least one. */
  lemma SkipsZeroIffNoWaste(w: real)
    requires w >= 0.0
    ensures CalculateSkipsNeeded(w) == 0 <==> w == 0.0
    ensures w > 0.0 ==> CalculateSkipsNeeded(w) >= 1
  {
  }

  /** The skip count is the least that holds the waste: any count that holds it is at
      least as large. */
  lemma SkipsLeast(w: real, m: int)
    requires w > 0.0 && 6.0 * m as real >= w
    ensures CalculateSkipsNeeded(w) <= m
  {
  }

  /** The slab count is the least that covers the area with the allowance. */
  lemma SlabsLeast(a: real, m: int)
    requires m as real >= a / 0.36 * 1.1
    ensures CalculateSlabs(a) <= m
  {
  }

  /** A larger area never needs fewer slabs. */
  lemma SlabsMonotone(a: real, b: real)
    requires a <= b
    ensures CalculateSlabs(a) <= CalculateSlabs(b)
  {
    SlabsLeast(a, CalculateSlabs(b));
  }

  /** One slab's area needs two slabs once the 10% allowance is added. */
  lemma OneSlabAreaNeedsTwo()
    ensures CalculateSlabs(0.36) == 2
  {
  }

  /** A positive job on dug-out ground always needs a skip; without digging it never
      does. */
  lemma SkipsIffDigging(inputs: EstimatorInputs)
    requires inputs.length > 0.0 && inputs.width > 0.0 && inputs.depth > 0.0
    ensures CalculateAll(inputs).skipsNeeded > 0 <==> inputs.diggingOut
  {
    var a := CalculateArea(inputs.length, inputs.width);
    assert a > 0.0;
    var v := CalculateVolume(a, inputs.depth);
    assert v > 0.0;
    if inputs.diggingOut {
      SkipsZeroIffNoWaste(CalculateWasteVolume(v, true));
    }
  }

  /** Quantities come from the unrounded area: for a 0.3272 m2 job the slab count is 1,
      while the area reported after rounding (0.33 m2) would need 2. */
  lemma SlabsUseUnroundedArea()
    ensures var r := CalculateAll(EstimatorInputs(0.3272, 1.0, 50.0, false));
            r.area == 0.33 && r.slabs600x600 == 1 && CalculateSlabs(r.area) == 2
  {
    assert Round2(0.3272) == 0.33;
  }

  /** A 5 m by 4 m patio on a 100 mm base, dug out. */
  lemma PatioExample()
    ensures CalculateAll(EstimatorInputs(5.0, 4.0, 100.0, true))
            == CalculationResults(20.0, 2.0, 2.6, 1, 62, 4.4, 3.4)
    ensures EstimateMaterialsCost(CalculationResults(20.0, 2.0, 2.6, 1, 62, 4.4, 3.4))
            == 752.0
  {
    Round2Exact(20.0);
    Round3Exact(2.0);
    Round3Exact(2.6);
    Round2Exact(4.4);
    Round2Exact(3.4);
    Round2Exact(752.0);
  }

  // ---------------------------------------------------------------------------------
  // Properties of the pricing

  /** When the tonnages are whole pence, as `calculateAll` makes them, the materials cost
      needs no rounding: it is the bill at the standard prices to the penny. */
  lemma MaterialsCostExact(r: CalculationResults)
    requires HasCents(r.subBaseTonnes) && HasCents(r.sandTonnes)
    ensures EstimateMaterialsCost(r) == 3.5 * r.slabs600x600 as real + 30.0 * r.subBaseTonnes
                                        + 45.0 * r.sandTonnes + 250.0 * r.skipsNeeded as real
  {
    var slabs := r.slabs600x600 as real * 3.5;
    HalfPenceOfInt(r.slabs600x600);
    HasCentsMul(30, r.subBaseTonnes);
    HasCentsMul(45, r.sandTonnes);
    HasCentsInt(r.skipsNeeded * 250);
    HasCentsAdd(slabs, 30.0 * r.subBaseTonnes);
    HasCentsAdd(slabs + 30.0 * r.subBaseTonnes, 45.0 * r.sandTonnes);
    HasCentsAdd(slabs + 30.0 * r.subBaseTonnes + 45.0 * r.sandTonnes,
                r.skipsNeeded as real * 250.0);
    Round2Exact(MaterialsBill(r));
  }

  lemma HalfPenceOfInt(n: int)
    ensures HasCents(n as real * 3.5)
  {
    var y := n as real * 3.5;
    var m := n * 350;
    assert y * 100.0 == m as real;
    assert (m as real).Floor == m;
  }

  /** The standard quote: one day at 250 on 100 of materials. */
  lemma QuoteExample()
    ensures CalculateQuote(QuoteInputs(250.0, 1.0, 100.0)) == QuoteResults(250.0, 350.0, 420.0)
  {
    Round2Exact(250.0);
    Round2Exact(350.0);
    Round2Exact(420.0);
  }

  /** The client price is rounded from the unrounded total, not from the rounded one: at a
      day rate of 0.125 for one day, the total shows as 0.13 but the price is 0.15, not
      `Round2(0.13 * 1.2)` = 0.16. */
  lemma QuoteRoundsEachFigure()
    ensures var q := CalculateQuote(QuoteInputs(0.125, 1.0, 0.0));
            q.totalCost == 0.13 && q.clientPrice == 0.15 && Round2(q.totalCost * 1.2) == 0.16
  {
    assert Round2(0.125) == 0.13;
    assert Round2(0.15) == 0.15;
    assert Round2(0.156) == 0.16;
  }

  // ---------------------------------------------------------------------------------
  // The WhatsApp share link

  /** The figures the share message shows. */
  datatype ShareQuote = ShareQuote(
    area: real,
    slabs: int,
    subBase: real,
    sand: real,
    clientPrice: real)

  /** The emoji and symbols of the message template, character for character as the
      template holds them (UTF-8 emoji read back as Mac Roman text). */
  const Leaf := "\U{F8FF}\U{00FC}\U{00E5}\U{00F8}"
  const Ruler := "\U{F8FF}\U{00FC}\U{00EC}\U{00EA}"
  const Package := "\U{F8FF}\U{00FC}\U{00EC}\U{00B6}"
  const MoneyBag := "\U{F8FF}\U{00FC}\U{00ED}\U{221E}"
  const Bullet := "\U{201A}\U{00C4}\U{00A2}"
  const SquareSign := "\U{00AC}\U{2264}"
  const PoundSign := "\U{00AC}\U{00A3}"

  /** The lines of the share message, in order, around the texts of its five figures. */
  function Template(area: string, slabs: string, subBase: string, sand: string,
                    price: string): (lines: seq<string>)
    ensures |lines| == 13
  {
    [ Leaf + " GardenQuote Estimate " + Leaf,
      "",
      Ruler + " Area: " + area + "m" + SquareSign,
      "",
      Package + " Materials Required:",
      Bullet + " Slabs (600x600): " + slabs + " pcs",
      Bullet + " Sub-base: " + subBase + " tonnes",
      Bullet + " Sand: " + sand + " tonnes",
      "",
      MoneyBag + " Total Price: " + PoundSign + price,
      "",
      "This quote is valid for 14 days.",
      "Thank you for choosing us!" ]
  }

  /** The message lines for a quote: numbers as `String(n)` writes them, the price with
      two decimals. Whatever the figures, no line holds a line feed. */
  function MessageLines(q: ShareQuote): (lines: seq<string>)
    ensures |lines| == 13
    ensures forall i :: 0 <= i < |lines| ==> NoNewline(lines[i])
  {
    JsNumber.ShowNumberNumeral(q.area);
    JsNumber.ShowNumberNumeral(q.slabs as real);
    JsNumber.ShowNumberNumeral(q.subBase);
    JsNumber.ShowNumberNumeral(q.sand);
    JsNumber.ToFixed2Numeral(q.clientPrice);
    TemplateNoNewline(JsNumber.ShowNumber(q.area), JsNumber.ShowNumber(q.slabs as real),
                      JsNumber.ShowNumber(q.subBase), JsNumber.ShowNumber(q.sand),
                      JsNumber.ToFixed2(q.clientPrice));
    Template(JsNumber.ShowNumber(q.area), JsNumber.ShowNumber(q.slabs as real),
             JsNumber.ShowNumber(q.subBase), JsNumber.ShowNumber(q.sand),
             JsNumber.ToFixed2(q.clientPrice))
  }

  /** Lines joined by line feeds, as a multi-line template literal writes them. */
  function JoinLines(lines: seq<string>): string
    requires |lines| >= 1
  {
    if |lines| == 1 then lines[0] else lines[0] + "\n" + JoinLines(lines[1..])
  }

  predicate NoNewline(s: string) {
    forall i :: 0 <= i < |s| ==> s[i] != '\n'
  }

  /** The position of the first line feed in `s`, or `|s|` when there is none. */
  function NewlineIndex(s: string): (i: nat)
    ensures i <= |s|
    ensures i < |s| ==> s[i] == '\n'
    ensures forall j :: 0 <= j < i ==> s[j] != '\n'
  {
    if s == [] || s[0] == '\n' then 0 else 1 + NewlineIndex(s[1..])
  }

  /** `s.split("\n")`. */
  function SplitLines(s: string): (lines: seq<string>)
    decreases |s|
  {
    var i := NewlineIndex(s);
    if i == |s| then [s] else [s[..i]] + SplitLines(s[i + 1..])
  }

  /** The share message. Read line by line it is exactly the thirteen template lines, in
      order: the area, the three material lines, the price to two places and the 14-day
      validity line. */
  function WhatsAppMessage(q: ShareQuote): (message: string)
    ensures SplitLines(message) == MessageLines(q)
  {
    SplitJoinLines(MessageLines(q));
    JoinLines(MessageLines(q))
  }

  const WhatsAppPrefix := "https://wa.me/?text="

  /** `generateWhatsAppUrl`: the share address, then the message as a URI component. */
  function GenerateWhatsAppUrl(q: ShareQuote): (url: string)
    ensures |url| >= |WhatsAppPrefix| && url[..|WhatsAppPrefix|] == WhatsAppPrefix
    ensures UriEncoding.DecodeURIComponent(url[|WhatsAppPrefix|..]) == Some(WhatsAppMessage(q))
    ensures forall i :: |WhatsAppPrefix| <= i < |url| ==> UriEncoding.UriSafe(url[i])
  {
    var text := UriEncoding.EncodeURIComponent(WhatsAppMessage(q));
    UriEncoding.DecodeEncode(WhatsAppMessage(q));
    UriEncoding.EncodeSafe(WhatsAppMessage(q));
    var url := WhatsAppPrefix + text;
    assert url[|WhatsAppPrefix|..] == text;
    url
  }

  lemma {:induction false} NewlineIndexOfLine(a: string, b: string)
    requires NoNewline(a)
    ensures NewlineIndex(a) == |a|
    ensures NewlineIndex(a + "\n" + b) == |a|
  {
    if a != [] {
      assert (a + "\n" + b)[1..] == a[1..] + "\n" + b;
      NewlineIndexOfLine(a[1..], b);
    } else {
      assert a + "\n" + b == "\n" + b;
    }
  }

  /** A line without a line feed, then a line feed, splits off as the first line. */
  lemma SplitFirstLine(a: string, rest: string)
    requires NoNewline(a)
    ensures SplitLines(a) == [a]
    ensures SplitLines(a + "\n" + rest) == [a] + SplitLines(rest)
  {
    NewlineIndexOfLine(a, rest);
    var s := a + "\n" + rest;
    assert s[..|a|] == a;
    assert s[|a| + 1..] == rest;
  }

  /** Splitting joined lines that hold no line feed gives the lines back. */
  lemma {:induction false} SplitJoinLines(lines: seq<string>)
    requires |lines| >= 1
    requires forall i :: 0 <= i < |lines| ==> NoNewline(lines[i])
    ensures SplitLines(JoinLines(lines)) == lines
  {
    var rest := if |lines| == 1 then "" else JoinLines(lines[1..]);
    SplitFirstLine(lines[0], rest);
    if |lines| > 1 {
      SplitJoinLines(lines[1..]);
      assert [lines[0]] + lines[1..] == lines;
    }
  }

  lemma NoNewlineConcat(a: string, b: string)
    requires NoNewline(a) && NoNewline(b)
    ensures NoNewline(a + b)
  {
  }

  /** With figures that hold no line feed, no template line does. */
  lemma TemplateNoNewline(area: string, slabs: string, subBase: string, sand: string,
                          price: string)
    requires NoNewline(area) && NoNewline(slabs) && NoNewline(subBase)
    requires NoNewline(sand) && NoNewline(price)
    ensures var lines := Template(area, slabs, subBase, sand, price);
            forall i :: 0 <= i < |lines| ==> NoNewline(lines[i])
  {
    var lines := Template(area, slabs, subBase, sand, price);
    NoNewlineConcat(Ruler + " Area: ", area);
    NoNewlineConcat(Ruler + " Area: " + area, "m" + SquareSign);
    NoNewlineConcat(Bullet + " Slabs (600x600): ", slabs);
    NoNewlineConcat(Bullet + " Slabs (600x600): " + slabs, " pcs");
    NoNewlineConcat(Bullet + " Sub-base: ", subBase);
    NoNewlineConcat(Bullet + " Sub-base: " + subBase, " tonnes");
    NoNewlineConcat(Bullet + " Sand: ", sand);
    NoNewlineConcat(Bullet + " Sand: " + sand, " tonnes");
    NoNewlineConcat(MoneyBag + " Total Price: " + PoundSign, price);
    assert NoNewline(lines[0]) && NoNewline(lines[4]);
    assert NoNewline(lines[11]) && NoNewline(lines[12]);
  }
}
