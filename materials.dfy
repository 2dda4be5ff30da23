/** The materials ledger: an ordered list of priced line items, addressed by id, that
    starts from the quantities of a calculation and can then be edited, pruned and
    extended, with a subtotal and optional 20% VAT. */
module Materials {
  import opened Numeric
  import opened Wrappers
  import opened JsNumber
  import opened Calculations

  /** A line of the bill; every field is the text the user sees and edits. */
  datatype MaterialItem = MaterialItem(
    id: string,
    name: string,
    quantity: string,
    unitPrice: string,
    unit: string)

  /** The names of the fields of a line (`keyof MaterialItem`). */
  datatype Field = Id | Name | Quantity | UnitPrice | Unit

  function Get(item: MaterialItem, field: Field): string {
    match field
    case Id => item.id
    case Name => item.name
    case Quantity => item.quantity
    case UnitPrice => item.unitPrice
    case Unit => item.unit
  }

  /** `{ ...item, [field]: value }`. */
  function With(item: MaterialItem, field: Field, value: string): (r: MaterialItem)
    ensures Get(r, field) == value
    ensures forall other: Field :: other != field ==> Get(r, other) == Get(item, other)
  {
    match field
    case Id => item.(id := value)
    case Name => item.(name := value)
    case Quantity => item.(quantity := value)
    case UnitPrice => item.(unitPrice := value)
    case Unit => item.(unit := value)
  }

  /** A catalogue entry that can be added to the bill. */
  datatype ExtraMaterial = ExtraMaterial(name: string, unitPrice: string, unit: string)

  const EXTRA_MATERIALS: seq<ExtraMaterial> := [
    ExtraMaterial("Cement (25kg bags)", "6.50", "bags"),
    ExtraMaterial("Building Sand", "40", "tonnes"),
    ExtraMaterial("Gravel/Shingle", "35", "tonnes"),
    ExtraMaterial("Edging Stones", "4", "pcs"),
    ExtraMaterial("Membrane/Weed Fabric", "25", "rolls"),
    ExtraMaterial("Pointing Compound", "22", "tubs"),
    ExtraMaterial("Kiln Dried Sand", "8", "bags"),
    ExtraMaterial("Fence Panels", "35", "panels"),
    ExtraMaterial("Fence Posts", "12", "posts"),
    ExtraMaterial("Postcrete", "7", "bags"),
    ExtraMaterial("Sleepers", "25", "pcs"),
    ExtraMaterial("Topsoil", "30", "tonnes"),
    ExtraMaterial("Bark Mulch", "45", "m\U{00B3}"),
    ExtraMaterial("Turf", "4", "m\U{00B2}"),
    ExtraMaterial("Delivery", "50", "trips")
  ]

  /** `getDefaultMaterials`: nothing without a calculation; otherwise slabs, sub-base and
      sand at the standard prices, and a skip line only when skips are needed. */
  function DefaultMaterials(results: Option<CalculationResults>): (items: seq<MaterialItem>)
    ensures results.None? ==> items == []
    ensures results.Some? ==>
              |items| == (if results.value.skipsNeeded > 0 then 4 else 3)
  {
    match results
    case None => []
    case Some(r) =>
      [ MaterialItem("slabs", "Slabs (600x600)", ShowNumber(r.slabs600x600 as real),
                     ShowNumber(MATERIAL_PRICES.slabPer600x600), "pcs"),
        MaterialItem("subbase", "Sub-base (Limestone)", ShowNumber(r.subBaseTonnes),
                     ShowNumber(MATERIAL_PRICES.subBasePerTonne), "tonnes"),
        MaterialItem("sand", "Sharp Sand", ShowNumber(r.sandTonnes),
                     ShowNumber(MATERIAL_PRICES.sandPerTonne), "tonnes") ]
      + (if r.skipsNeeded > 0 then
           [ MaterialItem("skips", "Skip Hire (6-yard)", ShowNumber(r.skipsNeeded as real),
                          ShowNumber(MATERIAL_PRICES.skipHire6Yard), "skips") ]
         else [])
  }

  /** The ids of a list of lines, in order. */
  function Ids(items: seq<MaterialItem>): (ids: seq<string>)
    ensures |ids| == |items|
    ensures forall i :: 0 <= i < |items| ==> ids[i] == items[i].id
  {
    if items == [] then [] else [items[0].id] + Ids(items[1..])
  }

  /** `updateMaterial`: the lines with the given id get the new field value. */
  function Updated(items: seq<MaterialItem>, id: string, field: Field, value: string)
    : (r: seq<MaterialItem>)
    ensures |r| == |items|
    ensures forall i :: 0 <= i < |items| ==>
              r[i] == if items[i].id == id then With(items[i], field, value) else items[i]
  {
    if items == [] then []
    else
      [if items[0].id == id then With(items[0], field, value) else items[0]]
      + Updated(items[1..], id, field, value)
  }

  /** `removeMaterial`: the lines whose id differs, in their order. */
  function Removed(items: seq<MaterialItem>, id: string): (r: seq<MaterialItem>)
    ensures |r| <= |items|
    ensures forall x :: x in r <==> x in items && x.id != id
  {
    if items == [] then []
    else (if items[0].id == id then [] else [items[0]]) + Removed(items[1..], id)
  }

  /** The price of one line when its two text fields are read by `amount`. */
  function PriceWith(item: MaterialItem, amount: string -> real): real {
    amount(item.quantity) * amount(item.unitPrice)
  }

  /** The price of one line: `(parseFloat(quantity) || 0) * (parseFloat(unitPrice) || 0)`. */
  function LineCost(item: MaterialItem): real {
    PriceWith(item, Parse)
  }

  /** The sum of `cost` over the lines, from the first to the last, as `reduce` adds. */
  function SumOf(items: seq<MaterialItem>, cost: MaterialItem -> real): real {
    if items == [] then 0.0 else SumOf(items[..|items| - 1], cost) + cost(items[|items| - 1])
  }

  /** The subtotal of the bill. */
  function Subtotal(items: seq<MaterialItem>): real {
    SumOf(items, LineCost)
  }

  /** The total the ledger reports to its owner: the subtotal, plus 20% when VAT is on,
      rounded to pence. */
  function ReportedTotal(items: seq<MaterialItem>, includeVAT: bool): (t: real)
    ensures HasCents(t)
    ensures -0.005 <= t - (if includeVAT then Subtotal(items) * 1.2 else Subtotal(items))
                      <= 0.005
    ensures NearestCents(t, if includeVAT then Subtotal(items) * 1.2 else Subtotal(items))
  {
    var subtotal := Subtotal(items);
    Round2(if includeVAT then subtotal * 1.2 else subtotal)
  }

  /** The VAT line the ledger shows. */
  function VatAmount(items: seq<MaterialItem>, includeVAT: bool): real {
    if includeVAT then Subtotal(items) * 0.2 else 0.0
  }

  /** The total the ledger shows, before it is written to two places. */
  function DisplayedTotal(items: seq<MaterialItem>, includeVAT: bool): (t: real)
    ensures t == if includeVAT then Subtotal(items) * 1.2 else Subtotal(items)
  {
    Subtotal(items) + VatAmount(items, includeVAT)
  }

  /** The fields of the line `addMaterial` appends for a catalogue entry; `now` stands for
      `Date.now()`. */
  function ExtraItem(extra: ExtraMaterial, now: nat): MaterialItem {
    MaterialItem(extra.name + "-" + NatToString(now), extra.name, "1", extra.unitPrice,
                 extra.unit)
  }

  /** The line `addCustomMaterial` appends. */
  function CustomItem(now: nat): MaterialItem {
    MaterialItem("custom-" + NatToString(now), "Custom Item", "1", "0", "pcs")
  }

  /** The part of a calculation whose change re-initialises the ledger: area, slabs,
      sub-base, sand and skips (`None` when there is no calculation). */
  datatype ResultsKey = ResultsKey(area: real, slabs: int, subBase: real, sand: real, skips: int)

  function KeyOf(results: Option<CalculationResults>): (key: Option<ResultsKey>)
    ensures key.None? <==> results.None?
  {
    match results
    case None => None
    case Some(r) =>
      Some(ResultsKey(r.area, r.slabs600x600, r.subBaseTonnes, r.sandTonnes, r.skipsNeeded))
  }

  /** The state of the materials panel. */
  class MaterialsLedger {
    var materials: seq<MaterialItem>
    var includeVAT: bool
    /** The calculation the panel was last given. */
    var results: Option<CalculationResults>
    /** The key fields the re-initialising effect last ran for. */
    var lastKey: Option<ResultsKey>

    /** The first render: the lists starts empty and VAT off, then the effect runs once
        for the calculation it is given. */
    constructor(initial: Option<CalculationResults>)
      ensures results == initial && !includeVAT && lastKey == KeyOf(initial)
      ensures materials == DefaultMaterials(initial)
    {
      results := initial;
      includeVAT := false;
      lastKey := KeyOf(initial);
      materials := DefaultMaterials(initial);
    }

    /** A later render with a (possibly new) calculation: the effect runs only when one of
        the key fields changed, and then installs the defaults unless there is no
        calculation. */
    method ReceiveResults(r: Option<CalculationResults>)
      modifies this
      ensures results == r && includeVAT == old(includeVAT) && lastKey == KeyOf(r)
      ensures materials == if KeyOf(r) != old(lastKey) && r.Some? then DefaultMaterials(r)
                           else old(materials)
    {
      results := r;
      if KeyOf(r) != lastKey {
        lastKey := KeyOf(r);
        if r.Some? {
          materials := DefaultMaterials(r);
        }
      }
    }

    method UpdateMaterial(id: string, field: Field, value: string)
      modifies this
      ensures materials == Updated(old(materials), id, field, value)
      ensures includeVAT == old(includeVAT) && results == old(results)
      ensures lastKey == old(lastKey)
    {
      materials := Updated(materials, id, field, value);
    }

    method RemoveMaterial(id: string)
      modifies this
      ensures materials == Removed(old(materials), id)
      ensures includeVAT == old(includeVAT) && results == old(results)
      ensures lastKey == old(lastKey)
    {
      materials := Removed(materials, id);
    }

    method AddMaterial(extra: ExtraMaterial, now: nat)
      modifies this
      ensures materials == old(materials) + [ExtraItem(extra, now)]
      ensures includeVAT == old(includeVAT) && results == old(results)
      ensures lastKey == old(lastKey)
    {
      materials := materials + [ExtraItem(extra, now)];
    }

    method AddCustomMaterial(now: nat)
      modifies this
      ensures materials == old(materials) + [CustomItem(now)]
      ensures includeVAT == old(includeVAT) && results == old(results)
      ensures lastKey == old(lastKey)
    {
      materials := materials + [CustomItem(now)];
    }

    /** Back to the defaults of the current calculation; nothing happens without one. */
    method ResetToDefaults()
      modifies this
      ensures materials == if results.Some? then DefaultMaterials(results) else old(materials)
      ensures includeVAT == old(includeVAT) && results == old(results)
      ensures lastKey == old(lastKey)
    {
      if results.Some? {
        materials := DefaultMaterials(results);
      }
    }

    method SetIncludeVAT(on: bool)
      modifies this
      ensures includeVAT == on
      ensures materials == old(materials) && results == old(results)
      ensures lastKey == old(lastKey)
    {
      includeVAT := on;
    }

    /** What `onTotalChange` receives. */
    function Total(): (t: real)
      reads this
      ensures HasCents(t)
      ensures -0.005 <= t - DisplayedTotal(materials, includeVAT) <= 0.005
      ensures NearestCents(t, DisplayedTotal(materials, includeVAT))
    {
      ReportedTotal(materials, includeVAT)
    }
  }

  // ---------------------------------------------------------------------------------
  // Properties of the ledger operations

  /** Editing a field and reading it back. */
  lemma GetWithField(item: MaterialItem, field: Field, other: Field, value: string)
    ensures Get(With(item, field, value), other)
            == if other == field then value else Get(item, other)
  {
  }

  /** An id no line carries leaves an edit without effect. */
  lemma UpdateAbsentId(items: seq<MaterialItem>, id: string, field: Field, value: string)
    requires forall i :: 0 <= i < |items| ==> items[i].id != id
    ensures Updated(items, id, field, value) == items
  {
  }

  /** Prices and quantities of lines other than the edited one are the same after an
      edit, and the edited lines carry the new value. */
  lemma UpdatedLines(items: seq<MaterialItem>, id: string, field: Field, value: string, i: nat)
    requires i < |items|
    ensures var r := Updated(items, id, field, value);
            && (items[i].id != id ==> r[i] == items[i])
            && (items[i].id == id ==> Get(r[i], field) == value)
            && (forall g: Field :: g != field ==> Get(r[i], g) == Get(items[i], g))
  {
  }

  /** Removal works line by line: it distributes over concatenation, which is what keeps
      the remaining lines in their order. */
  lemma {:induction false} RemovedConcat(a: seq<MaterialItem>, b: seq<MaterialItem>, id: string)
    ensures Removed(a + b, id) == Removed(a, id) + Removed(b, id)
  {
    if a != [] {
      assert (a + b)[1..] == a[1..] + b;
      RemovedConcat(a[1..], b, id);
    } else {
      assert a + b == b;
    }
  }

  /** A single line is dropped exactly when it carries the id. */
  lemma RemovedSingle(x: MaterialItem, id: string)
    ensures Removed([x], id) == if x.id == id then [] else [x]
  {
    assert [x][1..] == [];
  }

  /** Removing an id no line carries changes nothing. */
  lemma {:induction false} RemoveAbsentId(items: seq<MaterialItem>, id: string)
    requires forall i :: 0 <= i < |items| ==> items[i].id != id
    ensures Removed(items, id) == items
  {
    if items != [] {
      RemoveAbsentId(items[1..], id);
      assert [items[0]] + items[1..] == items;
    }
  }

  /** The sum over two lists one after the other is the sum of their sums. */
  lemma {:induction false} SumOfConcat(a: seq<MaterialItem>, b: seq<MaterialItem>,
                                       cost: MaterialItem -> real)
    ensures SumOf(a + b, cost) == SumOf(a, cost) + SumOf(b, cost)
  {
    if b != [] {
      var c := a + b;
      assert c[..|c| - 1] == a + b[..|b| - 1];
      assert c[|c| - 1] == b[|b| - 1];
      SumOfConcat(a, b[..|b| - 1], cost);
    } else {
      assert a + b == a;
    }
  }

  lemma SumOfSingle(x: MaterialItem, cost: MaterialItem -> real)
    ensures SumOf([x], cost) == cost(x)
  {
    assert [x][..0] == [];
  }

  lemma SubtotalConcat(a: seq<MaterialItem>, b: seq<MaterialItem>)
    ensures Subtotal(a + b) == Subtotal(a) + Subtotal(b)
  {
    SumOfConcat(a, b, LineCost);
  }

  lemma SubtotalSingle(x: MaterialItem)
    ensures Subtotal([x]) == LineCost(x)
  {
    SumOfSingle(x, LineCost);
  }

  /** A new custom line (one item at price 0) leaves the subtotal as it was. */
  lemma AddCustomKeepsSubtotal(items: seq<MaterialItem>, now: nat)
    ensures Subtotal(items + [CustomItem(now)]) == Subtotal(items)
  {
    SubtotalConcat(items, [CustomItem(now)]);
    SubtotalSingle(CustomItem(now));
    ParseDefaults();
  }

  /** A catalogue line (quantity 1) adds its unit price to the subtotal. */
  lemma AddExtraAddsPrice(items: seq<MaterialItem>, extra: ExtraMaterial, now: nat)
    ensures Subtotal(items + [ExtraItem(extra, now)]) == Subtotal(items) + Parse(extra.unitPrice)
  {
    SubtotalConcat(items, [ExtraItem(extra, now)]);
    SubtotalSingle(ExtraItem(extra, now));
    ParseDefaults();
  }

  /** With VAT the ledger shows subtotal plus 20% VAT and reports that amount rounded to
      pence; without VAT both are the subtotal. */
  lemma DisplayedTotalAgrees(items: seq<MaterialItem>, includeVAT: bool)
    ensures ReportedTotal(items, includeVAT) == Round2(DisplayedTotal(items, includeVAT))
  {
  }

  // ---------------------------------------------------------------------------------
  // Properties of the defaults

  /** No calculation, no lines. */
  lemma NoResultsNoDefaults()
    ensures DefaultMaterials(None) == []
  {
  }

  /** The default lines are slabs, sub-base and sand, then skips exactly when skips are
      needed. */
  lemma DefaultIds(r: CalculationResults)
    ensures Ids(DefaultMaterials(Some(r)))
            == ["slabs", "subbase", "sand"] + (if r.skipsNeeded > 0 then ["skips"] else [])
  {
    var items := DefaultMaterials(Some(r));
    var three := [items[0], items[1], items[2]];
    if r.skipsNeeded > 0 {
      assert items == three + [items[3]];
      IdsConcat(three, [items[3]]);
    } else {
      assert items == three;
    }
  }

  lemma {:induction false} IdsConcat(a: seq<MaterialItem>, b: seq<MaterialItem>)
    ensures Ids(a + b) == Ids(a) + Ids(b)
  {
    if a != [] {
      assert (a + b)[1..] == a[1..] + b;
      IdsConcat(a[1..], b);
    } else {
      assert a + b == b;
    }
  }

  /** A line whose two fields read as `q` and `p` costs `q * p`. */
  lemma PriceWithOf(item: MaterialItem, amount: string -> real, q: real, p: real)
    requires amount(item.quantity) == q && amount(item.unitPrice) == p
    ensures PriceWith(item, amount) == q * p
  {
  }

  /** A line whose quantity and price are whole-pence amounts written by `String(n)` costs
      their product. */
  lemma LineCostOfShown(item: MaterialItem, q: real, p: real)
    requires HasCents(q) && HasCents(p)
    requires item.quantity == ShowNumber(q) && item.unitPrice == ShowNumber(p)
    ensures LineCost(item) == q * p
  {
    ParseShowNumber(q);
    ParseShowNumber(p);
    PriceWithOf(item, Parse, q, p);
  }

  /** The default lines read back as the quantities of the calculation and the standard
      prices (for whole-pence tonnages, which `calculateAll` produces). */
  lemma DefaultLineCosts(r: CalculationResults)
    requires HasCents(r.subBaseTonnes) && HasCents(r.sandTonnes)
    ensures var items := DefaultMaterials(Some(r));
            && LineCost(items[0]) == r.slabs600x600 as real * 3.5
            && LineCost(items[1]) == r.subBaseTonnes * 30.0
            && LineCost(items[2]) == r.sandTonnes * 45.0
            && (r.skipsNeeded > 0 ==> LineCost(items[3]) == r.skipsNeeded as real * 250.0)
  {
    var items := DefaultMaterials(Some(r));
    HasCentsInt(r.slabs600x600);
    HasCentsInt(r.skipsNeeded);
    assert HasCents(3.5) && HasCents(30.0) && HasCents(45.0) && HasCents(250.0);
    LineCostOfShown(items[0], r.slabs600x600 as real, 3.5);
    LineCostOfShown(items[1], r.subBaseTonnes, 30.0);
    LineCostOfShown(items[2], r.sandTonnes, 45.0);
    if r.skipsNeeded > 0 {
      LineCostOfShown(items[3], r.skipsNeeded as real, 250.0);
    }
  }

  /** Each default line's id, name and unit. */
  lemma DefaultLabels(r: CalculationResults)
    ensures var items := DefaultMaterials(Some(r));
            && items[0].id == "slabs" && items[0].name == "Slabs (600x600)" && items[0].unit == "pcs"
            && items[1].id == "subbase" && items[1].name == "Sub-base (Limestone)"
            && items[1].unit == "tonnes"
            && items[2].id == "sand" && items[2].name == "Sharp Sand" && items[2].unit == "tonnes"
            && (r.skipsNeeded > 0 ==>
                  && items[3].id == "skips" && items[3].name == "Skip Hire (6-yard)"
                  && items[3].unit == "skips")
  {
  }

  /** A line whose fields were written by `String` from whole-pence `q` and `p` reads
      back as quantity `q` at price `p`. */
  lemma ShownFieldsReadBack(item: MaterialItem, q: real, p: real)
    requires HasCents(q) && HasCents(p)
    requires item.quantity == ShowNumber(q) && item.unitPrice == ShowNumber(p)
    ensures Parse(item.quantity) == q && Parse(item.unitPrice) == p
  {
    ParseShowNumber(q);
    ParseShowNumber(p);
  }

  /** Each default line's quantity and unit price read back as the calculated figure and
      the standard price (for whole-pence tonnages, which `calculateAll` produces). */
  lemma DefaultFigures(r: CalculationResults)
    requires HasCents(r.subBaseTonnes) && HasCents(r.sandTonnes)
    ensures var items := DefaultMaterials(Some(r));
            && Parse(items[0].quantity) == r.slabs600x600 as real && Parse(items[0].unitPrice) == 3.5
            && Parse(items[1].quantity) == r.subBaseTonnes && Parse(items[1].unitPrice) == 30.0
            && Parse(items[2].quantity) == r.sandTonnes && Parse(items[2].unitPrice) == 45.0
            && (r.skipsNeeded > 0 ==>
                  Parse(items[3].quantity) == r.skipsNeeded as real
                  && Parse(items[3].unitPrice) == 250.0)
  {
    var items := DefaultMaterials(Some(r));
    HasCentsInt(r.slabs600x600);
    HasCentsInt(r.skipsNeeded);
    assert HasCents(3.5) && HasCents(30.0) && HasCents(45.0) && HasCents(250.0);
    ShownFieldsReadBack(items[0], r.slabs600x600 as real, 3.5);
    ShownFieldsReadBack(items[1], r.subBaseTonnes, 30.0);
    ShownFieldsReadBack(items[2], r.sandTonnes, 45.0);
    if r.skipsNeeded > 0 {
      ShownFieldsReadBack(items[3], r.skipsNeeded as real, 250.0);
    }
  }

  lemma SumOfThree(a: MaterialItem, b: MaterialItem, c: MaterialItem, cost: MaterialItem -> real)
    ensures SumOf([a, b, c], cost) == cost(a) + cost(b) + cost(c)
  {
    assert [a, b, c][..2] == [a, b];
    assert [a, b][..1] == [a];
    SumOfSingle(a, cost);
  }

  /** The default bill of a calculation costs what `estimateMaterialsCost` says, once
      rounded to pence (skip counts are never negative for a real job). */
  lemma DefaultSubtotalIsEstimate(r: CalculationResults)
    requires HasCents(r.subBaseTonnes) && HasCents(r.sandTonnes) && r.skipsNeeded >= 0
    ensures Round2(Subtotal(DefaultMaterials(Some(r)))) == EstimateMaterialsCost(r)
  {
    var items := DefaultMaterials(Some(r));
    DefaultLineCosts(r);
    var three := items[..3];
    assert three == [items[0], items[1], items[2]];
    SumOfThree(items[0], items[1], items[2], LineCost);
    if r.skipsNeeded > 0 {
      assert items == three + [items[3]];
      SubtotalConcat(three, [items[3]]);
      SubtotalSingle(items[3]);
    } else {
      assert items == three;
    }
    assert Subtotal(items) == MaterialsBill(r);
  }

  /** Catalogue lines added at two different times get different ids. */
  lemma ExtraItemIdsDiffer(extra: ExtraMaterial, now: nat, later: nat)
    requires now != later
    ensures ExtraItem(extra, now).id != ExtraItem(extra, later).id
  {
    var prefix := extra.name + "-";
    var a, b := ExtraItem(extra, now).id, ExtraItem(extra, later).id;
    assert a[|prefix|..] == NatToString(now);
    assert b[|prefix|..] == NatToString(later);
  }

  /** Custom lines added at two different times get different ids. */
  lemma CustomItemIdsDiffer(now: nat, later: nat)
    requires now != later
    ensures CustomItem(now).id != CustomItem(later).id
  {
    var a, b := CustomItem(now).id, CustomItem(later).id;
    assert a[7..] == NatToString(now);
    assert b[7..] == NatToString(later);
  }
}
