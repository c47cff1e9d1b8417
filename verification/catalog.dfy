/** The booking wizard's catalog lookups, `calculatePrice` and
    `getSelectionName` in src/components/MainFeature.jsx: the entry whose id
    equals the selection of the ACTIVE booking kind, or 0 / '' when nothing
    is selected or no id matches. Prices are integer cents. */
module Catalog {
  import opened Results
  import opened Text
  import opened BookingForm

  datatype CatalogItem = CatalogItem(id: string, name: string, priceCents: nat)

  /** The wizard's built-in list of single tests. */
  const Tests: seq<CatalogItem> := [
    CatalogItem("cbc", "Complete Blood Count (CBC)", 2599),
    CatalogItem("lipid", "Lipid Panel", 3550),
    CatalogItem("glucose", "Glucose Tolerance Test", 4500),
    CatalogItem("liver", "Liver Function Test", 4299),
    CatalogItem("vitamin", "Vitamin D Test", 3999),
    CatalogItem("thyroid", "Thyroid Function Test", 5500)
  ]

  /** The wizard's built-in list of combo packages. */
  const ComboPackages: seq<CatalogItem> := [
    CatalogItem("complete", "Complete Health Checkup", 9999),
    CatalogItem("women", "Women's Health Package", 11999),
    CatalogItem("senior", "Senior Citizen Package", 12999)
  ]

  /** Position of the first entry with that id, or `|items|` when none has it. */
  function FindIndex(items: seq<CatalogItem>, id: string): (k: nat)
    ensures k <= |items|
    ensures forall j :: 0 <= j < k ==> items[j].id != id
    ensures k < |items| ==> items[k].id == id
  {
    if |items| == 0 then 0
    else if items[0].id == id then 0
    else 1 + FindIndex(items[1..], id)
  }

  /** `items.find(t => t.id === id)`: the first entry with that id. */
  function Find(items: seq<CatalogItem>, id: string): (r: Option<CatalogItem>)
    ensures r.None? <==> forall i :: 0 <= i < |items| ==> items[i].id != id
    ensures r.Some? ==> exists i :: 0 <= i < |items| && items[i] == r.value && r.value.id == id
                          && forall j :: 0 <= j < i ==> items[j].id != id
  {
    var k := FindIndex(items, id);
    if k < |items| then Some(items[k]) else None
  }

  /** The two catalogs a booking can draw from. */
  datatype Kind = SingleTest | Combo

  /** The active kind and its selected id, when a selection is made (truthy). */
  function ActiveSelection(d: FormData): Option<(Kind, string)> {
    if d.bookingType == "test" && Truthy(d.selectedTest) then Some((SingleTest, d.selectedTest))
    else if d.bookingType == "combo" && Truthy(d.selectedCombo) then Some((Combo, d.selectedCombo))
    else None
  }

  /** The entry the active selection refers to in the catalog of its kind. */
  function SelectedItem(d: FormData, tests: seq<CatalogItem>, combos: seq<CatalogItem>): (r: Option<CatalogItem>)
    ensures r.Some? ==> d.bookingType in {"test", "combo"}
    ensures r.Some? && d.bookingType == "test" ==> r.value in tests && r.value.id == d.selectedTest
    ensures r.Some? && d.bookingType == "combo" ==> r.value in combos && r.value.id == d.selectedCombo
    ensures r.Some? && d.bookingType == "test" ==>
              exists i :: 0 <= i < |tests| && tests[i] == r.value
                && forall j :: 0 <= j < i ==> tests[j].id != d.selectedTest
    ensures r.Some? && d.bookingType == "combo" ==>
              exists i :: 0 <= i < |combos| && combos[i] == r.value
                && forall j :: 0 <= j < i ==> combos[j].id != d.selectedCombo
    ensures d.bookingType == "test" && Truthy(d.selectedTest) ==>
              (r.None? <==> forall i :: 0 <= i < |tests| ==> tests[i].id != d.selectedTest)
    ensures d.bookingType == "combo" && Truthy(d.selectedCombo) ==>
              (r.None? <==> forall i :: 0 <= i < |combos| ==> combos[i].id != d.selectedCombo)
    ensures ActiveSelection(d).None? ==> r.None?
  {
    match ActiveSelection(d)
    case None => None
    case Some((kind, id)) => Find(if kind == SingleTest then tests else combos, id)
  }

  /** `calculatePrice()`: the selected entry's price, else 0. */
  function CalculatePrice(d: FormData, tests: seq<CatalogItem>, combos: seq<CatalogItem>): (price: nat)
    ensures SelectedItem(d, tests, combos).None? ==> price == 0
    ensures SelectedItem(d, tests, combos).Some? ==> price == SelectedItem(d, tests, combos).value.priceCents
  {
    match SelectedItem(d, tests, combos)
    case None => 0
    case Some(item) => item.priceCents
  }

  /** `getSelectionName()`: the selected entry's name, else ''. */
  function GetSelectionName(d: FormData, tests: seq<CatalogItem>, combos: seq<CatalogItem>): (name: string)
    ensures SelectedItem(d, tests, combos).None? ==> name == ""
    ensures SelectedItem(d, tests, combos).Some? ==> name == SelectedItem(d, tests, combos).value.name
  {
    match SelectedItem(d, tests, combos)
    case None => ""
    case Some(item) => item.name
  }

  /** The selection of the inactive kind never affects the lookups. */
  lemma InactiveSelectionIgnored(d: FormData, v: string, tests: seq<CatalogItem>, combos: seq<CatalogItem>)
    ensures d.bookingType == "test" ==>
              SelectedItem(Set(d, SelectedCombo, v), tests, combos) == SelectedItem(d, tests, combos)
    ensures d.bookingType == "combo" ==>
              SelectedItem(Set(d, SelectedTest, v), tests, combos) == SelectedItem(d, tests, combos)
    ensures d.bookingType !in {"test", "combo"} ==>
              CalculatePrice(d, tests, combos) == 0 && GetSelectionName(d, tests, combos) == ""
  {
  }

  /** In a catalog with distinct ids, the lookup returns exactly the entry
      carrying the selected id. */
  lemma LookupFindsUniqueEntry(items: seq<CatalogItem>, k: nat)
    requires k < |items|
    requires forall i, j :: 0 <= i < j < |items| ==> items[i].id != items[j].id
    ensures Find(items, items[k].id) == Some(items[k])
  {
  }

  /** A known id of the wizard's own catalog resolves to its entry. */
  lemma KnownTestResolves()
    ensures CalculatePrice(Set(InitialForm, SelectedTest, "cbc"), Tests, ComboPackages) == 2599
    ensures GetSelectionName(Set(InitialForm, SelectedTest, "cbc"), Tests, ComboPackages) == "Complete Blood Count (CBC)"
  {
    var d := Set(InitialForm, SelectedTest, "cbc");
    assert ActiveSelection(d) == Some((SingleTest, "cbc"));
    assert FindIndex(Tests, "cbc") == 0;
    assert SelectedItem(d, Tests, ComboPackages) == Some(Tests[0]);
  }

  lemma KnownComboResolves()
    ensures CalculatePrice(Set(Set(InitialForm, BookingType, "combo"), SelectedCombo, "senior"), Tests, ComboPackages) == 12999
  {
    var d := Set(Set(InitialForm, BookingType, "combo"), SelectedCombo, "senior");
    assert ActiveSelection(d) == Some((Combo, "senior"));
    assert FindIndex(ComboPackages, "senior") == 2;
    assert SelectedItem(d, Tests, ComboPackages) == Some(ComboPackages[2]);
  }

  /** An unknown id and an empty selection both read as a zero price. */
  lemma UnknownOrEmptySelectionIsFree()
    ensures CalculatePrice(Set(InitialForm, SelectedTest, "x-ray"), Tests, ComboPackages) == 0
    ensures CalculatePrice(InitialForm, Tests, ComboPackages) == 0
  {
    var d := Set(InitialForm, SelectedTest, "x-ray");
    assert ActiveSelection(d) == Some((SingleTest, "x-ray"));
    assert forall i :: 0 <= i < |Tests| ==> Tests[i].id != "x-ray";
    assert SelectedItem(d, Tests, ComboPackages) == None;
    assert ActiveSelection(InitialForm) == None;
  }
}
