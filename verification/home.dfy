/** The category tabs of the home page (src/pages/Home.jsx): the list of
    tests shown is the whole list on the 'all' tab, and otherwise the tests
    of the selected category, in their original order. */
module Home {

  datatype LabTest = LabTest(id: int, name: string, category: string, priceCents: nat)

  /** The tab the page opens on. */
  const InitialTab := "all"

  /** `tests.filter(test => test.category === tab)`. */
  function InCategory(tests: seq<LabTest>, tab: string): (r: seq<LabTest>)
    ensures |r| <= |tests|
    ensures forall i :: 0 <= i < |r| ==> r[i].category == tab
    ensures forall t :: t in r <==> t in tests && t.category == tab
    ensures forall t :: multiset(r)[t] == (if t.category == tab then multiset(tests)[t] else 0)
  {
    if |tests| == 0 then []
    else
      assert tests == [tests[0]] + tests[1..];
      if tests[0].category == tab then [tests[0]] + InCategory(tests[1..], tab)
    else InCategory(tests[1..], tab)
  }

  /** `filteredTests`. */
  function FilteredTests(tests: seq<LabTest>, activeTab: string): (r: seq<LabTest>)
    ensures activeTab == "all" ==> r == tests
    ensures activeTab != "all" ==> forall i :: 0 <= i < |r| ==> r[i].category == activeTab
    ensures activeTab != "all" ==> forall t :: t in tests && t.category == activeTab ==> t in r
    ensures forall t :: t in r ==> t in tests
    ensures activeTab != "all" ==>
              forall t :: multiset(r)[t] == (if t.category == activeTab then multiset(tests)[t] else 0)
  {
    if activeTab == "all" then tests else InCategory(tests, activeTab)
  }

  /** `xs` is `ys` with some elements left out, the rest in their order. */
  predicate IsSubsequence<T(==)>(xs: seq<T>, ys: seq<T>)
    decreases |ys|
  {
    if |xs| == 0 then true
    else if |ys| == 0 then false
    else if xs[0] == ys[0] then IsSubsequence(xs[1..], ys[1..])
    else IsSubsequence(xs, ys[1..])
  }

  lemma {:induction false} SubsequenceReflexive<T>(xs: seq<T>)
    ensures IsSubsequence(xs, xs)
    decreases |xs|
  {
    if |xs| > 0 {
      SubsequenceReflexive(xs[1..]);
    }
  }

  lemma {:induction false} SubsequenceNoLonger<T>(xs: seq<T>, ys: seq<T>)
    requires IsSubsequence(xs, ys)
    ensures |xs| <= |ys|
    decreases |ys|
  {
    if |xs| > 0 {
      if xs[0] == ys[0] {
        SubsequenceNoLonger(xs[1..], ys[1..]);
      } else {
        SubsequenceNoLonger(xs, ys[1..]);
      }
    }
  }

  /** The category filter keeps the tests' order. */
  lemma {:induction false} InCategoryIsSubsequence(tests: seq<LabTest>, tab: string)
    ensures IsSubsequence(InCategory(tests, tab), tests)
    decreases |tests|
  {
    if |tests| > 0 {
      InCategoryIsSubsequence(tests[1..], tab);
      var rest := InCategory(tests[1..], tab);
      if tests[0].category == tab {
        assert ([tests[0]] + rest)[1..] == rest;
      } else if |rest| > 0 {
        assert rest[0] != tests[0];
      }
    }
  }

  /** Whatever the tab, the tests shown are an order-preserving selection of
      the loaded tests, so never more of them. */
  lemma FilteredIsSubsequence(tests: seq<LabTest>, activeTab: string)
    ensures IsSubsequence(FilteredTests(tests, activeTab), tests)
    ensures |FilteredTests(tests, activeTab)| <= |tests|
  {
    if activeTab == "all" {
      SubsequenceReflexive(tests);
    } else {
      InCategoryIsSubsequence(tests, activeTab);
    }
    SubsequenceNoLonger(FilteredTests(tests, activeTab), tests);
  }

  /** The page opens on the unfiltered list. */
  lemma InitialTabShowsAll(tests: seq<LabTest>)
    ensures FilteredTests(tests, InitialTab) == tests
  {
  }
}
