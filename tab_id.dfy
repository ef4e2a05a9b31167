/**
 * Resolving the tab a context's state is scoped to (`getCurrentTabId`).
 * `-1` means "no particular tab".
 */
module TabId {
  import opened Types

  const NO_TAB: int := -1

  /** `browser.tabs.query({active: true})`: the active tabs, in order. */
  function QueryActive(tabs: seq<Tab>): (r: seq<Tab>)
    ensures forall t :: t in r ==> t in tabs && t.active
    ensures forall t :: t in tabs && t.active ==> t in r
    ensures tabs != [] && tabs[0].active ==> r != [] && r[0] == tabs[0]
  {
    if tabs == [] then []
    else if tabs[0].active then [tabs[0]] + QueryActive(tabs[1..])
    else QueryActive(tabs[1..])
  }

  /** Whether a tab id counts as present: JavaScript treats `undefined` and `0` as false. */
  predicate TruthyId(id: Option<int>) {
    id.Some? && id.value != 0
  }

  /**
   * `getCurrentTabId()`. `tabsApi` is `None` when the `tabs` API is absent,
   * otherwise the tabs of the browser, from which only the active ones are
   * queried and only the first of those is considered.
   */
  function GetCurrentTabId(tabsApi: Option<seq<Tab>>): (r: int)
    ensures tabsApi.None? ==> r == NO_TAB
    ensures tabsApi.Some? ==>
      var active := QueryActive(tabsApi.value);
      && (active == [] ==> r == NO_TAB)
      && (active != [] && !TruthyId(active[0].id) ==> r == NO_TAB)
      && (active != [] && TruthyId(active[0].id) ==> r == active[0].id.value)
    ensures r != NO_TAB ==> exists t :: t in tabsApi.value && t.active && t.id == Some(r)
  {
    if tabsApi.None? then NO_TAB
    else
      var active := QueryActive(tabsApi.value);
      if active == [] || !TruthyId(active[0].id) then NO_TAB
      else active[0].id.value
  }

  /** Only the first active tab matters: tabs after it never change the result. */
  lemma {:induction false} OnlyFirstActiveTabCounts(tabs: seq<Tab>, more: seq<Tab>)
    ensures QueryActive(tabs) != [] ==>
      GetCurrentTabId(Some(tabs + more)) == GetCurrentTabId(Some(tabs))
  {
    if tabs != [] {
      assert (tabs + more)[1..] == tabs[1..] + more;
      OnlyFirstActiveTabCounts(tabs[1..], more);
    }
  }
}
