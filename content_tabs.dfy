/** The tab switcher of a content page: which tab the URL selects, how
    activating a tab restyles the triggers and shows one panel, and how the
    URL follows the chosen tab. The page's URL is reduced to the value of
    the tab parameter (`section` by default). */
module ContentTabs {
  import opened Common
  import opened Text

  /** `getIndexFromURL` for the parameter's value and the number of
      triggers: `None` (`null`) when the parameter is absent, not a number,
      or outside the triggers. */
  function IndexFromURL(value: Option<string>, triggerCount: nat): (r: Option<nat>)
    ensures value.None? ==> r.None?
    ensures r.Some? ==> r.value < triggerCount && ParseInt(value.value) == Some(r.value as int)
    ensures (value.Some? && ParseInt(value.value).Some?
             && 0 <= ParseInt(value.value).value < triggerCount) ==> r.Some?
  {
    if value.None? then None
    else
      var index := ParseInt(value.value);
      if index.None? || index.value < 0 || index.value >= triggerCount then None
      else Some(index.value as nat)
  }

  /** The parameter written for a tab is read back as that tab. */
  lemma IndexFromURLRoundTrip(index: nat, triggerCount: nat)
    requires index < triggerCount
    ensures IndexFromURL(Some(IntToString(index)), triggerCount) == Some(index)
  {
    ParseIntOfIntToString(index);
  }

  /** A written index outside the triggers, such as -1, is read as no index. */
  lemma IndexFromURLOutside(index: int, triggerCount: nat)
    requires index < 0 || index >= triggerCount
    ensures IndexFromURL(Some(IntToString(index)), triggerCount).None?
  {
    ParseIntOfIntToString(index);
  }

  /** The three attributes `activateTab` sets on a trigger. */
  datatype TriggerAttrs = TriggerAttrs(dataState: string, ariaSelected: string, tabIndex: string)

  const ActiveAttrs: TriggerAttrs := TriggerAttrs("active", "true", "0")
  const InactiveAttrs: TriggerAttrs := TriggerAttrs("inactive", "false", "-1")

  /** `!targetTab` on an attribute value: absent or empty. */
  predicate MissingTab(tab: Option<string>)
  {
    tab.None? || tab.value == ""
  }

  /** `findIndex` of the first trigger in the "active" state, -1 if none. */
  function ActiveIndex(states: seq<TriggerAttrs>): (r: int)
    ensures -1 <= r < |states|
    ensures r == -1 <==> forall j :: 0 <= j < |states| ==> states[j].dataState != "active"
    ensures r >= 0 ==> states[r].dataState == "active"
                       && forall j :: 0 <= j < r ==> states[j].dataState != "active"
    decreases |states|
  {
    if states == [] then -1
    else if states[0].dataState == "active" then 0
    else
      var r := ActiveIndex(states[1..]);
      assert forall j :: 1 <= j < |states| ==> states[j] == states[1..][j - 1];
      if r == -1 then -1 else r + 1
  }

  /** The controller: the tab parameter of each trigger and the key of each
      panel are fixed by the page; the trigger attributes, the panels'
      `hidden` class, the URL's tab parameter and the history grow as the
      reader switches tabs. */
  class ContentTabsController {
    const triggerTabs: seq<Option<string>>
    const panelKeys: seq<Option<string>>
    var triggerAttrs: seq<TriggerAttrs>
    var panelHidden: seq<bool>
    var urlParam: Option<string>
    var historyLength: nat
    var listening: bool

    predicate Valid()
      reads this
    {
      |triggerAttrs| == |triggerTabs| && |panelHidden| == |panelKeys|
    }

    /** The page as rendered, before `connect`. */
    constructor (triggerTabs: seq<Option<string>>, panelKeys: seq<Option<string>>,
                 triggerAttrs: seq<TriggerAttrs>, panelHidden: seq<bool>,
                 urlParam: Option<string>, historyLength: nat)
      requires |triggerAttrs| == |triggerTabs| && |panelHidden| == |panelKeys|
      ensures Valid()
      ensures this.triggerTabs == triggerTabs && this.panelKeys == panelKeys
      ensures this.triggerAttrs == triggerAttrs && this.panelHidden == panelHidden
      ensures this.urlParam == urlParam && this.historyLength == historyLength
      ensures !listening
    {
      this.triggerTabs := triggerTabs;
      this.panelKeys := panelKeys;
      this.triggerAttrs := triggerAttrs;
      this.panelHidden := panelHidden;
      this.urlParam := urlParam;
      this.historyLength := historyLength;
      listening := false;
    }

    /** `activateTab`: nothing happens for an index without a trigger or a
        trigger without a tab; otherwise exactly the triggers of the target
        tab become active and exactly its panels are shown. */
    method ActivateTab(index: int)
      requires Valid()
      modifies this`triggerAttrs, this`panelHidden
      ensures Valid()
      ensures !(0 <= index < |triggerTabs|) || MissingTab(triggerTabs[index]) ==>
        triggerAttrs == old(triggerAttrs) && panelHidden == old(panelHidden)
      ensures 0 <= index < |triggerTabs| && !MissingTab(triggerTabs[index]) ==>
        && (forall j :: 0 <= j < |triggerAttrs| ==>
              triggerAttrs[j] == if triggerTabs[j] == triggerTabs[index] then ActiveAttrs else InactiveAttrs)
        && (forall j :: 0 <= j < |panelHidden| ==> (panelHidden[j] <==> panelKeys[j] != triggerTabs[index]))
    {
      if !(0 <= index < |triggerTabs|) {
        return;
      }
      var targetTab := triggerTabs[index];
      if MissingTab(targetTab) {
        return;
      }
      var i := 0;
      while i < |triggerTabs|
        modifies this`triggerAttrs
        invariant 0 <= i <= |triggerTabs| && |triggerAttrs| == |triggerTabs|
        invariant forall j :: 0 <= j < i ==>
          triggerAttrs[j] == if triggerTabs[j] == targetTab then ActiveAttrs else InactiveAttrs
      {
        var isActive := triggerTabs[i] == targetTab;
        triggerAttrs := triggerAttrs[i := if isActive then ActiveAttrs else InactiveAttrs];
        i := i + 1;
      }
      i := 0;
      while i < |panelKeys|
        modifies this`panelHidden
        invariant 0 <= i <= |panelKeys| && |panelHidden| == |panelKeys|
        invariant forall j :: 0 <= j < i ==> (panelHidden[j] <==> panelKeys[j] != targetTab)
      {
        panelHidden := panelHidden[i := panelKeys[i] != targetTab];
        i := i + 1;
      }
    }

    /** `connect`: a valid tab in the URL is activated; otherwise the URL is
        replaced with the index of the trigger already active (-1 if none). */
    method Connect()
      requires Valid()
      modifies this
      ensures Valid()
      ensures listening && historyLength == old(historyLength)
      ensures IndexFromURL(old(urlParam), |triggerTabs|).None? ==>
        && urlParam == Some(IntToString(ActiveIndex(old(triggerAttrs))))
        && triggerAttrs == old(triggerAttrs) && panelHidden == old(panelHidden)
      ensures IndexFromURL(old(urlParam), |triggerTabs|).Some? ==>
        var index := IndexFromURL(old(urlParam), |triggerTabs|).value;
        && urlParam == old(urlParam)
        && (MissingTab(triggerTabs[index]) ==>
              triggerAttrs == old(triggerAttrs) && panelHidden == old(panelHidden))
        && (!MissingTab(triggerTabs[index]) ==>
              && (forall j :: 0 <= j < |triggerAttrs| ==>
                    triggerAttrs[j] == if triggerTabs[j] == triggerTabs[index] then ActiveAttrs else InactiveAttrs)
              && (forall j :: 0 <= j < |panelHidden| ==> (panelHidden[j] <==> panelKeys[j] != triggerTabs[index])))
    {
      var indexFromURL := IndexFromURL(urlParam, |triggerTabs|);
      if indexFromURL.Some? {
        ActivateTab(indexFromURL.value);
      } else {
        var activeIndex := ActiveIndex(triggerAttrs);
        urlParam := Some(IntToString(activeIndex));
      }
      listening := true;
    }

    /** `disconnect`: the popstate listener is removed. */
    method Disconnect()
      modifies this`listening
      ensures !listening
    {
      listening := false;
    }

    /** `switch` on a trigger: `index` is the trigger's position among the
        triggers (-1 when it is not one of them) and `tab` its tab
        parameter. A trigger without a tab does nothing; otherwise the tab
        is activated and its index pushed to the history. */
    method Switch(tab: Option<string>, index: int)
      requires Valid()
      requires index == -1 || (0 <= index < |triggerTabs| && tab == triggerTabs[index])
      modifies this`triggerAttrs, this`panelHidden, this`urlParam, this`historyLength
      ensures Valid()
      ensures MissingTab(tab) ==> triggerAttrs == old(triggerAttrs) && panelHidden == old(panelHidden)
                                  && urlParam == old(urlParam) && historyLength == old(historyLength)
      ensures !MissingTab(tab) ==> urlParam == Some(IntToString(index)) && historyLength == old(historyLength) + 1
      ensures !MissingTab(tab) && index >= 0 ==>
        && IndexFromURL(urlParam, |triggerTabs|) == Some(index)
        && (forall j :: 0 <= j < |triggerAttrs| ==>
              triggerAttrs[j] == if triggerTabs[j] == tab then ActiveAttrs else InactiveAttrs)
        && (forall j :: 0 <= j < |panelHidden| ==> (panelHidden[j] <==> panelKeys[j] != tab))
      ensures index == -1 ==> triggerAttrs == old(triggerAttrs) && panelHidden == old(panelHidden)
    {
      if MissingTab(tab) {
        return;
      }
      ActivateTab(index);
      urlParam := Some(IntToString(index));
      historyLength := historyLength + 1;
      if index >= 0 {
        IndexFromURLRoundTrip(index, |triggerTabs|);
      }
    }

    /** The popstate handler, after the browser moved to an entry whose tab
        parameter is `param`: the URL's tab is activated, tab 0 when the URL
        has no valid one. */
    method HandlePopState(param: Option<string>)
      requires Valid()
      modifies this`triggerAttrs, this`panelHidden, this`urlParam
      ensures Valid() && urlParam == param
      ensures var index := match IndexFromURL(param, |triggerTabs|)
                           case Some(i) => i
                           case None => 0;
        && (!(index < |triggerTabs|) || MissingTab(triggerTabs[index]) ==>
              triggerAttrs == old(triggerAttrs) && panelHidden == old(panelHidden))
        && (index < |triggerTabs| && !MissingTab(triggerTabs[index]) ==>
              && (forall j :: 0 <= j < |triggerAttrs| ==>
                    triggerAttrs[j] == if triggerTabs[j] == triggerTabs[index] then ActiveAttrs else InactiveAttrs)
              && (forall j :: 0 <= j < |panelHidden| ==> (panelHidden[j] <==> panelKeys[j] != triggerTabs[index])))
    {
      urlParam := param;
      var index := IndexFromURL(urlParam, |triggerTabs|);
      ActivateTab(if index.Some? then index.value else 0);
    }
  }

  /** After activation exactly one tab value is shown: every shown panel and
      every active trigger carry the same tab. */
  lemma ActivationShowsOneTab(c: ContentTabsController, tab: string)
    requires c.Valid() && tab != ""
    requires forall j :: 0 <= j < |c.triggerAttrs| ==>
      c.triggerAttrs[j] == if c.triggerTabs[j] == Some(tab) then ActiveAttrs else InactiveAttrs
    requires forall j :: 0 <= j < |c.panelHidden| ==> (c.panelHidden[j] <==> c.panelKeys[j] != Some(tab))
    ensures forall j, k :: (0 <= j < |c.triggerAttrs| && 0 <= k < |c.panelHidden|
      && c.triggerAttrs[j].dataState == "active" && !c.panelHidden[k]) ==> c.triggerTabs[j] == c.panelKeys[k]
    ensures ActiveIndex(c.triggerAttrs) >= 0 ==> c.triggerTabs[ActiveIndex(c.triggerAttrs)] == Some(tab)
  {
    assert ActiveAttrs.dataState != InactiveAttrs.dataState by {
      assert ActiveAttrs.dataState[0] != InactiveAttrs.dataState[0];
    }
  }
}
