/** `close_youtube_tab`: three ranked ways of getting rid of a video tab, each
    tried only when the previous one did not succeed. What the desktop does in
    each step (which tabs exist, which automation call raises) is an input. */
module Tabs {
  import opened Text
  import opened Dispatch

  /** Reading one tab's title either yields it or raises. */
  datatype TabProbe = Titled(title: string) | TitleRaises

  /** A two-call step (click then Ctrl+W; Alt+Tab then Ctrl+W): both calls
      return, the first raises, or the second raises after the first took effect. */
  datatype Steps = BothSucceed | FirstRaises | SecondRaises

  /** Tier 1's view of the browser: no Edge window could be attached (or the
      tab lookup failed), or the sequence of tabs the lookup returned, as an
      abstract input, and how closing the chosen one goes. */
  datatype Automation = NoEdgeWindow | EdgeWindow(tabs: seq<TabProbe>, close: Steps)

  /** Everything the three tiers observe. `fallbackRaises` is an abstract flag:
      whether some call in tier 3 raises and sends control to the outer handler. */
  datatype Desktop = Desktop(automation: Automation, shortcut: Steps, fallbackRaises: bool)

  /** Which tier closed the tab, or `Failed` when the outer handler fired. */
  datatype Tier = ByAutomation | ByShortcut | ByKill | Failed

  datatype Closing = Closing(tier: Tier, actions: seq<Action>)

  /** Tier 1's scan over the tab strip: it stops at the first YouTube tab, or at
      the first title that cannot be read. */
  datatype Scan = Found(index: nat) | Raised | NoMatch

  const TabClosedMessage := "Closed YouTube tab"
  const CurrentTabClosedMessage := "Closed current tab"
  const FallbackMessage := "Couldn't close just the YouTube tab. Closing Edge completely"
  const FailureMessage := "Sorry, I couldn't close YouTube"

  predicate IsYoutubeTab(p: TabProbe)
  {
    p.Titled? && Contains(Lower(p.title), "youtube")
  }

  /** The scan from position `i` on. */
  function ScanFrom(tabs: seq<TabProbe>, i: nat): Scan
    requires i <= |tabs|
    decreases |tabs| - i
  {
    if i == |tabs| then NoMatch
    else if tabs[i].TitleRaises? then Raised
    else if IsYoutubeTab(tabs[i]) then Found(i)
    else ScanFrom(tabs, i + 1)
  }

  function ScanTabs(tabs: seq<TabProbe>): Scan
  {
    ScanFrom(tabs, 0)
  }

  /** Tabs before `i` were all read and none is a YouTube tab. */
  predicate PassedOver(tabs: seq<TabProbe>, i: int)
  {
    forall j :: 0 <= j < i && j < |tabs| ==> tabs[j].Titled? && !IsYoutubeTab(tabs[j])
  }

  lemma {:induction false} ScanFromFound(tabs: seq<TabProbe>, i: nat, k: nat)
    requires i <= |tabs| && PassedOver(tabs, i)
    ensures ScanFrom(tabs, i) == Found(k) <==>
              (i <= k < |tabs| && IsYoutubeTab(tabs[k]) && PassedOver(tabs, k))
    decreases |tabs| - i
  {
    if i < |tabs| && tabs[i].Titled? && !IsYoutubeTab(tabs[i]) {
      ScanFromFound(tabs, i + 1, k);
    }
  }

  /** Tier 1 stops at index `k` exactly when tab `k` is the first YouTube tab
      and every tab before it had a readable title. */
  lemma ScanFindsFirstYoutubeTab(tabs: seq<TabProbe>, k: nat)
    ensures ScanTabs(tabs) == Found(k) <==>
              (k < |tabs| && IsYoutubeTab(tabs[k]) && PassedOver(tabs, k))
  {
    ScanFromFound(tabs, 0, k);
  }

  lemma {:induction false} ScanFromNoMatch(tabs: seq<TabProbe>, i: nat)
    requires i <= |tabs| && PassedOver(tabs, i)
    ensures ScanFrom(tabs, i) == NoMatch <==> PassedOver(tabs, |tabs|)
    decreases |tabs| - i
  {
    if i < |tabs| {
      if tabs[i].Titled? && !IsYoutubeTab(tabs[i]) {
        ScanFromNoMatch(tabs, i + 1);
      } else {
        assert !PassedOver(tabs, |tabs|) by { assert !(tabs[i].Titled? && !IsYoutubeTab(tabs[i])); }
      }
    }
  }

  /** Tier 1 runs off the end exactly when every title was read and none
      mentions YouTube. */
  lemma ScanFindsNothing(tabs: seq<TabProbe>)
    ensures ScanTabs(tabs) == NoMatch <==> PassedOver(tabs, |tabs|)
  {
    ScanFromNoMatch(tabs, 0);
  }

  /** Outcome of one tier: whether it returned True, and what it did on the way. */
  datatype Attempt = Attempt(succeeded: bool, effects: seq<Action>)

  /** Tier 1: click the first YouTube tab and press Ctrl+W on the window. */
  function AutomationTier(a: Automation): Attempt
  {
    match a
    case NoEdgeWindow => Attempt(false, [])
    case EdgeWindow(tabs, close) =>
      match ScanTabs(tabs)
      case Found(i) =>
        (match close
         case BothSucceed => Attempt(true, [ClickTab(i), PressKeys("^w"), Say(TabClosedMessage)])
         case FirstRaises => Attempt(false, [])
         case SecondRaises => Attempt(false, [ClickTab(i)]))
      case _ => Attempt(false, [])
  }

  /** Tier 2: Alt+Tab to the browser, then Ctrl+W on whatever tab is current. */
  function ShortcutTier(s: Steps): Attempt
  {
    match s
    case BothSucceed =>
      Attempt(true, [PressKeys("alt+tab"), PressKeys("ctrl+w"), Say(CurrentTabClosedMessage)])
    case FirstRaises => Attempt(false, [])
    case SecondRaises => Attempt(false, [PressKeys("alt+tab")])
  }

  /** Tier 3: announce, then kill every Edge process; if tier 3 raises, the
      outer handler apologises and the routine returns False. */
  function KillTier(raises: bool): Attempt
  {
    if raises then Attempt(false, [Say(FallbackMessage), Say(FailureMessage)])
    else Attempt(true, [Say(FallbackMessage), Kill("msedge.exe")])
  }

  /** The whole routine: the first tier that succeeds ends it. */
  function TabClosing(d: Desktop): Closing
  {
    var t1 := AutomationTier(d.automation);
    if t1.succeeded then Closing(ByAutomation, t1.effects)
    else
      var t2 := ShortcutTier(d.shortcut);
      if t2.succeeded then Closing(ByShortcut, t1.effects + t2.effects)
      else
        var t3 := KillTier(d.fallbackRaises);
        Closing(if t3.succeeded then ByKill else Failed, t1.effects + t2.effects + t3.effects)
  }

  /** The tier order: tier 1 wins only at the first YouTube tab when closing it
      works; tier 2 is reached exactly when tier 1 did not return; tier 3 exactly
      when neither did; and the routine fails only when tier 3 raises. */
  lemma TierOrder(d: Desktop)
    ensures TabClosing(d).tier == ByAutomation <==>
              d.automation.EdgeWindow? && ScanTabs(d.automation.tabs).Found? && d.automation.close == BothSucceed
    ensures TabClosing(d).tier == ByShortcut <==>
              !AutomationTier(d.automation).succeeded && d.shortcut == BothSucceed
    ensures TabClosing(d).tier == ByKill <==>
              !AutomationTier(d.automation).succeeded && d.shortcut != BothSucceed && !d.fallbackRaises
    ensures TabClosing(d).tier == Failed <==>
              !AutomationTier(d.automation).succeeded && d.shortcut != BothSucceed && d.fallbackRaises
  {
  }

  /** Edge is killed only by tier 3, and nothing else is ever killed. */
  lemma KillOnlyAsLastResort(d: Desktop)
    ensures Kill("msedge.exe") in TabClosing(d).actions <==> TabClosing(d).tier == ByKill
    ensures forall e :: Kill(e) in TabClosing(d).actions ==> e == "msedge.exe"
  {
  }

  /** A tab is clicked only if it is the first YouTube tab. */
  lemma ClicksOnlyFirstYoutubeTab(d: Desktop, k: nat)
    requires ClickTab(k) in TabClosing(d).actions
    ensures d.automation.EdgeWindow? && ScanTabs(d.automation.tabs) == Found(k)
  {
  }

  /** Tab closing never ends the assistant and never consults the generator. */
  lemma TabClosingIsLocal(d: Desktop)
    ensures Local(TabClosing(d).actions) && CloseVideoTab !in TabClosing(d).actions
  {
    var t1 := AutomationTier(d.automation);
    var t2 := ShortcutTier(d.shortcut);
    var t3 := KillTier(d.fallbackRaises);
    assert Local(t1.effects) && Local(t2.effects) && Local(t3.effects);
    assert Local(t1.effects + t2.effects);
  }

  /** `close_youtube_tab` itself: walk the tab strip, then fall through the
      tiers. Returns whether the routine reported success, and its effects. */
  method CloseYoutubeTab(d: Desktop) returns (ok: bool, acts: seq<Action>)
    ensures ok == (TabClosing(d).tier != Failed)
    ensures acts == TabClosing(d).actions
  {
    acts := [];
    // Tier 1: UI automation.
    match d.automation {
      case NoEdgeWindow =>
      case EdgeWindow(tabs, close) =>
        var scan := NoMatch;
        var i := 0;
        while i < |tabs| && scan == NoMatch
          invariant 0 <= i <= |tabs|
          invariant scan == NoMatch ==> ScanFrom(tabs, i) == ScanTabs(tabs)
          invariant scan != NoMatch ==> scan == ScanTabs(tabs)
          decreases |tabs| - i, if scan == NoMatch then 1 else 0
        {
          match tabs[i] {
            case TitleRaises => scan := Raised;
            case Titled(t) =>
              if Contains(Lower(t), "youtube") {
                scan := Found(i);
              } else {
                i := i + 1;
              }
          }
        }
        if scan.Found? {
          match close {
            case BothSucceed =>
              acts := [ClickTab(scan.index), PressKeys("^w"), Say(TabClosedMessage)];
              return true, acts;
            case FirstRaises =>
            case SecondRaises =>
              acts := [ClickTab(scan.index)];
          }
        }
    }
    // Tier 2: keyboard shortcuts.
    match d.shortcut {
      case BothSucceed =>
        acts := acts + [PressKeys("alt+tab"), PressKeys("ctrl+w"), Say(CurrentTabClosedMessage)];
        return true, acts;
      case FirstRaises =>
      case SecondRaises =>
        acts := acts + [PressKeys("alt+tab")];
    }
    // Tier 3: close the whole browser.
    acts := acts + [Say(FallbackMessage)];
    if d.fallbackRaises {
      acts := acts + [Say(FailureMessage)];
      ok := false;
    } else {
      acts := acts + [Kill("msedge.exe")];
      ok := true;
    }
  }
}
