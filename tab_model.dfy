/** The auto-hide tab as a value: its state, one function per operation that
    changes it, and what sequences of operations do to it. */
module TabModel {
  import opened Ads

  /** Everything an auto-hide tab holds: the side bar it sits on and the dock
      widget it stands for (both possibly null), its orientation, and the
      button state it writes (layout, text, whether an icon is set). The
      restyle count records how often the style was refreshed. */
  datatype TabState = TabState(
    sideBar: AutoHideSideBar?,
    dockWidget: DockWidget?,
    orientation: Orientation,
    buttonOrientation: ButtonOrientation,
    text: string,
    hasIcon: bool,
    restyles: nat)
  {
    /** The edge the tab sits on; Left while it is detached. */
    function SideTabBarArea(): (area: SideBarLocation)
      ensures sideBar != null ==> area == sideBar.area
      ensures sideBar == null ==> area == Left
    {
      if sideBar != null then sideBar.area else Left
    }

    /** Attach to a side bar, or detach with null; nothing is validated. */
    function SetSideBar(bar: AutoHideSideBar?): (r: TabState)
      ensures r.sideBar == bar
      ensures r.(sideBar := sideBar) == this
    {
      this.(sideBar := bar)
    }

    /** Leave the side bar: afterwards the tab is detached and nothing else differs. */
    function RemoveFromSideBar(): (r: TabState)
      ensures r.sideBar == null
      ensures r.(sideBar := sideBar) == this
    {
      if sideBar == null then this else SetSideBar(null)
    }

    /** Refresh the style: only the restyle count moves. */
    function UpdateStyle(): (r: TabState)
      ensures r.restyles == restyles + 1
      ensures r.(restyles := restyles) == this
    {
      this.(restyles := restyles + 1)
    }

    /** Store an orientation, lay the button out to match, then refresh the style. */
    function SetOrientation(o: Orientation): (r: TabState)
      ensures r.orientation == o
      ensures r.buttonOrientation == ButtonOrientation.Horizontal <==> o == Orientation.Horizontal
      ensures r.buttonOrientation == ButtonOrientationFor(o)
      ensures r.restyles == restyles + 1
      ensures r.(orientation := orientation, buttonOrientation := buttonOrientation, restyles := restyles) == this
    {
      this.(orientation := o, buttonOrientation := ButtonOrientationFor(o)).UpdateStyle()
    }

    /** Orient the tab for an edge; with an icon and that edge's icon-only
        flag set, drop the text and force a horizontal layout. */
    function UpdateOrientationForArea(area: SideBarLocation, config: IconOnlyConfig): (r: TabState)
      ensures !hasIcon ==> r.orientation == AreaOrientation(area) && r.text == text
      ensures hasIcon && IconOnlyFlag(config, area) ==> r.text == "" && r.orientation == Orientation.Horizontal
      ensures hasIcon && !IconOnlyFlag(config, area) ==> r.text == text && r.orientation == AreaOrientation(area)
      ensures r.buttonOrientation == ButtonOrientationFor(r.orientation)
      ensures r.restyles == restyles + if hasIcon && IconOnlyFlag(config, area) then 2 else 1
      ensures r.sideBar == sideBar && r.dockWidget == dockWidget && r.hasIcon == hasIcon
    {
      var oriented := SetOrientation(AreaOrientation(area));
      if !oriented.hasIcon then oriented
      else if IconOnlyFlag(config, area) then oriented.(text := "").SetOrientation(Orientation.Horizontal)
      else oriented
    }

    /** Assign the dock widget; `title` and `icon` are the widget's window
        title and whether its icon is non-null at the moment of the call.
        A null widget is ignored. */
    function SetDockWidget(widget: DockWidget?, title: string, icon: bool): (r: TabState)
      ensures widget == null ==> r == this
      ensures widget != null ==> r.dockWidget == widget && r.text == title && r.hasIcon == icon
      ensures r.(dockWidget := dockWidget, text := text, hasIcon := hasIcon) == this
    {
      if widget == null then this
      else this.(dockWidget := widget, text := title, hasIcon := icon)
    }
  }

  /** A freshly constructed tab, before anything is assigned. The button's
      starting layout belongs to the push-button base class and is taken as given. */
  function NewTab(button: ButtonOrientation): (s: TabState)
    ensures s.sideBar == null && s.dockWidget == null
    ensures s.orientation == Vertical && s.SideTabBarArea() == Left
    ensures s.text == "" && !s.hasIcon
    ensures s.buttonOrientation == button && s.restyles == 0
  {
    TabState(null, null, Vertical, button, "", false, 0)
  }

  /** The operations a caller can apply to a tab, with the inputs each one reads. */
  datatype Call =
    | SetSideBar(bar: AutoHideSideBar?)
    | RemoveFromSideBar
    | UpdateStyle
    | SetOrientation(to: Orientation)
    | UpdateOrientationForArea(area: SideBarLocation, config: IconOnlyConfig)
    | SetDockWidget(widget: DockWidget?, title: string, icon: bool)

  function Step(s: TabState, c: Call): TabState
  {
    match c
    case SetSideBar(bar) => s.SetSideBar(bar)
    case RemoveFromSideBar => s.RemoveFromSideBar()
    case UpdateStyle => s.UpdateStyle()
    case SetOrientation(o) => s.SetOrientation(o)
    case UpdateOrientationForArea(area, config) => s.UpdateOrientationForArea(area, config)
    case SetDockWidget(widget, title, icon) => s.SetDockWidget(widget, title, icon)
  }

  /** The state after applying the calls in order. */
  function Run(s: TabState, calls: seq<Call>): TabState
    decreases |calls|
  {
    if calls == [] then s else Run(Step(s, calls[0]), calls[1..])
  }

  /** The side bar a call asks to remove the tab, if any. */
  function Asked(s: TabState, c: Call): seq<AutoHideSideBar>
  {
    if c.RemoveFromSideBar? && s.sideBar != null then [s.sideBar] else []
  }

  /** Every removal request the calls send, in order. */
  function Requests(s: TabState, calls: seq<Call>): seq<AutoHideSideBar>
    decreases |calls|
  {
    if calls == [] then [] else Asked(s, calls[0]) + Requests(Step(s, calls[0]), calls[1..])
  }

  /** How many of the calls attach the tab to a side bar. */
  function Attachments(calls: seq<Call>): nat
  {
    if calls == [] then 0
    else (if calls[0].SetSideBar? && calls[0].bar != null then 1 else 0) + Attachments(calls[1..])
  }

  predicate Attached(s: TabState)
  {
    s.sideBar != null
  }

  /** The button layout agrees with the stored orientation. */
  predicate ButtonMatches(s: TabState)
  {
    s.buttonOrientation == ButtonOrientationFor(s.orientation)
  }

  /** The orientation is the one the attached side bar's edge calls for. */
  predicate AlignedWithSideBar(s: TabState)
  {
    s.sideBar != null ==> s.orientation == AreaOrientation(s.sideBar.area)
  }

  predicate SetsOrientation(c: Call)
  {
    c.SetOrientation? || c.UpdateOrientationForArea?
  }

  // ---------------------------------------------------------------- attach / detach

  /** Detaching twice is detaching once, and the second call asks nobody. */
  lemma RemoveFromSideBarIdempotent(s: TabState)
    ensures Run(s, [RemoveFromSideBar, RemoveFromSideBar]) == Run(s, [RemoveFromSideBar])
    ensures Requests(s, [RemoveFromSideBar, RemoveFromSideBar]) == Requests(s, [RemoveFromSideBar])
    ensures Requests(s, [RemoveFromSideBar]) == if s.sideBar != null then [s.sideBar] else []
  {
  }

  /** Attaching and then detaching leaves the tab detached, having asked that side bar exactly once. */
  lemma AttachThenDetach(s: TabState, bar: AutoHideSideBar)
    ensures Run(s, [SetSideBar(bar), RemoveFromSideBar]).sideBar == null
    ensures Requests(s, [SetSideBar(bar), RemoveFromSideBar]) == [bar]
  {
    var calls := [SetSideBar(bar), RemoveFromSideBar];
    assert calls[1..] == [RemoveFromSideBar];
    assert Run(s, calls) == Run(s.SetSideBar(bar), [RemoveFromSideBar]);
  }

  /** Every removal request is paid for by an attachment: a side bar is never
      asked twice for one attachment. */
  lemma {:induction false} RequestsBoundedByAttachments(s: TabState, calls: seq<Call>)
    ensures |Requests(s, calls)| <= (if Attached(s) then 1 else 0) + Attachments(calls)
    decreases |calls|
  {
    if calls != [] {
      RequestsBoundedByAttachments(Step(s, calls[0]), calls[1..]);
    }
  }

  /** A removal on an attached tab asks the side bar it sits on, then goes on from the detached state. */
  lemma {:induction false} RequestsGoToCurrentSideBar(s: TabState, calls: seq<Call>)
    requires calls != [] && calls[0] == RemoveFromSideBar && Attached(s)
    ensures Requests(s, calls)[0] == s.sideBar
    ensures Run(s, calls) == Run(s.(sideBar := null), calls[1..])
  {
  }

  // ---------------------------------------------------------------- orientation

  /** Updating twice for the same edge and flags changes nothing more than updating once, apart from restyling. */
  lemma UpdateOrientationForAreaIdempotent(s: TabState, area: SideBarLocation, config: IconOnlyConfig)
    ensures var once := s.UpdateOrientationForArea(area, config);
      once.UpdateOrientationForArea(area, config).(restyles := once.restyles) == once
  {
  }

  /** Icon-only mode is not reverted: once an update has dropped the text, no
      later orientation update brings it back. */
  lemma IconOnlyTextNotRestored(s: TabState, area: SideBarLocation, config: IconOnlyConfig,
                                later: SideBarLocation, laterConfig: IconOnlyConfig)
    requires s.hasIcon && IconOnlyFlag(config, area)
    ensures s.UpdateOrientationForArea(area, config).UpdateOrientationForArea(later, laterConfig).text == ""
  {
  }

  /** With an icon, the top edge follows the bottom flag and the bottom edge the top flag. */
  lemma CrossedFlagsDecideTopAndBottom(s: TabState, config: IconOnlyConfig)
    requires s.hasIcon && s.text != ""
    ensures s.UpdateOrientationForArea(Top, config).text == "" <==> config.bottomSideBarIconOnly
    ensures s.UpdateOrientationForArea(Bottom, config).text == "" <==> config.topSideBarIconOnly
  {
  }

  /** Every call keeps the button layout in step with the orientation. */
  lemma {:induction false} RunKeepsButtonMatching(s: TabState, calls: seq<Call>)
    requires ButtonMatches(s)
    ensures ButtonMatches(Run(s, calls))
    decreases |calls|
  {
    if calls != [] {
      RunKeepsButtonMatching(Step(s, calls[0]), calls[1..]);
    }
  }

  /** A new tab's button layout need not agree with its orientation, but the
      first call that sets an orientation brings them in step for good. */
  lemma {:induction false} RunEstablishesButtonMatching(s: TabState, calls: seq<Call>, i: nat)
    requires i < |calls| && SetsOrientation(calls[i])
    ensures ButtonMatches(Run(s, calls))
    decreases |calls|
  {
    if i == 0 {
      RunKeepsButtonMatching(Step(s, calls[0]), calls[1..]);
    } else {
      RunEstablishesButtonMatching(Step(s, calls[0]), calls[1..], i - 1);
    }
  }

  /** Attaching does not orient the tab: until the orientation is updated
      for the new edge, a tab standing vertical on a top or bottom side bar
      is out of line with it. */
  lemma AttachAloneDoesNotAlign(s: TabState, bar: AutoHideSideBar)
    requires s.orientation == Vertical && (bar.area == Top || bar.area == Bottom)
    ensures !AlignedWithSideBar(s.SetSideBar(bar))
  {
  }

  /** Attaching and then updating for that side bar's edge lines the tab up,
      unless the icon-only override applies. */
  lemma AttachThenUpdateAligns(s: TabState, bar: AutoHideSideBar, config: IconOnlyConfig)
    requires !(s.hasIcon && IconOnlyFlag(config, bar.area))
    ensures AlignedWithSideBar(s.SetSideBar(bar).UpdateOrientationForArea(bar.area, config))
  {
  }

  /** The icon-only override lies a tab horizontally even on a left or right side bar. */
  lemma IconOnlyOverridesEdge(s: TabState, bar: AutoHideSideBar, config: IconOnlyConfig)
    requires s.hasIcon && IconOnlyFlag(config, bar.area) && (bar.area == Left || bar.area == Right)
    ensures !AlignedWithSideBar(s.SetSideBar(bar).UpdateOrientationForArea(bar.area, config))
  {
  }

  // ---------------------------------------------------------------- dock widget and text

  /** The dock widget at the end is the starting one or one assigned by a
      non-null call; in particular it is never cleared. */
  lemma {:induction false} RunDockWidgetComesFromCalls(s: TabState, calls: seq<Call>)
    ensures var w := Run(s, calls).dockWidget;
      w == s.dockWidget ||
      exists i :: 0 <= i < |calls| && calls[i].SetDockWidget? && calls[i].widget != null && calls[i].widget == w
    ensures s.dockWidget != null ==> Run(s, calls).dockWidget != null
    decreases |calls|
  {
    if calls != [] {
      var next := Step(s, calls[0]);
      RunDockWidgetComesFromCalls(next, calls[1..]);
      var w := Run(s, calls).dockWidget;
      if w != next.dockWidget {
        var j :| 0 <= j < |calls[1..]| && calls[1..][j].SetDockWidget? && calls[1..][j].widget != null
                 && calls[1..][j].widget == w;
        assert calls[j + 1] == calls[1..][j];
      } else if w != s.dockWidget {
        assert calls[0].SetDockWidget? && calls[0].widget == w;
      }
    }
  }

  /** The text at the end is the starting text, the empty text of icon-only
      mode, or the title passed with some non-null dock widget. */
  lemma {:induction false} RunTextComesFromTitles(s: TabState, calls: seq<Call>)
    ensures var t := Run(s, calls).text;
      t == s.text || t == "" ||
      exists i :: 0 <= i < |calls| && calls[i].SetDockWidget? && calls[i].widget != null && calls[i].title == t
    decreases |calls|
  {
    if calls != [] {
      var next := Step(s, calls[0]);
      RunTextComesFromTitles(next, calls[1..]);
      var t := Run(s, calls).text;
      if t != next.text && t != "" {
        var j :| 0 <= j < |calls[1..]| && calls[1..][j].SetDockWidget? && calls[1..][j].widget != null
                 && calls[1..][j].title == t;
        assert calls[j + 1] == calls[1..][j];
      } else if t != s.text && t != "" {
        assert calls[0].SetDockWidget? && calls[0].title == t;
      }
    }
  }
}
