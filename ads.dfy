/** Enumerations, configuration flags and the collaborators an auto-hide tab talks to. */
module Ads {

  /** The edge of the dock container that a side bar occupies. */
  datatype SideBarLocation = Left | Right | Top | Bottom

  /** Qt's orientation of a widget. */
  datatype Orientation = Horizontal | Vertical

  /** How the push button lays out its icon and text. */
  datatype ButtonOrientation = Horizontal | VerticalTopToBottom | VerticalBottomToTop

  /** The four "icon only" dock-manager flags, one per side-bar edge. */
  datatype IconOnlyConfig = IconOnlyConfig(
    leftSideBarIconOnly: bool,
    rightSideBarIconOnly: bool,
    topSideBarIconOnly: bool,
    bottomSideBarIconOnly: bool)

  /** Orientation a side-bar edge calls for before any icon-only override. */
  function AreaOrientation(area: SideBarLocation): (o: Orientation)
    ensures o == Orientation.Horizontal <==> area == Top || area == Bottom
  {
    if area == Bottom || area == Top then Orientation.Horizontal else Vertical
  }

  /** Button layout that goes with a widget orientation. */
  function ButtonOrientationFor(o: Orientation): (b: ButtonOrientation)
    ensures b == ButtonOrientation.Horizontal <==> o == Orientation.Horizontal
    ensures b != VerticalBottomToTop
  {
    if o == Orientation.Horizontal then ButtonOrientation.Horizontal else VerticalTopToBottom
  }

  /** The icon-only flag consulted for an edge, as written: the top edge
      consults the bottom flag and the bottom edge the top flag. */
  function IconOnlyFlag(config: IconOnlyConfig, area: SideBarLocation): (flag: bool)
    ensures area == Left ==> flag == config.leftSideBarIconOnly
    ensures area == Right ==> flag == config.rightSideBarIconOnly
    ensures area == Top ==> flag == config.bottomSideBarIconOnly
    ensures area == Bottom ==> flag == config.topSideBarIconOnly
  {
    match area
    case Left => config.leftSideBarIconOnly
    case Right => config.rightSideBarIconOnly
    case Top => config.bottomSideBarIconOnly
    case Bottom => config.topSideBarIconOnly
  }

  /** The top and bottom flags are crossed: a configuration that asks for an
      icon-only top side bar does not make the top edge icon-only, and one
      that asks for an icon-only bottom side bar does not make the bottom
      edge icon-only. */
  lemma TopAndBottomFlagsCrossed()
    ensures exists config: IconOnlyConfig ::
      config.topSideBarIconOnly && !IconOnlyFlag(config, Top)
    ensures exists config: IconOnlyConfig ::
      config.bottomSideBarIconOnly && !IconOnlyFlag(config, Bottom)
  {
    var onlyTop := IconOnlyConfig(false, false, true, false);
    assert onlyTop.topSideBarIconOnly && !IconOnlyFlag(onlyTop, Top);
    var onlyBottom := IconOnlyConfig(false, false, false, true);
    assert onlyBottom.bottomSideBarIconOnly && !IconOnlyFlag(onlyBottom, Bottom);
  }

  /** A side bar: it exposes its edge and records every tab it was asked to remove. */
  class AutoHideSideBar {
    const area: SideBarLocation
    var removedTabs: seq<object>

    constructor (area: SideBarLocation)
      ensures this.area == area && removedTabs == []
    {
      this.area := area;
      removedTabs := [];
    }

    /** The side bar's own removal logic is not part of this model; only the request is recorded. */
    method RemoveSideTab(tab: object)
      modifies this
      ensures removedTabs == old(removedTabs) + [tab]
    {
      removedTabs := removedTabs + [tab];
    }
  }

  /** The overlay that shows an auto-hidden panel; only its visibility matters here. */
  class AutoHideDockContainer {
    var visible: bool

    constructor (visible: bool)
      ensures this.visible == visible
    {
      this.visible := visible;
    }
  }

  /** A dock panel: its window title, whether its icon is non-null, and its auto-hide container if any. */
  class DockWidget {
    var title: string
    var hasIcon: bool
    var autoHideContainer: AutoHideDockContainer?

    constructor (title: string, hasIcon: bool, autoHideContainer: AutoHideDockContainer?)
      ensures this.title == title && this.hasIcon == hasIcon
      ensures this.autoHideContainer == autoHideContainer
    {
      this.title := title;
      this.hasIcon := hasIcon;
      this.autoHideContainer := autoHideContainer;
    }
  }
}
