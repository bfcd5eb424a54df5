/** The auto-hide tab object: the tab on a side bar that stands for an
    auto-hidden dock widget. Each method is proved against the matching
    operation of TabModel.TabState. */
module AutoHideTabs {
  import opened Ads
  import TabModel

  class AutoHideTab {
    var sideBar: AutoHideSideBar?
    var dockWidget: DockWidget?
    var orientation: Orientation
    var buttonOrientation: ButtonOrientation
    var text: string
    var hasIcon: bool
    var restyleCount: nat

    /** The tab's state as a value. */
    ghost function Model(): TabModel.TabState
      reads this
    {
      TabModel.TabState(sideBar, dockWidget, orientation, buttonOrientation, text, hasIcon, restyleCount)
    }

    /** A new tab: no dock widget, no side bar, vertical orientation, empty
        text and no icon; the button layout is whatever the push button starts with. */
    constructor (button: ButtonOrientation)
      ensures Model() == TabModel.NewTab(button)
    {
      sideBar := null;
      dockWidget := null;
      orientation := Vertical;
      buttonOrientation := button;
      text := "";
      hasIcon := false;
      restyleCount := 0;
    }

    method SetSideBar(bar: AutoHideSideBar?)
      modifies this
      ensures Model() == old(Model()).SetSideBar(bar)
    {
      sideBar := bar;
    }

    /** Asks the side bar, if there is one, to remove this tab, then detaches. */
    method RemoveFromSideBar()
      modifies this, sideBar
      ensures Model() == old(Model()).RemoveFromSideBar()
      ensures old(sideBar) != null ==> old(sideBar).removedTabs == old(sideBar.removedTabs) + [this]
      ensures old(sideBar) != null ==> TabModel.Asked(old(Model()), TabModel.RemoveFromSideBar) == [old(sideBar)]
      ensures old(sideBar) == null ==> TabModel.Asked(old(Model()), TabModel.RemoveFromSideBar) == []
    {
      if sideBar == null {
        return;
      }
      sideBar.RemoveSideTab(this);
      SetSideBar(null);
    }

    method UpdateStyle()
      modifies this
      ensures Model() == old(Model()).UpdateStyle()
    {
      restyleCount := restyleCount + 1;
    }

    function SideTabBarArea(): (area: SideBarLocation)
      reads this
      ensures area == Model().SideTabBarArea()
    {
      if sideBar != null then sideBar.area else Left
    }

    method SetOrientation(o: Orientation)
      modifies this
      ensures Model() == old(Model()).SetOrientation(o)
    {
      orientation := o;
      buttonOrientation := if Orientation.Horizontal == o then ButtonOrientation.Horizontal else VerticalTopToBottom;
      UpdateStyle();
    }

    method UpdateOrientationForArea(area: SideBarLocation, config: IconOnlyConfig)
      modifies this
      ensures Model() == old(Model()).UpdateOrientationForArea(area, config)
    {
      SetOrientation(if area == Bottom || area == Top then Orientation.Horizontal else Vertical);
      if !hasIcon {
        return;
      }
      var iconOnly := false;
      match area {
        case Left => iconOnly := config.leftSideBarIconOnly;
        case Right => iconOnly := config.rightSideBarIconOnly;
        case Top => iconOnly := config.bottomSideBarIconOnly;
        case Bottom => iconOnly := config.topSideBarIconOnly;
      }
      if iconOnly {
        text := "";
        SetOrientation(Orientation.Horizontal);
      }
    }

    /** True exactly when the dock widget is set, has an auto-hide container,
        and that container is visible at the moment of the query. */
    function IsActiveTab(): (active: bool)
      reads this, dockWidget
      reads if dockWidget != null then {dockWidget.autoHideContainer} else {}
      ensures dockWidget == null ==> !active
      ensures dockWidget != null && dockWidget.autoHideContainer == null ==> !active
      ensures dockWidget != null && dockWidget.autoHideContainer != null ==>
                active == dockWidget.autoHideContainer.visible
    {
      if dockWidget != null && dockWidget.autoHideContainer != null then
        dockWidget.autoHideContainer.visible
      else
        false
    }

    /** Ignores null; otherwise stores the widget and copies its title and icon once. */
    method SetDockWidget(widget: DockWidget?)
      modifies this
      ensures widget == null ==> Model() == old(Model())
      ensures widget != null ==> Model() == old(Model().SetDockWidget(widget, widget.title, widget.hasIcon))
    {
      if widget == null {
        return;
      }
      dockWidget := widget;
      text := widget.title;
      hasIcon := dockWidget.hasIcon;
    }
  }

  /** The title is copied when the widget is assigned, not bound: renaming
      the widget afterwards leaves the tab's text as it was. */
  method TitleCopiedOnAssignment(tab: AutoHideTab, widget: DockWidget, renamed: string)
    modifies tab, widget
    ensures tab.dockWidget == widget && tab.text == old(widget.title) && widget.title == renamed
  {
    tab.SetDockWidget(widget);
    widget.title := renamed;
  }

  /** The active state is read through to the container: showing or hiding
      the container after assignment is seen by the next query. */
  method ActiveFollowsContainer(tab: AutoHideTab, widget: DockWidget, container: AutoHideDockContainer, shown: bool)
    requires widget.autoHideContainer == container
    modifies tab, container
    ensures tab.IsActiveTab() == shown
  {
    tab.SetDockWidget(widget);
    container.visible := shown;
  }
}
