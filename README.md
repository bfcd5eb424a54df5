# Auto-hide tab of the Qt Advanced Docking System, in Dafny

`CAutoHideTab` is the clickable tab that stands for an auto-hidden dock
widget on one of the four side bars of a dock container. This project models
its state and operations and proves what they do.

- `Ads` (ads.dfy): the side-bar locations (`Left`, `Right`, `Top`, `Bottom`),
  Qt's orientation, the push button's layout, and the four "icon only"
  dock-manager flags as an explicit `IconOnlyConfig` record. It also holds the
  collaborators as small classes: a side bar (`AutoHideSideBar`) that exposes
  its edge and records which tabs it was asked to remove; a dock widget
  (`DockWidget`) with a title, an icon that is null or not, and an optional
  auto-hide container; and the container (`AutoHideDockContainer`), which is
  visible or hidden. The functions here map an edge to an orientation, an
  orientation to a button layout, and an edge to the icon-only flag it
  consults.
- `TabModel` (tab_model.dfy): the tab's state as a value, `TabState`. It has
  one function per state-changing operation. `Run` applies a sequence of
  calls, and `Requests` lists the removal requests that sequence sends to side
  bars. Lemmas state what single calls and whole call sequences do.
- `AutoHideTabs` (auto_hide_tab.dfy): the class `AutoHideTab`. Its fields are
  updated in place. Each method's postcondition equates the new state
  (`Model()`) with the matching `TabState` function applied to the old state.
  `RemoveFromSideBar` also states the request it sends to the side bar. Removal
  requests appear twice on purpose: the side bar's `removedTabs` log is what
  the object receives, while `Asked`/`Requests` name the side bar each call
  asks, so that lemmas over call sequences can count them; the method's
  postcondition ties the two together. Two
  client methods show that the title is copied once and that the active state
  is read live.

The accessors `orientation()` and `dockWidget()` are the public fields
`orientation` and `dockWidget` of `AutoHideTab`.

As written, the top edge consults the *bottom* flag and the bottom edge the
*top* flag (src/AutoHideTab.cpp:161-166). The model keeps this exactly.
`Ads.IconOnlyFlag` and `TabModel.CrossedFlagsDecideTopAndBottom` pin
it down, and `Ads.TopAndBottomFlagsCrossed` exhibits configurations where
the crossing is visible.

One might expect that, while the tab is attached, its orientation always
agrees with the side bar's edge. The code does not keep that invariant, and
the model follows the code. Attaching does not re-orient the
tab (`TabModel.AttachAloneDoesNotAlign`). The icon-only override lays the
tab horizontally even on a left or right side bar
(`TabModel.IconOnlyOverridesEdge`). The invariant holds after an orientation
update for the attached edge when the override does not apply
(`TabModel.AttachThenUpdateAligns`).

## Model

| member | source | states |
|---|---|---|
| `AutoHideTabs.AutoHideTab.constructor` | src/AutoHideTab.cpp:86-92 | a new tab has no dock widget, no side bar, orientation Vertical, empty text and no icon |
| `TabModel.NewTab` | src/AutoHideTab.cpp:47-50 | the initial state: both references null, orientation Vertical, side-bar area Left, empty text, no icon, the given button layout, no restyle yet |
| `TabModel.TabState.SetSideBar` | src/AutoHideTab.cpp:68-71 | the side bar becomes the argument, null included, and every other part of the state is as before |
| `AutoHideTabs.AutoHideTab.SetSideBar` | src/AutoHideTab.cpp:68-71 | the object's new state is `TabState.SetSideBar` of its old state |
| `TabModel.TabState.RemoveFromSideBar` | src/AutoHideTab.cpp:75-83 | afterwards the tab is detached and nothing else in its state differs |
| `AutoHideTabs.AutoHideTab.RemoveFromSideBar` | src/AutoHideTab.cpp:75-83 | detaches, and if a side bar was set, that side bar's removal log gains exactly this tab and that side bar is the one request `TabModel.Asked` records for the call |
| `TabModel.RemoveFromSideBarIdempotent` | src/AutoHideTab.cpp:75-83 | removing twice equals removing once; the first call asks the attached side bar (if any) once and the second asks nobody |
| `TabModel.AttachThenDetach` | src/AutoHideTab.cpp:68-83 | attach then detach leaves the side bar null after exactly one request to that side bar |
| `TabModel.RequestsBoundedByAttachments` | src/AutoHideTab.cpp:75-83 | over any call sequence, removal requests never outnumber the attachments (plus one if already attached) |
| `TabModel.RequestsGoToCurrentSideBar` | src/AutoHideTab.cpp:77-82 | a removal on an attached tab asks the side bar it is on and leaves it detached |
| `TabModel.TabState.UpdateStyle` | src/AutoHideTab.cpp:104-108 | restyling changes nothing but the restyle count, which goes up by one |
| `AutoHideTabs.AutoHideTab.UpdateStyle` | src/AutoHideTab.cpp:104-108 | the object's new state is `TabState.UpdateStyle` of its old state |
| `TabModel.TabState.SideTabBarArea` | src/AutoHideTab.cpp:112-120 | the attached side bar's edge, or Left when detached |
| `AutoHideTabs.AutoHideTab.SideTabBarArea` | src/AutoHideTab.cpp:112-120 | agrees with the model's side-bar area of the current state |
| `Ads.ButtonOrientationFor` | src/AutoHideTab.cpp:127-128 | the button is Horizontal exactly when the orientation is Horizontal, and it is never bottom-to-top |
| `TabModel.TabState.SetOrientation` | src/AutoHideTab.cpp:124-130 | the orientation becomes the argument, the button is Horizontal exactly for Horizontal (VerticalTopToBottom otherwise), the style is refreshed once, and nothing else changes |
| `AutoHideTabs.AutoHideTab.SetOrientation` | src/AutoHideTab.cpp:124-130 | the object's new state is `TabState.SetOrientation` of its old state |
| `TabModel.RunKeepsButtonMatching` | src/AutoHideTab.cpp:124-130 | once the button layout matches the orientation, no sequence of calls breaks that |
| `TabModel.RunEstablishesButtonMatching` | src/AutoHideTab.cpp:124-130 | any call sequence that sets an orientation at least once ends with the button matching the orientation |
| `Ads.AreaOrientation` | src/AutoHideTab.cpp:143 | an edge calls for Horizontal exactly when it is Top or Bottom |
| `Ads.IconOnlyFlag` | src/AutoHideTab.cpp:150-168 | Left reads the left flag, Right the right flag, Top the bottom flag, Bottom the top flag |
| `Ads.TopAndBottomFlagsCrossed` | src/AutoHideTab.cpp:161-166 | there are configurations where the top flag alone leaves Top not icon-only, and the bottom flag alone leaves Bottom not icon-only |
| `TabModel.TabState.UpdateOrientationForArea` | src/AutoHideTab.cpp:141-175 | with no icon: edge orientation and unchanged text; with an icon and the edge's flag set: empty text and Horizontal; with the flag unset: unchanged text and edge orientation; the button matches the result; side bar, dock widget and icon are unchanged |
| `AutoHideTabs.AutoHideTab.UpdateOrientationForArea` | src/AutoHideTab.cpp:141-175 | the object's new state is `TabState.UpdateOrientationForArea` of its old state |
| `TabModel.CrossedFlagsDecideTopAndBottom` | src/AutoHideTab.cpp:161-174 | with an icon and non-empty text, Top clears the text exactly when the bottom flag is set, and Bottom exactly when the top flag is set |
| `TabModel.UpdateOrientationForAreaIdempotent` | src/AutoHideTab.cpp:141-175 | updating twice for the same edge and flags equals updating once, apart from the restyle count |
| `TabModel.IconOnlyTextNotRestored` | src/AutoHideTab.cpp:170-174 | text dropped by icon-only mode stays empty through any later orientation update |
| `TabModel.AttachAloneDoesNotAlign` | src/AutoHideTab.cpp:68-71 | attaching a vertical tab to a top or bottom side bar leaves its orientation out of line with that edge |
| `TabModel.AttachThenUpdateAligns` | src/AutoHideTab.cpp:141-148 | attach then update for that side bar's edge, with no icon-only override, leaves the orientation in line with the edge |
| `TabModel.IconOnlyOverridesEdge` | src/AutoHideTab.cpp:170-174 | the icon-only override lays a tab horizontally even on a left or right side bar |
| `AutoHideTabs.AutoHideTab.IsActiveTab` | src/AutoHideTab.cpp:179-187 | false with no dock widget, false with no auto-hide container, otherwise the container's current visibility |
| `AutoHideTabs.ActiveFollowsContainer` | src/AutoHideTab.cpp:179-187 | showing or hiding the container after assignment is what the next active-state query returns |
| `TabModel.TabState.SetDockWidget` | src/AutoHideTab.cpp:198-207 | null leaves the state unchanged; otherwise the dock widget, text and icon become the widget, its title and its icon, and nothing else changes |
| `AutoHideTabs.AutoHideTab.SetDockWidget` | src/AutoHideTab.cpp:198-207 | the object's new state is `TabState.SetDockWidget` of its old state, with the widget's title and icon as read at the call |
| `AutoHideTabs.TitleCopiedOnAssignment` | src/AutoHideTab.cpp:204-206 | the title is copied at assignment: renaming the widget afterwards leaves the tab's text unchanged |
| `TabModel.RunDockWidgetComesFromCalls` | src/AutoHideTab.cpp:198-207 | after any call sequence the dock widget is the initial one or one assigned by a non-null call, so it is never cleared |
| `TabModel.RunTextComesFromTitles` | src/AutoHideTab.cpp:198-207 | after any call sequence the text is the initial text, empty (icon-only mode), or the title passed with a non-null dock widget |

## Left out

- Style and painting: `internal::repolishStyle` and `update()` only re-render; `UpdateStyle` counts refreshes and does nothing else.
- The constructor's widget attribute and focus policy have no effect on the modelled state; the parent widget is not modelled.
- The destructor's debug trace and `delete d` are output and memory management.
- `CDockManager::testConfigFlag` reads a global singleton; the four icon-only flags are passed in as an `IconOnlyConfig` argument instead.
- `QIcon` contents: an icon is modelled only as null or non-null (`hasIcon`).
- `AutoHideTabs.AutoHideTab.constructor`: the push button's starting layout belongs to `CPushButton`, which is not part of this model, so it is a constructor argument. The empty text and the null icon are Qt's button defaults.
- `Ads.AutoHideSideBar.RemoveSideTab`: the side bar's own removal logic is not part of this model; the method only records the request.
- `CDockWidget::windowTitle`, `CDockWidget::icon` and `CAutoHideDockContainer::isVisible` are read from plain fields of the collaborator classes.
