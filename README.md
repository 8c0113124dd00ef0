# Transit dashboard rules, modelled in Dafny

The transit dashboard is a front-end prototype. It has role-based screens for
commuters and three kinds of administrator, and every screen renders a fixed
in-memory dataset. This project models the rules buried in those screens:

- the direct-route finder of the trip planner and its time and fare estimates;
- the fleet views: status colours, occupancy, status counts, driver duty and row selection;
- the grievance filter, its per-status counts and which workflow action each status offers;
- role gating: navigation items, the stop-management view and the role titles;
- the session shell: a key-value store under `'bolt_user'`, written on login,
  removed on logout and restored on mount, plus the choice of screen;
- the sign-in page's role-to-user lookup;
- the fixture dataset with the invariants and scenarios that hold of it.

Pure rules are functions with lemmas. Component state (selected tab, menu open,
selected row, loading flags, the session store) is a class per component whose
methods state the new state.

Modules, one per source file plus shared helpers:

- `Types`: records and enums.
- `Seqs`: `filter`, `findIndex`, `indexOf`, `find`, `slice`.
- `Numeric`: `Math.round`.
- `Text`: the label string operations.
- `Queries`: id lookups and status filters.
- `Selection`: the row toggle.
- `TripPlanner`, `FleetManagement`, `GrievanceManagement`, `LiveMap`, `UserApp`,
  `AdminDashboard`, `AdminPanel`, `RouteManagement`, `App`, `AuthPage`: one per screen.
- `MockData`: the fixtures.
- `Scenarios`: what the screens show for the fixtures.

Units:

- Fares are integer cents.
- Driver ratings are integer tenths of a star.
- `Math.random() * 10` in the trip time is a parameter `0 <= jitter < 10`.
- The occupancy and the average frequency are rounded exactly on integers.

The trip estimate does not reject a stop that is not on the route:
`indexOf` returns -1 and that value enters the arithmetic. `StopCount` keeps
that behaviour.

## Model

| member | source | states |
|---|---|---|
| `TripPlanner.ConnectsInOrderIff` | src/components/TripPlanner.tsx:26-29 | the route test holds iff the destination is on the route and the origin occurs before the destination's first occurrence |
| `TripPlanner.FindDirectRoutes` | src/components/TripPlanner.tsx:25-30 | every result is an input route that passes the test, and every input route that passes it is a result |
| `TripPlanner.DirectRouteMembership` | src/components/TripPlanner.tsx:25-30 | a route is a result iff it is an input route that serves the destination with the origin before it |
| `TripPlanner.DirectRoutesKeepOrder` | src/components/TripPlanner.tsx:25 | the results are a subsequence of the input routes, so their order is kept |
| `TripPlanner.SameStopFindsNothing` | src/components/TripPlanner.tsx:29 | a query from a stop to itself finds no route |
| `TripPlanner.ReverseQueryDisjoint` | src/components/TripPlanner.tsx:29 | no route answers both (a, b) and (b, a) |
| `TripPlanner.TripMinutes` | src/components/TripPlanner.tsx:45 | the rounded time for k stops with jitter in [0, 10) lies in [3k, 3k + 10] |
| `TripPlanner.CalculateTripTime` | src/components/TripPlanner.tsx:40-46 | the time is bounded by three minutes per index step, and is at least 3 for a matching route |
| `TripPlanner.TripMinutesMonotone` | src/components/TripPlanner.tsx:44-45 | for a fixed jitter, more stops never give a shorter time |
| `TripPlanner.EstimatedFare` | src/components/TripPlanner.tsx:112 | the fare in cents is within half a cent of 80 % of the base fare, and lies between 0 and the base fare |
| `TripPlanner.FareDependsOnlyOnBaseFare` | src/components/TripPlanner.tsx:112 | two routes with the same base fare get the same estimate |
| `TripPlanner.StopName` | src/components/TripPlanner.tsx:36-38 | the non-empty name of the first stop with the id, otherwise the id itself |
| `TripPlanner.IntermediateStopsBetween` | src/components/TripPlanner.tsx:162-167 | on a route without repeated stops, the intermediate stops are the slice strictly between origin and destination, toIndex - fromIndex - 1 of them |
| `TripPlanner.PopularRoutes` | src/components/TripPlanner.tsx:199 | the first min(4, n) routes, in order |
| `TripPlanner.TripPlannerState.constructor` | src/components/TripPlanner.tsx:11-14 | both stops empty, no results, no search running |
| `TripPlanner.TripPlannerState.SetFromStop` | src/components/TripPlanner.tsx:61 | the origin select sets the origin |
| `TripPlanner.TripPlannerState.SetToStop` | src/components/TripPlanner.tsx:78 | the destination select sets the destination |
| `TripPlanner.TripPlannerState.SearchEnabled` | src/components/TripPlanner.tsx:92 | the button is enabled iff both stops are chosen and no search runs |
| `TripPlanner.TripPlannerState.HandleSearch` | src/components/TripPlanner.tsx:16-19 | without both stops nothing changes; otherwise the search starts with the stops captured at the click; a search runs afterwards iff the button was enabled |
| `TripPlanner.SearchingDisablesButton` | src/components/TripPlanner.tsx:92 | while a search runs the button is disabled |
| `TripPlanner.TripPlannerState.FinishSearch` | src/components/TripPlanner.tsx:24-33 | the results become the direct routes of the captured query and the search ends |
| `TripPlanner.TripPlannerState.ShowsNoRoutesMessage` | src/components/TripPlanner.tsx:186 | the message shows iff there are no results, both stops are chosen and no search runs |
| `TripPlanner.TripPlannerState.ResultCard` | src/components/TripPlanner.tsx:110-170 | a card's fare is the estimate and its time is within the bounds; on a well-formed route its intermediate count is the stop count minus one |
| `TripPlanner.NoRoutesMessageBeforeAnySearch` | src/components/TripPlanner.tsx:186-193 | choosing two stops without searching already shows the no-routes message |
| `FleetManagement.BusStatusColor` | src/components/admin/FleetManagement.tsx:14-22 | running green, delayed yellow, breakdown red, scheduled blue, anything else gray |
| `FleetManagement.BusStatusColorsDistinct` | src/components/admin/FleetManagement.tsx:14-22 | the four statuses get four different colours, none of them gray |
| `FleetManagement.DriverRatingColor` | src/components/admin/FleetManagement.tsx:24-28 | rating >= 4.5 green, 4.0 to 4.5 yellow, below 4.0 red |
| `FleetManagement.DriverRatingColorMonotone` | src/components/admin/FleetManagement.tsx:24-28 | a higher rating never falls into a worse band |
| `FleetManagement.Occupancy` | src/components/admin/FleetManagement.tsx:133 | the percentage is 100·passengers/capacity rounded half up; a zero capacity has none |
| `FleetManagement.OccupancyIsRoundedRatio` | src/components/admin/FleetManagement.tsx:133 | the integer result equals `Math.round` of the exact ratio |
| `FleetManagement.OccupancyBounded` | src/components/admin/FleetManagement.tsx:133 | with 0 <= passengers <= capacity and capacity > 0 the percentage lies in [0, 100] |
| `FleetManagement.StatusLabel` | src/components/admin/FleetManagement.tsx:108 | only the first character is upper-cased; the rest is unchanged |
| `FleetManagement.BusStatusLabels` | src/components/admin/FleetManagement.tsx:108 | the four statuses read Running, Scheduled, Breakdown, Delayed |
| `FleetManagement.FleetStatistics` | src/components/admin/FleetManagement.tsx:172-189 | total, running, delayed and breakdown counts of the fleet |
| `FleetManagement.FleetStatisticsAccount` | src/components/admin/FleetManagement.tsx:172-189 | running + delayed + breakdown equals the total minus the scheduled buses, so never more than the total |
| `FleetManagement.AssignedBus` | src/components/admin/FleetManagement.tsx:244 | the first bus whose driver id matches, or none when no bus names the driver |
| `FleetManagement.DriverDuty` | src/components/admin/FleetManagement.tsx:244-245 | off duty iff there is no assigned bus or its route is missing; otherwise that bus's number and its route's number |
| `FleetManagement.UnassignedDriverOffDuty` | src/components/admin/FleetManagement.tsx:276-285 | a driver no bus names is shown off duty |
| `FleetManagement.BusIds` | src/components/admin/FleetManagement.tsx:79-86 | the bus row keys, one per bus, in order |
| `FleetManagement.FleetManagementState.constructor` | src/components/admin/FleetManagement.tsx:11-12 | the buses view with no bus selected |
| `FleetManagement.FleetManagementState.ShowBuses` | src/components/admin/FleetManagement.tsx:41 | the Buses button shows the bus list |
| `FleetManagement.FleetManagementState.ShowDrivers` | src/components/admin/FleetManagement.tsx:51 | the Drivers button shows the driver list |
| `FleetManagement.FleetManagementState.ClickBus` | src/components/admin/FleetManagement.tsx:90 | clicking the selected bus clears the selection; any other bus becomes selected |
| `FleetManagement.FleetManagementState.ExpandedBuses` | src/components/admin/FleetManagement.tsx:117 | with distinct bus ids at most one row is expanded, and only the selected one |
| `Selection.Toggle` | src/components/admin/FleetManagement.tsx:90 | the new selection is empty iff the clicked id was selected, otherwise it is the clicked id |
| `Selection.AtMostOneExpanded` | src/components/admin/FleetManagement.tsx:117 | over distinct ids, at most one row matches the selection |
| `Selection.ToggleTwice` | src/components/admin/RouteManagement.tsx:75 | two clicks on one row restore an unselected row and re-select a selected one |
| `Queries.BusStatusPartition` | src/components/admin/FleetManagement.tsx:172-189 | the four status counts add up to the fleet size |
| `Queries.GrievanceStatusPartition` | src/components/admin/GrievanceManagement.tsx:46-52 | the four grievance status counts add up to the collection size |
| `GrievanceManagement.FilteredGrievances` | src/components/admin/GrievanceManagement.tsx:42-44 | 'all' returns every grievance; a status returns exactly the grievances with it |
| `GrievanceManagement.FilteredKeepsOrder` | src/components/admin/GrievanceManagement.tsx:42-44 | the filtered list is a subsequence of the collection |
| `GrievanceManagement.CountStatuses` | src/components/admin/GrievanceManagement.tsx:46-52 | the 'all' count is the length and equals open + in_progress + resolved + closed |
| `GrievanceManagement.CountMatchesFilter` | src/components/admin/GrievanceManagement.tsx:44-51 | each button's count is the length of the list that filter shows |
| `GrievanceManagement.StatusColor` | src/components/admin/GrievanceManagement.tsx:14-22 | open red, in_progress yellow, resolved green, closed and anything else gray |
| `GrievanceManagement.StatusColorsOfStatuses` | src/components/admin/GrievanceManagement.tsx:14-22 | gray iff closed; the three live statuses differ |
| `GrievanceManagement.PriorityColor` | src/components/admin/GrievanceManagement.tsx:24-31 | high red, medium yellow, low green, anything else gray |
| `GrievanceManagement.PriorityColorsDistinct` | src/components/admin/GrievanceManagement.tsx:24-31 | the three priorities get three different non-gray colours |
| `GrievanceManagement.CategoryIcon` | src/components/admin/GrievanceManagement.tsx:33-40 | delay clock, driver_behavior user, bus_condition alert, anything else message |
| `GrievanceManagement.CategoryIconsOfCategories` | src/components/admin/GrievanceManagement.tsx:33-40 | the message icon iff category 'other'; the categories get different icons |
| `GrievanceManagement.StatusLabel` | src/components/admin/GrievanceManagement.tsx:145 | the label is as long as the status |
| `GrievanceManagement.StatusLabelOfWord` | src/components/admin/GrievanceManagement.tsx:145 | a one-word status without underscore is capitalised |
| `GrievanceManagement.InProgressLabel` | src/components/admin/GrievanceManagement.tsx:145 | 'in_progress' is shown as 'In Progress' |
| `GrievanceManagement.WordStartsOfInProgress` | src/components/admin/GrievanceManagement.tsx:145 | both words of 'in progress' are capitalised |
| `GrievanceManagement.UnderscoreOfInProgress` | src/components/admin/GrievanceManagement.tsx:145 | the underscore of 'in_progress' becomes a space |
| `GrievanceManagement.OneWordStatusLabels` | src/components/admin/GrievanceManagement.tsx:145 | every other status is shown capitalised |
| `GrievanceManagement.PriorityLabel` | src/components/admin/GrievanceManagement.tsx:148 | nine characters longer than the priority: the capitalised priority, then " Priority" |
| `GrievanceManagement.PriorityLabels` | src/components/admin/GrievanceManagement.tsx:148 | high, medium and low are shown as "High Priority", "Medium Priority" and "Low Priority" |
| `GrievanceManagement.CategoryText` | src/components/admin/GrievanceManagement.tsx:159 | the first underscore becomes a space and every other character is kept; a category without one is shown as is |
| `GrievanceManagement.TwoWordCategoryText` | src/components/admin/GrievanceManagement.tsx:159 | two words joined by an underscore are shown with a space between them, and no underscore is left if the second word has none |
| `GrievanceManagement.CategoryTexts` | src/components/admin/GrievanceManagement.tsx:159 | delay, driver behavior, bus condition and other, as the details panel shows them |
| `GrievanceManagement.AssignedToLine` | src/components/admin/GrievanceManagement.tsx:162-164 | the line appears iff the assignee is present and non-empty, and shows it |
| `GrievanceManagement.Actions` | src/components/admin/GrievanceManagement.tsx:170-185 | 'Assign to Team' iff open, 'Mark Resolved' iff in_progress, never both; contact and note always |
| `GrievanceManagement.SettledGrievancesHaveNoWorkflowStep` | src/components/admin/GrievanceManagement.tsx:170-179 | resolved and closed grievances offer only contact and note |
| `GrievanceManagement.GrievanceManagementState.constructor` | src/components/admin/GrievanceManagement.tsx:11-12 | filter 'all', nothing expanded |
| `GrievanceManagement.GrievanceManagementState.SelectStatus` | src/components/admin/GrievanceManagement.tsx:94 | a filter button sets the filter |
| `GrievanceManagement.GrievanceManagementState.ClickGrievance` | src/components/admin/GrievanceManagement.tsx:125 | re-clicking the expanded grievance collapses it; another one expands |
| `GrievanceManagement.GrievanceManagementState.Shown` | src/components/admin/GrievanceManagement.tsx:42-44 | the list shown is the collection filtered by the chosen status; it keeps the collection's order and is as long as the chosen button's count |
| `LiveMap.FilteredBuses` | src/components/LiveMap.tsx:27 | 'all' is the whole fleet; 'route' is exactly the buses of the selected route |
| `LiveMap.FilteredBusesKeepOrder` | src/components/LiveMap.tsx:27 | the list keeps the fleet's order |
| `LiveMap.NoRouteChosenListsNothing` | src/components/LiveMap.tsx:27 | route mode before a route is chosen lists no bus |
| `LiveMap.BusStatusColor` | src/components/LiveMap.tsx:18-25 | running green, delayed orange, breakdown red, scheduled and anything else gray |
| `LiveMap.ColoursDifferFromFleetScreen` | src/components/LiveMap.tsx:18-25 | delayed and scheduled are coloured differently than on the fleet screen |
| `LiveMap.StatusPanel` | src/components/LiveMap.tsx:148-156 | running, delayed and breakdown counts of the whole fleet, at most its size |
| `LiveMap.StatusPanelCoversFilteredList` | src/components/LiveMap.tsx:148-156 | the panel counts all buses, never fewer than the filtered list holds |
| `LiveMap.BusClick` | src/components/LiveMap.tsx:91 | reports null for the selected bus, otherwise the bus's id |
| `LiveMap.LookUpEntry` | src/components/LiveMap.tsx:166-168 | route, driver and next stop are each the first entity with the id, or absent |
| `LiveMap.NearbyStops` | src/components/LiveMap.tsx:206 | the first min(4, n) stops, in order |
| `LiveMap.LiveMapState.constructor` | src/components/LiveMap.tsx:15-16 | mode 'all', no route chosen |
| `LiveMap.LiveMapState.SetViewMode` | src/components/LiveMap.tsx:39 | the select sets the mode |
| `LiveMap.LiveMapState.SetSelectedRoute` | src/components/LiveMap.tsx:48 | the route select sets the route |
| `LiveMap.LiveMapState.Shown` | src/components/LiveMap.tsx:27 | the buses shown are the fleet filtered by mode and route; they keep the fleet's order and match the mode |
| `UserApp.ActiveBus` | src/components/UserApp.tsx:19 | none without a selection; otherwise the first bus with the selected id |
| `UserApp.ActiveRoute` | src/components/UserApp.tsx:20 | present only with an active bus, and then its id is the bus's route id |
| `UserApp.StatusColor` | src/components/UserApp.tsx:22-29 | running green, delayed orange, breakdown red, anything else gray |
| `UserApp.StatusColorAgreesWithLiveMap` | src/components/UserApp.tsx:22-29 | the same mapping as the live map |
| `UserApp.InfoBarBadge` | src/components/UserApp.tsx:139-143 | running green, delayed orange, every other status red |
| `UserApp.BadgeAgreesExceptFallback` | src/components/UserApp.tsx:139-143 | the badge agrees with the text colour except on the fallback, so a scheduled bus is red |
| `UserApp.InfoBarOf` | src/components/UserApp.tsx:130-157 | the bar exists iff both the active bus and its route exist; it shows the bus number, the route number and name, the badge, the capitalised status, the ETA, the speed, the passengers and the capacity |
| `UserApp.PhoneField` | src/components/UserApp.tsx:206 | the phone, or empty when there is none |
| `UserApp.UserAppState.constructor` | src/components/UserApp.tsx:15-17 | tab 'map', menu closed, no bus selected |
| `UserApp.UserAppState.OpenMenu` | src/components/UserApp.tsx:46 | the menu button opens the menu |
| `UserApp.UserAppState.CloseMenu` | src/components/UserApp.tsx:57 | the close button closes it |
| `UserApp.UserAppState.ChooseTab` | src/components/UserApp.tsx:105 | a sidebar tab sets the tab |
| `UserApp.UserAppState.ChooseTabFromMenu` | src/components/UserApp.tsx:66-68 | a menu tab sets the tab and closes the menu |
| `UserApp.UserAppState.OnBusSelect` | src/components/UserApp.tsx:170 | the map's report becomes the selection |
| `UserApp.UserAppState.ClickBusOnMap` | src/components/LiveMap.tsx:176 | a click through the map toggles the selection |
| `UserApp.UserAppState.InfoBarShown` | src/components/UserApp.tsx:130 | the bar is the info bar of the selected bus, and it is shown only with a non-empty selection |
| `AdminDashboard.ActiveBusCount` | src/components/admin/AdminDashboard.tsx:20-21 | the number of running buses, never more than the total |
| `AdminDashboard.ActiveBusesShortfall` | src/components/admin/AdminDashboard.tsx:20-21 | the total minus the active count is the scheduled, breakdown and delayed buses |
| `AdminDashboard.OpenGrievanceCount` | src/components/admin/AdminDashboard.tsx:23 | the number of open grievances |
| `AdminDashboard.MarkerColor` | src/components/admin/AdminDashboard.tsx:92-93 | running green, delayed orange, every other status red |
| `AdminDashboard.MarkerColorAcrossScreens` | src/components/admin/AdminDashboard.tsx:92-93 | equal to the commuter badge; equal to the live map except for scheduled buses |
| `AdminDashboard.PerformanceValue` | src/components/admin/AdminDashboard.tsx:169 | defined iff the index is below 3, then between 88 and 95 |
| `AdminDashboard.PerformanceTextColor` | src/components/admin/AdminDashboard.tsx:170-171 | >= 90 green, 80 to 89 yellow, below 80 or undefined red |
| `AdminDashboard.PerformanceBgColor` | src/components/admin/AdminDashboard.tsx:172-173 | the same thresholds for the background |
| `AdminDashboard.PerformanceBandsAgree` | src/components/admin/AdminDashboard.tsx:170-173 | text and background bands always agree |
| `AdminDashboard.PerformanceBandMonotone` | src/components/admin/AdminDashboard.tsx:170-171 | a higher figure never falls into a worse band |
| `AdminDashboard.MockRoutePerformance` | src/components/admin/AdminDashboard.tsx:168-171 | the three fixture routes are green, yellow and green; a fourth would be red |
| `AdminPanel.RoleTitle` | src/components/AdminPanel.tsx:30-37 | the three admin titles, and 'Administrator' otherwise |
| `AdminPanel.RoleTitlesDistinct` | src/components/AdminPanel.tsx:30-37 | the admin roles get distinct titles; only the commuter gets the fallback |
| `AdminPanel.RoleColor` | src/components/AdminPanel.tsx:39-46 | super_admin red, municipal_admin green, operator_admin purple, anything else gray |
| `AdminPanel.RoleColorsDistinct` | src/components/AdminPanel.tsx:39-46 | only the commuter role gets the gray fallback, and different roles get different colours |
| `AdminPanel.NavigationItems` | src/components/AdminPanel.tsx:48-54 | five items in order; only 'routes' depends on the role, available iff not operator_admin |
| `AdminPanel.AvailableItems` | src/components/AdminPanel.tsx:56 | every item kept is available |
| `AdminPanel.AvailableItemsOf` | src/components/AdminPanel.tsx:56 | all five items, or for the operator all but 'routes' |
| `AdminPanel.TabAvailableIff` | src/components/AdminPanel.tsx:49-56 | a tab is offered iff it is not 'routes' or the role is not operator_admin |
| `AdminPanel.RoutesAvailableIff` | src/components/AdminPanel.tsx:51-56 | 'routes' is offered iff the role is not operator_admin; 4 or 5 items in order |
| `AdminPanel.AvailableItemOpens` | src/components/AdminPanel.tsx:88-94 | every available button opens a tab the role may see |
| `AdminPanel.OffersEveryTab` | src/components/AdminPanel.tsx:48-54 | the full list offers every tab |
| `AdminPanel.OffersAllButThird` | src/components/AdminPanel.tsx:51-56 | dropping the third item loses exactly 'routes' |
| `AdminPanel.AdminPanelState.constructor` | src/components/AdminPanel.tsx:27-28 | the dashboard tab with the menu closed |
| `AdminPanel.AdminPanelState.OpenMenu` | src/components/AdminPanel.tsx:66 | the menu button opens the menu |
| `AdminPanel.AdminPanelState.CloseMenu` | src/components/AdminPanel.tsx:77 | the close button closes it |
| `AdminPanel.AdminPanelState.ChooseTab` | src/components/AdminPanel.tsx:132-135 | a sidebar button sets an available tab |
| `AdminPanel.AdminPanelState.ChooseTabFromMenu` | src/components/AdminPanel.tsx:88-94 | a menu button sets an available tab and closes the menu |
| `AdminPanel.AdminPanelState.Shown` | src/components/AdminPanel.tsx:167-171 | the screen of the active tab; an operator never sees the route screen |
| `RouteManagement.StopManagersReachRoutes` | src/components/admin/RouteManagement.tsx:15 | managing stops is for super and municipal admins only, who can also reach the screen |
| `RouteManagement.StopNumbering` | src/components/admin/RouteManagement.tsx:148-151 | the stops numbered index + 1, in route order |
| `RouteManagement.StopNumbersConsecutive` | src/components/admin/RouteManagement.tsx:148-151 | the numbers run 1 to n without gaps |
| `RouteManagement.FrequencySumBounds` | src/components/admin/RouteManagement.tsx:188 | the sum of n frequencies in [lo, hi] lies in [n·lo, n·hi] |
| `RouteManagement.AverageFrequency` | src/components/admin/RouteManagement.tsx:188 | round(sum / n), undefined without routes |
| `RouteManagement.AverageWithinRange` | src/components/admin/RouteManagement.tsx:188 | the average lies between the least and the greatest frequency |
| `RouteManagement.PopularUsage` | src/components/admin/RouteManagement.tsx:204 | 95 for the first place, and never more than 95 |
| `RouteManagement.PopularUsageDecreasing` | src/components/admin/RouteManagement.tsx:204 | strictly decreasing, five points per place |
| `RouteManagement.RouteManagementState.constructor` | src/components/admin/RouteManagement.tsx:11-13 | the routes view, nothing selected, modal closed |
| `RouteManagement.RouteManagementState.StopsButtonShown` | src/components/admin/RouteManagement.tsx:37 | the stops button is shown iff the role may manage stops |
| `RouteManagement.RouteManagementState.ShowRoutes` | src/components/admin/RouteManagement.tsx:28 | the routes button shows the routes view |
| `RouteManagement.RouteManagementState.ShowStops` | src/components/admin/RouteManagement.tsx:39 | the stops button shows the stops view |
| `RouteManagement.RouteManagementState.StopsViewShown` | src/components/admin/RouteManagement.tsx:215 | the stops view is drawn iff it is active and the role may manage stops |
| `RouteManagement.RouteManagementState.ClickRoute` | src/components/admin/RouteManagement.tsx:75 | re-clicking the selected route clears it; another route becomes selected |
| `RouteManagement.RouteManagementState.OpenAddStop` | src/components/admin/RouteManagement.tsx:215-221 | 'Add Bus Stop', drawn only in the stops view, opens the modal |
| `RouteManagement.RouteManagementState.CancelAddStop` | src/components/admin/RouteManagement.tsx:295 | 'Cancel' closes it |
| `App.LocalStorage.constructor` | src/App.tsx:13 | a store holding the given items |
| `App.LocalStorage.GetItem` | src/App.tsx:13 | the item under the key, or nothing when absent |
| `App.LocalStorage.SetItem` | src/App.tsx:22 | the key now maps to the value; nothing else changes |
| `App.LocalStorage.RemoveItem` | src/App.tsx:27 | the key is gone; nothing else changes |
| `App.ScreenFor` | src/App.tsx:30-46 | spinner while loading, sign-in without a user, the commuter app for role 'user', the admin panel otherwise |
| `App.ScreenMatchesRole` | src/App.tsx:38-46 | the commuter app and admin panel are shown only to the signed-in user, each for its roles |
| `App.AppState.constructor` | src/App.tsx:8-9 | loading, with no user |
| `App.AppState.Mount` | src/App.tsx:11-18 | a stored session is restored, otherwise the user is unchanged; loading ends |
| `App.AppState.HandleLogin` | src/App.tsx:20-23 | the user is set and stored under 'bolt_user' |
| `App.AppState.HandleLogout` | src/App.tsx:25-28 | the user is cleared and 'bolt_user' removed |
| `App.AppState.Render` | src/App.tsx:30-46 | the screen for the current state |
| `App.FirstVisit` | src/App.tsx:8-18 | an empty store shows the spinner, then the sign-in screen |
| `App.LoginThenReload` | src/App.tsx:13-15 | signing in, then loading the page again, restores the same user |
| `App.LoginThenLogout` | src/App.tsx:20-28 | signing in and out leaves no session, so the next load shows the sign-in screen |
| `AuthPage.RoleLogin` | src/components/AuthPage.tsx:20 | the first user with the role; without one, the first user of all |
| `AuthPage.RoleOptions` | src/components/AuthPage.tsx:25-58 | four role cards |
| `AuthPage.RoleOptionsCoverRoles` | src/components/AuthPage.tsx:25-58 | one card per role, with pairwise different roles |
| `AuthPage.MockLoginsExist` | src/components/AuthPage.tsx:20 | with the fixture users every card signs somebody in |
| `AuthPage.OperatorCardSignsInCommuter` | src/components/AuthPage.tsx:20 | the operator card falls back to 'user1', a commuter |
| `AuthPage.OtherCardsSignInTheirRole` | src/components/AuthPage.tsx:20 | the other three cards sign in the fixture user with that role |
| `AuthPage.AuthPageState.constructor` | src/components/AuthPage.tsx:12 | not loading |
| `AuthPage.AuthPageState.BeginRoleSelect` | src/components/AuthPage.tsx:14-15 | a card click starts loading |
| `AuthPage.AuthPageState.CompleteRoleSelect` | src/components/AuthPage.tsx:20-22 | after the delay the chosen user is signed in exactly once and loading ends |
| `AuthPage.AuthPageState.Render` | src/components/AuthPage.tsx:60-69 | the loading screen iff loading, otherwise the role cards |
| `AuthPage.SignInFromCard` | src/components/AuthPage.tsx:14-22 | a sign-in from a card leads to the screen of the chosen user; the operator card leads to the commuter app |
| `MockData.StopIdsUnique` | src/data/mockData.ts:3-10 | stop ids are unique |
| `MockData.RouteStopsWellFormed` | src/data/mockData.ts:17 | every route has a stop and no repeated stop |
| `MockData.StopRoutesConsistent` | src/data/mockData.ts:4-9 | each stop's route list is exactly the routes whose stops contain it |
| `MockData.BusLoadsBounded` | src/data/mockData.ts:65-66 | every bus has capacity > 0 and 0 <= passengers <= capacity |
| `MockData.BreakdownBusStopped` | src/data/mockData.ts:77-82 | the broken-down bus has speed 0 and eta 0 |
| `MockData.BusReferencesResolve` | src/data/mockData.ts:58-67 | every bus's route, driver and next stop exist, and the next stop is on its route |
| `MockData.FirstBusReferencesResolve` | src/data/mockData.ts:58-67 | the references of BT-101-A resolve |
| `MockData.SecondBusReferencesResolve` | src/data/mockData.ts:72-81 | the references of BT-102-B resolve |
| `MockData.ThirdBusReferencesResolve` | src/data/mockData.ts:86-95 | the references of BT-103-C resolve |
| `Scenarios.CityCenterToUniversity` | src/components/TripPlanner.tsx:25-30 | City Center to University finds routes 101 and 102, in that order |
| `Scenarios.UniversityToCityCenter` | src/components/TripPlanner.tsx:25-30 | the reverse query finds nothing |
| `Scenarios.FirstRoutesConnect` | src/data/mockData.ts:17 | routes 101 and 102 run from City Center to University |
| `Scenarios.ThirdRouteMissesCityCenter` | src/data/mockData.ts:39 | route 103 does not serve City Center |
| `Scenarios.MockFares` | src/components/TripPlanner.tsx:112 | estimated fares of $2.00, $2.40 and $4.00 |
| `Scenarios.MockOccupancy` | src/components/admin/FleetManagement.tsx:133 | occupancy 36 %, 24 % and 53 % |
| `Scenarios.MockFleetStatistics` | src/components/admin/FleetManagement.tsx:172-189 | 3 buses: one running, one delayed, one broken down |
| `Scenarios.MockDuties` | src/components/admin/FleetManagement.tsx:244-285 | driver 1 drives BT-101-A on route 101; driver 4 is off duty |
| `Scenarios.MockGrievanceCounts` | src/components/admin/GrievanceManagement.tsx:46-52 | 3 in all: one open, one in progress, one resolved, none closed |
| `Scenarios.MockAverageFrequency` | src/components/admin/RouteManagement.tsx:188 | frequencies 15, 20 and 30 average to 22 |

## Left out

- JSX markup, Tailwind shades and icons are not modelled. Colours are a hue enum, and only the enum-to-colour mappings are kept.
- Map marker positions (`20 + index*15` % and the like) are presentation and are not modelled.
- Simulated delays (`await setTimeout`) are not modelled as time. Each async handler is split into a begin method and a finish method. A second click during the delay is excluded because the button is disabled or hidden then.
- `localStorage` is modelled as a map from key to user. The JSON encoding of the stored user is left out, so a stored user always parses back.
- Date formatting of `createdAt` is locale output and is not modelled.
- The total route distance (`reduce` of `distance`, `toFixed(1)`) is floating point and is not modelled.
- The profile screen's editable fields are visual only and are not modelled. So are the 'Add Bus', 'Edit' and 'Add Stop' buttons, which have no handlers.
- src/components/SafetyPanel.tsx is not part of this model: it only simulates I/O (timer, console, alert).
- src/components/admin/Analytics.tsx is not part of this model: its figures are hardcoded or floating point, and its banding repeats the dashboard's.
- TripPlanner.TripMinutes: the jitter is a real parameter in [0, 10) rather than `Math.random()`.
- TripPlanner.EstimatedFare: works in integer cents, and the two-decimal string of `toFixed(2)` is the rounded cent count.
- FleetManagement.Occupancy: rounds the exact ratio; floating-point error in `(passengers / capacity) * 100` is not modelled.
- FleetManagement.DriverRatingColor: the rating is in integer tenths, so fractional ratings between tenths are not covered.
- Text.ToUpper: only `a`-`z` are upper-cased. The labels it serves are ASCII enum names. JavaScript's `toUpperCase` also maps other letters and can change the length (`ß` becomes `SS`).
