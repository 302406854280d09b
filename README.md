# A verified model of the alex-ukkit component logic

alex-ukkit is a React component kit: buttons, cards, charts, pickers, a
notification bar, a guided tour, a live output panel, and a playground page
that shows each component. Most of it is declarative view code. This project
models in Dafny the parts of it that carry logic, and proves what they promise:

- the squircle clip-path generator and the hook that keeps an element's clip
  path in step with its size (`squircle.dfy`);
- the calendar picker's Monday-first month grid, month and year-page
  navigation and view modes (`calendar.dfy`);
- the theme registry with its legacy-id migration and its set, save, delete,
  export and import transitions (`themes.dfy`);
- the slide-to-confirm control (`confirm_slider.dfy`);
- the heatmap's greedy row partition (`heatmap.dfy`);
- the bounded notification and activity lists and their shared relative-time
  and badge text (`top_bar.dfy`, `activity_feed.dfy`,
  `notification_panel.dfy`, `feed_text.dfy`);
- the guided tour and the live output bar state machines (`guided_tour.dfy`,
  `live_output_bar.dfy`);
- the playground page's header rule, scroll spy and stepped sidebar
  highlighting (`playground.dfy`);
- the colour picker (`color_picker.dfy`);
- the card artwork hash and the gift and item cards (`card_art.dfy`,
  `gift_card.dfy`, `item_card.dfy`);
- the prize wheel and the check-in grid (`wheel_spinner.dfy`,
  `check_in_bonus.dfy`);
- the subtask timeline and the achievements modal (`subtask_timeline.dfy`,
  `achievements_modal.dfy`);
- the bar, whale-flow and line charts with their shared label thinning
  (`bar_chart.dfy`, `whale_flow_chart.dfy`, `line_chart.dfy`,
  `chart_axis.dfy`);
- the health-score gauge, the progress bar and the custom select
  (`health_score_gauge.dfy`, `progress_bar.dfy`, `custom_select.dfy`).

`common.dfy` holds the shared value types (`Option`, `Rect`) and the
string and sequence helpers.

Pure computations are functions with lemmas. Components whose handlers update
state are classes whose methods change the fields the component keeps in
`useState` or `useRef`. Browser measurements, the clock, random choices and
parsed JSON arrive as parameters. Timers are methods that the caller invokes
when the timer fires.

Some behaviours of the code are stated and proved as they are written:

- The squircle's corner size is computed from the radius after it is clamped
  to half the box (`Squircle.CornerSize`). For non-negative smoothing the
  outer clamp to half the box makes that first clamp invisible
  (`Squircle.FirstClampHiddenForNonNegativeSmoothing`); only a negative
  smoothing tells them apart: a 40 × 40 box with radius 100 and smoothing −1
  gives 9.44, where stretching the unclamped radius would give 20
  (`Squircle.FirstClampShowsForNegativeSmoothing`).
- Above the trigger, the custom select lifts its menu by
  `min(240, rect.top - 8)`, not by a flat 240 px (`CustomSelect.MenuPosition`).
- The select's trigger compares values strictly, but its menu highlight
  compares them as strings. With the number 1 and the option `'1'`, the menu
  marks the option while the trigger shows the placeholder
  (`CustomSelect.StrictAndStringDisagree`).
- The gauge's colour thresholds (33 and 66) sit next to its arc boundaries
  (100/3 and 200/3), not on them (`HealthScoreGauge.DotColourAgainstSegment`).
- The wheel's rotation keeps adding up across spins. Only the first spin from
  rest brings the winner under the pointer; the second never does
  (`WheelSpinner.SecondSpinMisses`, `WheelSpinner.TwoSpins`).
- The charts keep a hover index across a change of timeframe. Against a
  shorter series the line chart's header then falls back to the last point
  while no dot is drawn (`LineChart.StaleHoverShowsNoDot`).
- A sidebar click during a stepping run jumps straight to its target, while
  the earlier run's timers keep stepping (`Playground.PageModel.ScrollTo`,
  `Playground.PageModel.StepFired`).

## Model

| member | source | states |
|---|---|---|
| Squircle.NominalRadius | hooks/useSquircle.js:16 | the clamped radius is at most the radius, w/2 and h/2, and equals one of them |
| Squircle.CornerSize | hooks/useSquircle.js:16-17 | the corner size is at most half the shorter side and at most the clamped radius times (1 + 0.528 · smoothing), and equals one of the two, so it is exactly their smaller; for non-negative radius and smoothing it is at least the clamped radius |
| Squircle.FirstClampHiddenForNonNegativeSmoothing | hooks/useSquircle.js:16-17 | for non-negative smoothing, clamping the radius to half the box before stretching gives the same corner as stretching the unclamped radius and clamping once |
| Squircle.FirstClampShowsForNegativeSmoothing | hooks/useSquircle.js:16-17 | with smoothing −1, a 40 × 40 box and radius 100 give a corner of 9.44, while stretching the unclamped radius would give 20 |
| Squircle.CornerRun | hooks/useSquircle.js:19-30 | a corner has STEPS + 1 = 17 samples |
| Squircle.Corner | hooks/useSquircle.js:19-30 | the loop appends exactly the samples i = 0..16 at the angles fromAngle + i/16 of a quarter-turn |
| Squircle.GenerateSquirclePath | hooks/useSquircle.js:13-44 | the generated path is the top edge, four corners, three more edges and the close; it is empty exactly when w <= 0 or h <= 0, and otherwise has 74 commands ending in the close |
| Squircle.SampleInBox | hooks/useSquircle.js:22-27 | a sample of a corner centred at least `a` inside both sides lies in the rectangle |
| Squircle.CornerInBox | hooks/useSquircle.js:19-30 | every sample of such a corner lies in the rectangle |
| Squircle.PathInBox | hooks/useSquircle.js:13-44 | for non-negative radius and smoothing, every vertex of the path lies in [0, w] x [0, h] |
| Squircle.CornersOutlineInBox | hooks/useSquircle.js:32-43 | with a corner size of at most half of each side, the outline through the four corners stays in the rectangle |
| Squircle.OutlineInBox | hooks/useSquircle.js:32-43 | corners inside the rectangle keep the joined outline inside it |
| Squircle.CornerSizeMonotone | hooks/useSquircle.js:16-17 | for a non-negative radius, more smoothing never gives a smaller corner |
| Squircle.PathIsClosedLoop | hooks/useSquircle.js:32-43 | a non-degenerate path starts with a move to (a, 0); each corner's first sample is where the edge before it ends and its last sample is where the next edge starts; the edges lie on the four sides; the last command closes the path |
| Squircle.OutlineIsClosedLoop | hooks/useSquircle.js:32-43 | the same layout for any corner size |
| Squircle.OutlineVertices | hooks/useSquircle.js:32-43 | the layout follows from where each corner starts and ends |
| Squircle.CornerEnds | hooks/useSquircle.js:21-26 | a corner's first sample is at its start angle and its last a quarter-turn later |
| Squircle.OutlinePieces | hooks/useSquircle.js:32-43 | the positions of the edges and of each corner's first and last sample in the 74-command path |
| Squircle.SquareCornersAreRotations | hooks/useSquircle.js:35-41 | on a square with a rotation-symmetric superellipse, each corner is the previous one turned 90 degrees about the centre |
| Squircle.ResizeObserverModel.Disconnect | hooks/useSquircle.js:80 | a disconnected observer is no longer connected |
| Squircle.SquircleController.constructor | hooks/useSquircle.js:55-60 | the hook starts with no element, no observer, an empty clip path and the given radius and smoothing |
| Squircle.SquircleController.Render | hooks/useSquircle.js:64-65 | a re-render stores the latest radius and smoothing and changes nothing else |
| Squircle.SquircleController.Update | hooks/useSquircle.js:67-74 | without an element the clip path is cleared; with one it is the path for the measured size and the latest radius and smoothing |
| Squircle.SquircleController.SetRef | hooks/useSquircle.js:78-91 | the old observer is disconnected; the element is stored; for a real element the path is measured and exactly one fresh connected observer watches it; for null no observer remains |
| Squircle.SquircleController.ObserverFired | hooks/useSquircle.js:87 | a disconnected observer changes nothing; the current observer republishes the path for the new size |
| Squircle.SquircleController.Unmount | hooks/useSquircle.js:95-97 | after unmount no observer is connected; the radius and smoothing refs are kept |
| Squircle.SquircleController.CurrentStyle | hooks/useSquircle.js:99 | the style is empty exactly when the clip path is empty, else the clip path with border radius 0 |
| Calendar.DaysInMonth | components/CalendarPicker.jsx:22 | a month has 28 to 31 days; February has 29 exactly in leap years |
| Calendar.SameDay | components/CalendarPicker.jsx:11-14 | false when either date is missing, otherwise true exactly for the same year, month and day |
| Calendar.PrevMonthOf | components/CalendarPicker.jsx:103-106 | January steps back to December of the year before; other months step back one in the same year |
| Calendar.NextMonthOf | components/CalendarPicker.jsx:107-110 | December steps forward to January of the next year; other months step forward one |
| Calendar.MonthStepsInverse | components/CalendarPicker.jsx:103-110 | the previous-month and next-month steps undo each other |
| Calendar.MonthStepsAreUnit | components/CalendarPicker.jsx:103-110 | each step moves the month counted from year 0 by exactly one |
| Calendar.Weekday | components/CalendarPicker.jsx:23 | the day of the week lies in 0..6 |
| Calendar.YearLength | components/CalendarPicker.jsx:22 | a leap year has 366 days and any other year 365 |
| Calendar.MonthBoundary | components/CalendarPicker.jsx:33 | the 1st of the next month is the day after the last day of this one |
| Calendar.JsYear | components/CalendarPicker.jsx:21 | a year argument of 0..99 means 1900..1999; other years are kept |
| Calendar.MakeDate | components/CalendarPicker.jsx:26 | a day of 0 or below falls into the previous month, counted back from its last day; a day within the month is kept |
| Calendar.MakeDateIsOffset | components/CalendarPicker.jsx:26-33 | the normalised date is a real date lying day - 1 days after the 1st of the month |
| Calendar.LeadingCount | components/CalendarPicker.jsx:23 | the Monday-first offset of the 1st lies in 0..6 |
| Calendar.TrailingCount | components/CalendarPicker.jsx:32-35 | the number of trailing cells lies in 0..6 and completes a whole week |
| Calendar.TrailingUnique | components/CalendarPicker.jsx:32-35 | the trailing loop stops after exactly the least number of cells that completes the week |
| Calendar.GridParts | components/CalendarPicker.jsx:20-37 | the grid is the leading cells, then the month's days, then the trailing cells |
| Calendar.LeadDate | components/CalendarPicker.jsx:26 | Date(year, month, -i) is the leading cell at position start - 1 - i |
| Calendar.MidDate | components/CalendarPicker.jsx:30 | Date(year, month, i) is the month's i-th day |
| Calendar.TrailDate | components/CalendarPicker.jsx:33 | the trailing loop's date is the k-th day of the next month, counted from 0 |
| Calendar.LastDate | components/CalendarPicker.jsx:22 | Date(year, month + 1, 0) is the last day of the month |
| Calendar.PushLeading | components/CalendarPicker.jsx:25-28 | the first loop yields the leading cells in order |
| Calendar.PushMonthDays | components/CalendarPicker.jsx:29-31 | the second loop appends the month's days 1..last in order |
| Calendar.PushTrailing | components/CalendarPicker.jsx:32-35 | the third loop appends the first days of the next month until the length is a multiple of 7 |
| Calendar.GetCalendarDays | components/CalendarPicker.jsx:20-37 | the three loops build exactly the calendar grid |
| Calendar.GridShape | components/CalendarPicker.jsx:20-37 | the grid is whole weeks, 28 to 42 cells |
| Calendar.GridInsideCells | components/CalendarPicker.jsx:25-35 | a cell is inside exactly when it is one of the month's days, and those cells are days 1..last in order |
| Calendar.GridIsConsecutive | components/CalendarPicker.jsx:20-37 | every cell is a real date, and each cell is one day after the cell before |
| Calendar.ColumnsFromSerials | components/CalendarPicker.jsx:5 | cells whose day numbers run on from a start day get their weekday from their column |
| Calendar.GridIsMondayFirst | components/CalendarPicker.jsx:5 | column 0 holds Mondays and so on through column 6, which holds Sundays |
| Calendar.YearsRange | components/CalendarPicker.jsx:72-75 | the years page has twelve consecutive years, starting at a multiple of 12, and includes the view year |
| Calendar.HeaderNext | components/CalendarPicker.jsx:181-185 | the header click moves days to months, months to years and years back to days |
| Calendar.HeaderCycles | components/CalendarPicker.jsx:181-185 | three header clicks return to the starting view and two never do |
| Calendar.PopoverPosition | components/CalendarPicker.jsx:77-85 | the popover opens above only when there is no room below and room above; its left edge is the trigger's left clamped to 8..innerWidth − 296: at least 8, the trigger's left itself when that fits, and exactly max(8, innerWidth − 296) when the trigger lies further right |
| Calendar.CalendarPicker.constructor | components/CalendarPicker.jsx:60-64 | the picker starts closed in the day view, on the selected date's year (unless it is 0) and month, otherwise today's |
| Calendar.CalendarPicker.VisibleDays | components/CalendarPicker.jsx:69 | the days shown are the grid for the view's year and month |
| Calendar.CalendarPicker.TriggerClick | components/CalendarPicker.jsx:135-142 | the click toggles the popover and returns to the day view; opening with a selected date jumps to its month |
| Calendar.CalendarPicker.PrevMonth | components/CalendarPicker.jsx:103-106 | the view moves to the previous month; nothing else changes |
| Calendar.CalendarPicker.NextMonth | components/CalendarPicker.jsx:107-110 | the view moves to the next month; nothing else changes |
| Calendar.CalendarPicker.ShiftYearPage | components/CalendarPicker.jsx:173 | the year arrows move the view year, and the first year on the page, by exactly 12 |
| Calendar.CalendarPicker.HeaderClick | components/CalendarPicker.jsx:181-185 | the view mode takes its next step; nothing else changes |
| Calendar.CalendarPicker.PickYear | components/CalendarPicker.jsx:216 | picking a year shows that year's months |
| Calendar.CalendarPicker.PickMonth | components/CalendarPicker.jsx:234 | picking a month shows its days |
| Calendar.CalendarPicker.Select | components/CalendarPicker.jsx:112-116 | the date is reported once, the popover closes and the day view returns |
| Calendar.CalendarPicker.Clear | components/CalendarPicker.jsx:118-121 | null is reported once; the open state and the view stay as they were |
| Calendar.CalendarPicker.MouseDown | components/CalendarPicker.jsx:90-94 | a mousedown outside both the trigger and the popover closes it |
| Themes.InitialThemeId | themes/ThemeContext.jsx:258-268 | "light" becomes sand; the other legacy ids become midnight; a missing, empty or unreadable entry gives midnight; any other stored id is kept; the result is never empty nor a legacy id |
| Themes.MigrationIdempotent | themes/ThemeContext.jsx:258-268 | reading back the migrated id changes nothing |
| Themes.LoadCustomThemes | themes/ThemeContext.jsx:242-249 | a stored, non-empty, parsable entry loads as what it parses to; anything else loads as the empty map |
| Themes.AllThemes | themes/ThemeContext.jsx:272 | the merged map has the ids of both maps; a custom theme shadows the built-in with the same id |
| Themes.ResolveTheme | themes/ThemeContext.jsx:273 | the active theme is the custom one, else the built-in one, else midnight |
| Themes.ExportTheme | themes/ThemeContext.jsx:329-333 | an unknown id has no export; otherwise the export carries the name, description and variables, and a background image exactly when the theme has a non-empty one |
| Themes.ReadExported | themes/ThemeContext.jsx:337 | parsing an export yields a non-custom theme with no id and the exported name and variables |
| Themes.SaveId | themes/ThemeContext.jsx:304 | a saved theme keeps its own non-empty id, else gets custom-<now>; the id is never empty |
| Themes.Stamped | themes/ThemeContext.jsx:305 | the stored theme carries the chosen id, is marked custom, and keeps every other field |
| Themes.ExportImportRoundTrip | themes/ThemeContext.jsx:329-343 | importing an exported theme succeeds and yields a custom theme under custom-<now> with the same name, description, variables and background image |
| Themes.DeleteUncoversBuiltin | themes/ThemeContext.jsx:272-273 | deleting a custom theme that shadowed a built-in brings the built-in back, and no other id resolves differently |
| Themes.ThemeStore.constructor | themes/ThemeContext.jsx:258-270 | the store starts with the migrated id and the loaded custom themes |
| Themes.ThemeStore.SetTheme | themes/ThemeContext.jsx:296-300 | an id missing from the merged map changes nothing; a known id becomes active and is persisted |
| Themes.ThemeStore.SaveCustomTheme | themes/ThemeContext.jsx:302-314 | the stamped theme is stored under its id, persisted and made active; every other entry is kept |
| Themes.ThemeStore.DeleteCustomTheme | themes/ThemeContext.jsx:316-327 | the id is removed and the map persisted; the active id falls back to midnight only when it was the deleted id |
| Themes.ThemeStore.ImportTheme | themes/ThemeContext.jsx:335-343 | unparsable text, or a theme that is not Importable (without a name or variables), yields null and changes nothing; otherwise the theme is saved as by saveCustomTheme under SaveId's id: its own non-empty id, else custom-<now>; it is added to the custom themes, both are persisted, and it becomes the active theme stamped with that id |
| ConfirmSlider.HandleWidth | components/ConfirmSlider.jsx:106 | the handle is 56 px wide on narrow viewports and 72 px otherwise |
| ConfirmSlider.ComputePercent | components/ConfirmSlider.jsx:35-41 | the percent lies in 0..100; it is 0 without a track or at or left of its left edge, 100 at or right of its right edge, and in between proportional to the distance from the left edge |
| ConfirmSlider.PercentOfTrack | components/ConfirmSlider.jsx:39-40 | the pointer clamped to a track of positive width gives the same bounds and proportion |
| ConfirmSlider.ComputePercentMonotone | components/ConfirmSlider.jsx:35-41 | a pointer further right never gives a smaller percent |
| ConfirmSlider.HandleLeft | components/ConfirmSlider.jsx:111-121 | the handle's left edge is that percent of the width (300 px without a track) clamped between the padding and the width minus handle and padding: exactly 4 at or below the padding, exactly max(4, width − handle − 4) at or past the right end, the position itself in between |
| ConfirmSlider.DisplayLabel | components/ConfirmSlider.jsx:125 | the label is 'Release' exactly when the percent has reached the threshold, else the prompt |
| ConfirmSlider.Slider.constructor | components/ConfirmSlider.jsx:26-31 | the slider starts at 0, not held, not dragging, not confirmed |
| ConfirmSlider.Slider.PointerDown | components/ConfirmSlider.jsx:66-78 | ignored while disabled, confirmed or mid-drag; otherwise the drag starts with this pointer, the slider is held, and the percent is the pointer's position; a pending reset timer is left as it was |
| ConfirmSlider.Slider.PointerMove | components/ConfirmSlider.jsx:80-85 | only the tracked pointer during a drag moves the percent, to the pointer's position; the pointer being tracked and any pending reset timer are unchanged |
| ConfirmSlider.Slider.End | components/ConfirmSlider.jsx:43-64 | outside a drag nothing changes; a drag that reached the threshold confirms exactly once, sets 100 and schedules the reset; otherwise the slider is released at 0 |
| ConfirmSlider.Slider.PointerRelease | components/ConfirmSlider.jsx:87-95 | only the tracked pointer ends the drag, as in End: past the threshold it confirms and arms the reset timer, otherwise it springs back unconfirmed; the pointer is released; another pointer changes nothing |
| ConfirmSlider.Slider.ResetTimerFired | components/ConfirmSlider.jsx:53-58 | the reset releases the slider, clears the confirmation and returns to 0; the tracked pointer is unchanged |
| ConfirmSlider.Slider.ShowsConfirmed | components/ConfirmSlider.jsx:124 | the confirmed look shows exactly while confirmed, since a confirmed slider always sits at 100 |
| Heatmap.ItemsOf | components/swift/Heatmap.jsx:19 | a timeframe without data has no items; otherwise its own items |
| Heatmap.InsertByMagnitude | components/swift/Heatmap.jsx:46 | inserting into the sorted list adds exactly that one item |
| Heatmap.InsertKeepsSorted | components/swift/Heatmap.jsx:46 | inserting into a list sorted by non-increasing magnitude of change keeps it sorted |
| Heatmap.SortByMagnitude | components/swift/Heatmap.jsx:46 | the sort is a permutation of the items |
| Heatmap.SortByMagnitudeSorted | components/swift/Heatmap.jsx:46 | the sorted items run in non-increasing magnitude of change |
| Heatmap.InsertOfMagnitude | components/swift/Heatmap.jsx:46 | inserting an item puts it ahead of every item of its own magnitude and leaves their order alone |
| Heatmap.SortByMagnitudeStable | components/swift/Heatmap.jsx:46 | the sort is stable: items of equal magnitude keep their original order, as Array.prototype.sort guarantees |
| Heatmap.RawWeight | components/swift/Heatmap.jsx:47 | an item's raw weight is at least 0.5 and at least its magnitude of change |
| Heatmap.TotalRaw | components/swift/Heatmap.jsx:47 | the total raw weight is at least 0.5 per item |
| Heatmap.ScaledBlocks | components/swift/Heatmap.jsx:48-51 | each block is its item with the raw weight divided by the total |
| Heatmap.Blocks | components/swift/Heatmap.jsx:44-52 | there is one block per item, and none for an empty timeframe |
| Heatmap.BlocksAreSortedItems | components/swift/Heatmap.jsx:46-51 | the blocks carry the items as a permutation sorted by non-increasing magnitude of change |
| Heatmap.WeightOfScaled | components/swift/Heatmap.jsx:47-51 | the scaled weights sum to the total raw weight over the divisor |
| Heatmap.BlockWeightsNormalised | components/swift/Heatmap.jsx:47-51 | every block weighs more than 0, and for a non-empty timeframe the weights sum to 1 |
| Heatmap.CeilSqrt | components/swift/Heatmap.jsx:60 | the least k with k * k at least the block count |
| Heatmap.TargetRowWeight | components/swift/Heatmap.jsx:60 | the target row weight lies in (0, 1] |
| Heatmap.GrowRow | components/swift/Heatmap.jsx:62-64 | adding a block adds its weight; the row closes exactly when it reaches the target, and a row left open has every prefix below the target |
| Heatmap.TakeBlock | components/swift/Heatmap.jsx:61-69 | one loop step keeps the invariant: the rows and the open row hold the blocks taken so far, every closed row reached the target only at its last block, and the open row is below it |
| Heatmap.CloseRow | components/swift/Heatmap.jsx:65-67 | closing a row that reached the target keeps the invariant with an empty open row |
| Heatmap.PlaceBlock | components/swift/Heatmap.jsx:62-68 | the loop body closes the row exactly when its weight reaches the target, and otherwise extends it |
| Heatmap.CloseRows | components/swift/Heatmap.jsx:61-69 | after the loop, the closed rows and the open row hold all the blocks in order |
| Heatmap.Rows | components/swift/Heatmap.jsx:55-72 | no blocks give no rows; the rows hold exactly the blocks in order; every row is non-empty, all but the last closed at the first block that reaches the target, and the last is closed or a lighter leftover |
| Heatmap.Intensity | components/swift/Heatmap.jsx:94 | the intensity lies in 0..1; it is 1 from a change of 30 on and proportional to the magnitude below that |
| Heatmap.CellTone | components/swift/Heatmap.jsx:93-111 | a cell is green, with a '+' before its change, exactly when the change is at least 0, else red; its background alpha is 0.2 plus 0.55 times the intensity, so within 0.2..0.75, and 0.75 from a change of 30 on |
| Heatmap.ToneSymmetric | components/swift/Heatmap.jsx:93-97 | a rise and a fall of the same size give equally strong cells in opposite colours |
| Heatmap.ToneMonotone | components/swift/Heatmap.jsx:94-97 | a larger change never gives a fainter cell |
| Heatmap.HeatmapView.constructor | components/swift/Heatmap.jsx:17-18 | the view starts on the first timeframe (none for an empty list) with nothing selected |
| Heatmap.HeatmapView.IsSelected | components/swift/Heatmap.jsx:98 | a cell is highlighted exactly when the selection has its id |
| Heatmap.HeatmapView.CellClick | components/swift/Heatmap.jsx:107 | clicking the selected cell deselects it; clicking another cell selects it |
| Heatmap.HeatmapView.SetTimeframe | components/swift/Heatmap.jsx:34 | choosing a different timeframe clears the selection; the same one keeps it |
| Heatmap.HeatmapView.PointerDown | components/swift/Heatmap.jsx:24-31 | a pointerdown outside the heatmap clears the selection; inside it keeps it |
| Heatmap.HeatmapView.Render | components/swift/Heatmap.jsx:55-72 | "No data" shows exactly for an empty timeframe; otherwise the rows hold the timeframe's blocks in order, laid out greedily for the block count's target row weight |
| Heatmap.ClickTwice | components/swift/Heatmap.jsx:107 | two clicks on the same cell, from no selection, leave nothing selected |
| TopBar.InviteNotice | components/TopBar.jsx:119-126 | an invite's notice has id invite-<id>, type invite, the invite's id, "Someone" and "a project" as fallbacks in its detail, and the invite's creation time or now |
| TopBar.InviteNotices | components/TopBar.jsx:118-127 | adding one notice per pending invite in order puts them in front with the last invite first |
| TopBar.Dismissed | components/TopBar.jsx:165-167 | every entry with the id goes, every other entry stays, and a list without the id is unchanged |
| TopBar.WithoutInvite | components/TopBar.jsx:137 | every notice for the invite goes and every other notice stays |
| TopBar.DismissedKeepsOrder | components/TopBar.jsx:165-167 | dismissal keeps the survivors in their order |
| TopBar.DismissIdempotent | components/TopBar.jsx:165-167 | dismissing an id twice is dismissing it once |
| TopBar.TakeAfterPrepend | components/TopBar.jsx:67 | cutting to 30 after each arrival is the same as one cut at the end |
| TopBar.InviteNoticesStep | components/TopBar.jsx:118-127 | one more invite notice extends the notices the earlier invites left |
| TopBar.TopBarModel.constructor | components/TopBar.jsx:29-35 | the bar starts with no notifications, no unread count, no invites and the dropdown closed |
| TopBar.TopBarModel.AddNotification | components/TopBar.jsx:66-69 | the new entry goes first, the rest follow in order up to 30 entries, and unread grows by one even when an entry dropped off |
| TopBar.TopBarModel.Dismiss | components/TopBar.jsx:165-167 | the list loses the dismissed id; the unread count stays |
| TopBar.TopBarModel.ClearAll | components/TopBar.jsx:160-163 | the list and the unread count are emptied |
| TopBar.TopBarModel.OpenPanel | components/TopBar.jsx:155-158 | the dropdown opens and everything is marked read |
| TopBar.TopBarModel.DocumentMouseDown | components/TopBar.jsx:42-55 | a mousedown outside the bell and the dropdown closes the dropdown |
| TopBar.TopBarModel.RespondToInvite | components/TopBar.jsx:132-148 | after a successful accept or decline the invite and its notices go; a failed call changes nothing |
| TopBar.TopBarModel.LoadInvites | components/TopBar.jsx:113-130 | a non-array response changes nothing; otherwise the invites kept are exactly those with status 'pending' (IsPending), in order, and each one adds its notice |
| TopBar.TopBarModel.AddInviteNotices | components/TopBar.jsx:118-127 | the loop adds one notice per pending invite, in order, and unread grows by their number |
| TopBar.ArrivalsOutgrowList | components/TopBar.jsx:66-69 | after k arrivals on a fresh bar, unread is k while the list holds min(k, 30) entries |
| FeedText.FormatTime | components/TopBar.jsx:15-23 | no time shows ''; under a minute, a future time included, shows 'now'; then whole minutes under an hour, whole hours under a day, and the date beyond; the minutes and hours are the floored quotients |
| FeedText.TimeText | components/TopBar.jsx:15-23 | no time shows '', under a minute 'now', the date its locale text; a minutes label is exactly NatToString of the count followed by 'm', an hours label the same followed by 'h', and the digits before the suffix read back (DecimalValue) as the count |
| Common.NatToStringValue | components/TopBar.jsx:19-21 | the decimal text of a count reads back (DecimalValue) as that count |
| Common.NatToStringInjective | components/TopBar.jsx:19-21 | different counts are rendered as different texts |
| FeedText.FormatTimeMonotone | components/TopBar.jsx:15-23 | an older time never lands in a more recent bucket, and within the minute and hour buckets never shows a smaller count |
| FeedText.Badge | components/TopBar.jsx:210-214 | the badge is hidden at 0 or below, shows the single digit up to 9, and '9+' above |
| FeedText.StatusText | composites/ActivityFeed.jsx:60 | every underscore of the status becomes a space and nothing else changes; a missing status renders as 'undefined' |
| ActivityFeed.LastSegment | composites/ActivityFeed.jsx:15 | the last segment contains no '/', ends the string, and is preceded by a '/' unless it is the whole string |
| ActivityFeed.LastSegmentOfPath | composites/ActivityFeed.jsx:15 | the segment after the last '/' of dir/name is the name |
| ActivityFeed.TaskLabel | composites/ActivityFeed.jsx:15 | the label is the last path segment, the whole id when that segment is empty, and '' without an id |
| ActivityFeed.StatusEvent | composites/ActivityFeed.jsx:55-61 | a task update adds a system status_change entry with the rendered status and the current time |
| ActivityFeed.QAEvent | composites/ActivityFeed.jsx:66-72 | a QA result adds an approval with 'validation passed' or a rejection with the error count |
| ActivityFeed.BoundedPrepend | composites/ActivityFeed.jsx:62 | the new entry comes first, then the newest of the rest, and the list holds at most maxItems entries |
| ActivityFeed.FeedModel.constructor | composites/ActivityFeed.jsx:48 | the feed starts with the initial events, or none |
| ActivityFeed.FeedModel.InitialEventsChanged | composites/ActivityFeed.jsx:50-52 | new initial events replace the list as they are, without the cut |
| ActivityFeed.FeedModel.TaskUpdate | composites/ActivityFeed.jsx:54-63 | the status entry is prepended and the list cut to maxItems |
| ActivityFeed.FeedModel.QAResult | composites/ActivityFeed.jsx:65-74 | the QA entry is prepended and the list cut to maxItems |
| ActivityFeed.FeedModel.Render | composites/ActivityFeed.jsx:79-94 | the empty state shows exactly when there are no events; otherwise one row per event |
| ActivityFeed.EventItemModel.constructor | composites/ActivityFeed.jsx:14-16 | an item starts collapsed and is long exactly when IsLong holds: its detail, '' when missing, exceeds 40 UTF-16 code units |
| ActivityFeed.EventItemModel.MouseEnter | composites/ActivityFeed.jsx:21 | hovering expands a long detail and leaves a short one collapsed |
| ActivityFeed.EventItemModel.MouseLeave | composites/ActivityFeed.jsx:22 | leaving always collapses |
| ActivityFeed.EventItemModel.Click | composites/ActivityFeed.jsx:23 | a click toggles a long detail and leaves a short one collapsed |
| NotificationPanel.TypeColor | components/NotificationPanel.jsx:25-32 | a known type gets its own colour and an unknown type the task colour, so the colour is always one of the six |
| NotificationPanel.PanelModel.constructor | components/NotificationPanel.jsx:41-42 | the panel mounts closed with every notification unread |
| NotificationPanel.PanelModel.Render | components/NotificationPanel.jsx:45-47 | unread is reset to the count only when the number of notifications changed |
| NotificationPanel.PanelModel.BellClick | components/NotificationPanel.jsx:63 | the bell toggles the dropdown and marks everything read |
| NotificationPanel.PanelModel.DocumentMouseDown | components/NotificationPanel.jsx:50-57 | a mousedown outside the panel closes it |
| NotificationPanel.PanelModel.BadgeText | components/NotificationPanel.jsx:66-71 | the badge is the shared unread badge: hidden at 0, the digit up to 9, '9+' above |
| NotificationPanel.PanelModel.DismissClick | components/NotificationPanel.jsx:116-121 | the ✕ on an entry calls onDismiss with that entry's own id; open, unread, the seen length and the clear-all calls are unchanged |
| NotificationPanel.PanelModel.ClearAllClick | components/NotificationPanel.jsx:81-88 | 'Clear all', shown (ClearAllShown) only in the open dropdown of a non-empty list, calls onClearAll once; open, unread, the seen length and the dismiss calls are unchanged |
| GuidedTour.TargetRect | composites/GuidedTour.jsx:113-124 | the highlight follows the step's target, else its fallback selector, else there is no rectangle |
| GuidedTour.TooltipStyle | composites/GuidedTour.jsx:149-168 | the card is centred exactly when there is no target; otherwise it keeps 16 px from the top and left, is centred on the target vertically within the window, and stays above the bottom margin when the window is tall enough |
| GuidedTour.TooltipBesideTarget | composites/GuidedTour.jsx:155-165 | a card that fits sits 16 px right of the target and inside the right margin; one flipped to the left and not pushed by the left margin ends 16 px before the target |
| GuidedTour.TourOverlay.constructor | composites/GuidedTour.jsx:106-107 | an overlay starts on step 0 |
| GuidedTour.TourOverlay.Next | composites/GuidedTour.jsx:138-141 | Next advances below the last step and completes the tour on the last one |
| GuidedTour.TourOverlay.Prev | composites/GuidedTour.jsx:142-144 | Back steps back and stays on the first step; it leaves the step unchanged exactly when BackDisabled, the button's disabled test for step 0, holds |
| GuidedTour.TourOverlay.Close | composites/GuidedTour.jsx:221-226 | the ✕ button completes the tour from any step |
| GuidedTour.TourOverlay.Progress | composites/GuidedTour.jsx:247-253 | one progress segment per step, lit exactly up to the current step |
| GuidedTour.TourOverlay.Primary | composites/GuidedTour.jsx:270-274 | the primary button reads 'Done' exactly on the last step and 'Next' before it |
| GuidedTour.WalkThrough | composites/GuidedTour.jsx:138-141 | pressing Next on every step of a fresh tour visits each step once, in order, and completes once |
| GuidedTour.TourController.constructor | composites/GuidedTour.jsx:324-335 | no tour shows at first; the start event is listened for exactly when the done flag is not set |
| GuidedTour.TourController.StartEvent | composites/GuidedTour.jsx:330-332 | the start event starts the workspace tour only while listening |
| GuidedTour.TourController.Finish | composites/GuidedTour.jsx:354-357 | finishing hides the tour and persists the done flag |
| GuidedTour.TourController.RootComplete | composites/GuidedTour.jsx:337-339 | completing the workspace tour shows the transition screen |
| GuidedTour.TourController.Continue | composites/GuidedTour.jsx:341-352 | with a project link the project tour is scheduled; without one the tour finishes |
| GuidedTour.TourController.ProjectTimerFired | composites/GuidedTour.jsx:347 | the timer starts the project tour, whatever the phase is by then |
| GuidedTour.TourController.Skip | composites/GuidedTour.jsx:300-304 | "I'm good, thanks" finishes the tour |
| GuidedTour.TourController.ProjectComplete | composites/GuidedTour.jsx:367-369 | completing or closing the project tour finishes it |
| GuidedTour.TourController.Render | composites/GuidedTour.jsx:359-372 | each phase shows its screen: nothing, the workspace overlay, the transition screen, or the project overlay |
| LiveOutputBar.ActiveSession | composites/LiveOutputBar.jsx:209 | there is no active session exactly when there is no id or no session has it; otherwise it is the first session with that id |
| LiveOutputBar.LinesOfKind | composites/LiveOutputBar.jsx:139-140 | the count is the number of lines of that type, at most the line count, and 0 exactly when no line has the type |
| LiveOutputBar.LinesOfKindAppend | composites/LiveOutputBar.jsx:139-140 | appended lines add their own count |
| LiveOutputBar.Elapsed | composites/LiveOutputBar.jsx:126-135 | a session that is not running or has no start time shows 0 seconds; otherwise the whole seconds since the start, floored |
| LiveOutputBar.StatusBar | composites/LiveOutputBar.jsx:123-163 | no session shows no status bar; otherwise it shows the line count, the ops and errors counts exactly when they are positive, and a positive seconds count only while running; the seconds shown are the whole seconds elapsed since the session started, and the running and pinned flags are the session's |
| LiveOutputBar.ResizedHeight | composites/LiveOutputBar.jsx:196-199 | the start height plus the distance moved up, clamped: at least 160, at most 80% of the window (or 160), exactly 160 when dragged at or below it, exactly max(160, 80% of the window) when dragged at or above that |
| LiveOutputBar.ResizeMonotone | composites/LiveOutputBar.jsx:196-199 | dragging further up never makes the panel lower |
| LiveOutputBar.BarModel.constructor | composites/LiveOutputBar.jsx:168-184 | the bar starts neither maximised nor resizing, with the context's sessions and height |
| LiveOutputBar.BarModel.ResizeStart | composites/LiveOutputBar.jsx:187-192 | ignored while maximised; otherwise the drag starts from the pointer and the current height |
| LiveOutputBar.BarModel.ResizeMove | composites/LiveOutputBar.jsx:196-199 | while resizing, the height becomes the dragged height; otherwise nothing changes |
| LiveOutputBar.BarModel.ResizeEnd | composites/LiveOutputBar.jsx:200 | a mouseup ends the drag and keeps the height; maximised, minimised, the active tab, the sessions and the drag's start point and start height are unchanged |
| LiveOutputBar.BarModel.TabClick | composites/LiveOutputBar.jsx:262-269 | clicking the active tab of an expanded bar minimises it; any other click activates that tab and expands; maximised, the height, the sessions, the resize flag and the drag's start point and start height are unchanged |
| LiveOutputBar.BarModel.MinimizeClick | composites/LiveOutputBar.jsx:318 | the minimise button toggles minimised; maximised, the active tab, the height, the sessions, the resize flag and the drag's start point and start height are unchanged |
| LiveOutputBar.BarModel.MaximizeClick | composites/LiveOutputBar.jsx:327 | the maximise button toggles maximised and always expands; the active tab, the height, the sessions, the resize flag and the drag's start point and start height are unchanged |
| LiveOutputBar.BarModel.PanelHeight | composites/LiveOutputBar.jsx:228-232 | the height is full exactly when maximised, auto exactly when minimised and not maximised, and otherwise the stored pixels |
| LiveOutputBar.BarModel.ResizeHandleShown | composites/LiveOutputBar.jsx:243-246 | the drag handle shows, for a bar neither minimised nor maximised, exactly when the panel has a pixel height |
| LiveOutputBar.BarModel.Render | composites/LiveOutputBar.jsx:226 | nothing renders exactly when there are no open sessions; otherwise the panel at its height |
| Playground.IndexOf | playground/src/App.jsx:345-346 | the index is -1 exactly when the id is absent; otherwise it is the first position holding the id |
| Playground.StepDelay | playground/src/App.jsx:363 | the step delay lies in (0, 60] ms; a run never takes more than 400 ms of delays in all, and exactly 400 ms when the 60 ms cap does not apply |
| Playground.StepPath | playground/src/App.jsx:364-376 | a run highlights one item per step of the distance: the items after the start, in order, towards and including the target |
| Playground.StepPathExtend | playground/src/App.jsx:366-368 | one more step highlights one more item |
| Playground.SetAdd | playground/src/App.jsx:310 | adding keeps every member and adds the id and nothing else |
| Playground.SetDelete | playground/src/App.jsx:311 | deleting removes exactly the id |
| Playground.LastEntryDecides | playground/src/App.jsx:309-312 | after a batch, an id is visible exactly when its last entry was intersecting |
| Playground.TruncPath | playground/src/App.jsx:1538 | a path over 35 characters shows '...' and its last 32 characters, 35 in all; a shorter path, or none, is kept |
| Playground.ToggleCart | playground/src/App.jsx:669-673 | an id in the cart leaves it, an id outside joins it, and every other id keeps its place |
| Playground.ToggleCartTwice | playground/src/App.jsx:669-673 | toggling the same gift twice restores the cart |
| Playground.ProgressDown | playground/src/App.jsx:1023 | -10 lowers the progress by 10, not below 0 |
| Playground.ProgressUp | playground/src/App.jsx:1025 | +10 raises the progress by 10, not above 100 |
| Playground.HighestSection | playground/src/App.jsx:314-321 | the loop finds no section exactly when none of the visible ids is in the page; otherwise the one with the smallest top, the first of equals |
| Playground.PageModel.constructor | playground/src/App.jsx:255-264 | the page starts on the first section, with nothing visible, no pending click, no run, the menu closed and the header shown |
| Playground.PageModel.SetActive | playground/src/App.jsx:350 | the highlight moves to the id and is recorded; nothing else changes |
| Playground.PageModel.ScrollFrame | playground/src/App.jsx:270-277 | near the top the header shows; more than 8 px further down it hides and closes the menu; more than 8 px back up it shows; otherwise it stays; the position is remembered; the highlight, the visible set, the click guard and the whole step-run state (cur, target, dir, delay, stepping) are unchanged |
| Playground.PageModel.Spy | playground/src/App.jsx:306-323 | a pending click makes the callback do nothing; otherwise the entries update the visible set, and the visible section with the smallest top, the first of equally high ones, is highlighted, if any is in the page; the step-run state, the click guard, the menu and the header are unchanged |
| Playground.PageModel.GuardTimerFired | playground/src/App.jsx:351 | the guard timer lets the observer highlight again; the highlight, the visible set, the step-run state, the menu, the header and the scroll position are unchanged |
| Playground.PageModel.ScrollTo | playground/src/App.jsx:335-377 | the visible set, the header and the scroll position are never changed; a missing section changes nothing else either; when JumpsDirectly holds, for a target at or next to the current item, an unknown current item, or a click during a run, it jumps straight to the target and leaves the step-run state as it was; otherwise a run starts towards it, one step at a time, at most 60 ms per step; an existing section always closes the menu and sets the click guard |
| Playground.PageModel.StepFired | playground/src/App.jsx:366-375 | one step highlights the next item, and the run ends exactly on the target; direction, target, delay, the click guard, the visible set, the menu, the header and the scroll position are unchanged |
| Playground.PageModel.RunSteps | playground/src/App.jsx:364-376 | a run left to its timers highlights every item from the one after the start up to the target, in order, ends with cur on the target and stops; target, direction, delay, the click guard, the visible set, the menu, the header and the scroll position are unchanged |
| ColorPicker.DigitValue | components/ColorPicker.jsx:20-22 | a hex digit, either case, has a value in 0..15 |
| ColorPicker.Channel | components/ColorPicker.jsx:20-22 | a two-digit channel of a valid colour lies in 0..255 |
| ColorPicker.Channels | components/ColorPicker.jsx:20-22 | the red, green and blue channels each lie in 0..255 |
| ColorPicker.HexChar | components/ColorPicker.jsx:41 | the lower-case digit written for d is a hex digit whose value is d |
| ColorPicker.HexPair | components/ColorPicker.jsx:41 | a channel is written as two hex digits whose value is the channel |
| ColorPicker.FormatHex | components/ColorPicker.jsx:43 | three channels format as text that passes the #rrggbb test |
| ColorPicker.HexRoundTrip | components/ColorPicker.jsx:19-43 | formatting channels and parsing them back gives the same channels |
| ColorPicker.SliderTone | components/ColorPicker.jsx:142-143 | the slider raises saturation to at least 50 and keeps lightness in 30..70, unchanged when already inside |
| ColorPicker.PopoverPosition | components/ColorPicker.jsx:64-70 | the popover sits 6 px below the trigger, at least 8 px from the left, and inside the 16 px right margin whenever the window is wide enough |
| ColorPicker.SwatchSelectedIgnoresCase | components/ColorPicker.jsx:126 | the selected swatch is found regardless of the case of either colour |
| ColorPicker.PickerModel.constructor | components/ColorPicker.jsx:52-54 | the picker starts closed, with the value as its text and the value's hue |
| ColorPicker.PickerModel.ValueChanged | components/ColorPicker.jsx:59-62 | a new value resyncs the text and the hue |
| ColorPicker.PickerModel.Commit | components/ColorPicker.jsx:88-92 | the text, the hue and the onChange call all get the same colour |
| ColorPicker.PickerModel.HexTyped | components/ColorPicker.jsx:161-165 | the text follows the typing; text passing ValidHex, the #rrggbb test, is also committed, and nothing else is |
| ColorPicker.PickerModel.HexBlur | components/ColorPicker.jsx:166-168 | leaving the field keeps a complete colour and reverts anything else to the value |
| ColorPicker.PickerModel.SwatchClick | components/ColorPicker.jsx:125 | a swatch commits its colour: hex becomes it, hue becomes its hue, one change is reported, and open and value are unchanged |
| ColorPicker.PickerModel.HueInput | components/ColorPicker.jsx:139-144 | the hue slider keeps the current tone, raised and clamped, and commits the colour at the new hue |
| ColorPicker.PickerModel.TriggerClick | components/ColorPicker.jsx:102 | the trigger toggles the popover; colour, hue, value and the reported changes are unchanged |
| ColorPicker.PickerModel.DocumentMouseDown | components/ColorPicker.jsx:75-79 | a mousedown outside both the trigger and the popover closes it; colour, hue, value and the reported changes are unchanged |
| CardArt.Signed32 | components/swift/GiftCard.jsx:34 | `x \| 0` lies in the signed 32-bit range and keeps a value already in it |
| CardArt.Signed32Shift | components/swift/GiftCard.jsx:34 | adding a multiple of 2^32 does not change the 32-bit value |
| CardArt.Signed32OfSum | components/swift/GiftCard.jsx:34 | wrapping an operand first gives the same 32-bit sum |
| Common.Utf16 | components/swift/GiftCard.jsx:34 | charCodeAt reads UTF-16 code units, each below 0x10000, one or two per character; their values are fixed by Utf16Bmp, Utf16Astral and Utf16Concat |
| Common.Utf16Bmp | components/swift/GiftCard.jsx:34 | a string of Basic Multilingual Plane characters has one unit per character, equal to that character's code |
| Common.Utf16Concat | components/swift/GiftCard.jsx:34 | the units of a concatenation are the units of the first part followed by those of the second |
| Common.Utf16Astral | components/swift/GiftCard.jsx:34 | a character above 0xFFFF is two units, a high surrogate in 0xD800..0xDBFF then a low one in 0xDC00..0xDFFF, from which its code is recovered |
| CardArt.HashStepIsTimes31 | components/swift/GiftCard.jsx:34 | one round, (h << 5) - h + code wrapped to 32 bits, is 31 h + code wrapped |
| CardArt.Fold | components/swift/GiftCard.jsx:33-34 | the running hash always stays a signed 32-bit value |
| CardArt.FoldIsFold31 | components/swift/GiftCard.jsx:33-34 | the shift-and-subtract loop computes the 31-multiplier string hash |
| CardArt.HashOf | components/swift/GiftCard.jsx:32-36 | the hash is at most 2^31, the absolute value of -2^31 included, and 0 for '' |
| CardArt.HashCode | components/swift/GiftCard.jsx:32-36 | the loop computes the hash, which lies in 0..2^31 |
| CardArt.BackdropIndex | components/swift/GiftCard.jsx:48 | the backdrop slot is the name's hash (of '' without a name) modulo the number of backdrops, so always a valid slot, and slot 0 without a name |
| CardArt.Background | components/swift/GiftCard.jsx:48 | a non-empty backdrop is used as given; otherwise the backdrop at the name's slot |
| CardArt.ProviderKey | components/swift/GiftCard.jsx:40 | the lookup key is every non-white-space character of the lowered name, in order; so it has no white space and no upper-case letter |
| Common.StripSpaces | components/swift/GiftCard.jsx:40 | replace(/\s/g, '') keeps exactly the characters that are not white space, in order |
| CardArt.ProviderKeyIgnoresInnerSpace | components/swift/GiftCard.jsx:40 | a space anywhere inside the name leaves the key unchanged |
| CardArt.ProviderImageIgnoresInnerSpace | components/swift/GiftCard.jsx:38-42 | the provider "Get Gems" finds the getgems icon |
| CardArt.LowerStaysLower | components/swift/GiftCard.jsx:40 | stripping white space keeps the text lower-case |
| CardArt.ProviderImage | components/swift/GiftCard.jsx:38-42 | a missing or empty provider has no icon; otherwise the icon of its key, when there is one |
| CardArt.ProviderImageIgnoresCase | components/swift/GiftCard.jsx:38-42 | case and surrounding spaces do not change the provider lookup |
| CardArt.StripAround | components/swift/GiftCard.jsx:40 | spaces around the name are removed |
| CardArt.StripTrailingSpace | components/swift/GiftCard.jsx:40 | a trailing space is removed |
| CardArt.LowerIdempotent | components/swift/GiftCard.jsx:40 | lowering twice is lowering once |
| CardArt.Badge | components/swift/GiftCard.jsx:82-94 | no badge without a provider; the icon for a known provider; the provider's name for an unknown one |
| GiftCard.Render | components/swift/GiftCard.jsx:47-120 | the gift card shows the chosen backdrop (one of the eight or the given one), the picture or a placeholder, the provider badge, and the dollar price exactly when there is one |
| GiftCard.BackdropByName | components/swift/GiftCard.jsx:48 | without a backdrop, gifts with the same name share a gradient and a nameless gift gets the first |
| GiftCard.CartClick | components/swift/GiftCard.jsx:111 | the cart button calls onToggleCart once when given and the click does not reach the card |
| ItemCard.Render | components/swift/ItemCard.jsx:42-104 | the item card shows the chosen backdrop (one of the six or the given one), the picture or a cart icon, the provider badge, and either the sold-out banner or the add button |
| ItemCard.AddClick | components/swift/ItemCard.jsx:92-99 | a sold-out item has no add button; otherwise a click calls onAdd once when given |
| WheelSpinner.SegAngle | components/swift/WheelSpinner.jsx:15 | n prizes share the turn equally; with no prizes one segment spans the whole turn |
| WheelSpinner.MidDeg | components/swift/WheelSpinner.jsx:65-68 | a label sits halfway between its segment's start and end |
| WheelSpinner.SegmentsTile | components/swift/WheelSpinner.jsx:55-56 | each segment ends where the next starts, the last closes the turn, and every segment has positive width |
| WheelSpinner.LargeArc | components/swift/WheelSpinner.jsx:63 | the large-arc flag is set exactly for a single prize |
| WheelSpinner.SegAngleAtMostHalf | components/swift/WheelSpinner.jsx:63 | with two or more prizes a segment is at most a half turn |
| WheelSpinner.SegmentColor | components/swift/WheelSpinner.jsx:64 | the colours repeat every eight segments |
| WheelSpinner.TargetAngleBounds | components/swift/WheelSpinner.jsx:22 | TargetAngle, the rotation a spin adds, lies between 1800 + seg/2 and 2160 - seg/2 degrees |
| WheelSpinner.LandsUnderPointer | components/swift/WheelSpinner.jsx:21-24 | from a whole number of turns, the winning segment's midline ends exactly under the pointer at the top |
| WheelSpinner.WinnerUnderPointerIff | components/swift/WheelSpinner.jsx:22-24 | since rotation accumulates, the winner ends under the pointer exactly when the spin started from a whole number of turns |
| WheelSpinner.SpinLeavesPartTurn | components/swift/WheelSpinner.jsx:22-24 | a spin adds more than five and less than six turns, and never a whole number of turns |
| WheelSpinner.SecondSpinMisses | components/swift/WheelSpinner.jsx:22-24 | after a first spin of a fresh wheel, the second winner's midline is never under the pointer |
| WheelSpinner.WheelModel.constructor | components/swift/WheelSpinner.jsx:11-13 | a wheel starts at rest at rotation 0 with no winner |
| WheelSpinner.WheelModel.Spin | components/swift/WheelSpinner.jsx:17-25 | ignored while spinning or without prizes; otherwise the wheel spins, the winner is cleared, and the rotation grows by the winning segment's angle |
| WheelSpinner.WheelModel.LandingTimerFired | components/swift/WheelSpinner.jsx:26-30 | the timer stops the wheel, shows the chosen prize and reports it once |
| WheelSpinner.WheelModel.ShowsWinner | components/swift/WheelSpinner.jsx:110 | the winner line shows only once the wheel has stopped on a winner |
| WheelSpinner.WheelModel.ButtonLabel | components/swift/WheelSpinner.jsx:107 | the button reads 'Spinning...' while spinning and 'Spin' otherwise |
| WheelSpinner.FirstSpin | components/swift/WheelSpinner.jsx:17-31 | a fresh wheel's first spin reports the chosen prize once and leaves its segment under the pointer |
| WheelSpinner.TwoSpins | components/swift/WheelSpinner.jsx:17-31 | two spins of a fresh wheel report both prizes in order, and the second prize's segment comes to rest away from the pointer |
| CheckInBonus.RewardAt | components/swift/CheckInBonus.jsx:12 | a missing or zero reward gets the default (i + 1) * 10; a given one is kept; a reward is never 0 |
| CheckInBonus.ClaimedAt | components/swift/CheckInBonus.jsx:13 | a day is claimed exactly when the list marks it |
| CheckInBonus.Days | components/swift/CheckInBonus.jsx:10-16 | seven cells, cell i for day i + 1 with its reward, its claim, current at currentDay and available up to it |
| CheckInBonus.DaysShape | components/swift/CheckInBonus.jsx:10-16 | the days run 1..7, the available cells form a prefix, at most one cell is current, and one is exactly when currentDay is in range |
| CheckInBonus.Faded | components/swift/CheckInBonus.jsx:28 | a cell is faded exactly when it is neither available nor claimed |
| CheckInBonus.Highlighted | components/swift/CheckInBonus.jsx:37-39 | the raised background marks the current day while unclaimed, and never an unavailable cell |
| CheckInBonus.HighlightedCell | components/swift/CheckInBonus.jsx:37-39 | exactly the current day's cell is raised, and only while unclaimed |
| CheckInBonus.Button | components/swift/CheckInBonus.jsx:72-83 | the button is disabled and reads 'Already Claimed' exactly when the current cell exists and is claimed; otherwise it reads 'Claim Day n+1', even for a day out of range |
| CheckInBonus.NothingClaimed | components/swift/CheckInBonus.jsx:10-83 | with nothing claimed the button is live and exactly the days after the current one are faded |
| SubtaskTimeline.DoneCount | composites/SubtaskTimeline.jsx:37-39 | the done count is the number of completed, validated or tests_passing subtasks: all of them exactly when every one is done, 0 exactly when none is |
| SubtaskTimeline.Progress | composites/SubtaskTimeline.jsx:40 | the progress is the whole percent nearest to done / n, halves rounded up: at most 100, 100 when all are done and 0 when none is |
| SubtaskTimeline.ProgressNearest | composites/SubtaskTimeline.jsx:40 | the rounded percent lies within half a percent of the exact ratio |
| SubtaskTimeline.StyleKey | composites/SubtaskTimeline.jsx:75 | a known status keeps its own style and any other gets the pending style |
| SubtaskTimeline.CountLabel | composites/SubtaskTimeline.jsx:54 | the count reads 'subtask' exactly for one subtask and 'subtasks' otherwise |
| SubtaskTimeline.TimelineModel.constructor | composites/SubtaskTimeline.jsx:26-27 | the list starts open as given, with no row expanded |
| SubtaskTimeline.TimelineModel.HeaderClick | composites/SubtaskTimeline.jsx:47 | the header toggles the list |
| SubtaskTimeline.TimelineModel.RowClick | composites/SubtaskTimeline.jsx:77-87 | a row with a description that is not blank (HasDescription) toggles between expanded and collapsed; a row without one ignores the click |
| SubtaskTimeline.TimelineModel.RowOf | composites/SubtaskTimeline.jsx:74-131 | a row shows the title or the id, the status with underscores as spaces and its style, and, expanded with a description, the first seven characters of the commit hash when there is one |
| SubtaskTimeline.TimelineModel.Render | composites/SubtaskTimeline.jsx:29-137 | a missing or empty list shows the placeholder; otherwise the header with the count, done count and progress, and one row per subtask while open |
| AchievementsModal.Keeps | components/swift/AchievementsModal.jsx:27-29 | the pinned tab keeps pinned achievements and any other tab its own category |
| AchievementsModal.Filtered | components/swift/AchievementsModal.jsx:27-29 | the grid holds exactly the achievements the tab keeps, each one from the list |
| AchievementsModal.FilteredKeepsOrder | components/swift/AchievementsModal.jsx:27-29 | filtering keeps the given order |
| AchievementsModal.CardAt | components/swift/AchievementsModal.jsx:55-64 | a card shows its achievement's title, subtitle, completion and pin, and its own icon or else its position |
| AchievementsModal.ModalModel.constructor | components/swift/AchievementsModal.jsx:23 | the modal starts on the pinned tab |
| AchievementsModal.ModalModel.SelectTab | components/swift/AchievementsModal.jsx:48 | choosing a tab shows that tab |
| AchievementsModal.ModalModel.PinClick | components/swift/AchievementsModal.jsx:63 | pinning a card reports the id of the achievement it shows |
| AchievementsModal.ModalModel.Render | components/swift/AchievementsModal.jsx:25-75 | nothing when closed; the tab's empty message exactly when it keeps nothing; otherwise one card per kept achievement |
| ChartAxis.Stride | components/swift/BarChart.jsx:90 | the label stride is the least step that leaves at most six multiples below the label count, and at least 1 for a non-empty axis |
| ChartAxis.KeptIndices | components/swift/BarChart.jsx:90 | exactly the indices that are a multiple of the stride or the last one are kept, in increasing order: at most seven of them, the first and the last always among them |
| ChartAxis.Thin | components/swift/BarChart.jsx:90 | the thinned axis is the kept items in order: at most seven, starting with the first and ending with the last, and every item when there are at most six |
| ChartAxis.ShortKeepsAll | components/swift/BarChart.jsx:90 | up to six labels nothing is thinned out |
| ChartAxis.MaxWithOne | components/swift/BarChart.jsx:24 | the scale maximum is never below 1 nor below any value, and is 1 or one of the values |
| ChartAxis.Sum | components/swift/WhaleFlowChart.jsx:25-26 | the total of non-negative values is non-negative |
| ChartAxis.SumAppend | components/swift/WhaleFlowChart.jsx:25-26 | the total of two runs is the sum of their totals |
| ChartAxis.HeightPercent | components/swift/BarChart.jsx:78 | a bar's height times the maximum is its value times 100, so a value within the maximum stays within 0..100% and the maximum fills the chart |
| ChartAxis.MinHeight | components/swift/BarChart.jsx:81 | the minimum height is 2 px exactly for a positive value and 0 otherwise |
| BarChart.SeriesFor | components/swift/BarChart.jsx:20 | the selected timeframe's series when the data has one, the empty series otherwise |
| BarChart.Values | components/swift/BarChart.jsx:21 | mode 0 plots the primary series; another mode the secondary series when present, else the primary |
| BarChart.DisplayHeader | components/swift/BarChart.jsx:27-57 | the header is hidden exactly without values; it shows the hovered value when that bar exists and else the last, and the hovered label when it is non-empty and else the last label |
| BarChart.BarOpacity | components/swift/BarChart.jsx:80 | opacity 1 for the hovered bar, 0.9 for the last bar with nothing hovered, 0.55 otherwise |
| BarChart.OneHighlightedBar | components/swift/BarChart.jsx:80 | no two bars are fully opaque, and with nothing hovered only the last bar stands out |
| BarChart.BarsFit | components/swift/BarChart.jsx:78 | every bar of a non-negative series fits the chart, and the largest value, when at least 1, fills it |
| BarChart.BarChartModel.constructor | components/swift/BarChart.jsx:16-18 | the first timeframe (none for an empty list), mode 0 and no hover |
| BarChart.BarChartModel.SelectTimeframe | components/swift/BarChart.jsx:54 | the timeframe control sets the timeframe and nothing else |
| BarChart.BarChartModel.SelectMode | components/swift/BarChart.jsx:42 | a mode button sets the mode and nothing else |
| BarChart.BarChartModel.MouseEnter | components/swift/BarChart.jsx:72 | entering a bar hovers it |
| BarChart.BarChartModel.MouseLeave | components/swift/BarChart.jsx:73 | leaving a bar clears the hover |
| BarChart.BarChartModel.Render | components/swift/BarChart.jsx:20-93 | one bar per plotted value, scaled to the maximum, with its opacity and minimum height, under the header and over the thinned labels |
| WhaleFlowChart.Counts | components/swift/WhaleFlowChart.jsx:22-25 | the transaction counts, bar by bar |
| WhaleFlowChart.Volumes | components/swift/WhaleFlowChart.jsx:23-26 | the volumes, bar by bar |
| WhaleFlowChart.DisplayHeader | components/swift/WhaleFlowChart.jsx:28-33 | a hovered bar that exists shows its own count, volume and label; otherwise the header shows the totals and no label |
| WhaleFlowChart.VolumeOpacity | components/swift/WhaleFlowChart.jsx:78 | the opacity is 0.3 plus half the volume's share of the largest volume, so within 0.3..0.8 for a volume within the maximum |
| WhaleFlowChart.FlowOpacity | components/swift/WhaleFlowChart.jsx:78 | opacity 1 for the hovered bar, 0.9 for the last bar with nothing hovered, else the volume-driven opacity; never below 0.3 for a non-negative volume |
| WhaleFlowChart.MinTrackWidth | components/swift/WhaleFlowChart.jsx:61 | the track is 10 px per bar and never narrower than 100 px |
| WhaleFlowChart.TimeLabels | components/swift/WhaleFlowChart.jsx:90-91 | the labels of the thinned bars: at most seven, from the first bar's to the last bar's |
| WhaleFlowChart.TotalsAppend | components/swift/WhaleFlowChart.jsx:25-26 | both totals add up interval by interval |
| WhaleFlowChart.FlowChartModel.constructor | components/swift/WhaleFlowChart.jsx:16-17 | the first timeframe (none for an empty list) and no hover |
| WhaleFlowChart.FlowChartModel.SelectTimeframe | components/swift/WhaleFlowChart.jsx:45 | the timeframe control sets the timeframe and keeps the hover |
| WhaleFlowChart.FlowChartModel.MouseEnter | components/swift/WhaleFlowChart.jsx:70 | entering a bar hovers it |
| WhaleFlowChart.FlowChartModel.MouseLeave | components/swift/WhaleFlowChart.jsx:71 | leaving a bar clears the hover |
| WhaleFlowChart.FlowChartModel.BarsFor | components/swift/WhaleFlowChart.jsx:19-20 | the selected timeframe's bars when the data has them, none otherwise |
| WhaleFlowChart.FlowChartModel.Render | components/swift/WhaleFlowChart.jsx:48-92 | one bar per interval with height by count against the largest count, the flow opacity and the minimum height, under the header |
| LineChart.SeqMin | components/swift/LineChart.jsx:32 | the least value: below or equal to every value and one of them |
| LineChart.SeqMax | components/swift/LineChart.jsx:33 | the greatest value: above or equal to every value and one of them |
| LineChart.ScaleOf | components/swift/LineChart.jsx:32-36 | the range widens the extremes by a tenth of their distance on each side, or by 1 for a flat series, so every value lies strictly inside it |
| LineChart.PointX | components/swift/LineChart.jsx:39 | points run from the left padding to the right padding, the first at one end and the last at the other; a single point sits in the middle |
| LineChart.EvenlySpaced | components/swift/LineChart.jsx:39 | neighbouring points are the same distance apart |
| LineChart.PointY | components/swift/LineChart.jsx:40 | a value inside the range is drawn strictly between the top and bottom padding, its depth proportional to its distance from the top of the range |
| LineChart.HigherValueHigherPoint | components/swift/LineChart.jsx:40 | a larger value is drawn higher |
| LineChart.Points | components/swift/LineChart.jsx:31-43 | one point per value, in order, with its label when there is one, every point inside the plot |
| LineChart.GridSteps | components/swift/LineChart.jsx:55-59 | neighbouring grid lines are a quarter of the plot height and a quarter of the range apart |
| LineChart.GridEnds | components/swift/LineChart.jsx:55-59 | the bottom grid line marks the low end of the range and the top one the high end |
| LineChart.YLabels | components/swift/LineChart.jsx:31-59 | no grid without values; otherwise five lines from the bottom of the range to its top, evenly spaced |
| LineChart.LinePath | components/swift/LineChart.jsx:45-51 | the line moves to the first point, then draws one cubic curve to each next point with both control points at the horizontal midpoint, level with the previous and the current point |
| LineChart.AreaPath | components/swift/LineChart.jsx:53 | the area is the line, then down to the baseline under the last point, back under the first, and closed |
| LineChart.NearestPoint | components/swift/LineChart.jsx:72-77 | the chosen point is nearest the cursor and is the first of the nearest ones; 0 without points |
| LineChart.ActivePoint | components/swift/LineChart.jsx:87 | there is an active point exactly when the hover names an existing point, and it is that point |
| LineChart.DisplayPoint | components/swift/LineChart.jsx:64-65 | the header's point: none without points, else the hovered point when it exists, else the last |
| LineChart.ShowLastDot | components/swift/LineChart.jsx:88 | the last-point marker shows exactly when there are points and nothing is hovered |
| LineChart.StaleHoverShowsNoDot | components/swift/LineChart.jsx:65-88 | a hover beyond the current series makes the header fall back to the last point while neither dot is drawn |
| LineChart.LineChartModel.constructor | components/swift/LineChart.jsx:19-20 | the first timeframe (none for an empty list) and no hover |
| LineChart.LineChartModel.SelectTimeframe | components/swift/LineChart.jsx:94 | the timeframe control sets the timeframe and keeps the hover |
| LineChart.LineChartModel.MouseMove | components/swift/LineChart.jsx:67-79 | a move hovers the nearest point, the first of equally near ones; afterwards the header shows that point and the last-point marker is gone |
| LineChart.LineChartModel.MouseLeave | components/swift/LineChart.jsx:108 | leaving the chart clears the hover |
| LineChart.LineChartModel.SeriesFor | components/swift/LineChart.jsx:22-23 | the selected timeframe's series when the data has one, the empty series otherwise |
| LineChart.LineChartModel.Render | components/swift/LineChart.jsx:30-163 | the points, grid, header point, active dot and last-point marker of the selected series |
| HealthScoreGauge.AutoType | components/swift/HealthScoreGauge.jsx:7 | an explicit non-empty type wins; otherwise low exactly below 33, medium exactly from 33 to below 66 and high exactly from 66 |
| HealthScoreGauge.IndicatorColor | components/swift/HealthScoreGauge.jsx:8-9 | the dot takes the band's colour, which exists exactly for the three band names and so always for the derived type |
| HealthScoreGauge.LargeArcFlag | components/swift/HealthScoreGauge.jsx:24 | the large-arc flag is set exactly for a sweep over 180 degrees |
| HealthScoreGauge.Segments | components/swift/HealthScoreGauge.jsx:29-31 | there are three segments |
| HealthScoreGauge.SegmentsCoverSweep | components/swift/HealthScoreGauge.jsx:12-43 | the segments are contiguous, run from the start of the 270-degree sweep to its end, are 90 degrees each, none sets the large-arc flag, and they are stroked red, yellow and green in the low, medium and high band colours |
| HealthScoreGauge.IndicatorAngle | components/swift/HealthScoreGauge.jsx:34 | the dot's angle grows by 2.7 degrees per point from 135; it stays on the sweep exactly for scores 0 to 100 |
| HealthScoreGauge.IndicatorMonotone | components/swift/HealthScoreGauge.jsx:34 | a higher score moves the dot further along the sweep |
| HealthScoreGauge.DotColourAgainstSegment | components/swift/HealthScoreGauge.jsx:7-34 | away from the gaps between the thresholds 33 and 66 and the arc boundaries 100/3 and 200/3 the dot's band matches the segment under it |
| ProgressBar.Percent | components/ProgressBar.jsx:4 | the width is the value's share of the maximum in percent, capped at 100 and 0 for a non-positive maximum; a negative value gives a negative width |
| ProgressBar.PercentMonotone | components/ProgressBar.jsx:4 | more progress never shows a shorter bar |
| ProgressBar.SizeClass | components/ProgressBar.jsx:10 | 'sm' and 'md' have their own height class and any other size gets the large one |
| CustomSelect.JsString | components/CustomSelect.jsx:104 | a string stays itself and a number is written in decimal |
| CustomSelect.StrictImpliesStringEqual | components/CustomSelect.jsx:104 | strictly equal values have equal strings |
| CustomSelect.Selected | components/CustomSelect.jsx:22 | the selected option is the first strictly equal one, and there is none exactly when no option is strictly equal |
| CustomSelect.TriggerText | components/CustomSelect.jsx:73-75 | the trigger shows the selected option's label when it is non-empty, the placeholder otherwise |
| CustomSelect.SelectedIsHighlighted | components/CustomSelect.jsx:104-111 | the selected option is always Highlighted, the menu's test that the option's string equals the value's |
| CustomSelect.StrictAndStringDisagree | components/CustomSelect.jsx:22-104 | the number 1 against the option value '1' is highlighted in the menu while the trigger shows the placeholder |
| CustomSelect.MenuPosition | components/CustomSelect.jsx:37-49 | above exactly when fewer than 240 px remain below and more than 240 px lie above; above, at most 240 px up and never within 8 px of the top; else 4 px below; aligned left and at least 180 px wide |
| CustomSelect.SelectModel.constructor | components/CustomSelect.jsx:18-21 | the menu starts closed at the zero position |
| CustomSelect.SelectModel.TriggerClick | components/CustomSelect.jsx:70 | the trigger toggles the menu |
| CustomSelect.SelectModel.Reposition | components/CustomSelect.jsx:51-60 | while open, the menu takes the position computed from the trigger and the viewport |
| CustomSelect.SelectModel.OptionClick | components/CustomSelect.jsx:102 | choosing an option reports its value and closes the menu |
| CustomSelect.SelectModel.DocumentMouseDown | components/CustomSelect.jsx:25-34 | a press outside both the trigger and the menu closes an open menu; any other press changes nothing |

## Left out

- Browser plumbing: ResizeObserver, IntersectionObserver, DOM event listeners, requestAnimationFrame, scrollIntoView and portals are platform calls. Measurements such as bounding rectangles, the window size and element lookups are parameters, and observer callbacks are method calls.
- Timers: each `setTimeout` is a "timer fired" method that the caller invokes. The model does not capture real time or the order in which timers of different components fire.
- Storage: `localStorage` is a field holding the persisted string. Storage exceptions are a parameter of the loading functions.
- Network and sockets: the socket subscriptions and the invite API of the notification bar, and the stop request of the live output bar, are left out. Their results arrive as parameters.
- The socket payload builders of the notification bar (task updates, QA results, messages) are not modelled. Only the list update they all go through, `addNotification`, is.
- Floating point: reals stand for JavaScript numbers. NaN, infinities and rounding are not modelled.
- Trigonometry and powers: the squircle's corner samples, the wheel's and the gauge's polar coordinates, and the colour picker's HSL conversions are uninterpreted parameters.
- Number and path formatting: `toFixed`, `toLocaleString`, the charts' `formatVal`/`formatVol`/`formatValue`, and the SVG path strings are not modelled. Paths are sequences of abstract commands.
- Clock and randomness: `Date.now()`, `new Date()`, locale date strings and `Math.random()` are parameters (`now`, `dateText`, `winIndex`).
- Text case: `toLowerCase` is modelled on ASCII letters only.
- Object keys: a lookup such as `colors[type]` sees only the keys the source defines. Keys inherited from `Object.prototype`, such as `constructor`, are not modelled.
- Toasts, focus handling and `stopPropagation` wiring have no state to model and are left out.
- View composition with no behaviour to state (layout, class names other than those named in the table, icons) is left out.
- ConfirmSlider.ComputePercent: requires a track of positive width. A zero-width track gives NaN in JavaScript, which reals cannot represent.
- Squircle.PathInBox: holds for sample offsets of magnitude at most 1 on each axis, which the uninterpreted shape is required to give; the `toFixed(1)` rounding of path coordinates is not modelled.
- Playground.PageModel.ScrollTo: requires the id to be a sidebar item. The page calls it only from the sidebar, and an id outside the sidebar would find no index.
- Playground.PageModel.Spy: highlights the best section even when its id is the empty string, which the source's truthiness test skips. No section of the page has an empty id.
- Playground.TruncPath: measures and slices the path in characters rather than UTF-16 code units. The two agree for paths with no character outside the Basic Multilingual Plane; slicing through a surrogate pair would give a lone surrogate, which a Dafny string cannot hold. SubtaskTimeline.TimelineModel.RowOf takes the first seven characters of the commit hash in the same way.
- Default prop values are not modelled: callers pass every prop. These include useSquircle's radius 26 and smoothing 0.6, the confirm slider's threshold 80, the activity feed's maxItems 50, the gauge's value 50 and the custom select's placeholder.
- CustomSelect.JsString: numbers are integers written in decimal. Fractional numbers and their string forms are not modelled.
