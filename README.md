# Life Progress: life calendar and life-goal form, modelled in Dafny

Life Progress shows a person's life as a grid. There is one row per year of their
life expectancy and one cell per week. Users can also keep a list of personal
"life goals". Each screen is a reducer: a state record plus a handler that takes
one action at a time. This project models three pieces of that logic:

- **The life-calendar reducer** (module `LifeCalendar`). Its state holds the
  calendar type (`Life` or `CurrentYear`), the user's `Life`, and whether the
  "about the calendar" sheet is visible. `Reduce` handles each action as a pure
  function of the state. It returns the new state, the analytics events sent and
  the effect started. The class `LifeCalendarStore` keeps the same state in
  mutable fields. Its `Send` rewrites those fields one by one, and its contract
  ties each write to `Reduce`. The `aboutTheApp` child state is a get/set
  projection: `GetAboutTheApp` and `SetAboutTheApp`.
- **The life grid** (module `LifeGrid`). `DrawLifeCalendar` runs the nested
  year/week loops over a fresh `array2<Fill>` canvas. A cell gets the age-group
  colour, the system fill, or is left blank, depending on how `yearIndex + 1`
  compares with the age. Lemmas count the rows of each kind. Two small pure
  helpers give the canvas opacity and the mode-change animation for each
  calendar type.
- **The add/edit life-goal form** (module `AddOrEditLifeGoal`). This is limited
  to what its tests assert. `Step` handles one action. `Run` handles one action
  and then the follow-up action its effect sends back. The life-goals client and
  the analytics client are logs of the calls made to them. The class
  `AddOrEditLifeGoalStore` keeps the form fields and both logs in mutable fields.

`Life` (module `LifeData`) is abstracted to a whole-year `age` and a
`lifeExpectancy`. A week row has 52 cells. `Option` lives in module `Options`.

Two consequences of following the code closely:

- A cell is coloured when `yearIndex + 1 < age`
  (CalendarWithoutCurrentYear.swift:48), so the row of the current age, not
  the row with index `age`, is the one left blank.
- Completing a goal does not set its completion date. The exhaustive test of
  that action (AddOrEditLifeGoalTests.swift:47-49) shows only `isCompleted`
  changing.

## Model

| member | source | states |
|---|---|---|
| `LifeCalendar.Title` | LifeProgress/Features/LifeCalendar/LifeCalendarStore.swift:59-66 | the title is "Life" exactly for the life calendar, and "Year" exactly for the current-year calendar |
| `LifeCalendar.Description` | LifeProgress/Features/LifeCalendar/LifeCalendarStore.swift:124-127 | the calendar type is printed in analytics as its case name: "life" iff `Life`, "currentYear" iff `CurrentYear` |
| `LifeCalendar.CalendarTypeCases` | LifeProgress/Features/LifeCalendar/LifeCalendarStore.swift:55-66 | every calendar type is one of exactly two distinct cases, with titles "Life" and "Year" |
| `LifeCalendar.InitialState` | LifeProgress/Features/LifeCalendar/LifeCalendarStore.swift:19-35 | the default state shows the life calendar with the sheet hidden and a life expectancy of 90; the current-year mode has 6 columns |
| `LifeCalendar.GetAboutTheApp` | LifeProgress/Features/LifeCalendar/LifeCalendarStore.swift:39-44 | the child state carries exactly the parent's life and sheet flag |
| `LifeCalendar.SetAboutTheApp` | LifeProgress/Features/LifeCalendar/LifeCalendarStore.swift:45-47 | writing the child state back sets only the sheet flag; life and calendar type are kept |
| `LifeCalendar.GetThenSet` | LifeProgress/Features/LifeCalendar/LifeCalendarStore.swift:38-48 | writing back the value just read leaves the state unchanged |
| `LifeCalendar.SetThenGet` | LifeProgress/Features/LifeCalendar/LifeCalendarStore.swift:38-48 | after a write, a read returns the written flag with the parent's own life; the round trip is exact iff the written life was the parent's |
| `LifeCalendar.SetTwice` | LifeProgress/Features/LifeCalendar/LifeCalendarStore.swift:45-47 | a second write overrides the first |
| `LifeCalendar.Reduce` | LifeProgress/Features/LifeCalendar/LifeCalendarStore.swift:103-149 | each field changes only under its own action (calendar type under `calendarTypeChanged`, life under `lifeChanged`, sheet flag under the open and close actions); only `onAppear` starts an effect; exactly the calendar-type actions and the about button send one event each: the about button sends "life_calendar.about_life_calendar_button_tapped", and `calendarTypeChanged` and the calendar-type binding send "life_calendar.calendar_type_changed" with the type the state now holds |
| `LifeCalendar.CalendarTypeChangedFrame` | LifeProgress/Features/LifeCalendar/LifeCalendarStore.swift:123-129 | changing the calendar type sets it, logs it, returns no effect, and leaves life and the sheet flag unchanged |
| `LifeCalendar.LifeChangedFrame` | LifeProgress/Features/LifeCalendar/LifeCalendarStore.swift:131-133 | a life change replaces the life and nothing else, sends no event and returns no effect |
| `LifeCalendar.AboutSheetOpenClose` | LifeProgress/Features/LifeCalendar/LifeCalendarStore.swift:135-142 | the about button shows the sheet and logs its event, close hides it and logs nothing, neither returns an effect; each is idempotent and touches neither life nor calendar type |
| `LifeCalendar.PassThroughActions` | LifeProgress/Features/LifeCalendar/LifeCalendarStore.swift:105-148 | bindings, child actions and `onAppear` leave the reducer's state unchanged; only `onAppear` returns an effect; the calendar-type binding logs the calendar-type event with the bound type; sheet bindings and child actions send no event |
| `LifeCalendar.LifeCalendarStore.constructor` | LifeProgress/Features/LifeCalendar/LifeCalendarStore.swift:18-35 | a new store holds the default state and has sent no events |
| `LifeCalendar.LifeCalendarStore.Send` | LifeProgress/Features/LifeCalendar/LifeCalendarStore.swift:103-149 | the in-place field updates leave the store in `Reduce`'s new state, append `Reduce`'s events to the analytics log, and return `Reduce`'s effect |
| `LifeCalendar.LifeCalendarStore.WriteAboutTheApp` | LifeProgress/Features/LifeCalendar/LifeCalendarStore.swift:45-47 | the write-back through the projection changes only the sheet flag and sends nothing |
| `LifeGrid.CellFill` | LifeProgress/Features/LifeCalendar/Views/CalendarWithoutCurrentYear.swift:44-52 | a cell has the age-group colour of `yearIndex + 1` iff `yearIndex + 1 < age`, the system fill iff `yearIndex + 1 > age`, and no fill iff `yearIndex + 1 == age` |
| `LifeGrid.RowUniform` | LifeProgress/Features/LifeCalendar/Views/CalendarWithoutCurrentYear.swift:35-52 | the fill never depends on the week, so all cells of a row share one outcome |
| `LifeGrid.AtMostOneUnfilledRow` | LifeProgress/Features/LifeCalendar/Views/CalendarWithoutCurrentYear.swift:44-52 | two unfilled rows are the same row |
| `LifeGrid.DrawLifeCalendar` | LifeProgress/Features/LifeCalendar/Views/CalendarWithoutCurrentYear.swift:35-54 | the canvas has `lifeExpectancy` rows of 52 cells, each cell holds its `CellFill`, and the number of fill operations is 52 times the number of rows that are not the current-age row |
| `LifeGrid.AgeColoredRowCount` | LifeProgress/Features/LifeCalendar/Views/CalendarWithoutCurrentYear.swift:35-49 | among the first `n` rows, `min(max(age - 1, 0), n)` are age-coloured |
| `LifeGrid.BackgroundRowCount` | LifeProgress/Features/LifeCalendar/Views/CalendarWithoutCurrentYear.swift:35-51 | among the first `n` rows, `n - min(max(age, 0), n)` get the system fill |
| `LifeGrid.UnfilledRowCount` | LifeProgress/Features/LifeCalendar/Views/CalendarWithoutCurrentYear.swift:35-52 | among the first `n` rows, exactly one is unfilled when `1 <= age <= n`, and none otherwise |
| `LifeGrid.RowsPartition` | LifeProgress/Features/LifeCalendar/Views/CalendarWithoutCurrentYear.swift:35-52 | the age-coloured, background and unfilled rows together number exactly `lifeExpectancy` |
| `LifeGrid.Opacity` | LifeProgress/Features/LifeCalendar/Views/CalendarWithoutCurrentYear.swift:56 | the canvas is opaque (1) iff the calendar type is `Life`, and transparent (0) iff it is `CurrentYear` |
| `LifeGrid.CalendarAnimation` | LifeProgress/Features/LifeCalendar/Views/CalendarWithoutCurrentYear.swift:69-76 | the animation lasts 400 ms; it is delayed (by 400 ms) iff the calendar type is not `Life` |
| `AddOrEditLifeGoal.GoalFromForm` | LifeProgressTests/Features/AddOrEditLifeGoal/AddOrEditLifeGoalTests.swift:84-118 | the goal built from the form carries the given id and the form's title, details and symbol name; it is completed iff the form says so, and then its date is the form's date |
| `AddOrEditLifeGoal.GoalFromFormRoundTrip` | LifeProgressTests/Features/AddOrEditLifeGoal/AddOrEditLifeGoalTests.swift:137-176 | a form showing a goal's own fields rebuilds exactly that goal under its id |
| `AddOrEditLifeGoal.Step` | LifeProgressTests/Features/AddOrEditLifeGoal/AddOrEditLifeGoalTests.swift:16-202 | each form field is written only by its own setter; only un-completing hides the date picker; only the confetti action raises the counter, by one; an action is sent back exactly for completing (confetti), adding and saving an edited goal (close); a goal handed to the client mirrors the form (the new id on add, the edited goal's id on save); one analytics event per client call; follow-ups have no follow-ups of their own |
| `AddOrEditLifeGoal.Run` | LifeProgressTests/Features/AddOrEditLifeGoal/AddOrEditLifeGoalTests.swift:40-54 | handling an action together with its follow-up leaves nothing more to send, and makes exactly the client calls and analytics events of the first action |
| `AddOrEditLifeGoal.TextFieldsChanged` | LifeProgressTests/Features/AddOrEditLifeGoal/AddOrEditLifeGoalTests.swift:16-38 | `titleChanged` sets the title and `detailsChanged` sets the details; nothing else changes, no client is called, no event is sent and no action is sent back |
| `AddOrEditLifeGoal.CompletingShowsConfetti` | LifeProgressTests/Features/AddOrEditLifeGoal/AddOrEditLifeGoalTests.swift:40-54 | completing sets `isCompleted` and is followed by `showConfetti`, which raises the confetti counter by one (from 0 to 1 in the default state) |
| `AddOrEditLifeGoal.UncompletingHidesDatePicker` | LifeProgressTests/Features/AddOrEditLifeGoal/AddOrEditLifeGoalTests.swift:56-70 | un-completing clears `isCompleted` and hides the date picker; nothing is called, sent or sent back |
| `AddOrEditLifeGoal.FinishedAtChangedFrame` | LifeProgressTests/Features/AddOrEditLifeGoal/AddOrEditLifeGoalTests.swift:72-82 | changing the completion date sets it; nothing else changes, nothing is called, sent or sent back |
| `AddOrEditLifeGoal.AddCreatesGoal` | LifeProgressTests/Features/AddOrEditLifeGoal/AddOrEditLifeGoalTests.swift:84-135 | add hands `createLifeGoal` the goal built from the form, logs "add_or_edit_life_goal.add_button_tapped", is followed by close, and leaves the form state unchanged |
| `AddOrEditLifeGoal.SaveKeepsId` | LifeProgressTests/Features/AddOrEditLifeGoal/AddOrEditLifeGoalTests.swift:137-202 | save hands `updateLifeGoal` the form's fields under the edited goal's id, logs "add_or_edit_life_goal.save_button_tapped", is followed by close, and leaves the form state unchanged |
| `AddOrEditLifeGoal.SaveUnchangedIsIdentity` | LifeProgressTests/Features/AddOrEditLifeGoal/AddOrEditLifeGoalTests.swift:137-176 | saving a goal whose form shows its own fields hands the client that very goal |
| `AddOrEditLifeGoal.AddOrEditLifeGoalStore.constructor` | LifeProgressTests/Features/AddOrEditLifeGoal/AddOrEditLifeGoalTests.swift:96-109 | a new store holds the given initial form state, and both client logs are empty |
| `AddOrEditLifeGoal.AddOrEditLifeGoalStore.Send` | LifeProgressTests/Features/AddOrEditLifeGoal/AddOrEditLifeGoalTests.swift:16-82 | the in-place field updates leave the store in `Step`'s new state, append `Step`'s client calls and events to the logs, and return `Step`'s follow-up |
| `AddOrEditLifeGoal.AddOrEditLifeGoalStore.Dispatch` | LifeProgressTests/Features/AddOrEditLifeGoal/AddOrEditLifeGoalTests.swift:111-112 | sending an action and then feeding back its follow-up leaves the store in `Run`'s state, with `Run`'s calls and events appended |

## Left out

- The `onAppear` effect observes the birthday and life-expectancy settings. It runs asynchronously over a stream, which is concurrency and foreign I/O. The model returns the marker effect `ObserveUserSettings`. Each pair that stream yields would arrive as a `LifeChanged` action.
- The framework's binding reducer and the scoped child reducers are not modelled. These are the "about the app" reducer and the in-app-purchase reducer. `Reduce` is only the screen's own handler. A binding action reaches it after the binding reducer has already written the bound field. The in-app-purchase child state is left out of `State`.
- How `Life.age` follows from the birthday and the calendar is not part of this model. `age` is an input. The default birthday, 28 years before the current date, becomes the constructor parameter `birthdayAge`.
- The age-group colour mapping is not part of this model. `AgeGroupColor(age)` carries the age passed to the mapping.
- Canvas geometry (cell size, padding, rectangles) is floating-point layout and is left out. So are the easing curve and fractional durations. Durations are whole milliseconds.
- `DrawLifeCalendar` requires `lifeExpectancy >= 0`. Swift traps on the range `0..<n` when `n` is negative.
- The add/edit reducer's source is not part of this model. Only the transitions the tests assert are modelled:
  - Saving with no goal to edit is modelled as doing nothing. The tests always supply a goal.
  - A form that is not completed builds a goal with no completion date. This is a modelling choice: a goal is completed exactly when it has a date. The tests cover only completed forms.
  - Close changes no state. Dismissing the screen is not modelled.
  - Any other actions of that reducer (symbol picking, date-picker toggling) are not modelled.
- Goal identifiers are natural numbers and dates are integers. The identifier of a newly added goal is a parameter, not a random UUID.
