/**
  The life-calendar screen's reducer: its state, its actions, the analytics
  events it sends and the effects it returns.

  `Reduce` is the reducer's `switch` over actions as a pure function of the
  current state; `LifeCalendarStore` holds the same state in mutable fields and
  rewrites them field by field, as the reducer does with its `inout` state.
 */
module LifeCalendar {
  import LifeData

  /** The two calendar display modes. */
  datatype CalendarType = Life | CurrentYear

  /** Every case of `CalendarType`, in declaration order. */
  const AllCalendarTypes: seq<CalendarType> := [Life, CurrentYear]

  /** The title shown for a calendar type in the mode picker. */
  function Title(t: CalendarType): (s: string)
    ensures s == "Life" <==> t == Life
    ensures s == "Year" <==> t == CurrentYear
  {
    match t
    case Life => "Life"
    case CurrentYear => "Year"
  }

  /** How Swift's string interpolation prints a calendar type (its case name). */
  function Description(t: CalendarType): (s: string)
    ensures s == "life" <==> t == Life
    ensures s == "currentYear" <==> t == CurrentYear
  {
    match t
    case Life => "life"
    case CurrentYear => "currentYear"
  }

  /** `CalendarType` has exactly its two cases, with distinct titles. */
  lemma CalendarTypeCases(t: CalendarType)
    ensures t in AllCalendarTypes
    ensures |AllCalendarTypes| == 2 && AllCalendarTypes[0] != AllCalendarTypes[1]
    ensures Title(AllCalendarTypes[0]) == "Life" && Title(AllCalendarTypes[1]) == "Year"
  {
  }

  /** The number of columns of the current-year mode grid. */
  const CurrentYearModeColumnCount: nat := 6

  /** The default life expectancy, in years. */
  const DefaultLifeExpectancy: int := 90

  /** The state the reducer owns. The in-app-purchase child state is not modelled. */
  datatype State = State(
    calendarType: CalendarType,
    life: LifeData.Life,
    isAboutTheCalendarSheetVisible: bool)

  /** The state of the "about the app" child screen. */
  datatype AboutTheAppState = AboutTheAppState(
    life: LifeData.Life,
    isAboutTheCalendarSheetVisible: bool)

  /**
    The default state; `birthdayAge` is the age that the default birthday (a
    fixed number of years before the current date) yields. Every state, the
    default one included, shows the current-year mode in
    `CurrentYearModeColumnCount` (6) columns.
   */
  function InitialState(birthdayAge: int): (s: State)
    ensures s.calendarType == Life && !s.isAboutTheCalendarSheetVisible
    ensures s.life.lifeExpectancy == 90 && s.life.age == birthdayAge
    ensures CurrentYearModeColumnCount == 6
  {
    State(Life, LifeData.Life(birthdayAge, DefaultLifeExpectancy), false)
  }

  /** The getter of the `aboutTheApp` projection. */
  function GetAboutTheApp(s: State): (v: AboutTheAppState)
    ensures v.life == s.life
    ensures v.isAboutTheCalendarSheetVisible == s.isAboutTheCalendarSheetVisible
  {
    AboutTheAppState(s.life, s.isAboutTheCalendarSheetVisible)
  }

  /** The setter of the `aboutTheApp` projection: only the sheet flag is written back. */
  function SetAboutTheApp(s: State, v: AboutTheAppState): (r: State)
    ensures r.isAboutTheCalendarSheetVisible == v.isAboutTheCalendarSheetVisible
    ensures r.life == s.life && r.calendarType == s.calendarType
  {
    s.(isAboutTheCalendarSheetVisible := v.isAboutTheCalendarSheetVisible)
  }

  /** Writing back the value just read leaves the state as it was. */
  lemma GetThenSet(s: State)
    ensures SetAboutTheApp(s, GetAboutTheApp(s)) == s
  {
  }

  /**
    Reading after a write gives back the written flag, but the parent's own
    `life`: a child can never change the parent's life.
   */
  lemma SetThenGet(s: State, v: AboutTheAppState)
    ensures GetAboutTheApp(SetAboutTheApp(s, v)) == v.(life := s.life)
    ensures GetAboutTheApp(SetAboutTheApp(s, v)) == v <==> v.life == s.life
  {
  }

  /** A second write overrides the first. */
  lemma SetTwice(s: State, v1: AboutTheAppState, v2: AboutTheAppState)
    ensures SetAboutTheApp(SetAboutTheApp(s, v1), v2) == SetAboutTheApp(s, v2)
  {
  }

  /** A binding write of one of the two bindable fields. */
  datatype BindingAction =
    | CalendarTypeBinding(calendarType: CalendarType)
    | SheetVisibleBinding(isVisible: bool)

  /** An action of the "about the app" child reducer, identified by name. */
  datatype AboutTheAppAction = AboutTheAppAction(name: string)

  /** An action of the in-app-purchase child reducer, identified by name. */
  datatype IAPAction = IAPAction(name: string)

  datatype Action =
    | Binding(binding: BindingAction)
    | OnAppear
    | CalendarTypeChanged(calendarType: CalendarType)
    | LifeChanged(newLife: LifeData.Life)
    | AboutLifeCalendarButtonTapped
    | CloseAboutTheCalendarSheet
    | AboutTheApp(aboutTheAppAction: AboutTheAppAction)
    | Iap(iapAction: IAPAction)

  /** An event handed to the analytics client. */
  datatype AnalyticsEvent =
    | Event(name: string)
    | EventWithPayload(name: string, payload: map<string, string>)

  const CalendarTypeChangedEvent := "life_calendar.calendar_type_changed"
  const AboutLifeCalendarButtonTappedEvent := "life_calendar.about_life_calendar_button_tapped"

  /**
    The effect the reducer returns: nothing, or the long-running observation of
    the user's birthday and life-expectancy settings, each pair of which comes
    back as a `LifeChanged` action.
   */
  datatype Effect = NoEffect | ObserveUserSettings

  /** What one action produces: the new state, the analytics events sent, the effect. */
  datatype Outcome = Outcome(state: State, events: seq<AnalyticsEvent>, effect: Effect)

  /** The analytics event recording a calendar type. */
  function CalendarTypeEvent(t: CalendarType): AnalyticsEvent
  {
    EventWithPayload(CalendarTypeChangedEvent, map["calendarType" := Description(t)])
  }

  /** Whether an action is one whose handling sends an analytics event. */
  predicate IsLogged(a: Action)
  {
    || a.CalendarTypeChanged?
    || a == AboutLifeCalendarButtonTapped
    || (a.Binding? && a.binding.CalendarTypeBinding?)
  }

  /**
    The reducer's handling of one action. A binding action arrives after the
    binding has already been written to the state, so a calendar-type binding
    logs the calendar type the state holds.
   */
  function Reduce(s: State, a: Action): (r: Outcome)
    // each field is written by exactly one kind of action
    ensures r.state.calendarType == (if a.CalendarTypeChanged? then a.calendarType else s.calendarType)
    ensures r.state.life == (if a.LifeChanged? then a.newLife else s.life)
    ensures r.state.isAboutTheCalendarSheetVisible ==
              (if a == AboutLifeCalendarButtonTapped then true
               else if a == CloseAboutTheCalendarSheet then false
               else s.isAboutTheCalendarSheetVisible)
    // only appearing starts an effect
    ensures r.effect == ObserveUserSettings <==> a == OnAppear
    // at most one event, and a calendar-type event names the type now shown
    ensures |r.events| == (if IsLogged(a) then 1 else 0)
    ensures forall e :: e in r.events && e.EventWithPayload? ==>
              e == CalendarTypeEvent(r.state.calendarType)
    // which event each logged action sends
    ensures a == AboutLifeCalendarButtonTapped ==> r.events == [Event(AboutLifeCalendarButtonTappedEvent)]
    ensures (a.CalendarTypeChanged? || (a.Binding? && a.binding.CalendarTypeBinding?)) ==>
              r.events == [CalendarTypeEvent(r.state.calendarType)]
  {
    match a
    case Binding(b) =>
      if b.CalendarTypeBinding? then Outcome(s, [CalendarTypeEvent(s.calendarType)], NoEffect)
      else Outcome(s, [], NoEffect)
    case OnAppear =>
      Outcome(s, [], ObserveUserSettings)
    case CalendarTypeChanged(t) =>
      Outcome(s.(calendarType := t), [CalendarTypeEvent(t)], NoEffect)
    case LifeChanged(l) =>
      Outcome(s.(life := l), [], NoEffect)
    case AboutLifeCalendarButtonTapped =>
      Outcome(s.(isAboutTheCalendarSheetVisible := true), [Event(AboutLifeCalendarButtonTappedEvent)], NoEffect)
    case CloseAboutTheCalendarSheet =>
      Outcome(s.(isAboutTheCalendarSheetVisible := false), [], NoEffect)
    case AboutTheApp(_) =>
      Outcome(s, [], NoEffect)
    case Iap(_) =>
      Outcome(s, [], NoEffect)
  }

  /** Changing the calendar type sets it, logs it, and touches nothing else. */
  lemma CalendarTypeChangedFrame(s: State, t: CalendarType)
    ensures Reduce(s, CalendarTypeChanged(t)) == Outcome(s.(calendarType := t), [CalendarTypeEvent(t)], NoEffect)
    ensures Reduce(s, CalendarTypeChanged(t)).state.life == s.life
    ensures Reduce(s, CalendarTypeChanged(t)).state.isAboutTheCalendarSheetVisible == s.isAboutTheCalendarSheetVisible
  {
  }

  /** A life change replaces the life and nothing else. */
  lemma LifeChangedFrame(s: State, l: LifeData.Life)
    ensures Reduce(s, LifeChanged(l)) == Outcome(s.(life := l), [], NoEffect)
  {
  }

  /**
    Opening and closing the about sheet set the flag, are idempotent, and leave
    the life and the calendar type alone.
   */
  lemma AboutSheetOpenClose(s: State)
    ensures Reduce(s, AboutLifeCalendarButtonTapped) ==
              Outcome(s.(isAboutTheCalendarSheetVisible := true), [Event(AboutLifeCalendarButtonTappedEvent)], NoEffect)
    ensures Reduce(s, CloseAboutTheCalendarSheet) ==
              Outcome(s.(isAboutTheCalendarSheetVisible := false), [], NoEffect)
    ensures var s1 := Reduce(s, AboutLifeCalendarButtonTapped).state;
            Reduce(s1, AboutLifeCalendarButtonTapped).state == s1
    ensures var s1 := Reduce(s, CloseAboutTheCalendarSheet).state;
            Reduce(s1, CloseAboutTheCalendarSheet).state == s1
  {
  }

  /** Bindings, child actions and appearing leave the reducer-owned state alone. */
  lemma PassThroughActions(s: State, a: Action)
    requires a.Binding? || a.AboutTheApp? || a.Iap? || a == OnAppear
    ensures Reduce(s, a).state == s
    ensures a != OnAppear ==> Reduce(s, a).effect == NoEffect
    ensures a.Binding? && a.binding.SheetVisibleBinding? ==> Reduce(s, a).events == []
    ensures a.Binding? && a.binding.CalendarTypeBinding? ==>
              Reduce(s, a).events == [CalendarTypeEvent(s.calendarType)]
    ensures a.AboutTheApp? || a.Iap? ==> Reduce(s, a).events == []
  {
  }

  /**
    The life-calendar store: the reducer's state held in fields that each
    action rewrites in place, and the analytics events sent so far. `Send` is
    the screen's own handler only: on a binding action the bound field is
    expected to have been written already by the framework's binding step,
    which this class does not perform.
   */
  class LifeCalendarStore {
    var calendarType: CalendarType
    var life: LifeData.Life
    var isAboutTheCalendarSheetVisible: bool
    var analytics: seq<AnalyticsEvent>

    /** The current state as a value. */
    function Current(): State
      reads this
    {
      State(calendarType, life, isAboutTheCalendarSheetVisible)
    }

    constructor (birthdayAge: int)
      ensures Current() == InitialState(birthdayAge)
      ensures analytics == []
    {
      calendarType := Life;
      life := LifeData.Life(birthdayAge, DefaultLifeExpectancy);
      isAboutTheCalendarSheetVisible := false;
      analytics := [];
    }

    /** Handles one action: the new state, the events sent and the effect are `Reduce`'s. */
    method Send(a: Action) returns (effect: Effect)
      modifies this
      ensures Current() == Reduce(old(Current()), a).state
      ensures analytics == old(analytics) + Reduce(old(Current()), a).events
      ensures effect == Reduce(old(Current()), a).effect
    {
      effect := NoEffect;
      match a {
        case Binding(b) =>
          if b.CalendarTypeBinding? {
            analytics := analytics + [CalendarTypeEvent(calendarType)];
          }
        case OnAppear =>
          effect := ObserveUserSettings;
        case CalendarTypeChanged(t) =>
          analytics := analytics + [CalendarTypeEvent(t)];
          calendarType := t;
        case LifeChanged(l) =>
          life := l;
        case AboutLifeCalendarButtonTapped =>
          analytics := analytics + [Event(AboutLifeCalendarButtonTappedEvent)];
          isAboutTheCalendarSheetVisible := true;
        case CloseAboutTheCalendarSheet =>
          isAboutTheCalendarSheetVisible := false;
        case AboutTheApp(_) =>
        case Iap(_) =>
      }
    }

    /** Writes a value back through the `aboutTheApp` projection. */
    method WriteAboutTheApp(v: AboutTheAppState)
      modifies this
      ensures Current() == SetAboutTheApp(old(Current()), v)
      ensures analytics == old(analytics)
    {
      isAboutTheCalendarSheetVisible := v.isAboutTheCalendarSheetVisible;
    }
  }
}
