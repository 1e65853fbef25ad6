/**
  The add-or-edit life-goal form, as far as its tests pin it down: the form
  fields, the field setters, the date-picker rule, the confetti follow-up, and
  the add and save buttons, which hand a goal built from the form to the
  life-goals client, send an analytics event and then close the form.

  The life-goals client and the analytics client are modelled as logs of the
  calls made to them. A follow-up action is what the reducer's effect sends
  back into the store.
 */
module AddOrEditLifeGoal {
  import opened Options

  /** A goal identifier. */
  type Uuid = nat

  /** A point in time. */
  type Date = int

  /** A life goal; it is completed exactly when it has a completion date. */
  datatype LifeGoal = LifeGoal(
    id: Uuid,
    title: string,
    finishedAt: Option<Date>,
    symbolName: string,
    details: string)
  {
    predicate IsCompleted() { finishedAt.Some? }
  }

  /** The confetti child state: how many times the confetti has been shown. */
  datatype ConfettiState = ConfettiState(confetti: nat)

  datatype ConfettiAction = ShowConfetti

  /** The form state. `lifeGoalToEdit` is present when an existing goal is being edited. */
  datatype State = State(
    title: string,
    details: string,
    isCompleted: bool,
    symbolName: string,
    finishedAt: Date,
    isDatePickerVisible: bool,
    confetti: ConfettiState,
    lifeGoalToEdit: Option<LifeGoal>)

  datatype Action =
    | TitleChanged(newTitle: string)
    | DetailsChanged(newDetails: string)
    | IsCompletedChanged(newIsCompleted: bool)
    | FinishedAtChanged(newFinishedAt: Date)
    | AddButtonTapped
    | SaveButtonTapped
    | CloseButtonTapped
    | Confetti(confettiAction: ConfettiAction)

  /** A call made to the life-goals client. */
  datatype GoalsCall = CreateLifeGoal(goal: LifeGoal) | UpdateLifeGoal(goal: LifeGoal)

  const AddButtonTappedEvent := "add_or_edit_life_goal.add_button_tapped"
  const SaveButtonTappedEvent := "add_or_edit_life_goal.save_button_tapped"

  /**
    What one action produces: the new state, the calls made to the life-goals
    client, the analytics events sent, and the action the effect sends back.
   */
  datatype Outcome = Outcome(
    state: State,
    goalsCalls: seq<GoalsCall>,
    analyticsEvents: seq<string>,
    followUp: Option<Action>)

  /** Actions whose handling sends nothing back. */
  predicate IsTerminal(a: Action)
  {
    a == CloseButtonTapped || a.Confetti?
  }

  /** Whether goal `g` carries exactly the form's fields under identifier `id`. */
  predicate MirrorsForm(g: LifeGoal, s: State, id: Uuid)
  {
    && g.id == id
    && g.title == s.title
    && g.details == s.details
    && g.symbolName == s.symbolName
    && (g.IsCompleted() <==> s.isCompleted)
    && (g.IsCompleted() ==> g.finishedAt.value == s.finishedAt)
  }

  /**
    The goal the form describes, under identifier `id`. Its completion date is
    the form's date when the form says completed, and absent otherwise.
   */
  function GoalFromForm(s: State, id: Uuid): (g: LifeGoal)
    ensures MirrorsForm(g, s, id)
  {
    LifeGoal(id, s.title, if s.isCompleted then Some(s.finishedAt) else None, s.symbolName, s.details)
  }

  /** The form that edits goal `g` shows its fields back. */
  lemma GoalFromFormRoundTrip(g: LifeGoal, s: State)
    requires s.title == g.title && s.details == g.details && s.symbolName == g.symbolName
    requires s.isCompleted == g.IsCompleted()
    requires g.IsCompleted() ==> s.finishedAt == g.finishedAt.value
    ensures GoalFromForm(s, g.id) == g
  {
  }

  /**
    The reducer's handling of one action. `newId` is the identifier a newly
    added goal receives.
   */
  function Step(s: State, a: Action, newId: Uuid): (r: Outcome)
    // each field is written only by its own setter
    ensures r.state.title == (if a.TitleChanged? then a.newTitle else s.title)
    ensures r.state.details == (if a.DetailsChanged? then a.newDetails else s.details)
    ensures r.state.isCompleted == (if a.IsCompletedChanged? then a.newIsCompleted else s.isCompleted)
    ensures r.state.finishedAt == (if a.FinishedAtChanged? then a.newFinishedAt else s.finishedAt)
    ensures r.state.symbolName == s.symbolName && r.state.lifeGoalToEdit == s.lifeGoalToEdit
    // un-completing hides the date picker; nothing else shows or hides it
    ensures r.state.isDatePickerVisible == (s.isDatePickerVisible && a != IsCompletedChanged(false))
    // only the confetti action raises the confetti counter, by one
    ensures r.state.confetti.confetti == s.confetti.confetti + (if a.Confetti? then 1 else 0)
    // completing is followed by confetti
    ensures a == IsCompletedChanged(true) ==> r.followUp == Some(Confetti(ShowConfetti))
    // a goal handed to the client mirrors the form, and the form then closes
    ensures |r.goalsCalls| <= 1
    ensures forall c :: c in r.goalsCalls ==>
              (c.CreateLifeGoal? && a == AddButtonTapped && MirrorsForm(c.goal, s, newId))
              || (c.UpdateLifeGoal? && a == SaveButtonTapped && s.lifeGoalToEdit.Some?
                  && MirrorsForm(c.goal, s, s.lifeGoalToEdit.value.id))
    ensures r.goalsCalls != [] ==> r.followUp == Some(CloseButtonTapped)
    ensures |r.analyticsEvents| == |r.goalsCalls|
    // follow-ups end after one round
    ensures r.followUp.Some? ==> IsTerminal(r.followUp.value)
    ensures IsTerminal(a) ==> r.followUp == None
    // only completing, adding, and saving an edited goal send an action back
    ensures r.followUp.Some? <==>
              (a == IsCompletedChanged(true) || a == AddButtonTapped
               || (a == SaveButtonTapped && s.lifeGoalToEdit.Some?))
  {
    match a
    case TitleChanged(t) => Outcome(s.(title := t), [], [], None)
    case DetailsChanged(d) => Outcome(s.(details := d), [], [], None)
    case IsCompletedChanged(c) =>
      if c then Outcome(s.(isCompleted := true), [], [], Some(Confetti(ShowConfetti)))
      else Outcome(s.(isCompleted := false, isDatePickerVisible := false), [], [], None)
    case FinishedAtChanged(d) => Outcome(s.(finishedAt := d), [], [], None)
    case Confetti(ShowConfetti) =>
      Outcome(s.(confetti := ConfettiState(s.confetti.confetti + 1)), [], [], None)
    case AddButtonTapped =>
      Outcome(s, [CreateLifeGoal(GoalFromForm(s, newId))], [AddButtonTappedEvent], Some(CloseButtonTapped))
    case SaveButtonTapped =>
      match s.lifeGoalToEdit {
        case Some(g) =>
          Outcome(s, [UpdateLifeGoal(GoalFromForm(s, g.id))], [SaveButtonTappedEvent], Some(CloseButtonTapped))
        case None => Outcome(s, [], [], None)
      }
    case CloseButtonTapped => Outcome(s, [], [], None)
  }

  /** Handles an action and then the action its effect sends back, if any. */
  function Run(s: State, a: Action, newId: Uuid): (r: Outcome)
    ensures r.followUp == None
    ensures r.goalsCalls == Step(s, a, newId).goalsCalls
    ensures r.analyticsEvents == Step(s, a, newId).analyticsEvents
  {
    var first := Step(s, a, newId);
    match first.followUp
    case None => first
    case Some(b) =>
      var second := Step(first.state, b, newId);
      Outcome(second.state, first.goalsCalls + second.goalsCalls,
              first.analyticsEvents + second.analyticsEvents, second.followUp)
  }

  /** Changing the title or the details sets that field and nothing else. */
  lemma TextFieldsChanged(s: State, t: string, id: Uuid)
    ensures Step(s, TitleChanged(t), id) == Outcome(s.(title := t), [], [], None)
    ensures Step(s, DetailsChanged(t), id) == Outcome(s.(details := t), [], [], None)
  {
  }

  /** Completing a goal sets the flag, and the confetti that follows raises the counter by one. */
  lemma CompletingShowsConfetti(s: State, id: Uuid)
    ensures Step(s, IsCompletedChanged(true), id).state == s.(isCompleted := true)
    ensures Step(s, IsCompletedChanged(true), id).followUp == Some(Confetti(ShowConfetti))
    ensures Run(s, IsCompletedChanged(true), id).state ==
              s.(isCompleted := true, confetti := ConfettiState(s.confetti.confetti + 1))
    ensures s.confetti.confetti == 0 ==> Run(s, IsCompletedChanged(true), id).state.confetti.confetti == 1
  {
  }

  /** Un-completing a goal clears the flag and hides the date picker, with no follow-up. */
  lemma UncompletingHidesDatePicker(s: State, id: Uuid)
    ensures Step(s, IsCompletedChanged(false), id) ==
              Outcome(s.(isCompleted := false, isDatePickerVisible := false), [], [], None)
  {
  }

  /** Changing the completion date sets it and nothing else. */
  lemma FinishedAtChangedFrame(s: State, d: Date, id: Uuid)
    ensures Step(s, FinishedAtChanged(d), id) == Outcome(s.(finishedAt := d), [], [], None)
  {
  }

  /**
    Adding hands the client a new goal built from the form, logs the add
    event, and closes the form; the form state itself does not change.
   */
  lemma AddCreatesGoal(s: State, id: Uuid)
    ensures Step(s, AddButtonTapped, id).followUp == Some(CloseButtonTapped)
    ensures var r := Run(s, AddButtonTapped, id);
            && r.state == s
            && r.goalsCalls == [CreateLifeGoal(GoalFromForm(s, id))]
            && r.analyticsEvents == [AddButtonTappedEvent]
    ensures s.isCompleted ==> GoalFromForm(s, id).finishedAt == Some(s.finishedAt)
  {
  }

  /**
    Saving an edited goal hands the client the form's fields under the edited
    goal's identifier, logs the save event, and closes the form.
   */
  lemma SaveKeepsId(s: State, g: LifeGoal, id: Uuid)
    requires s.lifeGoalToEdit == Some(g)
    ensures Step(s, SaveButtonTapped, id).followUp == Some(CloseButtonTapped)
    ensures var r := Run(s, SaveButtonTapped, id);
            && r.state == s
            && r.goalsCalls == [UpdateLifeGoal(GoalFromForm(s, g.id))]
            && r.goalsCalls[0].goal.id == g.id
            && r.analyticsEvents == [SaveButtonTappedEvent]
  {
  }

  /** Editing a goal and saving it unchanged hands the client that very goal. */
  lemma SaveUnchangedIsIdentity(s: State, g: LifeGoal, id: Uuid)
    requires s.lifeGoalToEdit == Some(g)
    requires s.title == g.title && s.details == g.details && s.symbolName == g.symbolName
    requires s.isCompleted == g.IsCompleted()
    requires g.IsCompleted() ==> s.finishedAt == g.finishedAt.value
    ensures Run(s, SaveButtonTapped, id).goalsCalls == [UpdateLifeGoal(g)]
  {
    GoalFromFormRoundTrip(g, s);
  }

  /**
    The add-or-edit store: the form fields held in mutable fields, and the
    calls made to the two clients so far.
   */
  class AddOrEditLifeGoalStore {
    var title: string
    var details: string
    var isCompleted: bool
    var symbolName: string
    var finishedAt: Date
    var isDatePickerVisible: bool
    var confetti: ConfettiState
    var lifeGoalToEdit: Option<LifeGoal>
    var goalsCalls: seq<GoalsCall>
    var analyticsEvents: seq<string>

    /** The current form state as a value. */
    function Form(): State
      reads this
    {
      State(title, details, isCompleted, symbolName, finishedAt, isDatePickerVisible, confetti, lifeGoalToEdit)
    }

    constructor (initial: State)
      ensures Form() == initial
      ensures goalsCalls == [] && analyticsEvents == []
    {
      title := initial.title;
      details := initial.details;
      isCompleted := initial.isCompleted;
      symbolName := initial.symbolName;
      finishedAt := initial.finishedAt;
      isDatePickerVisible := initial.isDatePickerVisible;
      confetti := initial.confetti;
      lifeGoalToEdit := initial.lifeGoalToEdit;
      goalsCalls := [];
      analyticsEvents := [];
    }

    /** Handles one action, returning the action its effect sends back. */
    method Send(a: Action, newId: Uuid) returns (followUp: Option<Action>)
      modifies this
      ensures Form() == Step(old(Form()), a, newId).state
      ensures goalsCalls == old(goalsCalls) + Step(old(Form()), a, newId).goalsCalls
      ensures analyticsEvents == old(analyticsEvents) + Step(old(Form()), a, newId).analyticsEvents
      ensures followUp == Step(old(Form()), a, newId).followUp
    {
      followUp := None;
      match a {
        case TitleChanged(t) =>
          title := t;
        case DetailsChanged(d) =>
          details := d;
        case IsCompletedChanged(c) =>
          isCompleted := c;
          if c {
            followUp := Some(Confetti(ShowConfetti));
          } else {
            isDatePickerVisible := false;
          }
        case FinishedAtChanged(d) =>
          finishedAt := d;
        case Confetti(ShowConfetti) =>
          confetti := ConfettiState(confetti.confetti + 1);
        case AddButtonTapped =>
          analyticsEvents := analyticsEvents + [AddButtonTappedEvent];
          goalsCalls := goalsCalls + [CreateLifeGoal(GoalFromForm(Form(), newId))];
          followUp := Some(CloseButtonTapped);
        case SaveButtonTapped =>
          if lifeGoalToEdit.Some? {
            analyticsEvents := analyticsEvents + [SaveButtonTappedEvent];
            goalsCalls := goalsCalls + [UpdateLifeGoal(GoalFromForm(Form(), lifeGoalToEdit.value.id))];
            followUp := Some(CloseButtonTapped);
          }
        case CloseButtonTapped =>
      }
    }

    /** Handles an action and then feeds back the action its effect sends, as the store does. */
    method Dispatch(a: Action, newId: Uuid)
      modifies this
      ensures Form() == Run(old(Form()), a, newId).state
      ensures goalsCalls == old(goalsCalls) + Run(old(Form()), a, newId).goalsCalls
      ensures analyticsEvents == old(analyticsEvents) + Run(old(Form()), a, newId).analyticsEvents
    {
      var followUp := Send(a, newId);
      if followUp.Some? {
        var last := Send(followUp.value, newId);
      }
    }
  }
}
