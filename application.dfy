/** The application object and its key router (src/app/application.rs). */
module App {
  import opened Wrappers
  import opened Terminal
  import opened TodoModel
  import opened AppState
  import opened PopupWidget
  import opened HelpPopupComponent
  import opened UserInterface

  /** Ctrl+C, which stops the application whatever is on screen. */
  predicate IsInterrupt(key: Key, mods: Modifiers) {
    key == Char('c') && Control in mods
  }

  /** Whether a popup with this close behaviour is dismissed by `key`. */
  predicate ClosesOn(cb: CloseBehavior, key: Key) {
    match cb
    case AnyKey => true
    case Specific(k) => k == key
    case Manual => false
  }

  predicate IsQuitKey(key: Key) {
    key == Char('q') || key == Esc
  }

  /** The keys that move the list selection up or down. */
  predicate IsMoveKey(key: Key) {
    key == Char('k') || key == Up || key == Char('j') || key == Down
  }

  class Application {
    var state: ApplicationState
    var running: bool
    var ui: UIState

    ghost predicate Valid()
      reads this, state
    {
      state.Valid()
    }

    /** The starting screen: three sample todos, the first one done, no overlay. */
    constructor ()
      ensures Valid() && fresh(state) && fresh(ui) && fresh(state.Footprint())
      ensures running
      ensures ui.popup == None && ui.inputbox == None && ui.confirm == None
      ensures |state.todos| == 3
      ensures state.todos[0].Value() == Item("Task 1", true)
      ensures state.todos[1].Value() == Item("Task 2", false)
      ensures state.todos[2].Value() == Item("Task 3", false)
      ensures state.selected == Some(0)
    {
      var t1 := new Todo("Task 1");
      t1.done := true;
      var t2 := new Todo("Task 2");
      var t3 := new Todo("Task 3");
      var s := new ApplicationState();
      s.todos := [t1, t2, t3];
      state := s;
      running := true;
      ui := new UIState();
    }

    /**
     * Routes one key press. Ctrl+C stops the application; otherwise an open
     * popup takes the key (closing when its close behaviour matches) and
     * nothing else happens; otherwise the list commands apply.
     */
    method HandleKey(key: Key, mods: Modifiers)
      requires Valid()
      modifies this`running, ui`popup, state`selected, state.Footprint()
      ensures Valid() && state.todos == old(state.todos)
      ensures ui.inputbox == old(ui.inputbox) && ui.confirm == old(ui.confirm)
      ensures IsInterrupt(key, mods) ==>
        !running && ui.popup == old(ui.popup) &&
        state.selected == old(state.selected) && state.Items() == old(state.Items())
      ensures !IsInterrupt(key, mods) && old(ui.popup).Some? ==>
        running == old(running) &&
        state.selected == old(state.selected) && state.Items() == old(state.Items()) &&
        ui.popup == (if ClosesOn(old(ui.popup).value.closeBehavior, key) then None else old(ui.popup))
      ensures !IsInterrupt(key, mods) && old(ui.popup).None? ==> ListCommand(key, old(running), old(state.selected), old(state.Items()))
    {
      if IsInterrupt(key, mods) {
        running := false;
        return;
      }

      if ui.popup.Some? {
        HandlePopupKey(key);
        return;
      }

      HandleListKey(key);
    }

    /** An open popup takes the key and closes when its close behaviour matches it. */
    method HandlePopupKey(key: Key)
      requires ui.popup.Some?
      modifies ui`popup
      ensures ui.popup == (if ClosesOn(old(ui.popup).value.closeBehavior, key) then None else old(ui.popup))
      ensures ui.inputbox == old(ui.inputbox) && ui.confirm == old(ui.confirm)
    {
      match ui.popup.value.closeBehavior {
        case AnyKey => ui.ClosePopup();
        case Specific(k) => if k == key { ui.ClosePopup(); }
        case Manual =>
      }
    }

    /** What a key does to the list screen when no popup is open. */
    ghost predicate ListCommand(key: Key, wasRunning: bool, wasSelected: Option<nat>, wasItems: seq<Item>)
      reads this, ui, state, state.Footprint()
    {
      running == (wasRunning && !IsQuitKey(key)) &&
      ui.popup == (if key == Char('?') then Some(HelpPopup()) else None) &&
      (!IsMoveKey(key) ==> state.selected == wasSelected) &&
      state.Items() ==
        (if key == Enter && wasSelected.Some? && wasSelected.value < |wasItems|
         then ToggledAt(wasItems, wasSelected.value)
         else wasItems)
    }

    /** The list commands: quit, move the selection, toggle the selected todo, show the help. */
    method HandleListKey(key: Key)
      requires Valid() && ui.popup.None?
      modifies this`running, ui`popup, state`selected, state.Footprint()
      ensures Valid() && state.todos == old(state.todos)
      ensures ui.inputbox == old(ui.inputbox) && ui.confirm == old(ui.confirm)
      ensures ListCommand(key, old(running), old(state.selected), old(state.Items()))
    {
      if IsQuitKey(key) {
        running := false;
      } else if IsMoveKey(key) {
        MoveSelection(key);
      } else if key == Enter {
        ToggleSelected();
      } else if key == Char('?') {
        ui.ShowPopup(HelpPopup());
      }
    }

    /** Up, Down, 'k' and 'j' hand the selection to the list widget. */
    method MoveSelection(key: Key)
      requires Valid() && ui.popup.None? && IsMoveKey(key)
      modifies state`selected
      ensures Valid() && state.todos == old(state.todos)
      ensures ListCommand(key, running, old(state.selected), old(state.Items()))
    {
      // The list widget's own selection movement is not part of this model.
      var next: Option<nat> :| true;
      state.selected := next;
    }

    /** Enter: flips the selected todo when the selection indexes the list, and does nothing otherwise. */
    method ToggleSelected()
      requires Valid()
      modifies state.Footprint()
      ensures Valid() && state.todos == old(state.todos) && state.selected == old(state.selected)
      ensures state.Items() ==
        (if state.selected.Some? && state.selected.value < |state.todos|
         then ToggledAt(old(state.Items()), state.selected.value)
         else old(state.Items()))
    {
      if state.selected.Some? && state.selected.value < |state.todos| {
        var item := state.todos[state.selected.value];
        item.done := !item.done;
      }
    }
  }

  /** '?' opens the help popup, and while it is open 'q' neither quits nor closes it. */
  method QuestionMarkOpensHelp() returns (shown: bool, runningWhileShown: bool, shownAfterQ: bool)
    ensures shown && runningWhileShown && shownAfterQ
  {
    var app := new Application();
    app.HandleKey(Char('?'), {});
    shown := app.ui.popup == Some(HelpPopup());
    app.HandleKey(Char('q'), {});
    runningWhileShown, shownAfterQ := app.running, app.ui.popup == Some(HelpPopup());
  }

  /** A second '?' closes the help popup, and then Esc quits. */
  method QuestionMarkClosesHelp() returns (closed: bool, runningAtEnd: bool)
    ensures closed && !runningAtEnd
  {
    var app := new Application();
    app.HandleKey(Char('?'), {});
    app.HandleKey(Char('?'), {});
    closed := app.ui.popup == None;
    app.HandleKey(Esc, {});
    runningAtEnd := app.running;
  }

  /** Ctrl+C stops the application even while the help popup is open, and leaves the popup alone. */
  method InterruptOverPopup() returns (running: bool, popupStillShown: bool)
    ensures !running && popupStillShown
  {
    var app := new Application();
    app.HandleKey(Char('?'), {});
    app.HandleKey(Char('c'), {Control});
    running, popupStillShown := app.running, app.ui.popup == Some(HelpPopup());
  }

  /** Enter on the starting screen marks "Task 1" as not done and leaves the other two alone. */
  method EnterTogglesFirstTask() returns (items: seq<Item>)
    ensures items == [Item("Task 1", false), Item("Task 2", false), Item("Task 3", false)]
  {
    var app := new Application();
    app.HandleKey(Enter, {});
    items := app.state.Items();
  }
}
