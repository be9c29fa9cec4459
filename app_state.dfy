/** The in-memory todo list and its selection (src/app/state.rs). */
module AppState {
  import opened Wrappers
  import opened TodoModel

  /** The values of a list of todo objects, in order. */
  function ItemsOf(ts: seq<Todo>): (r: seq<Item>)
    reads set t | t in ts
    ensures |r| == |ts|
    ensures forall i :: 0 <= i < |ts| ==> r[i] == ts[i].Value()
  {
    seq(|ts|, i requires 0 <= i < |ts| reads ts => ts[i].Value())
  }

  /** The list with the done flag of item `i` flipped and everything else as it was. */
  function ToggledAt(items: seq<Item>, i: nat): seq<Item>
    requires i < |items|
  {
    items[i := Item(items[i].title, !items[i].done)]
  }

  class ApplicationState {
    /** The list owns its todos, so no todo object appears twice. */
    var todos: seq<Todo>
    /** The selected index of the list widget, if any. */
    var selected: Option<nat>

    ghost function Footprint(): set<object>
      reads this`todos
    {
      set t | t in todos
    }

    ghost predicate Valid()
      reads this`todos
    {
      forall i, j :: 0 <= i < j < |todos| ==> todos[i] != todos[j]
    }

    /** The list as values. */
    function Items(): (r: seq<Item>)
      reads this`todos, Footprint()
      ensures |r| == |todos|
      ensures forall i :: 0 <= i < |todos| ==> r[i] == todos[i].Value()
    {
      ItemsOf(todos)
    }

    /** The selection, when there is one, indexes the list: the precondition of every operation that indexes the vector. */
    predicate SelectionInRange()
      reads this
    {
      selected.Some? ==> selected.value < |todos|
    }

    /** `ApplicationState::new`: an empty list with the first row selected. */
    constructor ()
      ensures Valid() && todos == [] && selected == Some(0)
    {
      todos := [];
      selected := Some(0);
    }

    /**
     * Appends a new, not-done todo and selects the index one past the last
     * item, which is where the selection lands as written.
     */
    method AppendTodo(title: string)
      requires Valid()
      modifies this
      ensures Valid()
      ensures Items() == old(Items()) + [Item(title, false)]
      ensures todos[..|todos| - 1] == old(todos) && fresh(todos[|todos| - 1])
      ensures selected == Some(|todos|)
    {
      var t := new Todo(title);
      todos := todos + [t];
      selected := Some(|todos|);
    }

    /** Renames the selected todo and leaves every other todo and the selection alone. */
    method RenameTodo(newTitle: string)
      requires Valid() && SelectionInRange()
      modifies Footprint()
      ensures Valid() && todos == old(todos) && selected == old(selected)
      ensures selected.None? ==> Items() == old(Items())
      ensures selected.Some? ==>
        Items() == old(Items())[selected.value := Item(newTitle, old(Items())[selected.value].done)]
    {
      if selected.Some? {
        var index := selected.value;
        todos[index].Rename(newTitle);
      }
    }

    /** Removes the selected todo; the rest keep their order, the selection stays as it was. */
    method RemoveTodo()
      requires Valid() && SelectionInRange()
      modifies this
      ensures Valid() && selected == old(selected)
      ensures selected.None? ==> todos == old(todos) && Items() == old(Items())
      ensures selected.Some? ==>
        todos == old(todos[..selected.value] + todos[selected.value + 1..]) &&
        Items() == old(Items()[..selected.value] + Items()[selected.value + 1..])
    {
      if selected.Some? {
        var index := selected.value;
        todos := todos[..index] + todos[index + 1..];
        assert forall i :: 0 <= i < |todos| ==>
          todos[i] == old(todos)[if i < index then i else i + 1];
      }
    }

    /** A copy of the selected todo, or of the first one when nothing is selected. */
    method GetCurrentTodo() returns (t: Item)
      requires selected.GetOr(0) < |todos|
      ensures t == Items()[selected.GetOr(0)]
      ensures selected.Some? ==> t == Items()[selected.value]
      ensures selected.None? ==> t == Items()[0]
    {
      var index := selected.GetOr(0);
      t := todos[index].Value();
    }

    /** Flips the done flag of exactly the selected todo. */
    method ToggleCurrent()
      requires Valid() && SelectionInRange()
      modifies Footprint()
      ensures Valid() && todos == old(todos) && selected == old(selected)
      ensures selected.None? ==> Items() == old(Items())
      ensures selected.Some? ==> Items() == ToggledAt(old(Items()), selected.value)
    {
      if selected.Some? {
        var index := selected.value;
        todos[index].ToggleDone();
      }
    }
  }

  /**
   * Starting from a new list and appending any number of todos, the selection
   * always ends one past the last item, so it does not index the list; the
   * items are the titles in order, none of them done.
   */
  method AppendLeavesSelectionPastEnd(titles: seq<string>)
    returns (items: seq<Item>, selection: Option<nat>, inRange: bool)
    ensures |items| == |titles| && selection == Some(|items|) && !inRange
    ensures forall i :: 0 <= i < |titles| ==> items[i] == Item(titles[i], false)
  {
    var state := new ApplicationState();
    for k := 0 to |titles|
      invariant state.Valid() && |state.todos| == k
      invariant state.selected == Some(k)
      invariant forall i :: 0 <= i < k ==> state.Items()[i] == Item(titles[i], false)
      modifies state
    {
      state.AppendTodo(titles[k]);
    }
    items, selection, inRange := state.Items(), state.selected, state.SelectionInRange();
  }
}
