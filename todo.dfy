/** One item of the list (src/app/models/todo.rs). */
module TodoModel {

  /** The value of an item: its title and whether it is done. */
  datatype Item = Item(title: string, done: bool)

  class Todo {
    var title: string
    var done: bool

    /** `Todo::new`: a not-done item with the given title. */
    constructor (title: string)
      ensures this.title == title && !done
    {
      this.title := title;
      done := false;
    }

    /** The item's current value. */
    function Value(): (v: Item)
      reads this
      ensures v.title == title && v.done == done
    {
      Item(title, done)
    }

    /** Flips the done flag; the title stays. */
    method ToggleDone()
      modifies this
      ensures done == !old(done) && title == old(title)
    {
      done := !done;
    }

    /** Replaces the title; the done flag stays. */
    method Rename(newName: string)
      modifies this
      ensures title == newName && done == old(done)
    {
      title := newName;
    }
  }

  /** A new item is not done; toggling twice makes it done and then not done again. */
  method ToggleTwice(title: string) returns (afterFirst: bool, afterSecond: bool, titleAfter: string)
    ensures afterFirst && !afterSecond && titleAfter == title
  {
    var todo := new Todo(title);
    todo.ToggleDone();
    afterFirst := todo.done;
    todo.ToggleDone();
    afterSecond := todo.done;
    titleAfter := todo.title;
  }

  /** Renaming a new item changes its title and keeps it not done. */
  method RenameNew(title: string, newName: string) returns (titleAfter: string, doneAfter: bool)
    ensures titleAfter == newName && !doneAfter
  {
    var todo := new Todo(title);
    todo.Rename(newName);
    titleAfter, doneAfter := todo.title, todo.done;
  }
}
