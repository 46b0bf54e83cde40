/** The task list page: active tasks, completed tasks and the text of the
    "add task" input. Every handler builds new lists from the old ones with
    `find`, `filter` and spread-append and assigns them. */
module Todo {
  import opened Wrappers
  import opened Text
  import Seqs

  datatype Item = Item(id: string, text: string, completed: bool, createdAt: int)

  /** The two lists the handlers replace together. */
  datatype Lists = Lists(todos: seq<Item>, completed: seq<Item>)

  /** Index of the first item with this id (`find(todo => todo.id === id)`). */
  function Find(items: seq<Item>, id: string): (r: Option<nat>)
    ensures r.Some? ==> r.value < |items| && items[r.value].id == id
                        && forall j :: 0 <= j < r.value ==> items[j].id != id
    ensures r.None? <==> !HasId(items, id)
  {
    Seqs.FindFirst(items, (t: Item) => t.id == id)
  }

  /** `filter(todo => todo.id !== id)`. */
  function Without(items: seq<Item>, id: string): (r: seq<Item>)
    ensures |r| <= |items|
    ensures forall i :: 0 <= i < |r| ==> r[i].id != id && r[i] in items
    ensures forall i :: 0 <= i < |items| && items[i].id != id ==> items[i] in r
  {
    Seqs.Filter(items, (t: Item) => t.id != id)
  }

  predicate HasId(items: seq<Item>, id: string) {
    exists i :: 0 <= i < |items| && items[i].id == id
  }

  predicate AllActive(items: seq<Item>) {
    forall i :: 0 <= i < |items| ==> !items[i].completed
  }

  predicate AllCompleted(items: seq<Item>) {
    forall i :: 0 <= i < |items| ==> items[i].completed
  }

  /** Active tasks are never marked completed and completed ones always are. */
  predicate StatusKept(l: Lists) {
    AllActive(l.todos) && AllCompleted(l.completed)
  }

  /** Removing an id: nothing with that id is left, everything else stays,
      nothing new appears, and a list without that id is untouched. */
  lemma {:induction false} WithoutSpec(items: seq<Item>, id: string)
    ensures !HasId(Without(items, id), id)
    ensures forall i :: 0 <= i < |items| && items[i].id != id ==> items[i] in Without(items, id)
    ensures forall i :: 0 <= i < |Without(items, id)| ==> Without(items, id)[i] in items
    ensures !HasId(items, id) ==> Without(items, id) == items
  {
    if !HasId(items, id) {
      Seqs.FilterKeepsAll(items, (t: Item) => t.id != id);
    }
  }

  /** When exactly one item carries the id, removing the id removes exactly
      that item and leaves the others in order. */
  lemma WithoutUnique(items: seq<Item>, id: string, k: nat)
    requires k < |items| && items[k].id == id
    requires forall j :: 0 <= j < |items| && j != k ==> items[j].id != id
    ensures Without(items, id) == items[..k] + items[k + 1..]
  {
    var before, after := items[..k], items[k + 1..];
    assert items == before + [items[k]] + after;
    forall i | 0 <= i < |before| ensures before[i].id != id {
      assert before[i] == items[i];
    }
    forall i | 0 <= i < |after| ensures after[i].id != id {
      assert after[i] == items[k + 1 + i];
    }
    Seqs.FilterDropsOne(before, items[k], after, (t: Item) => t.id != id);
  }

  /** Filtering keeps the status invariant of each list. */
  lemma WithoutKeepsStatus(items: seq<Item>, id: string)
    ensures AllActive(items) ==> AllActive(Without(items, id))
    ensures AllCompleted(items) ==> AllCompleted(Without(items, id))
  {
    var w := Without(items, id);
    forall i | 0 <= i < |w|
      ensures exists j :: 0 <= j < |items| && items[j] == w[i]
    {
      assert w[i] in items;
    }
  }

  /** The lists after `handleToggleTodo`. */
  function Toggled(l: Lists, id: string): (r: Lists)
    ensures !HasId(l.todos, id) ==> r == l
    ensures HasId(l.todos, id) ==>
              !HasId(r.todos, id) && |r.completed| == |l.completed| + 1
              && r.completed[..|l.completed|] == l.completed
              && r.completed[|l.completed|] == l.todos[Find(l.todos, id).value].(completed := true)
    ensures HasId(l.todos, id) ==> r.todos == Without(l.todos, id)
    ensures StatusKept(l) ==> StatusKept(r)
  {
    match Find(l.todos, id)
    case None => l
    case Some(i) =>
      WithoutSpec(l.todos, id);
      WithoutKeepsStatus(l.todos, id);
      Lists(Without(l.todos, id), l.completed + [l.todos[i].(completed := true)])
  }

  /** The lists after `handleRestoreTodo`: the mirror image of `Toggled`. */
  function Restored(l: Lists, id: string): (r: Lists)
    ensures !HasId(l.completed, id) ==> r == l
    ensures HasId(l.completed, id) ==>
              !HasId(r.completed, id) && |r.todos| == |l.todos| + 1
              && r.todos[..|l.todos|] == l.todos
              && r.todos[|l.todos|] == l.completed[Find(l.completed, id).value].(completed := false)
    ensures HasId(l.completed, id) ==> r.completed == Without(l.completed, id)
    ensures StatusKept(l) ==> StatusKept(r)
  {
    match Find(l.completed, id)
    case None => l
    case Some(i) =>
      WithoutSpec(l.completed, id);
      WithoutKeepsStatus(l.completed, id);
      Lists(l.todos + [l.completed[i].(completed := false)], Without(l.completed, id))
  }

  /** The lists after `handleDeleteTodo`: only the selected list loses the id. */
  function Deleted(l: Lists, id: string, isCompleted: bool): (r: Lists)
    ensures isCompleted ==> r.todos == l.todos && !HasId(r.completed, id)
    ensures !isCompleted ==> r.completed == l.completed && !HasId(r.todos, id)
    ensures isCompleted ==> r.completed == Without(l.completed, id)
    ensures !isCompleted ==> r.todos == Without(l.todos, id)
    ensures StatusKept(l) ==> StatusKept(r)
  {
    WithoutSpec(l.completed, id);
    WithoutSpec(l.todos, id);
    WithoutKeepsStatus(l.completed, id);
    WithoutKeepsStatus(l.todos, id);
    if isCompleted then Lists(l.todos, Without(l.completed, id))
    else Lists(Without(l.todos, id), l.completed)
  }

  /** Completing a task and restoring it again puts it back, unchanged, at
      the end of the active list; the completed list is as before. */
  lemma ToggleThenRestore(l: Lists, id: string)
    requires StatusKept(l)
    requires HasId(l.todos, id) && !HasId(l.completed, id)
    ensures Restored(Toggled(l, id), id)
            == Lists(Without(l.todos, id) + [l.todos[Find(l.todos, id).value]], l.completed)
  {
    var item := l.todos[Find(l.todos, id).value];
    var t := Toggled(l, id);
    var marked := item.(completed := true);
    assert t.completed == l.completed + [marked];
    assert Find(t.completed, id) == Some(|l.completed|);
    var keep := (x: Item) => x.id != id;
    Seqs.FilterSnoc(l.completed, marked, keep);
    Seqs.FilterKeepsAll(l.completed, keep);
    assert marked.(completed := false) == item;
  }

  class TodoList {
    var todos: seq<Item>
    var completedTodos: seq<Item>
    var newTodo: string

    ghost predicate Valid()
      reads this
    {
      StatusKept(Lists(todos, completedTodos))
    }

    /** Mount with the lists read back from storage. */
    constructor (savedTodos: seq<Item>, savedCompleted: seq<Item>)
      requires StatusKept(Lists(savedTodos, savedCompleted))
      ensures Valid()
      ensures todos == savedTodos && completedTodos == savedCompleted && newTodo == ""
    {
      todos := savedTodos;
      completedTodos := savedCompleted;
      newTodo := "";
    }

    /** Typing into the input. */
    method SetInput(text: string)
      requires Valid()
      modifies this
      ensures Valid()
      ensures newTodo == text && todos == old(todos) && completedTodos == old(completedTodos)
    {
      newTodo := text;
    }

    /** `handleAddTodo`: ignore a blank input; otherwise append an active task
        with the trimmed text and empty the input. `id` and `createdAt` stand
        for the clock readings the source takes. */
    method AddTodo(id: string, createdAt: int) returns (added: bool)
      requires Valid()
      modifies this
      ensures Valid()
      ensures added <==> !IsBlank(old(newTodo))
      ensures !added ==> todos == old(todos) && completedTodos == old(completedTodos) && newTodo == old(newTodo)
      ensures added ==> todos == old(todos) + [Item(id, Trim(old(newTodo)), false, createdAt)]
                        && completedTodos == old(completedTodos) && newTodo == ""
    {
      TrimEmptyIffBlank(newTodo);
      var text := Trim(newTodo);
      if text == "" {
        return false;
      }
      var item := Item(id, text, false, createdAt);
      assert AllActive(todos + [item]) by {
        forall i | 0 <= i < |todos| + 1 ensures !(todos + [item])[i].completed {
          if i < |todos| {
            assert (todos + [item])[i] == todos[i];
          }
        }
      }
      todos := todos + [item];
      newTodo := "";
      added := true;
    }

    /** `handleToggleTodo`. */
    method ToggleTodo(id: string)
      requires Valid()
      modifies this
      ensures Valid()
      ensures Lists(todos, completedTodos) == Toggled(old(Lists(todos, completedTodos)), id)
      ensures newTodo == old(newTodo)
    {
      match Find(todos, id)
      case None =>
      case Some(i) =>
        completedTodos := completedTodos + [todos[i].(completed := true)];
        todos := Without(todos, id);
    }

    /** `handleRestoreTodo`. */
    method RestoreTodo(id: string)
      requires Valid()
      modifies this
      ensures Valid()
      ensures Lists(todos, completedTodos) == Restored(old(Lists(todos, completedTodos)), id)
      ensures newTodo == old(newTodo)
    {
      match Find(completedTodos, id)
      case None =>
      case Some(i) =>
        todos := todos + [completedTodos[i].(completed := false)];
        completedTodos := Without(completedTodos, id);
    }

    /** `handleDeleteTodo`. */
    method DeleteTodo(id: string, isCompleted: bool)
      requires Valid()
      modifies this
      ensures Valid()
      ensures Lists(todos, completedTodos) == Deleted(old(Lists(todos, completedTodos)), id, isCompleted)
      ensures newTodo == old(newTodo)
    {
      if isCompleted {
        completedTodos := Without(completedTodos, id);
      } else {
        todos := Without(todos, id);
      }
    }

    /** `handleClearCompletedHistory`. */
    method ClearCompletedHistory()
      requires Valid()
      modifies this
      ensures Valid()
      ensures completedTodos == [] && todos == old(todos) && newTodo == old(newTodo)
    {
      completedTodos := [];
    }
  }
}
