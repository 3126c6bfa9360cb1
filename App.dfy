/** The state of the `SimpleTodoApp` component and its event handlers. React keeps two
    pieces of state, the item list `todos` and the text of the input box `newTodo`;
    every handler replaces `todos` wholesale through `setTodos`, and `addTodo` also
    resets `newTodo`. Here the component is an object whose methods update those two
    fields, one method per handler. */
module App {
  import Text
  import opened Todos
  import opened Improvements

  /** What every list the handlers build satisfies: each text is non-empty and trimmed,
      and an item flagged as added by AI carries one of the fixed suggestion texts. */
  ghost predicate WellFormed(todos: seq<Todo>) {
    forall i :: 0 <= i < |todos| ==>
      && todos[i].text != []
      && Text.IsTrimmed(todos[i].text)
      && (todos[i].addedByAI ==> todos[i].text in ImprovementTexts)
  }

  /** Toggling leaves texts and flags as they were, so it keeps the list well formed. */
  lemma ToggleWellFormed(todos: seq<Todo>, id: Id)
    requires WellFormed(todos)
    ensures WellFormed(Toggle(todos, id))
  {
  }

  /** Deleting keeps only items of the old list, so it keeps the list well formed. */
  lemma DeleteWellFormed(todos: seq<Todo>, id: Id)
    requires WellFormed(todos)
    ensures WellFormed(Delete(todos, id))
  {
  }

  /** Appending well-formed items to a well-formed list gives a well-formed list. */
  lemma AppendWellFormed(a: seq<Todo>, b: seq<Todo>)
    requires WellFormed(a) && WellFormed(b)
    ensures WellFormed(a + b)
  {
  }

  /** The five suggested items are well formed. */
  lemma SuggestionsWellFormed(order: seq<nat>, ids: seq<Id>)
    requires IsPermutation(order, |ImprovementTexts|)
    requires |ids| == SelectionSize
    ensures WellFormed(Suggestions(order, ids))
  {
    ImprovementTextsTrimmed();
  }

  /** Appending items that are not completed leaves the completed count as it was. */
  lemma AppendOpenKeepsCount(todos: seq<Todo>, added: seq<Todo>)
    requires forall i :: 0 <= i < |added| ==> !added[i].completed
    ensures CountCompleted(todos + added) == CountCompleted(todos)
  {
    CountCompletedAppend(todos, added);
  }

  class SimpleTodoApp {
    var todos: seq<Todo>
    var newTodo: string

    ghost predicate Valid()
      reads this
    {
      WellFormed(todos)
    }

    /** `useState([])` and `useState("")`: no items and an empty input box. */
    constructor ()
      ensures Valid()
      ensures todos == [] && newTodo == ""
    {
      todos := [];
      newTodo := "";
    }

    /** The input box's `onChange`: `newTodo` takes the typed value; the list stays. */
    method SetNewTodo(value: string)
      modifies this
      ensures old(Valid()) ==> Valid()
      ensures newTodo == value && todos == old(todos)
    {
      newTodo := value;
    }

    /** `addTodo`: when the input trims to the empty string nothing changes; otherwise one
        item holding the trimmed text, with a caller-supplied id, not completed and not
        added by AI, is appended after the unchanged old items, and the input is cleared. */
    method AddTodo(id: Id)
      modifies this
      ensures old(Valid()) ==> Valid()
      ensures Text.IsBlank(old(newTodo)) ==> todos == old(todos) && newTodo == old(newTodo)
      ensures !Text.IsBlank(old(newTodo)) ==>
        && todos == old(todos) + [Todo(id, Text.Trim(old(newTodo)), false, false)]
        && newTodo == ""
      ensures CompletedCount() == old(CompletedCount())
    {
      var item := NewTodoItem(id, newTodo);
      if item.Some? {
        if Valid() {
          AppendWellFormed(todos, [item.value]);
        }
        AppendOpenKeepsCount(todos, [item.value]);
        todos := todos + [item.value];
        newTodo := "";
      }
    }

    /** `toggleTodo(id)`: the list becomes `Toggle(todos, id)`; the input is untouched. */
    method ToggleTodo(id: Id)
      modifies this
      ensures old(Valid()) ==> Valid()
      ensures todos == Toggle(old(todos), id) && newTodo == old(newTodo)
    {
      if Valid() {
        ToggleWellFormed(todos, id);
      }
      todos := Toggle(todos, id);
    }

    /** `deleteTodo(id)`: the list becomes `Delete(todos, id)`; the input is untouched. */
    method DeleteTodo(id: Id)
      modifies this
      ensures old(Valid()) ==> Valid()
      ensures todos == Delete(old(todos), id) && newTodo == old(newTodo)
      ensures CompletedCount() <= old(CompletedCount())
    {
      if Valid() {
        DeleteWellFormed(todos, id);
      }
      DeleteKeepsAtMostCompleted(todos, id);
      todos := Delete(todos, id);
    }

    /** `generateImprovements`: the five suggestions for the shuffle `order` and the drawn
        `ids` are appended after the unchanged old items; the input is untouched. */
    method GenerateImprovements(order: seq<nat>, ids: seq<Id>)
      requires IsPermutation(order, |ImprovementTexts|)
      requires |ids| == SelectionSize
      modifies this
      ensures old(Valid()) ==> Valid()
      ensures todos == old(todos) + Suggestions(order, ids) && newTodo == old(newTodo)
      ensures |todos| == |old(todos)| + SelectionSize
      ensures CompletedCount() == old(CompletedCount())
    {
      var added := Suggestions(order, ids);
      if Valid() {
        SuggestionsWellFormed(order, ids);
        AppendWellFormed(todos, added);
      }
      AppendOpenKeepsCount(todos, added);
      todos := todos + added;
    }

    /** `completedCount`: the number of completed items, never more than `totalCount`. */
    function CompletedCount(): (n: nat)
      reads this
      ensures n <= TotalCount()
      ensures n == |set i | 0 <= i < |todos| && todos[i].completed|
    {
      CountCompletedIsCardinality(todos);
      CountCompleted(todos)
    }

    /** `totalCount`: the number of items. */
    function TotalCount(): nat
      reads this
    {
      |todos|
    }
  }
}
