/** The to-do items of the app and the pure list operations its handlers apply to them:
    building a new item, `todos.map(...)` for toggling, `todos.filter(...)` for deleting,
    and `todos.filter(todo => todo.completed).length` for the progress counter. */
module Todos {
  import Text

  /** An item id. The app stores a JavaScript number taken from the clock (`Date.now()`,
      or `Date.now() + Math.random()` for suggested items); here the caller supplies it.
      Nothing makes ids unique, so every operation below acts on all items sharing one. */
  type Id = real

  datatype Todo = Todo(id: Id, text: string, completed: bool, addedByAI: bool)

  datatype Option<T> = None | Some(value: T)

  /** The item `addTodo` builds from the input box, or None when the trimmed input is
      empty and nothing is to be added. */
  function NewTodoItem(id: Id, input: string): (r: Option<Todo>)
    ensures r.None? <==> Text.IsBlank(input)
    ensures r.Some? ==> r.value.id == id && r.value.text == Text.Trim(input)
    ensures r.Some? ==> !r.value.completed && !r.value.addedByAI
    ensures r.Some? ==> r.value.text != [] && Text.IsTrimmed(r.value.text)
  {
    var text := Text.Trim(input);
    if text == [] then None else Some(Todo(id, text, false, false))
  }

  /** `toggleTodo(id)`: same length and order; every item carrying `id` has its
      `completed` flag negated and keeps all other fields; every other item is untouched. */
  function Toggle(todos: seq<Todo>, id: Id): (r: seq<Todo>)
    ensures |r| == |todos|
    ensures forall i :: 0 <= i < |todos| ==>
      r[i].id == todos[i].id && r[i].text == todos[i].text && r[i].addedByAI == todos[i].addedByAI
    ensures forall i :: 0 <= i < |todos| ==>
      r[i].completed == (if todos[i].id == id then !todos[i].completed else todos[i].completed)
  {
    if todos == [] then []
    else
      var t := todos[0];
      [if t.id == id then t.(completed := !t.completed) else t] + Toggle(todos[1..], id)
  }

  /** Toggling the same id twice restores the list. */
  lemma {:induction false} ToggleTwice(todos: seq<Todo>, id: Id)
    ensures Toggle(Toggle(todos, id), id) == todos
  {
  }

  /** Toggling an id that no item carries changes nothing. */
  lemma {:induction false} ToggleAbsent(todos: seq<Todo>, id: Id)
    requires forall i :: 0 <= i < |todos| ==> todos[i].id != id
    ensures Toggle(todos, id) == todos
  {
  }

  /** The number of items carrying `id`. */
  function CountId(todos: seq<Todo>, id: Id): (n: nat)
    ensures n <= |todos|
    ensures n == 0 <==> forall i :: 0 <= i < |todos| ==> todos[i].id != id
  {
    if todos == [] then 0
    else (if todos[0].id == id then 1 else 0) + CountId(todos[1..], id)
  }

  /** `r` can be obtained from `s` by dropping elements: same elements, same order. */
  ghost predicate Subsequence<T>(r: seq<T>, s: seq<T>)
    decreases |s|
  {
    r == [] || (s != [] && ((r[0] == s[0] && Subsequence(r[1..], s[1..])) || Subsequence(r, s[1..])))
  }

  /** `deleteTodo(id)`: the items whose id differs from `id`, in their original order.
      No item with `id` is left, and the list shrinks by the number of items that had it. */
  function Delete(todos: seq<Todo>, id: Id): (r: seq<Todo>)
    ensures |r| == |todos| - CountId(todos, id)
    ensures forall i :: 0 <= i < |r| ==> r[i].id != id
    ensures forall t :: t in r <==> t in todos && t.id != id
    ensures Subsequence(r, todos)
  {
    if todos == [] then []
    else if todos[0].id == id then Delete(todos[1..], id)
    else [todos[0]] + Delete(todos[1..], id)
  }

  /** A subsequence of `s` that avoids `id` has at most as many items as `s` has
      items without `id`. */
  lemma {:induction false} SubsequenceBound(r: seq<Todo>, s: seq<Todo>, id: Id)
    requires Subsequence(r, s)
    requires forall i :: 0 <= i < |r| ==> r[i].id != id
    ensures |r| <= |s| - CountId(s, id)
    decreases |s|
  {
    if r != [] {
      if r[0] == s[0] && Subsequence(r[1..], s[1..]) {
        SubsequenceBound(r[1..], s[1..], id);
      } else {
        SubsequenceBound(r, s[1..], id);
      }
    }
  }

  /** Delete is the only subsequence of the list that avoids `id` and has the length
      Delete promises: the filter is determined by its contract. */
  lemma {:induction false} DeleteUnique(r: seq<Todo>, s: seq<Todo>, id: Id)
    requires Subsequence(r, s)
    requires forall i :: 0 <= i < |r| ==> r[i].id != id
    requires |r| == |s| - CountId(s, id)
    ensures r == Delete(s, id)
    decreases |s|
  {
    if s != [] {
      if s[0].id == id {
        assert Subsequence(r, s[1..]);
        DeleteUnique(r, s[1..], id);
      } else {
        assert r != [];
        if r[0] == s[0] && Subsequence(r[1..], s[1..]) {
          DeleteUnique(r[1..], s[1..], id);
        } else {
          SubsequenceBound(r, s[1..], id);
          assert false;
        }
      }
    }
  }

  /** Deleting an id that no item carries changes nothing. */
  lemma {:induction false} DeleteAbsent(todos: seq<Todo>, id: Id)
    requires forall i :: 0 <= i < |todos| ==> todos[i].id != id
    ensures Delete(todos, id) == todos
    decreases |todos|
  {
    if todos != [] {
      DeleteAbsent(todos[1..], id);
    }
  }

  /** Deleting the same id twice is deleting it once. */
  lemma DeleteIdempotent(todos: seq<Todo>, id: Id)
    ensures Delete(Delete(todos, id), id) == Delete(todos, id)
  {
  }

  /** `todos.filter((todo) => todo.completed).length`: the number of completed items. */
  function CountCompleted(todos: seq<Todo>): (n: nat)
    ensures n <= |todos|
    ensures n == 0 <==> forall i :: 0 <= i < |todos| ==> !todos[i].completed
    ensures n == |todos| <==> forall i :: 0 <= i < |todos| ==> todos[i].completed
  {
    if todos == [] then 0
    else CountCompleted(todos[..|todos| - 1]) + (if todos[|todos| - 1].completed then 1 else 0)
  }

  /** The completed count is the number of positions that hold a completed item. */
  lemma {:induction false} CountCompletedIsCardinality(todos: seq<Todo>)
    ensures CountCompleted(todos) == |set i | 0 <= i < |todos| && todos[i].completed|
  {
    if todos != [] {
      var n := |todos| - 1;
      var front := todos[..n];
      CountCompletedIsCardinality(front);
      var before := set i | 0 <= i < n && front[i].completed;
      var after := set i | 0 <= i < |todos| && todos[i].completed;
      assert after == before + (if todos[n].completed then {n} else {});
      assert n !in before;
    }
  }

  /** The completed count of a concatenation is the sum of the parts' counts. */
  lemma {:induction false} CountCompletedAppend(a: seq<Todo>, b: seq<Todo>)
    ensures CountCompleted(a + b) == CountCompleted(a) + CountCompleted(b)
    decreases |b|
  {
    if b == [] {
      assert a + b == a;
    } else {
      var n := |b| - 1;
      assert (a + b)[..|a + b| - 1] == a + b[..n];
      CountCompletedAppend(a, b[..n]);
    }
  }

  /** Deleting never raises the completed count. */
  lemma {:induction false} DeleteKeepsAtMostCompleted(todos: seq<Todo>, id: Id)
    ensures CountCompleted(Delete(todos, id)) <= CountCompleted(todos)
    decreases |todos|
  {
    if todos != [] {
      var t, rest := todos[0], todos[1..];
      var kept := Delete(rest, id);
      DeleteKeepsAtMostCompleted(rest, id);
      assert todos == [t] + rest;
      CountCompletedAppend([t], rest);
      if t.id == id {
        assert Delete(todos, id) == kept;
      } else {
        assert Delete(todos, id) == [t] + kept;
        CountCompletedAppend([t], kept);
      }
    }
  }

  /** When exactly one item carries `id`, toggling moves the completed count by one:
      down if that item was completed, up if it was not. */
  lemma {:induction false} ToggleOneCount(todos: seq<Todo>, id: Id, k: nat)
    requires k < |todos| && todos[k].id == id
    requires forall j :: 0 <= j < |todos| && j != k ==> todos[j].id != id
    ensures CountCompleted(Toggle(todos, id)) == CountCompleted(todos) + (if todos[k].completed then -1 else 1)
    decreases |todos|
  {
    var rest := todos[1..];
    var t := todos[0];
    assert todos == [t] + rest;
    CountCompletedAppend([t], rest);
    if k == 0 {
      ToggleAbsent(rest, id);
      CountCompletedAppend([t.(completed := !t.completed)], rest);
    } else {
      ToggleOneCount(rest, id, k - 1);
      CountCompletedAppend([t], Toggle(rest, id));
    }
  }

  /** The count of items carrying `id` adds up over a concatenation. */
  lemma {:induction false} CountIdAppend(a: seq<Todo>, b: seq<Todo>, id: Id)
    ensures CountId(a + b, id) == CountId(a, id) + CountId(b, id)
    decreases |a|
  {
    if a == [] {
      assert a + b == b;
    } else {
      assert (a + b)[1..] == a[1..] + b;
      CountIdAppend(a[1..], b, id);
    }
  }

  /** The count of items carrying `id` is the number of positions that hold such an item. */
  lemma {:induction false} CountIdIsCardinality(todos: seq<Todo>, id: Id)
    ensures CountId(todos, id) == |set i | 0 <= i < |todos| && todos[i].id == id|
    decreases |todos|
  {
    if todos != [] {
      var n := |todos| - 1;
      var front, last := todos[..n], todos[n];
      assert todos == front + [last];
      CountIdAppend(front, [last], id);
      assert CountId([last], id) == if last.id == id then 1 else 0;
      CountIdIsCardinality(front, id);
      var before := set i | 0 <= i < n && front[i].id == id;
      var after := set i | 0 <= i < |todos| && todos[i].id == id;
      assert forall i :: 0 <= i < n ==> front[i] == todos[i];
      assert after == before + (if last.id == id then {n} else {});
      assert n !in before;
    }
  }

  /** The number of completed items carrying `id`; never more than the items carrying it. */
  function CountCompletedWithId(todos: seq<Todo>, id: Id): (n: nat)
    ensures n <= CountId(todos, id)
    ensures n == 0 <==> forall i :: 0 <= i < |todos| && todos[i].id == id ==> !todos[i].completed
  {
    if todos == [] then 0
    else (if todos[0].id == id && todos[0].completed then 1 else 0) + CountCompletedWithId(todos[1..], id)
  }

  /** Toggling `id` takes every completed item carrying it out of the completed count and
      puts every open item carrying it in, however many items share the id. */
  lemma {:induction false} ToggleCount(todos: seq<Todo>, id: Id)
    ensures CountCompleted(Toggle(todos, id))
      == CountCompleted(todos) - CountCompletedWithId(todos, id)
         + (CountId(todos, id) - CountCompletedWithId(todos, id))
    decreases |todos|
  {
    if todos != [] {
      var t, rest := todos[0], todos[1..];
      var t' := if t.id == id then t.(completed := !t.completed) else t;
      ToggleCount(rest, id);
      assert todos == [t] + rest;
      assert Toggle(todos, id) == [t'] + Toggle(rest, id);
      CountCompletedAppend([t], rest);
      CountCompletedAppend([t'], Toggle(rest, id));
    }
  }
}
