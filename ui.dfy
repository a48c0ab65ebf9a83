/** The todo and project operations of src/ui.js. Each one loads the whole
    list, checks its inputs against the loaded copy, edits that copy and
    saves it back in one write, or gives up without writing. Rendering is
    not modelled. */
module UI {
  import opened Wrappers
  import opened Entities
  import opened Storage
  import opened JsString

  /** How an operation ended: `Saved` after its one write; the others
      stand for the alert (`MissingRequiredField`), the console messages
      (`ProjectNotFound`, `InvalidIndex`), a declined confirmation and a
      cancelled or empty name prompt. */
  datatype Outcome = Saved | MissingRequiredField | ProjectNotFound | InvalidIndex | Declined | NoName

  /** `projects[i]` is a project object, hence truthy. */
  predicate HasProject(ps: seq<Project>, i: int)
  {
    0 <= i < |ps|
  }

  /** `projects[i].todos[j]` is a todo object, hence truthy. */
  predicate HasTodo(ps: seq<Project>, i: int, j: int)
  {
    HasProject(ps, i) && 0 <= j < |ps[i].todos|
  }

  /** The number of todos over all projects. */
  function TodoCount(ps: seq<Project>): nat
  {
    if ps == [] then 0 else |ps[0].todos| + TodoCount(ps[1..])
  }

  lemma {:induction false} TodoCountAppend(a: seq<Project>, b: seq<Project>)
    ensures TodoCount(a + b) == TodoCount(a) + TodoCount(b)
  {
    if a != [] {
      assert (a + b)[1..] == a[1..] + b;
      TodoCountAppend(a[1..], b);
    } else {
      assert a + b == b;
    }
  }

  /** Replacing one project changes the total by the difference in its todos. */
  lemma {:induction false} TodoCountUpdate(ps: seq<Project>, i: int, p: Project)
    requires HasProject(ps, i)
    ensures TodoCount(ps[i := p]) == TodoCount(ps) - |ps[i].todos| + |p.todos|
  {
    if i > 0 {
      assert ps[i := p][1..] == ps[1..][i - 1 := p];
      TodoCountUpdate(ps[1..], i - 1, p);
    }
  }

  // The in-memory edits, one per operation.

  /** `projects[i].todos.push(t)` (src/ui.js:67). */
  function WithTodoAppended(ps: seq<Project>, i: int, t: Todo): (r: seq<Project>)
    requires HasProject(ps, i)
    ensures |r| == |ps|
    ensures r[i].name == ps[i].name && r[i].todos == ps[i].todos + [t]
    ensures forall k :: 0 <= k < |ps| && k != i ==> r[k] == ps[k]
  {
    ps[i := ps[i].(todos := ps[i].todos + [t])]
  }

  /** `todos[j].completed = !todos[j].completed` in project `i` (src/ui.js:168). */
  function WithCompletedFlipped(ps: seq<Project>, i: int, j: int): (r: seq<Project>)
    requires HasTodo(ps, i, j)
    ensures |r| == |ps| && r[i].name == ps[i].name && |r[i].todos| == |ps[i].todos|
    ensures r[i].todos[j] == ps[i].todos[j].(completed := !ps[i].todos[j].completed)
    ensures forall m :: 0 <= m < |ps[i].todos| && m != j ==> r[i].todos[m] == ps[i].todos[m]
    ensures forall k :: 0 <= k < |ps| && k != i ==> r[k] == ps[k]
  {
    var todos := ps[i].todos;
    ps[i := ps[i].(todos := todos[j := todos[j].(completed := !todos[j].completed)])]
  }

  /** `projects[i].todos.splice(j, 1)` (src/ui.js:180): earlier todos keep
      their place, later ones move down by one, exactly the todo at `j`
      is gone, and the other projects stay as they were. */
  function WithTodoRemoved(ps: seq<Project>, i: int, j: int): (r: seq<Project>)
    requires HasTodo(ps, i, j)
    ensures |r| == |ps| && r[i].name == ps[i].name
    ensures |r[i].todos| == |ps[i].todos| - 1
    ensures forall m :: 0 <= m < j ==> r[i].todos[m] == ps[i].todos[m]
    ensures forall m :: j <= m < |r[i].todos| ==> r[i].todos[m] == ps[i].todos[m + 1]
    ensures multiset(r[i].todos) + multiset{ps[i].todos[j]} == multiset(ps[i].todos)
    ensures forall k :: 0 <= k < |ps| && k != i ==> r[k] == ps[k]
  {
    var todos := ps[i].todos;
    assert todos == todos[..j] + [todos[j]] + todos[j + 1..];
    ps[i := ps[i].(todos := todos[..j] + todos[j + 1..])]
  }

  /** `projects.splice(i, 1)` (src/ui.js:198): the project at `i` is gone
      and the others keep their relative order. */
  function WithoutProject(ps: seq<Project>, i: int): (r: seq<Project>)
    requires HasProject(ps, i)
    ensures |r| == |ps| - 1
    ensures forall k :: 0 <= k < i ==> r[k] == ps[k]
    ensures forall k :: i <= k < |r| ==> r[k] == ps[k + 1]
    ensures multiset(r) + multiset{ps[i]} == multiset(ps)
  {
    assert ps == ps[..i] + [ps[i]] + ps[i + 1..];
    ps[..i] + ps[i + 1..]
  }

  /** Adding a todo adds exactly one todo to the total. */
  lemma AppendAddsOneTodo(ps: seq<Project>, i: int, t: Todo)
    requires HasProject(ps, i)
    ensures TodoCount(WithTodoAppended(ps, i, t)) == TodoCount(ps) + 1
  {
    TodoCountUpdate(ps, i, ps[i].(todos := ps[i].todos + [t]));
  }

  /** Deleting a todo removes exactly one todo from the total. */
  lemma RemoveDropsOneTodo(ps: seq<Project>, i: int, j: int)
    requires HasTodo(ps, i, j)
    ensures TodoCount(WithTodoRemoved(ps, i, j)) == TodoCount(ps) - 1
  {
    var todos := ps[i].todos;
    TodoCountUpdate(ps, i, ps[i].(todos := todos[..j] + todos[j + 1..]));
  }

  /** Deleting a project removes exactly its todos from the total. */
  lemma WithoutProjectDropsItsTodos(ps: seq<Project>, i: int)
    requires HasProject(ps, i)
    ensures TodoCount(WithoutProject(ps, i)) == TodoCount(ps) - |ps[i].todos|
  {
    assert ps == ps[..i] + ([ps[i]] + ps[i + 1..]);
    TodoCountAppend(ps[..i], [ps[i]] + ps[i + 1..]);
    TodoCountAppend([ps[i]], ps[i + 1..]);
    TodoCountAppend(ps[..i], ps[i + 1..]);
    assert TodoCount([ps[i]]) == |ps[i].todos| by {
      assert [ps[i]][1..] == [];
    }
  }

  /** Flipping the same todo twice in one loaded list restores that list. */
  lemma FlipTwiceRestores(ps: seq<Project>, i: int, j: int)
    requires HasTodo(ps, i, j)
    ensures WithCompletedFlipped(WithCompletedFlipped(ps, i, j), i, j) == ps
  {
    var r := WithCompletedFlipped(WithCompletedFlipped(ps, i, j), i, j);
    assert r[i].todos == ps[i].todos;
    assert r[i] == ps[i];
  }

  /** Resetting `completed` erases a flip. */
  lemma ResetErasesFlip(ps: seq<Project>, i: int, j: int)
    requires HasTodo(ps, i, j)
    ensures ResetCompleted(WithCompletedFlipped(ps, i, j)) == ResetCompleted(ps)
  {
    var flipped := WithCompletedFlipped(ps, i, j);
    var x, y := ResetTodos(flipped[i].todos), ResetTodos(ps[i].todos);
    assert x == y by {
      assert |x| == |y|;
      forall m | 0 <= m < |x| ensures x[m] == y[m] {
      }
    }
    var a, b := ResetCompleted(flipped), ResetCompleted(ps);
    assert |a| == |b|;
    forall k | 0 <= k < |ps| ensures a[k] == b[k] {
    }
  }

  /** Loading resets `completed`, so a toggle that was saved is invisible
      to the next load: what loads afterwards is what loaded before. */
  lemma {:induction false} ToggleInvisibleAfterReload(v: Snapshot, i: int, j: int)
    requires Loadable(v) && HasTodo(Load(v), i, j)
    ensures Load(Some(Dump(WithCompletedFlipped(Load(v), i, j)))) == Load(v)
  {
    var ps := Load(v);
    LoadAfterSave(WithCompletedFlipped(ps, i, j));
    ResetErasesFlip(ps, i, j);
    LoadAfterSave(ps);
    ReloadIsStable(v);
  }

  /** Two load-toggle-save cycles on the same todo are not the identity on
      the stored value: the second write equals the first, and both store
      the todo as completed whatever it was before. */
  lemma ToggleCyclesStoreCompleted(v: Snapshot, i: int, j: int)
    requires Loadable(v) && HasTodo(Load(v), i, j)
    ensures var s1 := Some(Dump(WithCompletedFlipped(Load(v), i, j)));
      HasTodo(Load(s1), i, j)
      && Some(Dump(WithCompletedFlipped(Load(s1), i, j))) == s1
      && s1.value[i].todos.value[j].completed == !CompletedDefault
  {
    ToggleInvisibleAfterReload(v, i, j);
  }

  /** src/ui.js:49-70. The title and description are trimmed; an empty
      title or due date aborts before anything is loaded; a project index
      that names no loaded project aborts after loading; otherwise one
      write stores the loaded list with the new, not completed todo pushed
      onto that project. */
  method AddTodo(store: Store, projectIndex: int, titleInput: string, descriptionInput: string,
                 dueDate: string, priority: string)
    returns (outcome: Outcome)
    requires Trim(titleInput) != [] && dueDate != [] ==> Loadable(store.stored)
    modifies store
    ensures Trim(titleInput) == [] || dueDate == [] ==>
      outcome == MissingRequiredField && store.stored == old(store.stored) && store.saves == old(store.saves)
    ensures Trim(titleInput) != [] && dueDate != [] && !HasProject(Load(old(store.stored)), projectIndex) ==>
      outcome == ProjectNotFound && store.stored == old(store.stored) && store.saves == old(store.saves)
    ensures Trim(titleInput) != [] && dueDate != [] && HasProject(Load(old(store.stored)), projectIndex) ==>
      outcome == Saved && store.saves == old(store.saves) + 1
      && store.stored == Some(Dump(WithTodoAppended(Load(old(store.stored)), projectIndex,
           Todo(Trim(titleInput), Trim(descriptionInput), dueDate, priority, false))))
  {
    var title := Trim(titleInput);
    var description := Trim(descriptionInput);
    if title == [] || dueDate == [] {
      outcome := MissingRequiredField;
      return;
    }
    var projects := store.LoadProjects();
    if !HasProject(projects, projectIndex) {
      outcome := ProjectNotFound;
      return;
    }
    var newTodo := Todo(title, description, dueDate, priority, false);
    var target := projects[projectIndex];
    target := target.(todos := target.todos + [newTodo]);
    projects := projects[projectIndex := target];
    store.SaveProjects(projects);
    outcome := Saved;
  }

  /** src/ui.js:161-171. Either both indices resolve and one write stores
      the loaded list with that todo's `completed` flipped, or nothing is
      written. */
  method ToggleComplete(store: Store, projectIndex: int, todoIndex: int) returns (outcome: Outcome)
    requires Loadable(store.stored)
    modifies store
    ensures var loaded := Load(old(store.stored));
      if HasTodo(loaded, projectIndex, todoIndex) then
        outcome == Saved && store.saves == old(store.saves) + 1
        && store.stored == Some(Dump(WithCompletedFlipped(loaded, projectIndex, todoIndex)))
      else
        outcome == InvalidIndex && store.stored == old(store.stored) && store.saves == old(store.saves)
  {
    var projects := store.LoadProjects();
    if !HasTodo(projects, projectIndex, todoIndex) {
      outcome := InvalidIndex;
      return;
    }
    var todos := projects[projectIndex].todos;
    todos := todos[todoIndex := todos[todoIndex].(completed := !todos[todoIndex].completed)];
    projects := projects[projectIndex := projects[projectIndex].(todos := todos)];
    store.SaveProjects(projects);
    outcome := Saved;
  }

  /** src/ui.js:173-183. Either both indices resolve and one write stores
      the loaded list with that todo spliced out, or nothing is written. */
  method DeleteTodo(store: Store, projectIndex: int, todoIndex: int) returns (outcome: Outcome)
    requires Loadable(store.stored)
    modifies store
    ensures var loaded := Load(old(store.stored));
      if HasTodo(loaded, projectIndex, todoIndex) then
        outcome == Saved && store.saves == old(store.saves) + 1
        && store.stored == Some(Dump(WithTodoRemoved(loaded, projectIndex, todoIndex)))
      else
        outcome == InvalidIndex && store.stored == old(store.stored) && store.saves == old(store.saves)
  {
    var projects := store.LoadProjects();
    if !HasTodo(projects, projectIndex, todoIndex) {
      outcome := InvalidIndex;
      return;
    }
    var todos := projects[projectIndex].todos;
    todos := todos[..todoIndex] + todos[todoIndex + 1..];
    projects := projects[projectIndex := projects[projectIndex].(todos := todos)];
    store.SaveProjects(projects);
    outcome := Saved;
  }

  /** src/ui.js:185-203. `confirmed` is the answer the confirmation dialog
      would give; it is asked only once the index resolves. An unknown
      index or a declined confirmation writes nothing; otherwise one write
      stores the loaded list without that project. */
  method DeleteProject(store: Store, projectIndex: int, confirmed: bool) returns (outcome: Outcome)
    requires Loadable(store.stored)
    modifies store
    ensures var loaded := Load(old(store.stored));
      if !HasProject(loaded, projectIndex) then
        outcome == ProjectNotFound && store.stored == old(store.stored) && store.saves == old(store.saves)
      else if !confirmed then
        outcome == Declined && store.stored == old(store.stored) && store.saves == old(store.saves)
      else
        outcome == Saved && store.saves == old(store.saves) + 1
        && store.stored == Some(Dump(WithoutProject(loaded, projectIndex)))
  {
    var projects := store.LoadProjects();
    if !HasProject(projects, projectIndex) {
      outcome := ProjectNotFound;
      return;
    }
    if !confirmed {
      outcome := Declined;
      return;
    }
    projects := projects[..projectIndex] + projects[projectIndex + 1..];
    store.SaveProjects(projects);
    outcome := Saved;
  }
}
