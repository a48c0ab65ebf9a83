/** The store of src/storage.js: the whole project list kept as one value
    under a fixed key. JSON encoding is taken as the identity on records, so
    the stored value is the list of stored records itself, and `None` stands
    for a key that holds nothing. */
module Storage {
  import opened Wrappers
  import opened Entities

  /** A todo as it sits in storage: every field the in-memory todo had. */
  datatype StoredTodo = StoredTodo(
    title: string,
    description: string,
    dueDate: string,
    priority: string,
    completed: bool)

  /** A project as it sits in storage; a record without a `todos` field
      holds `None`. */
  datatype StoredProject = StoredProject(name: string, todos: Option<seq<StoredTodo>>)

  /** What the fixed key holds. */
  type Snapshot = Option<seq<StoredProject>>

  predicate AllHaveTodos(ps: seq<StoredProject>)
  {
    forall k :: 0 <= k < |ps| ==> ps[k].todos.Some?
  }

  /** Loading dereferences `todos` on every stored project. */
  predicate Loadable(v: Snapshot)
  {
    v.Some? ==> AllHaveTodos(v.value)
  }

  /** Rebuilds todos from four stored fields; `completed` is not read. */
  function LoadTodos(ts: seq<StoredTodo>): (r: seq<Todo>)
    ensures |r| == |ts|
    ensures forall k :: 0 <= k < |ts| ==>
      r[k] == Todo(ts[k].title, ts[k].description, ts[k].dueDate, ts[k].priority, CompletedDefault)
  {
    if ts == [] then []
    else [Todo(ts[0].title, ts[0].description, ts[0].dueDate, ts[0].priority, CompletedDefault)]
         + LoadTodos(ts[1..])
  }

  /** Rebuilds projects, in order, each with its name and rebuilt todos. */
  function LoadProjectList(ps: seq<StoredProject>): (r: seq<Project>)
    requires AllHaveTodos(ps)
    ensures |r| == |ps|
    ensures forall k :: 0 <= k < |ps| ==> r[k] == Project(ps[k].name, LoadTodos(ps[k].todos.value))
  {
    if ps == [] then []
    else [Project(ps[0].name, LoadTodos(ps[0].todos.value))] + LoadProjectList(ps[1..])
  }

  /** `loadProjects` on the stored value: nothing stored loads as the empty
      list; otherwise projects and todos keep their number and order, names
      and the four copied todo fields are the stored ones, and every loaded
      todo is not completed. */
  function Load(v: Snapshot): (r: seq<Project>)
    requires Loadable(v)
    ensures v.None? ==> r == []
    ensures v.Some? ==> |r| == |v.value|
    ensures v.Some? ==> forall k :: 0 <= k < |r| ==>
      r[k].name == v.value[k].name && |r[k].todos| == |v.value[k].todos.value|
    ensures v.Some? ==> forall k, j :: 0 <= k < |r| && 0 <= j < |r[k].todos| ==>
      var t := v.value[k].todos.value[j];
      r[k].todos[j].title == t.title && r[k].todos[j].description == t.description
      && r[k].todos[j].dueDate == t.dueDate && r[k].todos[j].priority == t.priority
    ensures forall k, j :: 0 <= k < |r| && 0 <= j < |r[k].todos| ==>
      r[k].todos[j].completed == CompletedDefault
  {
    match v
    case None => []
    case Some(ps) => LoadProjectList(ps)
  }

  /** Serialises todos field by field, `completed` included. */
  function DumpTodos(ts: seq<Todo>): (r: seq<StoredTodo>)
    ensures |r| == |ts|
    ensures forall k :: 0 <= k < |ts| ==>
      r[k] == StoredTodo(ts[k].title, ts[k].description, ts[k].dueDate, ts[k].priority, ts[k].completed)
  {
    if ts == [] then []
    else [StoredTodo(ts[0].title, ts[0].description, ts[0].dueDate, ts[0].priority, ts[0].completed)]
         + DumpTodos(ts[1..])
  }

  /** `JSON.stringify(projects)`: the full list, every project with its
      todos, so the result can always be loaded back. */
  function Dump(ps: seq<Project>): (r: seq<StoredProject>)
    ensures |r| == |ps| && AllHaveTodos(r)
    ensures forall k :: 0 <= k < |ps| ==> r[k] == StoredProject(ps[k].name, Some(DumpTodos(ps[k].todos)))
  {
    if ps == [] then []
    else [StoredProject(ps[0].name, Some(DumpTodos(ps[0].todos)))] + Dump(ps[1..])
  }

  /** Todos with every field kept but `completed` set to the default. */
  function ResetTodos(ts: seq<Todo>): (r: seq<Todo>)
    ensures |r| == |ts|
    ensures forall k :: 0 <= k < |ts| ==> r[k] == ts[k].(completed := CompletedDefault)
  {
    if ts == [] then [] else [ts[0].(completed := CompletedDefault)] + ResetTodos(ts[1..])
  }

  /** Projects with names and todo order kept and `completed` reset. */
  function ResetCompleted(ps: seq<Project>): (r: seq<Project>)
    ensures |r| == |ps|
    ensures forall k :: 0 <= k < |ps| ==> r[k] == ps[k].(todos := ResetTodos(ps[k].todos))
  {
    if ps == [] then [] else [ps[0].(todos := ResetTodos(ps[0].todos))] + ResetCompleted(ps[1..])
  }

  lemma {:induction false} LoadDumpTodos(ts: seq<Todo>)
    ensures LoadTodos(DumpTodos(ts)) == ResetTodos(ts)
  {
    var l, r := LoadTodos(DumpTodos(ts)), ResetTodos(ts);
    assert |l| == |r|;
    forall k | 0 <= k < |l| ensures l[k] == r[k] {
    }
  }

  /** Save then load gives back every project and todo in order with every
      field equal, except that `completed` comes back as the default. */
  lemma {:induction false} LoadAfterSave(ps: seq<Project>)
    ensures Load(Some(Dump(ps))) == ResetCompleted(ps)
  {
    var l, r := Load(Some(Dump(ps))), ResetCompleted(ps);
    assert |l| == |r|;
    forall k | 0 <= k < |l| ensures l[k] == r[k] {
      LoadDumpTodos(ps[k].todos);
    }
  }

  /** A loaded list survives another save and load unchanged: loading is a
      normal form. */
  lemma {:induction false} ReloadIsStable(v: Snapshot)
    requires Loadable(v)
    ensures Load(Some(Dump(Load(v)))) == Load(v)
  {
    var ps := Load(v);
    LoadAfterSave(ps);
    var r := ResetCompleted(ps);
    forall k | 0 <= k < |ps| ensures r[k] == ps[k] {
      assert ResetTodos(ps[k].todos) == ps[k].todos;
    }
  }

  /** The browser's storage entry for the project list. `saves` counts the
      writes, so a caller can see that an operation wrote once or not at all. */
  class Store {
    var stored: Snapshot
    ghost var saves: nat

    constructor (initial: Snapshot)
      ensures stored == initial && saves == 0
    {
      stored := initial;
      saves := 0;
    }

    /** `Storage.loadProjects()`: reads and rebuilds, changes nothing. */
    method LoadProjects() returns (projects: seq<Project>)
      requires Loadable(stored)
      ensures projects == Load(stored)
    {
      projects := Load(stored);
    }

    /** `Storage.saveProjects(projects)`: one write that replaces the whole
        stored value by the full given list, whatever was there before. */
    method SaveProjects(projects: seq<Project>)
      modifies this
      ensures stored == Some(Dump(projects)) && Loadable(stored)
      ensures saves == old(saves) + 1
    {
      stored := Some(Dump(projects));
      saves := saves + 1;
    }
  }
}
