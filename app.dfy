/** The entry points of src/index.js: seeding the store on first start and
    the "new project" button. The prompt's answer is an input (`None` for a
    cancelled prompt); rendering is not modelled. */
module App {
  import opened Wrappers
  import opened Entities
  import opened Storage
  import opened UI
  import opened JsString

  const DefaultProjectName: string := "Default Project"

  /** `projects.push(new Project(name))` (src/index.js:18-19): the loaded
      projects keep their places and one project with exactly that name and
      no todos follows them. */
  function WithProjectAppended(ps: seq<Project>, name: string): (r: seq<Project>)
    ensures |r| == |ps| + 1
    ensures forall k :: 0 <= k < |ps| ==> r[k] == ps[k]
    ensures r[|ps|].name == name && r[|ps|].todos == []
  {
    ps + [NewProject(name)]
  }

  /** Adding a project leaves the number of todos as it was. */
  lemma WithProjectAppendedKeepsTodos(ps: seq<Project>, name: string)
    ensures TodoCount(WithProjectAppended(ps, name)) == TodoCount(ps)
  {
    TodoCountAppend(ps, [NewProject(name)]);
    assert TodoCount([NewProject(name)]) == 0 by {
      assert [NewProject(name)][1..] == [];
    }
  }

  /** The seed loads back as exactly one project named "Default Project"
      with no todos. */
  lemma SeedLoadsAsDefaultProject()
    ensures Load(Some(Dump([NewProject(DefaultProjectName)]))) == [Project("Default Project", [])]
  {
    LoadAfterSave([NewProject(DefaultProjectName)]);
    assert ResetTodos([]) == [];
  }

  /** src/index.js:5-12. Only a key that holds nothing is seeded, with the
      one default project; any stored value, the empty list included, is
      left as it is. */
  method Bootstrap(store: Store)
    modifies store
    ensures old(store.stored).None? ==>
      store.stored == Some(Dump([NewProject(DefaultProjectName)])) && store.saves == old(store.saves) + 1
    ensures old(store.stored).Some? ==>
      store.stored == old(store.stored) && store.saves == old(store.saves)
  {
    if store.stored.None? {
      var defaultProject := NewProject(DefaultProjectName);
      store.SaveProjects([defaultProject]);
    }
  }

  /** src/index.js:14-23. A cancelled prompt or an empty name writes
      nothing; any other name, untrimmed, becomes a new last project in one
      write of the loaded list. */
  method CreateProject(store: Store, projectName: Option<string>) returns (outcome: Outcome)
    requires projectName.Some? && projectName.value != [] ==> Loadable(store.stored)
    modifies store
    ensures projectName.None? || projectName.value == [] ==>
      outcome == NoName && store.stored == old(store.stored) && store.saves == old(store.saves)
    ensures projectName.Some? && projectName.value != [] ==>
      outcome == Saved && store.saves == old(store.saves) + 1
      && store.stored == Some(Dump(WithProjectAppended(Load(old(store.stored)), projectName.value)))
  {
    if projectName.None? || projectName.value == [] {
      outcome := NoName;
      return;
    }
    var projects := store.LoadProjects();
    var newProject := NewProject(projectName.value);
    projects := projects + [newProject];
    store.SaveProjects(projects);
    outcome := Saved;
  }

  /** First start with nothing stored: the first load sees exactly the
      default project and no todos. */
  method FirstStart() returns (projects: seq<Project>)
    ensures projects == [Project("Default Project", [])]
  {
    var store := new Store(None);
    Bootstrap(store);
    projects := store.LoadProjects();
    SeedLoadsAsDefaultProject();
  }

  /** From an empty store: create "Work", add "Buy milk" to it, and load. */
  method WorkScenario() returns (projects: seq<Project>)
    ensures projects == [Project("Work", [Todo("Buy milk", "", "2025-01-01", "high", false)])]
  {
    var store := new Store(None);
    var created := CreateProject(store, Some("Work"));
    TrimKeeps("Buy milk");
    TrimKeeps("");
    var added := AddTodo(store, 0, "Buy milk", "", "2025-01-01", "high");
    assert created == Saved && added == Saved;
    projects := store.LoadProjects();
    var todo := Todo("Buy milk", "", "2025-01-01", "high", false);
    LoadAfterSave([Project("Work", [todo])]);
    assert ResetTodos([todo]) == [todo];
  }

  /** Deleting project 0 of two: declined, the list loads as before;
      confirmed, the second project moves to index 0. */
  method DeleteFirstOfTwo(first: Project, second: Project) returns (declined: seq<Project>, confirmed: seq<Project>)
    ensures declined == ResetCompleted([first, second])
    ensures confirmed == ResetCompleted([second])
  {
    var store := new Store(Some(Dump([first, second])));
    LoadAfterSave([first, second]);
    var o1 := DeleteProject(store, 0, false);
    declined := store.LoadProjects();
    var o2 := DeleteProject(store, 0, true);
    confirmed := store.LoadProjects();
    var loaded := ResetCompleted([first, second]);
    assert WithoutProject(loaded, 0) == [loaded[1]];
    LoadAfterSave([loaded[1]]);
    assert ResetCompleted([loaded[1]]) == [loaded[1]] by {
      assert ResetTodos(loaded[1].todos) == loaded[1].todos;
    }
    assert ResetCompleted([second]) == [loaded[1]];
  }
}
