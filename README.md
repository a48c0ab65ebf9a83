# Todo-List: the project list and the operations that change it

A browser todo manager keeps all of its state as one list of projects, each
with a name and an ordered list of todos (title, description, due date,
priority, completed), under one key of the browser's local storage. Every
user action does the same thing. It loads the whole list, checks its inputs
against the loaded copy, edits that copy, and writes the whole list back.
Or it gives up without writing.

The model has one module per part of the program:

- `Entities`: the `Todo` and `Project` records. The constructors in
  project.js and todo.js are not part of this model. A new project has no
  todos. A todo built from four arguments gets `CompletedDefault` (`false`)
  for `completed`.
- `JsString`: `String.prototype.trim`, with the exact set of characters
  ECMAScript counts as white space or line terminators.
- `Storage` (src/storage.js): the stored shapes, `Load` and `Dump`, and the
  class `Store`. `Store` holds the stored value, `Option<seq<StoredProject>>`,
  where `None` means the key holds nothing. It also has a ghost counter of
  writes, which lets each operation state that it wrote once or not at all.
- `UI` (src/ui.js): `AddTodo`, `ToggleComplete`, `DeleteTodo` and
  `DeleteProject`, as methods that load, check, edit and save. Each one is
  specified by a pure edit of the loaded list. Every edit has its own
  contract and lemmas: positions, shifting, multisets and todo totals.
- `App` (src/index.js): the first-start seed, the new-project handler, and
  three client methods. They replay the first-start scenario, "create
  Work, add Buy milk", and "delete project 0 declined, then confirmed".

Loading never reads the stored `completed` field (src/storage.js:13). So
every load marks every todo as not completed. Every successful operation
therefore stores the loaded list, with `completed` reset everywhere, plus
its one edit. The model keeps this visible:

- `LoadAfterSave` states that a round trip keeps every field except
  `completed`.
- `ToggleInvisibleAfterReload` states that a saved toggle cannot be seen by
  the next load.
- `ToggleCyclesStoreCompleted` states that two toggle cycles store the same
  value as one.

A save-then-load round trip that kept `completed` would need loading to
copy that field. The code does not copy it, and the model follows the code.

## Model

| member | source | states |
|---|---|---|
| `JsString.TrimStart` | src/ui.js:50-51 | result is a suffix of the input, everything cut off is white space, and it does not start with white space |
| `JsString.TrimEnd` | src/ui.js:50-51 | result is a prefix of the input, everything cut off is white space, and it does not end with white space |
| `JsString.Trim` | src/ui.js:50-51 | result is a contiguous piece of the input with only white space cut off each side, neither starts nor ends with white space, and is empty exactly when the input is all white space |
| `JsString.TrimKeeps` | src/ui.js:50-51 | a string that does not start or end with white space is its own trim |
| `Storage.LoadTodos` | src/storage.js:13 | same number and order of todos; title, description, due date and priority copied; completed is the constructor default |
| `Storage.LoadProjectList` | src/storage.js:11-15 | same number and order of projects, each with its stored name and its rebuilt todos |
| `Storage.Load` | src/storage.js:9-16 | nothing stored loads as the empty list; otherwise counts, order, names and the four todo fields agree with the stored value, and no loaded todo is completed; requires every stored project to have a todos list |
| `Storage.DumpTodos` | src/storage.js:6 | every todo serialised in order with all five fields |
| `Storage.Dump` | src/storage.js:6 | the full list serialised in order, every project with its todos, so the result is always loadable |
| `Storage.ResetTodos` | src/storage.js:13 | same todos in order with only completed set to the default |
| `Storage.ResetCompleted` | src/storage.js:13 | same projects in order with only completed reset in their todos |
| `Storage.LoadDumpTodos` | src/storage.js:13 | loading serialised todos gives the todos back with completed reset |
| `Storage.LoadAfterSave` | src/storage.js:5-16 | save then load returns every project and todo in order with every field equal except completed, which comes back as the default |
| `Storage.ReloadIsStable` | src/storage.js:9-16 | a loaded list saved and loaded again is unchanged |
| `Storage.Store.LoadProjects` | src/storage.js:9-16 | returns the stored value as loaded and changes nothing |
| `Storage.Store.SaveProjects` | src/storage.js:5-7 | one write that replaces the whole stored value by the full given list, whatever was there before |
| `UI.WithTodoAppended` | src/ui.js:66-67 | target project keeps its name and gets its todos followed by exactly the new todo; other projects unchanged |
| `UI.WithCompletedFlipped` | src/ui.js:168 | only that todo's completed is negated; its other fields, the other todos and the other projects are unchanged |
| `UI.WithTodoRemoved` | src/ui.js:180 | target todos lose one element: earlier ones keep their position, later ones shift down by one, the multiset loses exactly the removed todo; other projects unchanged |
| `UI.WithoutProject` | src/ui.js:198 | one project fewer: earlier projects keep their position, later ones shift down by one, the multiset loses exactly the removed project |
| `UI.AppendAddsOneTodo` | src/ui.js:67 | adding a todo raises the total number of todos by exactly one |
| `UI.RemoveDropsOneTodo` | src/ui.js:180 | deleting a todo lowers the total number of todos by exactly one |
| `UI.WithoutProjectDropsItsTodos` | src/ui.js:198 | deleting a project lowers the total by exactly that project's todos |
| `UI.FlipTwiceRestores` | src/ui.js:168 | flipping the same todo twice in one loaded list gives that list back |
| `UI.ResetErasesFlip` | src/storage.js:13 | resetting completed after a flip gives the same list as resetting it without the flip |
| `UI.ToggleInvisibleAfterReload` | src/ui.js:161-169 | after a successful toggle is saved, the next load equals the load before the toggle |
| `UI.ToggleCyclesStoreCompleted` | src/ui.js:161-169 | two load-toggle-save cycles store the same value as one, with that todo stored as completed whatever it was before |
| `UI.AddTodo` | src/ui.js:49-70 | empty trimmed title or empty due date: no write; unknown project index: no write; otherwise one write of the loaded list with the todo built from trimmed title, trimmed description, due date, priority and completed false appended to that project |
| `UI.ToggleComplete` | src/ui.js:161-171 | both indices in range: one write of the loaded list with that todo flipped; otherwise (negative or past the end) no write |
| `UI.DeleteTodo` | src/ui.js:173-183 | both indices in range: one write of the loaded list with that todo spliced out; otherwise no write |
| `UI.DeleteProject` | src/ui.js:185-203 | unknown index: no write; declined: no write; confirmed: one write of the loaded list without that project |
| `App.WithProjectAppended` | src/index.js:18-19 | loaded projects keep their places and one project with exactly the given name and no todos follows them |
| `App.WithProjectAppendedKeepsTodos` | src/index.js:19 | adding a project leaves the total number of todos unchanged |
| `App.SeedLoadsAsDefaultProject` | src/index.js:7-8 | the seed loads back as exactly one project "Default Project" with no todos |
| `App.Bootstrap` | src/index.js:5-12 | nothing stored: one write of the default project alone; anything stored, the empty list included: no write |
| `App.CreateProject` | src/index.js:14-23 | cancelled or empty name: no write; otherwise one write of the loaded list with the untrimmed name appended as a new last project |
| `App.FirstStart` | src/index.js:5-11 | from nothing stored, the first load after start is exactly one "Default Project" with no todos |
| `App.WorkScenario` | src/ui.js:49-70 | from nothing stored, creating "Work" and adding "Buy milk" loads as exactly that project with that one not-completed todo |
| `App.DeleteFirstOfTwo` | src/ui.js:185-203 | deleting project 0 of two: declined leaves the loaded list as it was; confirmed leaves only the second project, now at index 0 |

## Left out

- Rendering and event wiring are not modelled: `renderProjects`, `displayTodo`, `showAddTodoModal` with its own check for an undefined index, the priority colours and the button labels. They compute nothing that is stored. The redraw after each save is left out too.
- `alert` and `console.error` become `Outcome` tags. `confirm` and `prompt` become inputs: a boolean answer, and `Option<string>` with `None` for a cancelled prompt.
- `localStorage` and the JSON encoding are replaced by the stored value itself. JSON encoding is the identity on records, so a stored string such as `"null"`, or one that does not parse, is not modelled.
- A stored project without `todos` is modelled, as `None`, and loading requires it to be absent. A stored todo with missing fields is not modelled: every `StoredTodo` has all its fields.
- Indices are integers, and the guards are the range checks that JavaScript's truthiness test performs on a present record. Indices that come from the page as strings such as `"0"` are taken as their numeric value. An index string JavaScript would not read as an array position is not modelled.
- Priority is kept as the string the form supplies. It is not an enumeration, because the code neither checks nor defaults it.
- Records are values. The loaded list is always a fresh copy, so the in-place `push`, flip and `splice` on it are modelled as sequence updates with no loss: nothing else refers to those records.
