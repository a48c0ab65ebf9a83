/** The two record kinds of the todo list. Their constructors live in
    project.js and todo.js, which are not part of this model: a project
    starts with no todos, and a todo built from four arguments gets
    `CompletedDefault` for `completed`. */
module Entities {
  /** The `completed` value the Todo constructor gives when it is not passed. */
  const CompletedDefault: bool := false

  datatype Todo = Todo(
    title: string,
    description: string,
    dueDate: string,
    priority: string,
    completed: bool)

  datatype Project = Project(name: string, todos: seq<Todo>)

  /** `new Project(name)`: the given name, untouched, and no todos. */
  function NewProject(name: string): Project
  {
    Project(name, [])
  }
}
