/** The records of the task tracker (lib/taskflow.tsx, TYPES and CONSTANTS).
    Identifiers, status and priority are kept as the strings the program stores
    and compares: the TypeScript union types are erased at run time, and the form
    layer hands the data layer plain strings, possibly empty ones. An optional
    property (`avatar?`, `dueDate?`) is an Option; None is "key absent". */
module Entities {
  import opened Seqs

  datatype User = User(id: string, name: string, email: string, avatar: Option<string>)

  datatype Project = Project(id: string, name: string, description: Option<string>, color: string)

  datatype Task = Task(
    id: string,
    title: string,
    description: string,
    assignedUserId: string,
    projectId: string,
    status: string,
    priority: string,
    dueDate: Option<string>,
    createdAt: string,
    updatedAt: string)

  datatype Subtask = Subtask(id: string, taskId: string, title: string, completed: bool, createdAt: string)

  datatype Comment = Comment(id: string, taskId: string, userId: string, content: string, createdAt: string)

  /** A task together with the records it refers to, assembled on every read. */
  datatype TaskWithRelations = TaskWithRelations(
    task: Task,
    assignedUser: Option<User>,
    project: Option<Project>,
    subtasks: seq<Subtask>,
    comments: seq<Comment>)

  /** The fields a caller supplies to create a task. */
  datatype CreateTaskInput = CreateTaskInput(
    title: string,
    description: string,
    assignedUserId: string,
    projectId: string,
    status: string,
    priority: string,
    dueDate: Option<string>)

  /** A partial update: every field but `id` may be left out (None). */
  datatype UpdateTaskInput = UpdateTaskInput(
    id: string,
    title: Option<string>,
    description: Option<string>,
    assignedUserId: Option<string>,
    projectId: Option<string>,
    status: Option<string>,
    priority: Option<string>,
    dueDate: Option<string>)

  /** The optional query predicates of the task list. */
  datatype TaskFilters = TaskFilters(
    search: Option<string>,
    status: Option<string>,
    projectId: Option<string>,
    assignedUserId: Option<string>)

  /** The identity that `getCurrentUser` falls back to and that seeding stores. */
  const CurrentUserId: string := "user-1"

  const SeedUsers: seq<User> := [
    User("user-1", "John Doe", "john@example.com", None),
    User("user-2", "Jane Smith", "jane@example.com", None),
    User("user-3", "Bob Wilson", "bob@example.com", None),
    User("user-4", "Alice Brown", "alice@example.com", None)
  ]

  const SeedProjects: seq<Project> := [
    Project("proj-1", "Website Redesign", Some("Complete overhaul of company website"), "#1e3a8a"),
    Project("proj-2", "Mobile App", Some("iOS and Android app development"), "#60a5fa"),
    Project("proj-3", "API Integration", Some("Third-party API integrations"), "#1e40af"),
    Project("proj-4", "Dashboard", Some("Analytics dashboard project"), "#3b82f6")
  ]

  const SeedTasks: seq<Task> := [
    Task("task-1", "Design homepage mockup",
      "Create initial wireframes and high-fidelity mockups for the new homepage design.",
      "user-1", "proj-1", "in-progress", "high", Some("2026-02-15"),
      "2026-01-20T10:00:00Z", "2026-01-25T14:30:00Z"),
    Task("task-2", "Implement user authentication",
      "Set up JWT-based authentication with login, register, and password reset flows.",
      "user-2", "proj-2", "todo", "high", Some("2026-02-10"),
      "2026-01-22T09:00:00Z", "2026-01-22T09:00:00Z"),
    Task("task-3", "Write API documentation",
      "Document all API endpoints with examples and response schemas.",
      "user-1", "proj-3", "done", "medium", None,
      "2026-01-15T11:00:00Z", "2026-01-28T16:00:00Z"),
    Task("task-4", "Setup CI/CD pipeline",
      "Configure automated testing and deployment workflows.",
      "user-3", "proj-2", "in-progress", "medium", Some("2026-02-05"),
      "2026-01-18T08:00:00Z", "2026-01-26T10:00:00Z"),
    Task("task-5", "Create dashboard widgets",
      "Build reusable chart and metric components for the analytics dashboard.",
      "user-4", "proj-4", "todo", "low", None,
      "2026-01-25T14:00:00Z", "2026-01-25T14:00:00Z")
  ]

  /** Predicates the lookups and filters are built from. Each is a named function
      so that a method body and its contract mention the very same predicate. */
  function TaskHasId(id: string): Task -> bool { (t: Task) => t.id == id }
  function TaskLacksId(id: string): Task -> bool { (t: Task) => t.id != id }
  function UserHasId(id: string): User -> bool { (u: User) => u.id == id }
  function ProjectHasId(id: string): Project -> bool { (p: Project) => p.id == id }
  function SubtaskHasId(id: string): Subtask -> bool { (s: Subtask) => s.id == id }
  function SubtaskLacksId(id: string): Subtask -> bool { (s: Subtask) => s.id != id }
  function SubtaskOf(taskId: string): Subtask -> bool { (s: Subtask) => s.taskId == taskId }
  function SubtaskNotOf(taskId: string): Subtask -> bool { (s: Subtask) => s.taskId != taskId }
  function CommentOf(taskId: string): Comment -> bool { (c: Comment) => c.taskId == taskId }
  function CommentNotOf(taskId: string): Comment -> bool { (c: Comment) => c.taskId != taskId }
}
