/** The data layer of the task tracker (lib/taskflow.tsx:276-459) as one object
    owning the seven keys of the browser store. Collections are read through the
    default-value accessor and the seeding flag is read raw; a write operation
    stores the collections it changes back whole, a read operation stores nothing.
    Fresh identifiers and the current time come in as parameters `id` and `now`. */
module Repository {
  import opened Seqs
  import opened Entities
  import opened Storage
  import opened Query

  /** A promise that resolves to a value or rejects with an error message. */
  datatype Result<T> = Ok(value: T) | Err(message: string)

  const TaskNotFound: string := "Task not found"
  const SubtaskNotFound: string := "Subtask not found"

  /** The `initialized` flag value seeding writes. */
  const InitializedFlag: string := "true"

  /** `{...task, ...input, updatedAt}`: the fields the update supplies replace the
      stored ones, the others are kept, and the modification time is `now`. */
  function Merge(t: Task, input: UpdateTaskInput, now: string): (r: Task)
    ensures r.id == input.id && r.createdAt == t.createdAt && r.updatedAt == now
    ensures input.title.None? ==> r.title == t.title
    ensures input.title.Some? ==> r.title == input.title.value
    ensures input.description.None? ==> r.description == t.description
    ensures input.description.Some? ==> r.description == input.description.value
    ensures input.assignedUserId.None? ==> r.assignedUserId == t.assignedUserId
    ensures input.assignedUserId.Some? ==> r.assignedUserId == input.assignedUserId.value
    ensures input.projectId.None? ==> r.projectId == t.projectId
    ensures input.projectId.Some? ==> r.projectId == input.projectId.value
    ensures input.status.None? ==> r.status == t.status
    ensures input.status.Some? ==> r.status == input.status.value
    ensures input.priority.None? ==> r.priority == t.priority
    ensures input.priority.Some? ==> r.priority == input.priority.value
    ensures r.dueDate == if input.dueDate.Some? then input.dueDate else t.dueDate
  {
    Task(
      input.id,
      input.title.GetOr(t.title),
      input.description.GetOr(t.description),
      input.assignedUserId.GetOr(t.assignedUserId),
      input.projectId.GetOr(t.projectId),
      input.status.GetOr(t.status),
      input.priority.GetOr(t.priority),
      if input.dueDate.Some? then input.dueDate else t.dueDate,
      t.createdAt,
      now)
  }

  /** An update that supplies nothing but the id only moves the modification time. */
  lemma EmptyUpdateOnlyTouchesTime(t: Task, now: string)
    ensures Merge(t, UpdateTaskInput(t.id, None, None, None, None, None, None, None), now) == t.(updatedAt := now)
  {
  }

  /** `subtasks[index].completed = !subtasks[index].completed`. */
  function Toggled(s: Subtask): (r: Subtask)
    ensures r.completed != s.completed
    ensures r.(completed := s.completed) == s
  {
    s.(completed := !s.completed)
  }

  class TaskStore {
    var users: Entry<seq<User>>
    var projects: Entry<seq<Project>>
    var tasks: Entry<seq<Task>>
    var subtasks: Entry<seq<Subtask>>
    var comments: Entry<seq<Comment>>
    var currentUser: Entry<string>
    /** Read with `getItem` and tested for truthiness, not parsed. */
    var initialized: Option<string>

    /** A store in which no key has been written yet. */
    constructor ()
      ensures users.Missing? && projects.Missing? && tasks.Missing?
      ensures subtasks.Missing? && comments.Missing? && currentUser.Missing?
      ensures initialized.None?
    {
      users := Missing;
      projects := Missing;
      tasks := Missing;
      subtasks := Missing;
      comments := Missing;
      currentUser := Missing;
      initialized := None;
    }

    /** The collections as `getFromStorage(key, [])` returns them. */
    function Tasks(): seq<Task> reads this`tasks { GetFromStorage(tasks, []) }
    function Subtasks(): seq<Subtask> reads this`subtasks { GetFromStorage(subtasks, []) }
    function Comments(): seq<Comment> reads this`comments { GetFromStorage(comments, []) }

    /** `getUsers()`: the stored users, or none when the key cannot be read. */
    function GetUsers(): (r: seq<User>)
      reads this`users
      ensures users.Stored? ==> r == users.value
      ensures !users.Stored? ==> r == []
    {
      GetFromStorage(users, [])
    }

    /** `getProjects()`: the stored projects, or none when the key cannot be read. */
    function GetProjects(): (r: seq<Project>)
      reads this`projects
      ensures projects.Stored? ==> r == projects.value
      ensures !projects.Stored? ==> r == []
    {
      GetFromStorage(projects, [])
    }

    /** The id `getCurrentUser` looks up: the stored one, else "user-1". */
    function CurrentUserKey(): string reads this`currentUser {
      GetFromStorage(currentUser, CurrentUserId)
    }

    /** `getCurrentUser()`: the first user with the current id, or null. */
    function GetCurrentUser(): (r: Option<User>)
      reads this`users, this`currentUser
      ensures IsFirstMatch(GetUsers(), UserHasId(CurrentUserKey()), r)
    {
      Find(GetUsers(), UserHasId(CurrentUserKey()))
    }

    /** `getTaskById(id)`: the joined view of the first task with that id, or null. */
    function GetTaskById(id: string): (r: Option<TaskWithRelations>)
      reads this`tasks, this`users, this`projects, this`subtasks, this`comments
      ensures r.None? <==> forall t :: t in Tasks() ==> t.id != id
      ensures r.Some? ==> IndexOf(Tasks(), TaskHasId(id)) != -1 && r.value.task == Tasks()[IndexOf(Tasks(), TaskHasId(id))]
      ensures r.Some? ==> r.value.task.id == id && r.value.task in Tasks()
      ensures r.Some? ==> r.value == Join(r.value.task, GetUsers(), GetProjects(), Subtasks(), Comments())
    {
      TaskById(Tasks(), GetUsers(), GetProjects(), Subtasks(), Comments(), id)
    }

    /** `initializeData()`: when the flag is unset, writes the seed data and the
        flag; when it is set, changes nothing. */
    method InitializeData()
      modifies this`users, this`projects, this`tasks, this`subtasks, this`comments, this`currentUser, this`initialized
      ensures FlagIsSet(old(initialized)) ==>
        && users == old(users) && projects == old(projects) && tasks == old(tasks)
        && subtasks == old(subtasks) && comments == old(comments) && currentUser == old(currentUser)
        && initialized == old(initialized)
      ensures !FlagIsSet(old(initialized)) ==>
        && users == Stored(SeedUsers) && projects == Stored(SeedProjects) && tasks == Stored(SeedTasks)
        && subtasks == Stored([]) && comments == Stored([]) && currentUser == Stored(CurrentUserId)
        && initialized == Some(InitializedFlag)
      ensures FlagIsSet(initialized)
    {
      if FlagIsSet(initialized) {
        return;
      }
      users := SetToStorage(SeedUsers);
      projects := SetToStorage(SeedProjects);
      tasks := SetToStorage(SeedTasks);
      subtasks := SetToStorage([]);
      comments := SetToStorage([]);
      currentUser := SetToStorage(CurrentUserId);
      initialized := Some(InitializedFlag);
    }

    /** `getTasks(filters)`: narrows the task list one active filter at a time,
        then joins each remaining task with its relations. */
    method GetTasks(filters: Option<TaskFilters>) returns (r: seq<TaskWithRelations>)
      ensures r == ListTasks(Tasks(), GetUsers(), GetProjects(), Subtasks(), Comments(), filters)
    {
      var all := Tasks();
      var filtered := all;
      ghost var kept: Task -> bool := (t: Task) => true;
      FilterKeepsAll(all, kept);
      if filters.Some? {
        var f := filters.value;
        if IsTruthy(f.search) {
          ghost var next := (t: Task) => kept(t) && SearchStep(f.search.value)(t);
          FilterThenFilter(all, kept, SearchStep(f.search.value), next);
          filtered := Filter(filtered, SearchStep(f.search.value));
          kept := next;
        }
        if IsActiveSelection(f.status) {
          ghost var next := (t: Task) => kept(t) && StatusStep(f.status.value)(t);
          FilterThenFilter(all, kept, StatusStep(f.status.value), next);
          filtered := Filter(filtered, StatusStep(f.status.value));
          kept := next;
        }
        if IsActiveSelection(f.projectId) {
          ghost var next := (t: Task) => kept(t) && ProjectStep(f.projectId.value)(t);
          FilterThenFilter(all, kept, ProjectStep(f.projectId.value), next);
          filtered := Filter(filtered, ProjectStep(f.projectId.value));
          kept := next;
        }
        if IsTruthy(f.assignedUserId) {
          ghost var next := (t: Task) => kept(t) && AssigneeStep(f.assignedUserId.value)(t);
          FilterThenFilter(all, kept, AssigneeStep(f.assignedUserId.value), next);
          filtered := Filter(filtered, AssigneeStep(f.assignedUserId.value));
          kept := next;
        }
      }
      assert filtered == Filter(all, kept);
      FilterAgrees(all, kept, MatchesFilters(filters));
      r := JoinAll(filtered, GetUsers(), GetProjects(), Subtasks(), Comments());
    }

    /** `createTask(input)`: appends a task with the given id, both timestamps `now`. */
    method CreateTask(input: CreateTaskInput, id: string, now: string) returns (t: Task)
      modifies this`tasks
      ensures t == Task(id, input.title, input.description, input.assignedUserId, input.projectId,
                        input.status, input.priority, input.dueDate, now, now)
      ensures tasks == Stored(old(Tasks()) + [t])
    {
      var all := Tasks();
      t := Task(id, input.title, input.description, input.assignedUserId, input.projectId,
                input.status, input.priority, input.dueDate, now, now);
      tasks := SetToStorage(all + [t]);
    }

    /** `updateTask(input)`: merges the input into the first task with its id and
        stores the list with that one task replaced; rejects, writing nothing,
        when no task has the id. */
    method UpdateTask(input: UpdateTaskInput, now: string) returns (r: Result<Task>)
      modifies this`tasks
      ensures IndexOf(old(Tasks()), TaskHasId(input.id)) == -1 ==> r == Err(TaskNotFound) && tasks == old(tasks)
      ensures var i := IndexOf(old(Tasks()), TaskHasId(input.id));
              i != -1 ==> r == Ok(Merge(old(Tasks())[i], input, now)) && tasks == Stored(old(Tasks())[i := r.value])
    {
      var all := Tasks();
      var index := IndexOf(all, TaskHasId(input.id));
      if index == -1 {
        return Err(TaskNotFound);
      }
      var updated := Merge(all[index], input, now);
      tasks := SetToStorage(all[index := updated]);
      r := Ok(updated);
    }

    /** `deleteTask(id)`: removes the task and, in cascade, its subtasks and comments. */
    method DeleteTask(id: string)
      modifies this`tasks, this`subtasks, this`comments
      ensures tasks == Stored(Filter(old(Tasks()), TaskLacksId(id)))
      ensures subtasks == Stored(Filter(old(Subtasks()), SubtaskNotOf(id)))
      ensures comments == Stored(Filter(old(Comments()), CommentNotOf(id)))
    {
      var allTasks := Tasks();
      var allSubtasks := Subtasks();
      var allComments := Comments();
      tasks := SetToStorage(Filter(allTasks, TaskLacksId(id)));
      subtasks := SetToStorage(Filter(allSubtasks, SubtaskNotOf(id)));
      comments := SetToStorage(Filter(allComments, CommentNotOf(id)));
    }

    /** `createSubtask(taskId, title)`: appends an open subtask; the task is not checked. */
    method CreateSubtask(taskId: string, title: string, id: string, now: string) returns (s: Subtask)
      modifies this`subtasks
      ensures s == Subtask(id, taskId, title, false, now)
      ensures subtasks == Stored(old(Subtasks()) + [s])
    {
      var all := Subtasks();
      s := Subtask(id, taskId, title, false, now);
      subtasks := SetToStorage(all + [s]);
    }

    /** `toggleSubtask(id)`: flips the completion of the first subtask with the id;
        rejects, writing nothing, when there is none. */
    method ToggleSubtask(id: string) returns (r: Result<Subtask>)
      modifies this`subtasks
      ensures IndexOf(old(Subtasks()), SubtaskHasId(id)) == -1 ==> r == Err(SubtaskNotFound) && subtasks == old(subtasks)
      ensures var i := IndexOf(old(Subtasks()), SubtaskHasId(id));
              i != -1 ==> r == Ok(Toggled(old(Subtasks())[i])) && subtasks == Stored(old(Subtasks())[i := r.value])
    {
      var all := Subtasks();
      var index := IndexOf(all, SubtaskHasId(id));
      if index == -1 {
        return Err(SubtaskNotFound);
      }
      var flipped := Toggled(all[index]);
      subtasks := SetToStorage(all[index := flipped]);
      r := Ok(flipped);
    }

    /** `deleteSubtask(id)`: removes every subtask with the id. */
    method DeleteSubtask(id: string)
      modifies this`subtasks
      ensures subtasks == Stored(Filter(old(Subtasks()), SubtaskLacksId(id)))
    {
      var all := Subtasks();
      subtasks := SetToStorage(Filter(all, SubtaskLacksId(id)));
    }

    /** `createComment(taskId, userId, content)`: appends a comment; neither id is checked. */
    method CreateComment(taskId: string, userId: string, content: string, id: string, now: string) returns (c: Comment)
      modifies this`comments
      ensures c == Comment(id, taskId, userId, content, now)
      ensures comments == Stored(old(Comments()) + [c])
    {
      var all := Comments();
      c := Comment(id, taskId, userId, content, now);
      comments := SetToStorage(all + [c]);
    }
  }

  /** Toggling the same subtask twice restores the subtask list. */
  lemma ToggleTwiceRestores(ss: seq<Subtask>, id: string)
    requires IndexOf(ss, SubtaskHasId(id)) != -1
    ensures var i := IndexOf(ss, SubtaskHasId(id));
            var once := ss[i := Toggled(ss[i])];
            IndexOf(once, SubtaskHasId(id)) == i && once[i := Toggled(once[i])] == ss
  {
    var i := IndexOf(ss, SubtaskHasId(id));
    IndexOfAfterReplace(ss, SubtaskHasId(id), Toggled(ss[i]));
  }

  /** After seeding, the current user is the first seed user. */
  lemma SeededCurrentUser(s: TaskStore)
    requires s.users == Stored(SeedUsers) && s.currentUser == Stored(CurrentUserId)
    ensures s.GetCurrentUser() == Some(SeedUsers[0])
  {
  }
}
