/** The query filter and the relation joiner of `getTasks` and `getTaskById`
    (lib/taskflow.tsx:295-351), as pure functions over the loaded collections. */
module Query {
  import opened Seqs
  import opened Entities

  /** `toLowerCase`, restricted to ASCII: A-Z map to a-z, every other character is kept. */
  function LowerChar(c: char): (r: char)
    ensures 'A' <= c <= 'Z' ==> r as int == c as int + 32
    ensures !('A' <= c <= 'Z') ==> r == c
  {
    if 'A' <= c <= 'Z' then (c as int + 32) as char else c
  }

  function Lower(s: string): (r: string)
    ensures |r| == |s| && forall i :: 0 <= i < |s| ==> r[i] == LowerChar(s[i])
  {
    if s == [] then [] else [LowerChar(s[0])] + Lower(s[1..])
  }

  /** `s.includes(sub)`: `sub` occurs in `s` as a contiguous block. */
  predicate Includes(s: string, sub: string): (b: bool)
    ensures b ==> |sub| <= |s|
    ensures sub <= s ==> b
    ensures sub == [] ==> b
  {
    assert s[0..] == s;
    exists i :: 0 <= i <= |s| && sub <= s[i..]
  }

  /** A filter property is active when truthy (`if (filters.x)`); status and
      project filters are also switched off by the sentinel 'all'. */
  predicate IsActiveSelection(o: Option<string>) {
    IsTruthy(o) && o.value != "all"
  }

  /** The case-insensitive search on title or description. */
  predicate MatchesSearch(t: Task, search: string) {
    Includes(Lower(t.title), Lower(search)) || Includes(Lower(t.description), Lower(search))
  }

  /** The reference query: a task is listed iff it satisfies every active predicate. */
  predicate Matches(filters: Option<TaskFilters>, t: Task): (b: bool)
    ensures filters.None? || AllInactive(filters.value) ==> b
    ensures b && filters.Some? && IsActiveSelection(filters.value.status) ==> t.status == filters.value.status.value
    ensures b && filters.Some? && IsActiveSelection(filters.value.projectId) ==> t.projectId == filters.value.projectId.value
    ensures b && filters.Some? && IsTruthy(filters.value.assignedUserId) ==> t.assignedUserId == filters.value.assignedUserId.value
  {
    filters.None? ||
    var f := filters.value;
    && (IsTruthy(f.search) ==> MatchesSearch(t, f.search.value))
    && (IsActiveSelection(f.status) ==> t.status == f.status.value)
    && (IsActiveSelection(f.projectId) ==> t.projectId == f.projectId.value)
    && (IsTruthy(f.assignedUserId) ==> t.assignedUserId == f.assignedUserId.value)
  }

  function MatchesFilters(filters: Option<TaskFilters>): Task -> bool {
    (t: Task) => Matches(filters, t)
  }

  /** The single-predicate steps `getTasks` applies one after another. */
  function SearchStep(search: string): Task -> bool { (t: Task) => MatchesSearch(t, search) }
  function StatusStep(status: string): Task -> bool { (t: Task) => t.status == status }
  function ProjectStep(projectId: string): Task -> bool { (t: Task) => t.projectId == projectId }
  function AssigneeStep(userId: string): Task -> bool { (t: Task) => t.assignedUserId == userId }

  /** The tasks the query lists: an order-preserving subsequence of the stored
      tasks holding exactly the matching ones, each as often as it is stored. */
  function FilterTasks(ts: seq<Task>, filters: Option<TaskFilters>): (r: seq<Task>)
    ensures forall t :: t in r <==> t in ts && Matches(filters, t)
    ensures IsSubsequence(r, ts)
    ensures forall t :: Matches(filters, t) ==> multiset(r)[t] == multiset(ts)[t]
  {
    var r := Filter(ts, MatchesFilters(filters));
    assert forall t :: Matches(filters, t) ==> multiset(r)[t] == multiset(ts)[t] by {
      forall t | Matches(filters, t) { FilterMultiplicity(ts, MatchesFilters(filters), t); }
    }
    r
  }

  /** A filter record none of whose predicates is active. */
  predicate AllInactive(f: TaskFilters) {
    !IsTruthy(f.search) && !IsActiveSelection(f.status) && !IsActiveSelection(f.projectId) && !IsTruthy(f.assignedUserId)
  }

  /** With no filters, or with every filter switched off, every task is listed, in order. */
  lemma InactiveFiltersListEverything(ts: seq<Task>, filters: Option<TaskFilters>)
    requires filters.None? || AllInactive(filters.value)
    ensures FilterTasks(ts, filters) == ts
  {
    FilterKeepsAll(ts, MatchesFilters(filters));
  }

  /** The status sentinel 'all' lists the same tasks as leaving the status out. */
  lemma StatusAllIsNoFilter(ts: seq<Task>, f: TaskFilters)
    ensures FilterTasks(ts, Some(f.(status := Some("all")))) == FilterTasks(ts, Some(f.(status := None)))
  {
    FilterAgrees(ts, MatchesFilters(Some(f.(status := Some("all")))), MatchesFilters(Some(f.(status := None))));
  }

  /** The project sentinel 'all' lists the same tasks as leaving the project out. */
  lemma ProjectAllIsNoFilter(ts: seq<Task>, f: TaskFilters)
    ensures FilterTasks(ts, Some(f.(projectId := Some("all")))) == FilterTasks(ts, Some(f.(projectId := None)))
  {
    FilterAgrees(ts, MatchesFilters(Some(f.(projectId := Some("all")))), MatchesFilters(Some(f.(projectId := None))));
  }

  /** `tasks.find(t => t.id === id)` and the joined view `getTaskById` builds. */
  function Join(t: Task, users: seq<User>, projects: seq<Project>, subtasks: seq<Subtask>, comments: seq<Comment>): (v: TaskWithRelations)
    ensures v.task == t
    ensures IsFirstMatch(users, UserHasId(t.assignedUserId), v.assignedUser)
    ensures IsFirstMatch(projects, ProjectHasId(t.projectId), v.project)
    ensures forall s :: s in v.subtasks <==> s in subtasks && s.taskId == t.id
    ensures IsSubsequence(v.subtasks, subtasks)
    ensures forall s :: multiset(v.subtasks)[s] == if s.taskId == t.id then multiset(subtasks)[s] else 0
    ensures forall c :: c in v.comments <==> c in comments && c.taskId == t.id
    ensures IsSubsequence(v.comments, comments)
    ensures forall c :: multiset(v.comments)[c] == if c.taskId == t.id then multiset(comments)[c] else 0
  {
    assert forall s :: multiset(Filter(subtasks, SubtaskOf(t.id)))[s] == if s.taskId == t.id then multiset(subtasks)[s] else 0 by {
      forall s { FilterMultiplicity(subtasks, SubtaskOf(t.id), s); }
    }
    assert forall c :: multiset(Filter(comments, CommentOf(t.id)))[c] == if c.taskId == t.id then multiset(comments)[c] else 0 by {
      forall c { FilterMultiplicity(comments, CommentOf(t.id), c); }
    }
    TaskWithRelations(
      t,
      Find(users, UserHasId(t.assignedUserId)),
      Find(projects, ProjectHasId(t.projectId)),
      Filter(subtasks, SubtaskOf(t.id)),
      Filter(comments, CommentOf(t.id)))
  }

  /** `filteredTasks.map(...)`: one joined view per task, in the same order. */
  function JoinAll(ts: seq<Task>, users: seq<User>, projects: seq<Project>, subtasks: seq<Subtask>, comments: seq<Comment>): (r: seq<TaskWithRelations>)
    ensures |r| == |ts|
    ensures forall i :: 0 <= i < |ts| ==> r[i].task == ts[i] && r[i] == Join(ts[i], users, projects, subtasks, comments)
  {
    seq(|ts|, i requires 0 <= i < |ts| => Join(ts[i], users, projects, subtasks, comments))
  }

  /** `getTasks(filters)` on loaded collections: the matching tasks in storage
      order, each joined with its relations. */
  function ListTasks(ts: seq<Task>, users: seq<User>, projects: seq<Project>, subtasks: seq<Subtask>, comments: seq<Comment>,
                     filters: Option<TaskFilters>): (r: seq<TaskWithRelations>)
    ensures |r| == |FilterTasks(ts, filters)| <= |ts|
    ensures forall i :: 0 <= i < |r| ==> r[i].task == FilterTasks(ts, filters)[i]
    ensures forall i :: 0 <= i < |r| ==> r[i] == Join(r[i].task, users, projects, subtasks, comments)
    ensures forall v :: v in r ==> v.task in ts && Matches(filters, v.task)
    ensures forall t :: t in ts && Matches(filters, t) ==> exists v :: v in r && v.task == t
  {
    var matching := FilterTasks(ts, filters);
    var r := JoinAll(matching, users, projects, subtasks, comments);
    assert forall t :: t in ts && Matches(filters, t) ==> exists v :: v in r && v.task == t by {
      forall t | t in ts && Matches(filters, t) ensures exists v :: v in r && v.task == t {
        var i :| 0 <= i < |matching| && matching[i] == t;
        assert r[i] in r;
      }
    }
    r
  }

  /** `getTaskById(id)` on loaded collections: nothing when no task has the id,
      otherwise the joined view of the first task that has it. */
  function TaskById(ts: seq<Task>, users: seq<User>, projects: seq<Project>, subtasks: seq<Subtask>, comments: seq<Comment>,
                    id: string): (r: Option<TaskWithRelations>)
    ensures r.None? <==> forall t :: t in ts ==> t.id != id
    ensures r.Some? ==> exists i :: 0 <= i < |ts| && r.value == Join(ts[i], users, projects, subtasks, comments)
                          && ts[i].id == id && forall k :: 0 <= k < i ==> ts[k].id != id
  {
    var found := Find(ts, TaskHasId(id));
    if found.None? then None else Some(Join(found.value, users, projects, subtasks, comments))
  }

  /** A task whose id is not yet taken, appended at the end, is what a lookup of that id finds. */
  lemma CreatedTaskIsFound(ts: seq<Task>, users: seq<User>, projects: seq<Project>, subtasks: seq<Subtask>, comments: seq<Comment>, t: Task)
    requires forall x :: x in ts ==> x.id != t.id
    ensures TaskById(ts + [t], users, projects, subtasks, comments, t.id) == Some(Join(t, users, projects, subtasks, comments))
  {
    IndexOfAppend(ts, t, TaskHasId(t.id));
  }

  /** A task nothing refers to yet is joined with no subtasks and no comments. */
  lemma FreshTaskHasNoChildren(t: Task, users: seq<User>, projects: seq<Project>, subtasks: seq<Subtask>, comments: seq<Comment>)
    requires forall s :: s in subtasks ==> s.taskId != t.id
    requires forall c :: c in comments ==> c.taskId != t.id
    ensures Join(t, users, projects, subtasks, comments).subtasks == []
    ensures Join(t, users, projects, subtasks, comments).comments == []
  {
    FilterKeepsNone(subtasks, SubtaskOf(t.id));
    FilterKeepsNone(comments, CommentOf(t.id));
  }

  /** After the cascading delete no task has the id and no subtask or comment refers to it. */
  lemma DeleteLeavesNoTrace(ts: seq<Task>, users: seq<User>, projects: seq<Project>, subtasks: seq<Subtask>, comments: seq<Comment>, id: string)
    ensures TaskById(Filter(ts, TaskLacksId(id)), users, projects, Filter(subtasks, SubtaskNotOf(id)), Filter(comments, CommentNotOf(id)), id).None?
    ensures forall s :: s in Filter(subtasks, SubtaskNotOf(id)) ==> s.taskId != id
    ensures forall c :: c in Filter(comments, CommentNotOf(id)) ==> c.taskId != id
  {
  }

  /** Deleting an id that no task, subtask or comment carries changes no collection. */
  lemma DeleteAbsentIsNoOp(ts: seq<Task>, subtasks: seq<Subtask>, comments: seq<Comment>, id: string)
    requires forall t :: t in ts ==> t.id != id
    requires forall s :: s in subtasks ==> s.taskId != id
    requires forall c :: c in comments ==> c.taskId != id
    ensures Filter(ts, TaskLacksId(id)) == ts
    ensures Filter(subtasks, SubtaskNotOf(id)) == subtasks
    ensures Filter(comments, CommentNotOf(id)) == comments
  {
    FilterKeepsAll(ts, TaskLacksId(id));
    FilterKeepsAll(subtasks, SubtaskNotOf(id));
    FilterKeepsAll(comments, CommentNotOf(id));
  }

  /** Deleting the same task twice leaves what deleting it once left. */
  lemma DeleteTwiceIsDeleteOnce(ts: seq<Task>, subtasks: seq<Subtask>, comments: seq<Comment>, id: string)
    ensures Filter(Filter(ts, TaskLacksId(id)), TaskLacksId(id)) == Filter(ts, TaskLacksId(id))
    ensures Filter(Filter(subtasks, SubtaskNotOf(id)), SubtaskNotOf(id)) == Filter(subtasks, SubtaskNotOf(id))
    ensures Filter(Filter(comments, CommentNotOf(id)), CommentNotOf(id)) == Filter(comments, CommentNotOf(id))
  {
    FilterIdempotent(ts, TaskLacksId(id));
    FilterIdempotent(subtasks, SubtaskNotOf(id));
    FilterIdempotent(comments, CommentNotOf(id));
  }

  /** `deleteSubtask` removes every subtask with the id, keeps the rest in order,
      changes nothing when the id is absent and is idempotent. */
  lemma DeleteSubtaskContract(subtasks: seq<Subtask>, id: string)
    ensures forall s :: s in Filter(subtasks, SubtaskLacksId(id)) <==> s in subtasks && s.id != id
    ensures IsSubsequence(Filter(subtasks, SubtaskLacksId(id)), subtasks)
    ensures (forall s :: s in subtasks ==> s.id != id) ==> Filter(subtasks, SubtaskLacksId(id)) == subtasks
    ensures Filter(Filter(subtasks, SubtaskLacksId(id)), SubtaskLacksId(id)) == Filter(subtasks, SubtaskLacksId(id))
  {
    if forall s :: s in subtasks ==> s.id != id {
      FilterKeepsAll(subtasks, SubtaskLacksId(id));
    }
    FilterIdempotent(subtasks, SubtaskLacksId(id));
  }

  /** The cascade touches nothing but the deleted task's own records: every other
      task is joined with exactly the subtasks and comments it had. */
  lemma {:induction false} DeleteKeepsOtherViews(t: Task, users: seq<User>, projects: seq<Project>, subtasks: seq<Subtask>, comments: seq<Comment>, id: string)
    requires t.id != id
    ensures Join(t, users, projects, Filter(subtasks, SubtaskNotOf(id)), Filter(comments, CommentNotOf(id)))
         == Join(t, users, projects, subtasks, comments)
  {
    FilterThenFilter(subtasks, SubtaskNotOf(id), SubtaskOf(t.id), SubtaskOf(t.id));
    FilterThenFilter(comments, CommentNotOf(id), CommentOf(t.id), CommentOf(t.id));
  }

  /** A comment added for a task shows up last among that task's comments. */
  lemma NewCommentComesLast(t: Task, users: seq<User>, projects: seq<Project>, subtasks: seq<Subtask>, comments: seq<Comment>, c: Comment)
    requires c.taskId == t.id
    ensures Join(t, users, projects, subtasks, comments + [c]).comments == Join(t, users, projects, subtasks, comments).comments + [c]
  {
    FilterAppend(comments, c, CommentOf(t.id));
  }

  /** A subtask added for a task shows up last among that task's subtasks. */
  lemma NewSubtaskComesLast(t: Task, users: seq<User>, projects: seq<Project>, subtasks: seq<Subtask>, comments: seq<Comment>, s: Subtask)
    requires s.taskId == t.id
    ensures Join(t, users, projects, subtasks + [s], comments).subtasks == Join(t, users, projects, subtasks, comments).subtasks + [s]
  {
    FilterAppend(subtasks, s, SubtaskOf(t.id));
  }

  /** Replacing the task a lookup finds by one with the same id makes the lookup find the replacement. */
  lemma ReplacedTaskIsFound(ts: seq<Task>, users: seq<User>, projects: seq<Project>, subtasks: seq<Subtask>, comments: seq<Comment>, u: Task)
    requires IndexOf(ts, TaskHasId(u.id)) != -1
    ensures TaskById(ts[IndexOf(ts, TaskHasId(u.id)) := u], users, projects, subtasks, comments, u.id) == Some(Join(u, users, projects, subtasks, comments))
  {
    IndexOfAfterReplace(ts, TaskHasId(u.id), u);
  }

  /** The filter by assignee "user-1". */
  const FirstUserFilter: Option<TaskFilters> := Some(TaskFilters(None, None, None, Some(CurrentUserId)))

  lemma SeedAssignees()
    ensures Matches(FirstUserFilter, SeedTasks[0]) && !Matches(FirstUserFilter, SeedTasks[1])
    ensures Matches(FirstUserFilter, SeedTasks[2]) && !Matches(FirstUserFilter, SeedTasks[3])
    ensures !Matches(FirstUserFilter, SeedTasks[4])
  {
  }

  /** On the seed data, filtering by assignee "user-1" lists task-1 and then task-3. */
  lemma SeedTasksOfFirstUser()
    ensures var r := FilterTasks(SeedTasks, FirstUserFilter);
            |r| == 2 && r[0] == SeedTasks[0] && r[1] == SeedTasks[2]
  {
    var s := SeedTasks;
    var p := MatchesFilters(FirstUserFilter);
    SeedAssignees();
    assert s[4..][1..] == [];
    assert Filter(s[4..], p) == [];
    assert s[3..][1..] == s[4..];
    assert Filter(s[3..], p) == [];
    assert s[2..][1..] == s[3..];
    assert Filter(s[2..], p) == [s[2]];
    assert s[1..][1..] == s[2..];
    assert Filter(s[1..], p) == [s[2]];
    assert Filter(s, p) == [s[0]] + [s[2]];
  }
}
