# Task tracker data layer, in Dafny

This project models the client-side data layer of a small project-management
app ("TaskFlow"), found in `lib/taskflow.tsx`. That layer keeps six JSON
collections in the browser's key-value store: tasks, subtasks, comments, users,
projects and the current-user id. A seventh key holds the seeding flag. Collections are read whole through a
default-value accessor. A write operation stores the collections it changes
back whole; a read operation stores nothing. The seeding flag is read raw,
without the accessor. The layer has four parts:

- **The task validator** (`validateTask`). It collects one message per failing
  form field.
- **The storage accessor** (`getFromStorage` / `setToStorage`) and one-time
  seeding (`initializeData`).
- **The query** (`getTasks`). It applies a conjunction of optional filters,
  where the sentinel `'all'` switches a filter off. It then joins each remaining
  task with its first matching user and project and with all of its subtasks and
  comments. `getTaskById` builds the same join for a single task.
- **The repository writes.** These are create / update / delete of tasks
  (delete cascades to subtasks and comments), create / toggle / delete of
  subtasks, and create of comments.

Modules:

- `Seqs` (seqs.dfy) holds `Array.prototype.filter`, `findIndex` and `find` as
  functions over sequences, with their algebra: filters compose, filters
  distribute over appending, and the first match is unique.
- `Entities` (entities.dfy) holds the records, the seed data and the id
  predicates the lookups use.
- `Validation` (validation.dfy) holds `validateTask` as a method that fills the
  error record check by check. It also holds JavaScript's `trim` and UTF-16
  `length`.
- `Storage` (storage.dfy) holds a store entry and the read-with-default.
- `Query` (query.dfy) holds the reference filter predicate, the join, the task
  list and the lookup by id, with lemmas about them.
- `Repository` (repository.dfy) holds the class `TaskStore`. It has one field
  per store key and one method per operation. Fresh ids and the current time
  are passed in as `id` and `now`.

Identifiers, statuses and priorities are plain strings: the program compares
them as strings, and the form can hand empty ones to the data layer. Optional
properties are `Option` values, and `None` means "key absent".

A store entry (`Storage.Entry`) is one of four things:

- `Missing`: the key was never written.
- `Blank`: the key holds the empty string.
- `Malformed`: the text does not parse.
- `Stored(v)`: the value last written.

Every read falls back to its default in the first three cases.

## Model

| member | source | states |
|---|---|---|
| Validation.ValidateTask | lib/taskflow.tsx:238-254 | The result is valid iff the error record is empty. The title gets "Title is required" when it is absent or trims to nothing. Otherwise it gets "Title must be less than 200 characters" when its untrimmed UTF-16 length exceeds 200; a required-title error excludes the length error. Assignee, project, status and priority each get their "... is required" message exactly when absent or empty. The description is flagged exactly when it is present and longer than 2000. |
| Validation.TrimStart | lib/taskflow.tsx:241 | Only leading ECMAScript whitespace is dropped, and the rest is a suffix that does not start with whitespace. |
| Validation.TrimEnd | lib/taskflow.tsx:241 | Only trailing whitespace is dropped, and the rest is a prefix that does not end with whitespace. |
| Validation.Trim | lib/taskflow.tsx:241 | `trim()` leaves the contiguous block of the string between its leading and trailing whitespace; the block neither starts nor ends with whitespace. |
| Validation.TrimEmptyIffBlank | lib/taskflow.tsx:241 | `trim()` yields the empty string iff every character is whitespace. |
| Validation.Utf16Length | lib/taskflow.tsx:242 | `.length` lies between the character count and twice the character count. |
| Validation.Utf16LengthOfBmp | lib/taskflow.tsx:242 | On text without astral characters, `.length` is the character count. |
| Validation.ValidateEmptyDraft | lib/taskflow.tsx:238-254 | An empty draft is invalid, with exactly the five required-field messages and no description error. |
| Validation.ValidateOverlongTitle | lib/taskflow.tsx:241-242 | A complete draft with a 201-character title fails on the length message alone. |
| Storage.GetFromStorage | lib/taskflow.tsx:263-270 | The stored value is returned. A missing, blank or unparseable key yields the default, and the read never fails. |
| Storage.SetToStorage | lib/taskflow.tsx:272-274 | A write leaves a readable entry. |
| Storage.FlagIsSet | lib/taskflow.tsx:277-278 | The raw flag counts as set exactly when it is present and non-empty: a missing key and the empty string are falsy. |
| Storage.ReadAfterWrite | lib/taskflow.tsx:263-274 | A read after a write returns the written value, whatever the default. |
| Seqs.IndexOf | lib/taskflow.tsx:372 | `findIndex` gives -1 iff nothing matches. Otherwise it gives a matching index with no match before it. |
| Seqs.Find | lib/taskflow.tsx:336 | `find` gives the first matching element, and nothing iff no element matches. |
| Seqs.FirstMatchUnique | lib/taskflow.tsx:336 | The first-match description determines the result of `find` uniquely. |
| Seqs.Filter | lib/taskflow.tsx:392-394 | `filter` keeps exactly the elements satisfying the predicate, as an order-preserving subsequence. |
| Seqs.FilterMultiplicity | lib/taskflow.tsx:392-394 | `filter` keeps every occurrence of an accepted element and no occurrence of a rejected one. |
| Seqs.FilterThenFilter | lib/taskflow.tsx:303-322 | Filtering in sequence equals one filter by the conjunction. |
| Seqs.FilterAppend | lib/taskflow.tsx:364-365 | Filtering distributes over appending one element. |
| Seqs.IndexOfAfterReplace | lib/taskflow.tsx:381 | Replacing the first match by another matching element keeps its index. |
| Seqs.IndexOfAppend | lib/taskflow.tsx:364 | After appending, the search finds the earlier match if there is one, else the appended element if it matches. |
| Query.Lower | lib/taskflow.tsx:305-307 | `toLowerCase` keeps the length and maps each character by ASCII case folding. |
| Query.Includes | lib/taskflow.tsx:308 | `includes` holds only for a substring no longer than the text; every prefix, and the empty string, is included. |
| Query.Matches | lib/taskflow.tsx:303-322 | The reference conjunction: with no filters, or all inactive, every task matches; a matching task has the active status, project and assignee exactly. |
| Query.FilterTasks | lib/taskflow.tsx:301-322 | The listed tasks are an order-preserving subsequence of the stored ones. A task is listed iff it satisfies every active filter: case-insensitive search in title or description, status and project unless absent, empty or 'all', and assignee unless absent or empty. Each matching task appears as often as it is stored. |
| Query.InactiveFiltersListEverything | lib/taskflow.tsx:301-322 | With no filters, or all filters inactive, every task is listed in storage order. |
| Query.StatusAllIsNoFilter | lib/taskflow.tsx:311-313 | Status 'all' lists the same tasks as no status filter. |
| Query.ProjectAllIsNoFilter | lib/taskflow.tsx:315-317 | Project 'all' lists the same tasks as no project filter. |
| Query.Join | lib/taskflow.tsx:324-330 | The view keeps the task unchanged. Its user and project are the first with the referenced id, or none. Its subtasks and comments are exactly the stored ones whose task id is the task's own, in storage order, each as often as it is stored. |
| Query.JoinAll | lib/taskflow.tsx:324-330 | The list is mapped one view per task, in the same order. |
| Query.ListTasks | lib/taskflow.tsx:295-331 | The result lists the filtered tasks in order, each joined with its relations. Every view's task is stored and matches, and every stored matching task has a view. |
| Query.TaskById | lib/taskflow.tsx:334-351 | The result is null iff no stored task has the id. Otherwise it is the join of the first task with that id. |
| Query.CreatedTaskIsFound | lib/taskflow.tsx:353-368 | A task appended under a fresh id is what the lookup by that id returns. |
| Query.FreshTaskHasNoChildren | lib/taskflow.tsx:324-330 | A task no subtask or comment refers to is joined with none. |
| Query.ReplacedTaskIsFound | lib/taskflow.tsx:370-385 | After the first task with an id is replaced, the lookup returns the replacement's view. |
| Query.DeleteLeavesNoTrace | lib/taskflow.tsx:387-395 | After the cascade, the lookup of the id finds nothing, and no subtask or comment refers to it. |
| Query.DeleteAbsentIsNoOp | lib/taskflow.tsx:387-395 | Deleting an id nothing carries leaves all three collections unchanged. |
| Query.DeleteTwiceIsDeleteOnce | lib/taskflow.tsx:387-395 | The cascading delete is idempotent. |
| Query.DeleteKeepsOtherViews | lib/taskflow.tsx:387-395 | Every other task keeps exactly the subtasks and comments it had. |
| Query.DeleteSubtaskContract | lib/taskflow.tsx:425-428 | Exactly the subtasks with the id are removed and the rest stay in order. Deleting an absent id is a no-op, and the delete is idempotent. |
| Query.NewCommentComesLast | lib/taskflow.tsx:430-445 | A new comment appears last among its task's comments. |
| Query.NewSubtaskComesLast | lib/taskflow.tsx:397-412 | A new subtask appears last among its task's subtasks. |
| Query.SeedTasksOfFirstUser | lib/taskflow.tsx:169-229 | On the seed data, the assignee filter "user-1" lists task-1 and then task-3. |
| Repository.Merge | lib/taskflow.tsx:375-379 | Supplied fields override, unsupplied fields keep their values, creation time and id are kept, and the modification time is `now`. |
| Repository.EmptyUpdateOnlyTouchesTime | lib/taskflow.tsx:375-379 | An update that supplies only the id changes nothing but `updatedAt`. |
| Repository.Toggled | lib/taskflow.tsx:419 | The toggle flips `completed` and changes no other field. |
| Repository.ToggleTwiceRestores | lib/taskflow.tsx:414-423 | A second toggle of the same id finds the same index and restores the original collection. |
| Repository.TaskStore.constructor | lib/taskflow.tsx:143-151 | A fresh store has no key written and no seeding flag. |
| Repository.TaskStore.GetUsers | lib/taskflow.tsx:447-449 | The result is the stored users, or none when the key cannot be read. |
| Repository.TaskStore.GetProjects | lib/taskflow.tsx:451-453 | The result is the stored projects, or none when the key cannot be read. |
| Repository.TaskStore.GetCurrentUser | lib/taskflow.tsx:455-459 | The result is the first user whose id is the stored current-user id, falling back to "user-1", or null. |
| Repository.SeededCurrentUser | lib/taskflow.tsx:276-288 | After seeding, the current user is John Doe (user-1). |
| Repository.TaskStore.GetTaskById | lib/taskflow.tsx:334-351 | The result is null iff no stored task has the id. Otherwise it is the first stored task with that id (the one `findIndex` locates), joined with its relations. |
| Repository.TaskStore.InitializeData | lib/taskflow.tsx:276-288 | With the flag set, nothing changes. Otherwise the seed users, projects and tasks are written, with empty subtasks and comments, current user "user-1" and the flag "true". Afterwards the flag is set, so a second call changes nothing. |
| Repository.TaskStore.GetTasks | lib/taskflow.tsx:295-331 | Applying the active filters one after another gives exactly `ListTasks` over the stored collections. |
| Repository.TaskStore.CreateTask | lib/taskflow.tsx:353-368 | The new task has the given id and `createdAt == updatedAt == now`. It is appended at the end and every prior task is unchanged. |
| Repository.TaskStore.UpdateTask | lib/taskflow.tsx:370-385 | It fails with "Task not found", writing nothing, iff no task has the id. Otherwise only the first matching index is replaced, by the merge, and the length and every other index are kept. |
| Repository.TaskStore.DeleteTask | lib/taskflow.tsx:387-395 | It stores the tasks without the id and the subtasks and comments not referring to it. |
| Repository.TaskStore.CreateSubtask | lib/taskflow.tsx:397-412 | A subtask with `completed == false` is appended, with no check that the task exists. |
| Repository.TaskStore.ToggleSubtask | lib/taskflow.tsx:414-423 | It fails with "Subtask not found", writing nothing, iff no subtask has the id. Otherwise only the first match has `completed` flipped. |
| Repository.TaskStore.DeleteSubtask | lib/taskflow.tsx:425-428 | It stores the subtasks without the id. |
| Repository.TaskStore.CreateComment | lib/taskflow.tsx:430-445 | A comment is appended, with no check that the task or user exists. |

## Left out

- The browser store and JSON are not modelled as text (lib/taskflow.tsx:263-274). An entry is a typed value or one of three unreadable states. `JSON.parse` of the literal text `null`, which returns null instead of the default, is not modelled.
- `generateId` is nondeterministic (lib/taskflow.tsx:259-261), so ids are passed in as `id`. Freshness is a lemma precondition where it matters (`Query.CreatedTaskIsFound`); the operations, like the source, do not check it.
- `new Date().toISOString()` is passed in as `now`. No ordering between `createdAt` and `updatedAt` is claimed, because the code does not guarantee one.
- Query.Lower: `toLowerCase` is modelled with ASCII case folding only. Unicode case mapping is not modelled.
- Storage.SetToStorage: a failing `localStorage.setItem` (for instance on an exceeded quota, lib/taskflow.tsx:273 and 287) is not modelled; every write succeeds. The model therefore has none of the partial states such a failure leaves: a `deleteTask` that stored the tasks but not the subtasks or comments (lines 392-394), a create or update whose write was lost, or an `initializeData` that stopped before writing the flag (lines 280-287).
- Asynchrony: the operations are `async` but do not await anything between reading and writing. They are modelled as atomic, and a rejected promise is an `Err` result.
- Object spread of an explicitly `undefined` property: `UpdateTaskInput` treats an absent field and a field set to `undefined` alike (both `None`, kept). In JavaScript, a present-but-undefined key would overwrite the stored value.
- The error record of `validateTask` is a fixed record with one optional message per field instead of a string dictionary. "No keys" is "every field `None`".
- The message "Title must be less than 200 characters" accompanies a check that accepts exactly 200 characters (`> 200`, line 242), and "Description must be less than 2000 characters" (line 250) accompanies a check that accepts exactly 2000 (`> 2000`, line 249). The model follows the code in both.
- The React hooks and components (lib/taskflow.tsx:464 onwards) and the presentation-only files are not part of this model.
