# Verified model of two in-memory record stores

The repository holds two small HTTP CRUD services. Each keeps its records in
an ordered list in process memory.

- **Tasks** (`cd/main.py`). A `Database` object holds the list of tasks and a
  counter `_next_id`. `add` gives each new task the counter's value as its
  id, then increments the counter. `get_by_id` scans the list and raises 404
  "Task not found". `update` is a partial update: only a truthy title or
  description overwrites the stored one. `delete` removes the task with
  `list.remove`. `mark_complete` sets the completion flag. `search` filters
  the list by a case-insensitive substring match on title or description.
  The `PATCH /tasks` handler answers 422 "At least one field is required to
  update" when neither field is truthy, and it does so before any lookup.
- **Stories** (`app.py`). A module-level list `stories_db` is changed by
  `create_story` (the client's id is replaced by a fresh one and the story is
  appended), `replace_story`, `patch_story` (a `dict.update` merge) and
  `delete_story`. Each lookup handler raises its 404 inside the loop body,
  level with the `if`. So only the first story is ever compared, and on an
  empty list the handler falls off its end and returns `None`. The model
  keeps that behaviour. It also sets beside it the whole-list scan the
  handlers evidently intend (see Findings).

Modules:

- `Outcomes` (`outcomes.dfy`): `Option`, and `Response`, the outcome of a
  handler: `Ok`, `NotFound` (404), `Unprocessable` (422) or `NoResponse`.
- `Text` (`text.dfy`): ASCII lower-casing and Python's substring test
  `sub in s`.
- `Tasks` (`tasks.dfy`): the `Database` class over a `seq<Task>` field and the
  counter, with the specification functions its methods are proved against
  (`FindIndex`, `Revised`, `Completed`, `RemoveFirst`, `Select`), the
  `UpdateTask` handler, and lemmas.
- `Stories` (`stories.dfy`): the `StoryStore` class over a `seq<Story>` field,
  the as-written and the intended scans, the patch merge, and lemmas.

The store invariant `Database.Valid` says four things. The counter is at least
1. Every id ever handed out (the ghost set `issued`) is below the counter.
Every stored id was handed out. Ids increase strictly along the list, so they
are pairwise distinct. Every mutating method preserves the invariant. `Add`
also states that the id it hands out was never handed out before, so a
deleted id is never reused.

## Model

| member | source | states |
|---|---|---|
| `Tasks.Database.constructor` | cd/main.py:24-26 | a new store is empty, its counter is 1, no id has been handed out, and the invariant holds |
| `Tasks.Database.Add` | cd/main.py:28-39 | the new task has the old counter as id, the given title and description, both timestamps at the clock reading, and is not completed; it is appended with earlier tasks unchanged; the counter grows by one; its id was never issued before; the invariant is kept |
| `Tasks.Database.GetAll` | cd/main.py:41-42 | returns the stored tasks in insertion order and changes nothing |
| `Tasks.FindIndex` | cd/main.py:44-48 | the position the scan stops at is the first task carrying the id; none means that no task carries it |
| `Tasks.Database.Lookup` | cd/main.py:45-47 | the early-return loop finds exactly the first position holding the id, or reports none |
| `Tasks.Database.GetById` | cd/main.py:44-48 | succeeds if and only if some stored task has the id, and then returns the first stored task with that id (the only one, under the store invariant); otherwise it is 404 "Task not found" |
| `Tasks.Truthy` | cd/main.py:52-54 | Python truthiness of an optional string, as in `if task_update.title:` and the 422 guard at cd/main.py:97: `None` and `""` are falsy, every other string is truthy |
| `Tasks.Revised` | cd/main.py:52-56 | a truthy title or description replaces the stored one and a falsy one (None or empty) keeps it; id, creation time and completion flag stay; the update time is the clock reading |
| `Tasks.Database.Update` | cd/main.py:50-57 | an unknown id gives 404 and no change; otherwise only the found task is revised in place, with length, order and all other tasks unchanged; the counter and the invariant are kept |
| `Tasks.UpdateTask` | cd/main.py:95-102 | with neither field truthy the answer is 422 "At least one field is required to update" and nothing changes, even for an unknown id; otherwise the outcome is that of `update` |
| `Tasks.FirstEqual` | cd/main.py:61 | the position `list.remove` deletes: an element equal to the removed value, with no equal element before it |
| `Tasks.RemoveFirst` | cd/main.py:61 | `list.remove` drops exactly one occurrence of the element: the length falls by one and the multiset of tasks loses that element |
| `Tasks.RemoveFirstAt` | cd/main.py:61 | when no earlier element equals the one at position i, `list.remove` of it removes position i and keeps the order of the rest |
| `Tasks.RemoveAtKeepsIds` | cd/main.py:59-61 | removing one position keeps ids increasing and leaves only tasks that were stored before |
| `Tasks.RemoveFirstAtFound` | cd/main.py:59-61 | removing the task `get_by_id` returned removes exactly the position the scan found |
| `Tasks.Database.Delete` | cd/main.py:59-61 | an unknown id gives 404 and no change; otherwise exactly the found task is removed and the others keep their order; the counter is not lowered and the invariant is kept |
| `Tasks.Completed` | cd/main.py:65-66 | the task becomes completed with the clock reading as update time; id, title, description and creation time stay |
| `Tasks.Database.MarkComplete` | cd/main.py:63-67 | an unknown id gives 404 and no change; otherwise only the found task is marked completed in place, with all other tasks unchanged |
| `Tasks.MarkCompleteTwice` | cd/main.py:63-67 | a second `mark_complete` of the same id finds the same task and leaves the same store as a single call at the later time: the operation is idempotent |
| `Tasks.Matches` | cd/main.py:73 | the comprehension's condition: the lower-cased title or the lower-cased description contains the query; the empty query matches every task, and a match needs a field at least as long as the query |
| `Tasks.Select` | cd/main.py:71-74 | the filter keeps exactly the tasks of the list that match, and is no longer than the list |
| `Tasks.Database.Search` | cd/main.py:69-74 | a task is in the answer exactly when it is stored and its lower-cased title or description contains the lower-cased query; the store is only read |
| `Tasks.SelectAppend` | cd/main.py:71-74 | the filter distributes over concatenation, so matches come out in store order |
| `Tasks.SelectEmptyQuery` | cd/main.py:69-74 | `search("")` returns every task, in order |
| `Tasks.SearchCaseInsensitive` | cd/main.py:70 | a query and its lower-cased form give the same answer |
| `Tasks.SearchFindsOccurrence` | cd/main.py:73 | a stored task whose title or description holds the query at some position, ignoring case, is found by `search` |
| `Tasks.IdsDistinct` | cd/main.py:24-39 | under the store invariant no two stored tasks share an id |
| `Tasks.FindIndexSameIds` | cd/main.py:50-67 | an update that keeps every id in place keeps every lookup result |
| `Tasks.FindIndexAfterAdd` | cd/main.py:28-48 | a task appended with an id above all stored ones is found at the end, so `get_by_id` right after `add` returns the added task |
| `Tasks.FindIndexAfterDelete` | cd/main.py:44-61 | after `delete` removes the task found for an id, no task carries that id, so `get_by_id` gives 404 |
| `Text.LowerChar` | cd/main.py:70 | the result is never an upper-case letter, and only upper-case letters change, each to its lower-case letter |
| `Text.Lower` | cd/main.py:70 | lower-casing keeps the length and lower-cases each character |
| `Text.LowerIdempotent` | cd/main.py:70 | lower-casing twice is lower-casing once |
| `Text.Contains` | cd/main.py:73 | Python's `sub in s` on strings: the empty string is in every string, and a contained string is no longer than the one containing it |
| `Text.ContainsIffOccurs` | cd/main.py:73 | `sub in s` holds exactly when `sub` occurs in `s` at some position |
| `Stories.StoryStore.constructor` | app.py:13 | the store starts empty |
| `Stories.StoryStore.CreateStory` | app.py:15-19 | the stored story has the fresh id whatever id the client sent, keeps the client's title and content, and is appended with earlier stories unchanged |
| `Stories.StoryStore.GetAllStories` | app.py:21-23 | returns the whole list in insertion order and changes nothing |
| `Stories.HeadOnly` | app.py:27-30 | the test the as-written loop reduces to: an empty list gives no answer, otherwise the first story alone decides between a hit at position 0 and a 404; the rest of the list never matters |
| `Stories.StoryStore.ScanAsWritten` | app.py:27-30 | the loop as written is the test of index 0 alone: a match there is a hit at 0, any other first story is a 404, and an empty list gives no answer |
| `Stories.FindStory` | app.py:27-30 | the intended scan finds the first story carrying the id, and misses only when no story does |
| `Stories.StoryStore.ScanWhole` | app.py:27-30 | the loop with its 404 after the loop finds exactly what the intended scan finds |
| `Stories.StoryStore.GetStory` | app.py:25-30 | empty list: no response; first story matches: that story; otherwise 404 "story not found", even if a later story matches |
| `Stories.StoryStore.ReplaceStory` | app.py:32-39 | on a match, the new story with its id forced to the path id takes the matched place and is returned; the length and all other stories stay; a 404 or no response leaves the list unchanged |
| `Stories.Merge` | app.py:45-47 | every field the patch holds, id included, is overwritten, and every other field is kept |
| `Stories.StoryStore.PatchStory` | app.py:41-49 | on a match, the stored story is replaced by its merge with the patch and returned; the other stories stay; a 404 or no response leaves the list unchanged |
| `Stories.StoryStore.DeleteStory` | app.py:51-57 | on a match, the matched story is popped and "Story deleted" returned; a 404 or no response leaves the list unchanged |
| `Stories.HeadOnlyAgreesIff` | app.py:27-30 | the as-written scan agrees with the intended one exactly when the list is non-empty and its first story carries the id or no story does |
| `Stories.AsWrittenMissesSecondStory` | app.py:27-30 | with stories `a` and `b`, looking up `b` gives 404 as written, while the intended scan finds it at position 1 |
| `Stories.MergeEmptyPatch` | app.py:45-47 | an empty patch leaves the story unchanged |
| `Stories.MergeThen` | app.py:45-47 | two patches in a row act as one patch whose later keys win |
| `Stories.MergeIdempotent` | app.py:45-47 | applying the same patch twice is applying it once |

`Tasks.AddDeleteScenario` is a client of the `Database` contracts. It adds
two tasks, checks that they get ids 1 and 2, deletes task 1, and checks that
task 1 is then not found while task 2 still is.
`Stories.CreateGetScenario` is a client of the `StoryStore` contracts. It
creates two stories with different fresh ids, and checks that getting the
second one answers 404 while the first one is still found.

## Left out

- The FastAPI layer is not modelled: routing, status-code plumbing and the
  response envelopes (`success`, `data`, `message`). This covers the
  `create_task`, `get_tasks`, `delete_task` and `complete_task` wrappers
  around the `Database` methods, and the `index` handler (cd/main.py:78-80).
  Their error paths are the store's, which are modelled.
- Pydantic validation and coercion are not modelled. For a patch this means
  two things. `Story(**data)` would reject ill-typed values (app.py:47), and
  it ignores unknown keys. A patch is modelled as optional `id`, `title` and
  `content` fields.
- `datetime.utcnow()` is an outside clock, so it becomes a parameter `now`.
- `Tasks.Database.Add`: `add` reads the clock twice (cd/main.py:33-34), and
  the model uses one reading for both timestamps. "Update time not before
  creation time" depends on the clock, so it is not stated.
- `uuid4()` is an outside random source, so it becomes a parameter
  `freshId`. Its uniqueness is only an assumption about `uuid4`, so the story
  store has no distinct-id invariant. A patch may even set an id that is
  already in use.
- `str.lower()` is modelled on ASCII letters only; Unicode case mapping is
  not modelled.
- Aliasing is not modelled: `get_all` hands out the internal list, and
  `get_by_id` hands out a live task that `update` and `mark_complete` then
  mutate. Tasks are values in a sequence updated by position, which gives
  the same store contents.
- The four story handlers each repeat the same lookup loop. The model
  writes that loop once, as `ScanAsWritten`, and each handler calls it.
- `list.remove` raising `ValueError` is not modelled: `delete` only calls
  it on a task that is in the list.
- There is no concurrency in the code, so none is modelled.

## Findings

| source | as written | input that shows it | evidently intended | confidence | as-written member | corrected member |
|---|---|---|---|---|---|---|
| app.py:27-30, 34-39, 43-49, 53-57 | the 404 `raise` is in the `for` body, level with the `if`, so the loop stops after comparing the first story; on an empty list the handler returns `None` | stories with ids `a` then `b`, and a lookup of `b`: the answer is 404 (the same happens to `get` right after creating a second story); an empty list gives no response instead of 404 | raise the 404 after the loop, once no story in the whole list matched | high (not executed) | `Stories.AsWrittenMissesSecondStory` | `Stories.StoryStore.ScanWhole` |

The handlers in `Stories` keep the as-written scan, because they model the
program as it stands. `ScanWhole` is the corrected loop, proved against
`FindStory`. `HeadOnlyAgreesIff` states exactly when the two give the same
answer.
