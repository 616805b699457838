# To-do list tool, modelled in Dafny

A model of the command handlers of a small to-do list command-line tool
(`src/main.rs`). The tool keeps an ordered list of tasks, each a
description and a `done` flag, in one JSON file. Every command loads the
whole list first. `add`, and `done` or `remove` with a valid index, change
the list in memory and write the whole list back. `list`, and `done` or
`remove` with an invalid index, change nothing on disk. `list` prints
nothing for an empty list. Tasks are addressed by 1-based position.

- `decimal.dfy` (module `Decimal`): how an integer is printed by `{}`.
  `Show` gives its digits, `Parse` reads them back, and `ParseShow` proves
  that the two round-trip.
- `todo.dfy` (module `Todo`):
  - `Task`.
  - `Contents`, the task file: zero bytes (`Empty`) or a saved list
    (`Encoded`).
  - The list changes as functions: `Pushed`, `MarkedDone`, `Removed`.
  - The printed text: `TaskLine` (one `list` entry), `Listing` and the
    messages.
  - Lemmas on what each change and the listing promise.
  - Class `TodoFile`, whose methods are the handlers. The class holds the
    file contents. It also keeps a ghost log, `saved`, of every list passed
    to `save_tasks`. Each handler states:
    - the file contents afterwards;
    - whether a save happened, and with which list;
    - what it prints, returned as `output`, one string per `println!` call.
  - `SampleSession`: a client of the class. It calls add, add, list, done 1,
    list, remove 1, list on a fresh file and proves exactly what each call
    prints.

The command index is a `usize` (the `usize` newtype). The handlers
compute `index - 1` as a `usize` after the guard
`index == 0 || index > len`, so the verifier proves the subtraction cannot
underflow.

`add_task` stores any description, including the empty string; nothing
checks that it is non-empty.

## Model

| member | source | states |
|---|---|---|
| Decimal.Show | src/main.rs:58 | the printed position is a non-empty run of ASCII digits, with a leading `0` only for zero |
| Decimal.ParseShow | src/main.rs:58 | reading the printed digits back gives the number printed, so printing a position loses nothing |
| Decimal.ShowInjective | src/main.rs:70 | distinct indices print as distinct numbers in `Task <n> marked as done` / `Removed task <n>` |
| Todo.PushedSpec | src/main.rs:46-49 | `add` makes the list one longer, keeps every earlier task as it was, and puts `Task{description, done: false}` last |
| Todo.MarkedDoneSpec | src/main.rs:68 | marking offset `index-1` sets that task's `done` and keeps its description; length and every other task are unchanged; no flag is cleared |
| Todo.MarkedDoneIdempotent | src/main.rs:68 | marking the same valid index twice gives the same list as marking it once |
| Todo.RemovedSpec | src/main.rs:79 | removing offset `index-1` shortens the list by one; earlier tasks stay put, later ones move down one; the result is the old list less exactly that one task (as multisets) |
| Todo.AddAllSpec | src/main.rs:44-50 | a run of `add` commands appends its descriptions in order, all not done, after the tasks already there |
| Todo.ListingSpec | src/main.rs:56-58 | the listing has one printed entry per task in stored order; entry `i` is `(i+1): [x]/[ ] description`; an empty list lists nothing |
| Todo.TaskLineInjective | src/main.rs:57-58 | a printed entry determines its position, its done flag and its whole description |
| Todo.ListingAfterAdds | src/main.rs:56-58 | after adding d1..dn to an empty list, `list` prints the entries `k: [ ] dk` for k = 1..n and nothing else |
| Todo.TodoFile.constructor | src/main.rs:85-89 | a file that is opened or created starts with the given contents and no saves |
| Todo.TodoFile.Load | src/main.rs:95-99 | zero-byte contents load as the empty list; otherwise the loaded list is the one last saved |
| Todo.TodoFile.Save | src/main.rs:102-110 | the file is overwritten with the whole list, and the save is recorded |
| Todo.TodoFile.AddTask | src/main.rs:44-52 | the file afterwards holds the old list with the new task appended; exactly one save of that list; prints `Added task: <description>` |
| Todo.TodoFile.ListTasks | src/main.rs:54-60 | the loop prints exactly `Listing` of the stored list: one printed entry per stored task, in order, entry `i` being the task's entry for position `i+1`; the file is not changed |
| Todo.TodoFile.MarkDone | src/main.rs:62-71 | an index of 0 or past the end prints `Invalid task index`; the file stays byte-for-byte as it was and nothing is saved. A valid index saves the list with only that task marked done and prints `Task <index> marked as done` |
| Todo.TodoFile.RemoveTask | src/main.rs:73-82 | the same index check and invalid-index behaviour as `done`. A valid index saves the list without that task and prints `Removed task <index>`, with the original index |
| Todo.FirstListing | src/main.rs:56-58 | after adding "Buy milk" and "Write report", the listing reads `1: [ ] Buy milk`, `2: [ ] Write report` |
| Todo.SecondListing | src/main.rs:56-58 | once "Buy milk" is done, its entry reads `1: [x] Buy milk` and the other entry is unchanged |
| Todo.ThirdListing | src/main.rs:56-58 | once "Buy milk" is removed, "Write report" is listed at position 1 as `1: [ ] Write report` |
| Todo.SessionMessages | src/main.rs:51-81 | the add, done and remove messages for the sample session read `Added task: Buy milk`, `Added task: Write report`, `Task 1 marked as done`, `Removed task 1` |
| Todo.SampleSession | src/main.rs:44-82 | on a fresh file, the calls add, add, list, done 1, list, remove 1, list print exactly the stated text; the remaining task moves from position 2 to position 1 |

## Left out

- Command-line parsing (`Cli`, `Commands`, `main`, src/main.rs:7-34): argument parsing is done by the `clap` library. The four handlers are modelled as methods called directly.
- JSON encoding and decoding (`serde_json`): the file holds `Encoded(tasks)` in place of the JSON text. The model assumes a saved list loads back unchanged and does not model the JSON format or its field names.
- Opening, reading, truncating and writing the file (`OpenOptions`, `read_to_string`, `write_all`): these are operating-system calls. A file that did not exist is created empty, which is the `Empty` contents.
- The `.expect(...)` aborts on I/O or parse failure: load and save are total in the model. Malformed file contents are not modelled.
- `println!`: each handler returns what it prints instead of writing it to standard output. Each returned string is the text of one `println!` call, without its trailing newline.
- Output lines: a description may contain a newline, because `add` stores any text. That task's `list` entry then spans several lines of output. So "one entry per task" and "an entry determines its task" hold for the `println!` calls, not for the lines a reader sees. For example, the single task `a\n2: [ ] b` and the two tasks `a`, `b` print the same text.
- Todo.TodoFile.ListTasks: positions are unbounded integers. The source computes `i + 1` as a `usize`, which cannot overflow for any list that fits in memory.
- Concurrent runs of the tool on the same file: the tool does no locking, and the last write wins.
