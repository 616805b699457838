/** The to-do list command-line tool: a list of tasks kept in one file and
    read whole at the start of each command. `add`, and `done` or `remove`
    with a valid index, change it in memory and write it back whole; `list`
    and a refused index leave the file alone. Tasks are addressed by their
    1-based position in the list. */
module Todo {
  import Decimal

  /** Rust's `usize` on a 64-bit target: the type of a command's index argument. */
  newtype usize = x: int | 0 <= x < 0x1_0000_0000_0000_0000

  datatype Task = Task(description: string, done: bool)

  /** What the task file holds. `Empty` is a zero-byte file (also what a file
      that did not exist is created as); `Encoded(ts)` is the JSON encoding of
      the list `ts` written by a previous save. The encoding itself is not
      modelled: a saved list is read back as it was written. */
  datatype Contents = Empty | Encoded(tasks: seq<Task>)

  /** The list that loading the file yields. */
  function Decoded(c: Contents): (ts: seq<Task>) {
    match c
    case Empty => []
    case Encoded(ts) => ts
  }

  // ---------------------------------------------------------------------
  // The list changes the commands make

  /** The index check shared by `done` and `remove`: position 0 and positions
      past the end of a list of length n are refused. */
  predicate Invalid(index: int, n: nat) {
    index == 0 || index > n
  }

  /** `add`: a new, not yet done task at the end. */
  function Pushed(ts: seq<Task>, description: string): (r: seq<Task>) {
    ts + [Task(description, false)]
  }

  /** `done`: the task at 0-based offset k marked as done. */
  function MarkedDone(ts: seq<Task>, k: nat): (r: seq<Task>)
    requires k < |ts|
  {
    ts[k := ts[k].(done := true)]
  }

  /** `remove`: the task at 0-based offset k taken out. */
  function Removed(ts: seq<Task>, k: nat): (r: seq<Task>)
    requires k < |ts|
  {
    ts[..k] + ts[k + 1..]
  }

  /** The list after the `add` commands for ds, in order, starting from ts. */
  function AddAll(ts: seq<Task>, ds: seq<string>): (r: seq<Task>)
    decreases |ds|
  {
    if ds == [] then ts else AddAll(Pushed(ts, ds[0]), ds[1..])
  }

  // ---------------------------------------------------------------------
  // What the commands print. Each string is the text of one `println!`
  // call, without its newline; a description that itself holds a newline
  // makes that text span several lines of output.

  const InvalidIndexMessage: string := "Invalid task index"

  function AddedMessage(description: string): (m: string) {
    "Added task: " + description
  }

  function DoneMessage(index: usize): (m: string) {
    "Task " + Decimal.Show(index as nat) + " marked as done"
  }

  function RemovedMessage(index: usize): (m: string) {
    "Removed task " + Decimal.Show(index as nat)
  }

  function StatusMark(done: bool): (mark: string) {
    if done then "[x]" else "[ ]"
  }

  /** The entry `list` prints for task t at 1-based position pos. */
  function TaskLine(pos: nat, t: Task): (line: string) {
    Decimal.Show(pos) + ": " + StatusMark(t.done) + " " + t.description
  }

  /** Everything `list` prints for ts, one entry per task. */
  function Listing(ts: seq<Task>): (entries: seq<string>) {
    if ts == [] then [] else Listing(ts[..|ts| - 1]) + [TaskLine(|ts|, ts[|ts| - 1])]
  }

  // ---------------------------------------------------------------------
  // Properties of the list changes

  /** Adding keeps every earlier task and puts a not-done task with the given
      description last. */
  lemma PushedSpec(ts: seq<Task>, description: string)
    ensures |Pushed(ts, description)| == |ts| + 1
    ensures Pushed(ts, description)[..|ts|] == ts
    ensures Pushed(ts, description)[|ts|] == Task(description, false)
  {
  }

  /** Marking sets the one flag at offset k and changes nothing else; no flag
      is ever cleared. */
  lemma MarkedDoneSpec(ts: seq<Task>, k: nat)
    requires k < |ts|
    ensures |MarkedDone(ts, k)| == |ts|
    ensures MarkedDone(ts, k)[k] == Task(ts[k].description, true)
    ensures forall j :: 0 <= j < |ts| && j != k ==> MarkedDone(ts, k)[j] == ts[j]
    ensures forall j :: 0 <= j < |ts| ==> MarkedDone(ts, k)[j].description == ts[j].description
    ensures forall j :: 0 <= j < |ts| && ts[j].done ==> MarkedDone(ts, k)[j].done
  {
  }

  /** Marking the same task twice is the same as marking it once. */
  lemma MarkedDoneIdempotent(ts: seq<Task>, k: nat)
    requires k < |ts|
    ensures MarkedDone(MarkedDone(ts, k), k) == MarkedDone(ts, k)
  {
  }

  /** Removing drops exactly one task; the ones before it keep their
      positions and the ones after it move down by one. */
  lemma RemovedSpec(ts: seq<Task>, k: nat)
    requires k < |ts|
    ensures |Removed(ts, k)| == |ts| - 1
    ensures forall j :: 0 <= j < k ==> Removed(ts, k)[j] == ts[j]
    ensures forall j :: k <= j < |ts| - 1 ==> Removed(ts, k)[j] == ts[j + 1]
    ensures multiset(Removed(ts, k)) + multiset{ts[k]} == multiset(ts)
  {
    assert ts == ts[..k] + [ts[k]] + ts[k + 1..];
  }

  /** A run of `add` commands appends its descriptions, in order, all not done. */
  lemma {:induction false} AddAllSpec(ts: seq<Task>, ds: seq<string>)
    ensures |AddAll(ts, ds)| == |ts| + |ds|
    ensures AddAll(ts, ds)[..|ts|] == ts
    ensures forall i :: 0 <= i < |ds| ==> AddAll(ts, ds)[|ts| + i] == Task(ds[i], false)
    decreases |ds|
  {
    if ds != [] {
      var ts' := Pushed(ts, ds[0]);
      AddAllSpec(ts', ds[1..]);
      assert AddAll(ts, ds) == AddAll(ts', ds[1..]);
      assert AddAll(ts, ds)[..|ts|] == AddAll(ts', ds[1..])[..|ts'|][..|ts|];
      forall i | 0 <= i < |ds|
        ensures AddAll(ts, ds)[|ts| + i] == Task(ds[i], false)
      {
        if i > 0 {
          assert AddAll(ts, ds)[|ts| + i] == AddAll(ts', ds[1..])[|ts'| + (i - 1)];
        } else {
          assert AddAll(ts, ds)[|ts|] == AddAll(ts', ds[1..])[..|ts'|][|ts|];
        }
      }
    }
  }

  // ---------------------------------------------------------------------
  // Properties of what `list` prints

  /** `list` prints one entry per task, in stored order, entry i for the task
      at 0-based offset i with position i + 1. */
  lemma {:induction false} ListingSpec(ts: seq<Task>)
    ensures |Listing(ts)| == |ts|
    ensures forall i :: 0 <= i < |ts| ==> Listing(ts)[i] == TaskLine(i + 1, ts[i])
  {
    if ts != [] {
      var init := ts[..|ts| - 1];
      ListingSpec(init);
      forall i | 0 <= i < |ts| ensures Listing(ts)[i] == TaskLine(i + 1, ts[i]) {
        if i < |init| {
          assert ts[i] == init[i];
        }
      }
    }
  }

  /** A run of digits ends where a colon starts: two such splittings of one
      string are the same splitting. */
  lemma SplitAtColon(a: string, x: string, b: string, y: string)
    requires Decimal.AllDigits(a) && Decimal.AllDigits(b)
    requires |x| > 0 && x[0] == ':' && |y| > 0 && y[0] == ':'
    requires a + x == b + y
    ensures a == b && x == y
  {
    Decimal.LeadingDigitsOf(a, x);
    Decimal.LeadingDigitsOf(b, y);
    assert a == (a + x)[..|a|] && b == (b + y)[..|b|];
    assert x == (a + x)[|a|..] && y == (b + y)[|b|..];
  }

  /** What follows the position in a `list` entry. */
  function LineTail(t: Task): (tail: string) {
    ": " + StatusMark(t.done) + " " + t.description
  }

  /** An entry is the position's digits followed by its tail. */
  lemma LineParts(pos: nat, t: Task)
    ensures TaskLine(pos, t) == Decimal.Show(pos) + LineTail(t)
  {
  }

  /** Where the flag and the description sit in the tail of an entry. */
  lemma LineTailParts(t: Task)
    ensures |LineTail(t)| == 6 + |t.description|
    ensures LineTail(t)[0] == ':'
    ensures LineTail(t)[3] == (if t.done then 'x' else ' ')
    ensures LineTail(t)[6..] == t.description
  {
  }

  /** Different (position, task) pairs print as different entries: an entry
      determines the position, the flag and the whole description. */
  lemma TaskLineInjective(p: nat, t: Task, q: nat, u: Task)
    requires TaskLine(p, t) == TaskLine(q, u)
    ensures p == q && t == u
  {
    LineParts(p, t);
    LineParts(q, u);
    LineTailParts(t);
    LineTailParts(u);
    SplitAtColon(Decimal.Show(p), LineTail(t), Decimal.Show(q), LineTail(u));
    Decimal.ShowInjective(p, q);
  }

  /** The entry of a task that is not done. */
  lemma UndoneLine(pos: nat, d: string)
    ensures TaskLine(pos, Task(d, false)) == Decimal.Show(pos) + ": [ ] " + d
  {
    var show := Decimal.Show(pos);
    assert TaskLine(pos, Task(d, false)) == show + ": " + "[ ]" + " " + d;
    assert show + ": " + "[ ]" + " " + d == show + ": [ ] " + d;
  }

  /** The listing of tasks none of which is done, with descriptions ds. */
  lemma ListingUndone(ts: seq<Task>, ds: seq<string>)
    requires |ts| == |ds|
    requires forall i :: 0 <= i < |ts| ==> ts[i] == Task(ds[i], false)
    ensures |Listing(ts)| == |ds|
    ensures forall i :: 0 <= i < |ds| ==> Listing(ts)[i] == Decimal.Show(i + 1) + ": [ ] " + ds[i]
  {
    ListingSpec(ts);
    forall i | 0 <= i < |ds|
      ensures Listing(ts)[i] == Decimal.Show(i + 1) + ": [ ] " + ds[i]
    {
      UndoneLine(i + 1, ds[i]);
    }
  }

  /** The entries `list` prints after `add` for each of ds on an empty list:
      positions 1 to |ds|, all not done, descriptions in order. */
  lemma ListingAfterAdds(ds: seq<string>)
    ensures |Listing(AddAll([], ds))| == |ds|
    ensures forall i :: 0 <= i < |ds| ==>
              Listing(AddAll([], ds))[i] == Decimal.Show(i + 1) + ": [ ] " + ds[i]
  {
    AddAllSpec([], ds);
    ListingUndone(AddAll([], ds), ds);
  }

  // ---------------------------------------------------------------------
  // The task file and the four commands

  class TodoFile {
    /** What the task file holds now. */
    var contents: Contents
    /** Every list passed to `save_tasks`, oldest first. */
    ghost var saved: seq<seq<Task>>

    constructor (initial: Contents)
      ensures contents == initial && saved == []
    {
      contents := initial;
      saved := [];
    }

    /** `load_tasks`: a zero-byte file reads as the empty list, anything
        else as the list it encodes. */
    method Load() returns (ts: seq<Task>)
      ensures contents.Empty? ==> ts == []
      ensures contents.Encoded? ==> ts == contents.tasks
    {
      if contents.Empty? {
        ts := [];
      } else {
        ts := contents.tasks;
      }
    }

    /** `save_tasks`: the file is overwritten with the whole list. */
    method Save(ts: seq<Task>)
      modifies this
      ensures contents == Encoded(ts)
      ensures saved == old(saved) + [ts]
    {
      contents := Encoded(ts);
      saved := saved + [ts];
    }

    /** `add <task>` */
    method AddTask(description: string) returns (output: seq<string>)
      modifies this
      ensures contents == Encoded(Pushed(Decoded(old(contents)), description))
      ensures saved == old(saved) + [Decoded(contents)]
      ensures output == [AddedMessage(description)]
    {
      var tasks := Load();
      tasks := tasks + [Task(description, false)];
      Save(tasks);
      output := [AddedMessage(description)];
    }

    /** `list` */
    method ListTasks() returns (output: seq<string>)
      ensures output == Listing(Decoded(contents))
      ensures |output| == |Decoded(contents)|
      ensures forall i :: 0 <= i < |output| ==> output[i] == TaskLine(i + 1, Decoded(contents)[i])
    {
      var tasks := Load();
      output := [];
      var i := 0;
      while i < |tasks|
        invariant 0 <= i <= |tasks|
        invariant |output| == i
        invariant forall j :: 0 <= j < i ==> output[j] == TaskLine(j + 1, tasks[j])
      {
        var status := if tasks[i].done then "[x]" else "[ ]";
        output := output + [Decimal.Show(i + 1) + ": " + status + " " + tasks[i].description];
        i := i + 1;
      }
      ListingSpec(tasks);
    }

    /** `done <index>` */
    method MarkDone(index: usize) returns (output: seq<string>)
      modifies this
      ensures Invalid(index as int, |Decoded(old(contents))|) ==>
                contents == old(contents) && saved == old(saved) && output == [InvalidIndexMessage]
      ensures !Invalid(index as int, |Decoded(old(contents))|) ==>
                contents == Encoded(MarkedDone(Decoded(old(contents)), index as nat - 1)) &&
                saved == old(saved) + [Decoded(contents)] &&
                output == [DoneMessage(index)]
    {
      var tasks := Load();
      if index == 0 || index as int > |tasks| {
        output := [InvalidIndexMessage];
        return;
      }
      var k: usize := index - 1;
      tasks := tasks[k := tasks[k].(done := true)];
      Save(tasks);
      output := [DoneMessage(index)];
    }

    /** `remove <index>` */
    method RemoveTask(index: usize) returns (output: seq<string>)
      modifies this
      ensures Invalid(index as int, |Decoded(old(contents))|) ==>
                contents == old(contents) && saved == old(saved) && output == [InvalidIndexMessage]
      ensures !Invalid(index as int, |Decoded(old(contents))|) ==>
                contents == Encoded(Removed(Decoded(old(contents)), index as nat - 1)) &&
                saved == old(saved) + [Decoded(contents)] &&
                output == [RemovedMessage(index)]
    {
      var tasks := Load();
      if index == 0 || index as int > |tasks| {
        output := [InvalidIndexMessage];
        return;
      }
      var k: usize := index - 1;
      tasks := tasks[..k] + tasks[k + 1..];
      Save(tasks);
      output := [RemovedMessage(index)];
    }
  }

  // The entries `list` prints in the sample session below, spelled out one
  // per lemma (together they make one proof too costly).

  lemma MilkUndoneLine()
    ensures TaskLine(1, Task("Buy milk", false)) == "1: [ ] Buy milk"
  {
    assert Decimal.Show(1) == "1";
  }

  lemma MilkDoneLine()
    ensures TaskLine(1, Task("Buy milk", true)) == "1: [x] Buy milk"
  {
    assert Decimal.Show(1) == "1";
  }

  lemma ReportSecondLine()
    ensures TaskLine(2, Task("Write report", false)) == "2: [ ] Write report"
  {
    assert Decimal.Show(2) == "2";
  }

  lemma ReportFirstLine()
    ensures TaskLine(1, Task("Write report", false)) == "1: [ ] Write report"
  {
    assert Decimal.Show(1) == "1";
  }

  /** The listing after adding "Buy milk" and "Write report". */
  lemma FirstListing()
    ensures Listing([Task("Buy milk", false), Task("Write report", false)])
            == ["1: [ ] Buy milk", "2: [ ] Write report"]
  {
    var ts := [Task("Buy milk", false), Task("Write report", false)];
    ListingSpec(ts);
    MilkUndoneLine();
    ReportSecondLine();
    assert Listing(ts) == [Listing(ts)[0], Listing(ts)[1]];
  }

  /** The listing after marking "Buy milk" done. */
  lemma SecondListing()
    ensures Listing([Task("Buy milk", true), Task("Write report", false)])
            == ["1: [x] Buy milk", "2: [ ] Write report"]
  {
    var ts := [Task("Buy milk", true), Task("Write report", false)];
    ListingSpec(ts);
    MilkDoneLine();
    ReportSecondLine();
    assert Listing(ts) == [Listing(ts)[0], Listing(ts)[1]];
  }

  /** The listing after removing "Buy milk": "Write report" moves to position 1. */
  lemma ThirdListing()
    ensures Listing([Task("Write report", false)]) == ["1: [ ] Write report"]
  {
    var ts := [Task("Write report", false)];
    ListingSpec(ts);
    ReportFirstLine();
    assert Listing(ts) == [Listing(ts)[0]];
  }

  /** The messages the other commands print in the sample session below. */
  lemma SessionMessages()
    ensures AddedMessage("Buy milk") == "Added task: Buy milk"
    ensures AddedMessage("Write report") == "Added task: Write report"
    ensures DoneMessage(1) == "Task 1 marked as done"
    ensures RemovedMessage(1) == "Removed task 1"
  {
    assert Decimal.Show(1) == "1";
  }

  /** A sample session on a fresh, empty task file: calls add twice, list,
      done 1, list, remove 1, list, and returns what each call prints. */
  method SampleSession()
    returns (added1: seq<string>, added2: seq<string>, first: seq<string>, marked: seq<string>,
             second: seq<string>, removed: seq<string>, third: seq<string>)
    ensures added1 == ["Added task: Buy milk"]
    ensures added2 == ["Added task: Write report"]
    ensures first == ["1: [ ] Buy milk", "2: [ ] Write report"]
    ensures marked == ["Task 1 marked as done"]
    ensures second == ["1: [x] Buy milk", "2: [ ] Write report"]
    ensures removed == ["Removed task 1"]
    ensures third == ["1: [ ] Write report"]
  {
    var file := new TodoFile(Empty);
    added1 := file.AddTask("Buy milk");
    added2 := file.AddTask("Write report");
    assert file.contents == Encoded([Task("Buy milk", false), Task("Write report", false)]);
    first := file.ListTasks();
    FirstListing();
    marked := file.MarkDone(1);
    assert file.contents == Encoded([Task("Buy milk", true), Task("Write report", false)]);
    second := file.ListTasks();
    SecondListing();
    removed := file.RemoveTask(1);
    assert file.contents == Encoded([Task("Write report", false)]);
    third := file.ListTasks();
    ThirdListing();
    SessionMessages();
  }
}
