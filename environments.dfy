/** The task store of `src/environment.rs`. Everything grill keeps lives
    under `.grill/`: the global `config.toml`, the `current_task` pointer
    file and one directory per task under `tasks/`. The model keeps that
    tree as a value (`Disk`) and each operation as a transition on it;
    the `Environment` class holds the tree in its fields and its methods
    perform the transitions in place. */
module Environments {
  import opened Outcomes
  import opened Text
  import opened Configuration

  // ---------------------------------------------------------------------
  // The tree under `.grill/`

  /** The contents of a task's markdown file: one of the templates
      `create_task` writes, or any other text the user put there.
      `DocumentText` gives the text. */
  datatype Document = InstructionsTemplate | StateTemplate | Edited(text: string)

  /** The files of one task directory. */
  datatype TaskFiles = TaskFiles(instructions: Option<Document>, state: Option<Document>, config: StoredFile<TaskConfig>)

  /** An entry of `.grill/tasks/`: a task directory, or a plain file that
      happens to sit there. */
  datatype Node = TaskDirectory(files: TaskFiles) | PlainFile
  datatype Entry = Entry(name: string, node: Node)

  /** `.grill/tasks/` itself: missing, a directory with its entries (in the
      order `read_dir` yields them), or a plain file in the way. */
  datatype TasksDir = NoTasksDir | TasksDirectory(entries: seq<Entry>) | TasksFile

  datatype Disk = Disk(
    grillDir: bool,
    tasks: TasksDir,
    config: StoredFile<Config>,
    pointer: Option<string>)

  /** The abstract path `get_task_dir` returns. */
  datatype TaskPath = TaskPath(name: string)

  /** What the written default files hold. The global file is the TOML
      text `init` writes, recorded by what it parses to; `config.toml` of a
      new task parses to `cli = "q chat"` and no hooks. */
  function DocumentText(doc: Document): string
  {
    match doc
    case InstructionsTemplate => "# Task Instructions\n\nAdd your instructions here.\n"
    case StateTemplate => "# Task State\n\nTask state will be tracked here.\n"
    case Edited(text) => text
  }
  function NewTaskConfig(): TaskConfig { TaskConfig(Some(DefaultCli()), map[]) }
  function NewTaskFiles(): TaskFiles
  {
    TaskFiles(Some(InstructionsTemplate), Some(StateTemplate), Parsed(NewTaskConfig()))
  }
  function DefaultTaskName(): string { "default" }

  /** The global configuration that the task template parses to, when
      `create_task("..")` writes it over `.grill/config.toml`: its `cli` key is
      unknown there, so every field takes its serde default. */
  function TaskTemplateAsConfig(): Config { Config(DefaultCli(), map[], map[]) }

  // ---------------------------------------------------------------------
  // Entries

  /** The node named `name`, if any. */
  function Lookup(entries: seq<Entry>, name: string): Option<Node>
  {
    if entries == [] then None
    else if entries[0].name == name then Some(entries[0].node)
    else Lookup(entries[1..], name)
  }

  /** A directory never holds two entries with the same name. */
  predicate UniqueNames(entries: seq<Entry>)
  {
    entries == [] || (Lookup(entries[1..], entries[0].name).None? && UniqueNames(entries[1..]))
  }

  /** The entries without the one named `name`. */
  function Remove(entries: seq<Entry>, name: string): seq<Entry>
  {
    if entries == [] then []
    else if entries[0].name == name then Remove(entries[1..], name)
    else [entries[0]] + Remove(entries[1..], name)
  }

  /** The names of the task directories, in entry order. */
  function DirectoryNames(entries: seq<Entry>): seq<string>
  {
    if entries == [] then []
    else (if entries[0].node.TaskDirectory? then [entries[0].name] else []) + DirectoryNames(entries[1..])
  }

  function Entries(d: Disk): seq<Entry>
  {
    if d.tasks.TasksDirectory? then d.tasks.entries else []
  }

  /** What a real tree satisfies: the pieces live under `.grill/`, and names
      in a directory are unique. */
  predicate WellFormed(d: Disk)
  {
    && (!d.tasks.NoTasksDir? ==> d.grillDir)
    && (!d.config.Absent? ==> d.grillDir)
    && (d.pointer.Some? ==> d.grillDir)
    && UniqueNames(Entries(d))
  }

  lemma {:induction false} LookupAppend(entries: seq<Entry>, e: Entry, name: string)
    ensures Lookup(entries + [e], name) ==
      if Lookup(entries, name).Some? then Lookup(entries, name)
      else if e.name == name then Some(e.node) else None
  {
    if entries != [] {
      assert (entries + [e])[1..] == entries[1..] + [e];
      LookupAppend(entries[1..], e, name);
    }
  }

  lemma {:induction false} UniqueAppend(entries: seq<Entry>, e: Entry)
    requires UniqueNames(entries) && Lookup(entries, e.name).None?
    ensures UniqueNames(entries + [e])
  {
    if entries != [] {
      assert (entries + [e])[1..] == entries[1..] + [e];
      UniqueAppend(entries[1..], e);
      LookupAppend(entries[1..], e, entries[0].name);
    }
  }

  lemma {:induction false} LookupRemove(entries: seq<Entry>, name: string, other: string)
    ensures Lookup(Remove(entries, name), other) == if other == name then None else Lookup(entries, other)
  {
    if entries != [] {
      LookupRemove(entries[1..], name, other);
    }
  }

  lemma {:induction false} UniqueRemove(entries: seq<Entry>, name: string)
    requires UniqueNames(entries)
    ensures UniqueNames(Remove(entries, name))
  {
    if entries != [] {
      UniqueRemove(entries[1..], name);
      if entries[0].name != name {
        LookupRemove(entries[1..], name, entries[0].name);
      }
    }
  }

  /** Removing a name that is not there changes nothing. */
  lemma {:induction false} RemoveAbsent(entries: seq<Entry>, name: string)
    requires Lookup(entries, name).None?
    ensures Remove(entries, name) == entries
  {
    if entries != [] {
      RemoveAbsent(entries[1..], name);
    }
  }

  /** Removing the last entry's name from a list whose other names differ
      gives the list back without it. */
  lemma {:induction false} RemoveLast(entries: seq<Entry>, e: Entry)
    requires Lookup(entries, e.name).None?
    ensures Remove(entries + [e], e.name) == entries
  {
    if entries == [] {
      assert [e][1..] == [];
    } else {
      assert (entries + [e])[1..] == entries[1..] + [e];
      RemoveLast(entries[1..], e);
    }
  }

  /** A name is listed exactly when it names a task directory. */
  lemma {:induction false} ListedIffDirectory(entries: seq<Entry>, name: string)
    requires UniqueNames(entries)
    ensures name in DirectoryNames(entries) <==> Lookup(entries, name).Some? && Lookup(entries, name).value.TaskDirectory?
  {
    if entries != [] {
      ListedIffDirectory(entries[1..], name);
      if entries[0].name == name {
        DirectoryNamesOmit(entries[1..], name);
      }
    }
  }

  lemma {:induction false} DirectoryNamesOmit(entries: seq<Entry>, name: string)
    requires Lookup(entries, name).None?
    ensures name !in DirectoryNames(entries)
  {
    if entries != [] {
      DirectoryNamesOmit(entries[1..], name);
    }
  }

  // ---------------------------------------------------------------------
  // The operations on the tree

  /** `""`, `.` and `..`: joined to `.grill/tasks` they name the tasks
      directory itself (`""` and `.`) and `.grill` (`..`), never an entry
      (`read_dir` does not yield them). */
  predicate IsDirectoryAlias(name: string)
  {
    name == "" || name == "." || name == ".."
  }

  /** What `create_task("")` leaves in a fresh `.grill/tasks`: the task's
      three files, written straight into the tasks directory as plain files. */
  function LooseTaskFiles(): seq<Entry>
  {
    [Entry("instructions.md", PlainFile), Entry("state.md", PlainFile), Entry("config.toml", PlainFile)]
  }

  /** `Path::exists` on `.grill/tasks/<name>`: any kind of entry counts, and
      `""`, `.` and `..` exist exactly when `.grill/tasks` is a directory. */
  predicate TaskExists(d: Disk, name: string)
  {
    if IsDirectoryAlias(name) then d.tasks.TasksDirectory? else Lookup(Entries(d), name).Some?
  }

  /** `exists`: the `.grill` directory and its `config.toml` are both there. */
  predicate EnvironmentExists(d: Disk)
  {
    d.grillDir && !d.config.Absent?
  }

  /** `get_current_task`: the pointer file's contents, trimmed. */
  function CurrentTaskOf(d: Disk): (r: Result<string>)
    ensures r.Err? <==> d.pointer.None?
    ensures r.Err? ==> r.error == "No current task set"
  {
    if d.pointer.None? then Err("No current task set")
    else Ok(Trim(d.pointer.value))
  }

  /** Whitespace around the name in the pointer file (a trailing newline
      written by an editor, say) does not reach the name read back. */
  lemma CurrentTaskIgnoresPadding(d: Disk, lead: string, name: string, trail: string)
    requires d.pointer == Some(lead + (name + trail))
    requires AllWhitespace(lead) && AllWhitespace(trail) && IsWord(name)
    ensures CurrentTaskOf(d) == Ok(name)
  {
    NoWhitespaceEnds(name);
    TrimOfPadded(lead, name, trail);
  }

  /** `get_task_dir`. */
  function TaskDirOf(d: Disk, name: string): (r: Result<TaskPath>)
    ensures r.Ok? <==> TaskExists(d, name)
    ensures r.Ok? ==> r.value == TaskPath(name)
    ensures r.Err? ==> r.error == "Task '" + name + "' does not exist"
  {
    if TaskExists(d, name) then Ok(TaskPath(name)) else Err("Task '" + name + "' does not exist")
  }

  /** `create_task`: refuses an existing name; otherwise adds a task
      directory holding the three default files (creating `.grill/tasks`
      on the way), which fails when a plain file stands in for
      `.grill/tasks`. The aliases exist whenever `.grill/tasks` does; when
      it is missing, `create_dir_all` on `.grill/tasks/` makes it and the
      three files land in it as plain files, on `.grill/tasks/.` it makes
      `.grill` and then fails, while on `.grill/tasks/..` it makes
      `.grill/tasks` and the three files land in `.grill`, the template over
      the global `config.toml`. */
  function CreateTaskOn(d: Disk, name: string): (r: (Disk, Result<()>))
    ensures r.1.Err? <==> TaskExists(d, name) || d.tasks.TasksFile? || name == "."
    ensures TaskExists(d, name) ==> r.1 == Err("Task '" + name + "' already exists")
    ensures r.1.Err? && name != "." ==> r.0 == d
    ensures r.1.Err? ==> r.0.tasks == d.tasks && r.0.config == d.config && r.0.pointer == d.pointer
  {
    if TaskExists(d, name) then (d, Err("Task '" + name + "' already exists"))
    else if d.tasks.TasksFile? then (d, Err("Failed to create task directory for '" + name + "'"))
    else if name == "" then (d.(grillDir := true, tasks := TasksDirectory(LooseTaskFiles())), Ok(()))
    else if name == "." then (d.(grillDir := true), Err("Failed to create task directory for '.'"))
    else if name == ".." then (d.(grillDir := true, tasks := TasksDirectory([]), config := Parsed(TaskTemplateAsConfig())), Ok(()))
    else (d.(grillDir := true, tasks := TasksDirectory(Entries(d) + [Entry(name, TaskDirectory(NewTaskFiles()))])), Ok(()))
  }

  /** `set_current_task`: the pointer becomes `name` when that task exists,
      and nothing changes otherwise. */
  function SetCurrentTaskOn(d: Disk, name: string): (r: (Disk, Result<()>))
    ensures r.1.Ok? <==> TaskExists(d, name)
    ensures r.1.Ok? ==> r.0 == d.(pointer := Some(name))
    ensures r.1.Err? ==> r == (d, Err("Task '" + name + "' does not exist"))
  {
    if !TaskExists(d, name) then (d, Err("Task '" + name + "' does not exist"))
    else (d.(pointer := Some(name)), Ok(()))
  }

  /** `list_tasks`: nothing when `.grill/tasks` is missing, an error when it
      is not a directory, otherwise the names of its directories. */
  function ListTasksOf(d: Disk): (r: Result<seq<string>>)
    ensures r.Err? <==> d.tasks.TasksFile?
    ensures d.tasks.NoTasksDir? ==> r == Ok([])
  {
    match d.tasks
    case NoTasksDir => Ok([])
    case TasksFile => Err("Not a directory (os error 20)")
    case TasksDirectory(entries) => Ok(DirectoryNames(entries))
  }

  /** `delete_task`: refuses a missing task, a store without a pointer
      file, and the current task; a plain file under the name cannot be
      removed as a directory. Otherwise exactly that entry goes. For the
      aliases `remove_dir_all` works on the directory they name: `""` removes
      `.grill/tasks`, `.` empties it and then fails to remove it, `..`
      empties `.grill`. */
  function DeleteTaskOn(d: Disk, name: string): (r: (Disk, Result<()>))
    ensures !TaskExists(d, name) ==> r.1 == Err("Task '" + name + "' does not exist")
    ensures TaskExists(d, name) && d.pointer.None? ==> r.1 == Err("No current task set")
    ensures TaskExists(d, name) && CurrentTaskOf(d) == Ok(name) ==> r.1 == Err("Cannot delete the current task")
    ensures r.1.Ok? <==> TaskExists(d, name) && CurrentTaskOf(d).Ok? && CurrentTaskOf(d).value != name
                          && name != "." && (IsDirectoryAlias(name) || Lookup(Entries(d), name).value.TaskDirectory?)
    ensures r.1.Err? && name != "." ==> r.0 == d
  {
    if !TaskExists(d, name) then (d, Err("Task '" + name + "' does not exist"))
    else match CurrentTaskOf(d)
      case Err(e) => (d, Err(e))
      case Ok(current) =>
        if current == name then (d, Err("Cannot delete the current task"))
        else RemoveTaskOn(d, name)
  }

  /** The `remove_dir_all` step of `delete_task`, for a name that exists. */
  function RemoveTaskOn(d: Disk, name: string): (Disk, Result<()>)
    requires TaskExists(d, name)
  {
    if name == "" then (d.(tasks := NoTasksDir), Ok(()))
    else if name == "." then (d.(tasks := TasksDirectory([])), Err("Failed to delete task '.'"))
    else if name == ".." then (Disk(true, NoTasksDir, Absent, None), Ok(()))
    else if Lookup(Entries(d), name).value.PlainFile? then (d, Err("Failed to delete task '" + name + "'"))
    else (d.(tasks := TasksDirectory(Remove(Entries(d), name))), Ok(()))
  }

  /** `init`: makes `.grill/tasks`, writes the default global configuration
      unless a config file is there, and, only when there is no pointer
      file, writes the pointer `default` and then creates the `default`
      task. */
  function InitOn(d: Disk): (r: (Disk, Result<()>))
    ensures d.tasks.TasksFile? ==> r == (d, Err("Failed to create tasks directory"))
    ensures r.1.Err? <==> d.tasks.TasksFile? || (d.pointer.None? && TaskExists(d, DefaultTaskName()))
  {
    if d.tasks.TasksFile? then (d, Err("Failed to create tasks directory"))
    else
      var made := d.(grillDir := true, tasks := if d.tasks.NoTasksDir? then TasksDirectory([]) else d.tasks);
      var configured := if made.config.Absent? then made.(config := Parsed(DefaultConfig())) else made;
      if configured.pointer.Some? then (configured, Ok(()))
      else CreateTaskOn(configured.(pointer := Some(DefaultTaskName())), DefaultTaskName())
  }

  // ---------------------------------------------------------------------
  // What each operation changes

  /** A successful `create_task` makes the task exist. For an ordinary
      name it adds the task with the default files and leaves every other
      name, the configuration and the pointer alone; `""` instead fills a
      fresh tasks directory with the task's files, which lists no task, and
      `..` leaves the entries alone and overwrites the global configuration.
      The tree stays well formed. */
  lemma CreateTaskEffect(d: Disk, name: string)
    ensures var (d', r) := CreateTaskOn(d, name);
      && d'.pointer == d.pointer
      && (name != ".." ==> d'.config == d.config)
      && (r.Ok? ==> TaskExists(d', name))
      && (r.Ok? && !IsDirectoryAlias(name) ==> Lookup(Entries(d'), name) == Some(TaskDirectory(NewTaskFiles())))
      && (r.Ok? && name == "" ==> Entries(d') == LooseTaskFiles() && ListTasksOf(d') == Ok([]))
      && (r.Ok? && name != "" ==> forall other :: other != name ==> Lookup(Entries(d'), other) == Lookup(Entries(d), other))
      && (r.Ok? && name == ".." ==> d'.config == Parsed(TaskTemplateAsConfig()))
      && (WellFormed(d) ==> WellFormed(d'))
  {
    var (d', r) := CreateTaskOn(d, name);
    if r.Ok? && name == "" {
      assert DirectoryNames(LooseTaskFiles()[2..]) == [];
    }
    if r.Ok? && !IsDirectoryAlias(name) {
      var e := Entry(name, TaskDirectory(NewTaskFiles()));
      assert Entries(d') == Entries(d) + [e];
      LookupAppend(Entries(d), e, name);
      forall other | other != name
        ensures Lookup(Entries(d'), other) == Lookup(Entries(d), other)
      {
        LookupAppend(Entries(d), e, other);
      }
      if WellFormed(d) {
        UniqueAppend(Entries(d), e);
      }
    }
  }

  /** A successful `delete_task` of an ordinary name removes exactly the
      named task and leaves the configuration and the pointer alone; the
      tree stays well formed. */
  lemma DeleteTaskEffect(d: Disk, name: string)
    ensures var (d', r) := DeleteTaskOn(d, name);
      && (!IsDirectoryAlias(name) ==> d'.config == d.config && d'.pointer == d.pointer && d'.grillDir == d.grillDir)
      && (r.Ok? && !IsDirectoryAlias(name) ==> !TaskExists(d', name))
      && (r.Ok? && !IsDirectoryAlias(name) ==>
            forall other :: other != name ==> Lookup(Entries(d'), other) == Lookup(Entries(d), other))
      && (WellFormed(d) ==> WellFormed(d'))
  {
    var (d', r) := DeleteTaskOn(d, name);
    if r.Ok? && !IsDirectoryAlias(name) {
      assert Entries(d') == Remove(Entries(d), name);
      forall other
        ensures Lookup(Entries(d'), other) == if other == name then None else Lookup(Entries(d), other)
      {
        LookupRemove(Entries(d), name, other);
      }
      if WellFormed(d) {
        UniqueRemove(Entries(d), name);
      }
    }
  }

  /** `list_tasks` names exactly the task directories: a plain file under
      `.grill/tasks` is never listed. */
  lemma ListTasksNamesDirectories(d: Disk, name: string)
    requires WellFormed(d) && ListTasksOf(d).Ok?
    ensures name in ListTasksOf(d).value <==> Lookup(Entries(d), name).Some? && Lookup(Entries(d), name).value.TaskDirectory?
  {
    if d.tasks.TasksDirectory? {
      ListedIffDirectory(d.tasks.entries, name);
    }
  }

  /** `init` creates what is missing and never overwrites: an existing
      configuration or pointer file is kept, a missing one gets its default;
      afterwards the environment exists. The tree stays well formed. */
  lemma InitEffect(d: Disk)
    requires !d.tasks.TasksFile?
    ensures var (d', r) := InitOn(d);
      && d'.tasks.TasksDirectory? && EnvironmentExists(d')
      && d'.config == (if d.config.Absent? then Parsed(DefaultConfig()) else d.config)
      && d'.pointer == (if d.pointer.Some? then d.pointer else Some(DefaultTaskName()))
      && (WellFormed(d) ==> WellFormed(d'))
  {
    var made := d.(grillDir := true, tasks := if d.tasks.NoTasksDir? then TasksDirectory([]) else d.tasks);
    var configured := if made.config.Absent? then made.(config := Parsed(DefaultConfig())) else made;
    assert Entries(configured) == Entries(d);
    if d.pointer.None? {
      CreateTaskEffect(configured.(pointer := Some(DefaultTaskName())), DefaultTaskName());
    }
  }

  // ---------------------------------------------------------------------
  // Properties that relate operations

  /** A created task can be found, and its directory is the one resolved. */
  lemma CreateThenFind(d: Disk, name: string)
    requires CreateTaskOn(d, name).1.Ok?
    ensures TaskDirOf(CreateTaskOn(d, name).0, name) == Ok(TaskPath(name))
    ensures CreateTaskOn(CreateTaskOn(d, name).0, name).1 == Err("Task '" + name + "' already exists")
  {
    CreateTaskEffect(d, name);
  }

  /** Reading the pointer back after setting it gives the name, trimmed: a
      name without surrounding whitespace (every name a command line can
      carry) comes back unchanged. */
  lemma SetThenGetCurrentTask(d: Disk, name: string)
    requires SetCurrentTaskOn(d, name).1.Ok?
    ensures CurrentTaskOf(SetCurrentTaskOn(d, name).0) == Ok(Trim(name))
    ensures IsWord(name) ==> CurrentTaskOf(SetCurrentTaskOn(d, name).0) == Ok(name)
  {
    var after := SetCurrentTaskOn(d, name).0;
    assert after.pointer == Some(name);
    assert CurrentTaskOf(after) == Ok(Trim(name));
    if IsWord(name) {
      WordHasNoPadding(name);
    }
  }

  lemma {:induction false} WordHasNoPadding(w: string)
    requires IsWord(w)
    ensures Trim(w) == w
  {
    NoWhitespaceEnds(w);
    assert w == "" + (w + "");
    TrimOfPadded("", w, "");
  }

  lemma {:induction false} NoWhitespaceEnds(w: string)
    requires |w| > 0 && NoWhitespace(w)
    ensures !IsWhitespace(w[0]) && !IsWhitespace(w[|w| - 1])
    decreases |w|
  {
    if |w| > 1 {
      NoWhitespaceEnds(w[1..]);
    }
  }

  /** The current task can never be deleted. */
  lemma CurrentTaskIsNotDeleted(d: Disk, name: string)
    requires CurrentTaskOf(d) == Ok(name)
    ensures DeleteTaskOn(d, name).1.Err? && DeleteTaskOn(d, name).0 == d
  {
  }

  /** Deleting `""`, `.` or `..` while another task is current gets past
      every check of `delete_task` and takes every task with it, the current
      one included: the current-task guard does not protect it. */
  lemma DeletingAliasRemovesEveryTask(d: Disk, name: string)
    requires IsDirectoryAlias(name) && d.tasks.TasksDirectory?
    requires CurrentTaskOf(d).Ok? && CurrentTaskOf(d).value != name
    ensures var (d', r) := DeleteTaskOn(d, name);
      && ListTasksOf(d') == Ok([])
      && (!IsDirectoryAlias(CurrentTaskOf(d).value) ==> !TaskExists(d', CurrentTaskOf(d).value))
      && (r.Ok? <==> name != ".")
  {
  }

  /** Creating a task and deleting it again restores the tasks directory,
      provided the task is not the current one. */
  lemma CreateThenDelete(d: Disk, name: string)
    requires WellFormed(d) && d.tasks.TasksDirectory?
    requires CreateTaskOn(d, name).1.Ok?
    requires CurrentTaskOf(d).Ok? && CurrentTaskOf(d).value != name
    ensures var created := CreateTaskOn(d, name).0;
      DeleteTaskOn(created, name) == (d, Ok(()))
  {
    var e := Entry(name, TaskDirectory(NewTaskFiles()));
    var created := CreateTaskOn(d, name).0;
    CreateTaskEffect(d, name);
    assert Entries(created) == Entries(d) + [e];
    assert CurrentTaskOf(created) == CurrentTaskOf(d);
    RemoveLast(Entries(d), e);
    assert created.(tasks := TasksDirectory(Remove(Entries(created), name))) == d;
  }

  /** `init` is idempotent: once it has succeeded, running it again
      succeeds and changes nothing. */
  lemma InitIsIdempotent(d: Disk)
    requires InitOn(d).1.Ok?
    ensures InitOn(InitOn(d).0) == (InitOn(d).0, Ok(()))
  {
    var once := InitOn(d).0;
    assert once.tasks.TasksDirectory? && once.pointer.Some?;
    assert once.(grillDir := true, tasks := once.tasks) == once;
  }

  /** `init` on an empty tree: the environment exists, with the default
      configuration and the single task `default`, which is current. */
  lemma InitOfEmpty()
    ensures var (d, r) := InitOn(Disk(false, NoTasksDir, Absent, None));
      && r == Ok(())
      && EnvironmentExists(d) && d.config == Parsed(DefaultConfig())
      && CurrentTaskOf(d) == Ok(DefaultTaskName())
      && ListTasksOf(d) == Ok([DefaultTaskName()])
  {
    var e := Entry(DefaultTaskName(), TaskDirectory(NewTaskFiles()));
    var expected := Disk(true, TasksDirectory([e]), Parsed(DefaultConfig()), Some(DefaultTaskName()));
    assert [] + [e] == [e];
    assert InitOn(Disk(false, NoTasksDir, Absent, None)) == (expected, Ok(()));
    assert DirectoryNames([e]) == [DefaultTaskName()] by {
      assert [e][1..] == [];
    }
    DefaultTaskNameIsWord();
    WordHasNoPadding(DefaultTaskName());
  }

  lemma DefaultTaskNameIsWord()
    ensures IsWord(DefaultTaskName())
  {
  }

  // ---------------------------------------------------------------------
  // The environment object

  /** `Environment`: the tree under `.grill/`, changed in place. */
  class Environment {
    var grillDir: bool
    var tasks: TasksDir
    var config: StoredFile<Config>
    var pointer: Option<string>

    function Tree(): Disk
      reads this
    {
      Disk(grillDir, tasks, config, pointer)
    }

    /** `Environment::new` over whatever tree is already on disk. */
    constructor(existing: Disk)
      ensures Tree() == existing
    {
      grillDir, tasks, config, pointer := existing.grillDir, existing.tasks, existing.config, existing.pointer;
    }

    method Exists() returns (b: bool)
      ensures b == EnvironmentExists(Tree())
    {
      b := grillDir && !config.Absent?;
    }

    method GetCurrentTask() returns (r: Result<string>)
      ensures r == CurrentTaskOf(Tree())
    {
      if pointer.None? {
        return Err("No current task set");
      }
      r := Ok(Trim(pointer.value));
    }

    /** `tasks_dir.join(name).exists()`. */
    method PathExists(name: string) returns (b: bool)
      ensures b == TaskExists(Tree(), name)
    {
      if name == "" || name == "." || name == ".." {
        return tasks.TasksDirectory?;
      }
      var entries := if tasks.TasksDirectory? then tasks.entries else [];
      b := Lookup(entries, name).Some?;
    }

    method GetTaskDir(name: string) returns (r: Result<TaskPath>)
      ensures r == TaskDirOf(Tree(), name)
    {
      var found := PathExists(name);
      if !found {
        return Err("Task '" + name + "' does not exist");
      }
      r := Ok(TaskPath(name));
    }

    method CreateTask(name: string) returns (r: Result<()>)
      modifies this
      ensures (Tree(), r) == CreateTaskOn(old(Tree()), name)
    {
      var found := PathExists(name);
      if found {
        return Err("Task '" + name + "' already exists");
      }
      if tasks.TasksFile? {
        return Err("Failed to create task directory for '" + name + "'");
      }
      grillDir := true;
      if name == "" {
        tasks := TasksDirectory(LooseTaskFiles());
        return Ok(());
      }
      if name == "." {
        return Err("Failed to create task directory for '.'");
      }
      if name == ".." {
        tasks := TasksDirectory([]);
        config := Parsed(TaskTemplateAsConfig());
        return Ok(());
      }
      var entries := if tasks.TasksDirectory? then tasks.entries else [];
      tasks := TasksDirectory(entries + [Entry(name, TaskDirectory(NewTaskFiles()))]);
      r := Ok(());
    }

    method SetCurrentTask(name: string) returns (r: Result<()>)
      modifies this
      ensures (Tree(), r) == SetCurrentTaskOn(old(Tree()), name)
    {
      var found := PathExists(name);
      if !found {
        return Err("Task '" + name + "' does not exist");
      }
      pointer := Some(name);
      r := Ok(());
    }

    /** `list_tasks`: walks the entries, keeping the directories. */
    method ListTasks() returns (r: Result<seq<string>>)
      ensures r == ListTasksOf(Tree())
    {
      if tasks.NoTasksDir? {
        return Ok([]);
      }
      if tasks.TasksFile? {
        return Err("Not a directory (os error 20)");
      }
      var entries := tasks.entries;
      var names: seq<string> := [];
      assert entries[0..] == entries;
      for i := 0 to |entries|
        invariant names + DirectoryNames(entries[i..]) == DirectoryNames(entries)
      {
        assert entries[i..][1..] == entries[i + 1..];
        if entries[i].node.TaskDirectory? {
          names := names + [entries[i].name];
        }
      }
      assert entries[|entries|..] == [];
      assert names + [] == names;
      r := Ok(names);
    }

    method DeleteTask(name: string) returns (r: Result<()>)
      modifies this
      ensures (Tree(), r) == DeleteTaskOn(old(Tree()), name)
    {
      var found := PathExists(name);
      if !found {
        return Err("Task '" + name + "' does not exist");
      }
      var current := GetCurrentTask();
      if current.Err? {
        return Err(current.error);
      }
      if current.value == name {
        return Err("Cannot delete the current task");
      }
      assert DeleteTaskOn(old(Tree()), name) == RemoveTaskOn(Tree(), name);
      r := RemoveTaskDir(name);
    }

    /** The `remove_dir_all` step of `delete_task`, for a task that passed
        the existence and current-task checks: `""` removes `.grill/tasks`, `.` empties it and fails,
        `..` empties `.grill`, a plain file is refused, and a task directory
        goes. */
    method RemoveTaskDir(name: string) returns (r: Result<()>)
      requires TaskExists(Tree(), name)
      modifies this
      ensures (Tree(), r) == RemoveTaskOn(old(Tree()), name)
    {
      ghost var d := Tree();
      if name == "" {
        tasks := NoTasksDir;
        return Ok(());
      }
      if name == "." {
        tasks := TasksDirectory([]);
        return Err("Failed to delete task '.'");
      }
      if name == ".." {
        grillDir, tasks, config, pointer := true, NoTasksDir, Absent, None;
        return Ok(());
      }
      var entries := tasks.entries;
      assert Entries(d) == entries && Lookup(entries, name).Some?;
      if Lookup(entries, name).value.PlainFile? {
        return Err("Failed to delete task '" + name + "'");
      }
      tasks := TasksDirectory(Remove(entries, name));
      r := Ok(());
    }

    method Init() returns (r: Result<()>)
      modifies this
      ensures (Tree(), r) == InitOn(old(Tree()))
    {
      if tasks.TasksFile? {
        return Err("Failed to create tasks directory");
      }
      grillDir := true;
      if tasks.NoTasksDir? {
        tasks := TasksDirectory([]);
      }
      if config.Absent? {
        config := Parsed(DefaultConfig());
      }
      if pointer.None? {
        pointer := Some(DefaultTaskName());
        r := CreateTask(DefaultTaskName());
        return;
      }
      r := Ok(());
    }
  }
}
