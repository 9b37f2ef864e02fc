/** The session of `src/session.rs`: which task a session runs and which
    CLI that task uses, the help and task-list texts, the forwarding of
    terminal input to the child, and the loop that carries out each
    command read from the terminal. Channels are modelled as the sequence
    of messages sent on them. */
module Sessions {
  import opened Outcomes
  import opened Text
  import opened Configuration
  import opened Environments
  import opened CliHandlers
  import opened Io
  import opened Process

  // ---------------------------------------------------------------------
  // Which task, which CLI

  /** `get_cli_command` and `get_cli_command_for_task` (the two are the
      same code): the task must exist; a `config.toml` in its directory with
      a `cli` wins; otherwise the global `default_cli` is used. A task
      config or global config that does not parse is an error. The dot
      names exist without an entry of their own and fall back to the global
      default. */
  function CliCommandFor(d: Disk, name: string): Result<string>
  {
    match TaskDirOf(d, name)
    case Err(e) => Err(e)
    case Ok(_) =>
      match Lookup(Entries(d), name)
      case None => GlobalCli(d)
      case Some(node) =>
        if node.TaskDirectory? && !node.files.config.Absent? then
          match LoadTaskConfig(node.files.config)
          case Err(e) => Err(e)
          case Ok(taskConfig) =>
            if GetCli(taskConfig).Some? then Ok(GetCli(taskConfig).value) else GlobalCli(d)
        else GlobalCli(d)
  }

  /** The fallback of `CliCommandFor`: the global configuration's default CLI. */
  function GlobalCli(d: Disk): Result<string>
  {
    match LoadConfig(d.config)
    case Err(e) => Err(e)
    case Ok(config) => Ok(GetDefaultCli(config))
  }

  /** The task's own `cli` overrides the global default. */
  lemma TaskCliWins(d: Disk, name: string, cli: string, hooks: map<string, string>)
    requires Lookup(Entries(d), name).Some? && Lookup(Entries(d), name).value.TaskDirectory?
    requires Lookup(Entries(d), name).value.files.config == Parsed(TaskConfig(Some(cli), hooks))
    ensures CliCommandFor(d, name) == Ok(cli)
  {
  }

  /** Without an override in the task, the global default is used, and
      without a global configuration file that is `q chat`. */
  lemma GlobalDefaultApplies(d: Disk, name: string)
    requires TaskExists(d, name)
    requires match Lookup(Entries(d), name)
      case None => true
      case Some(node) =>
        node.PlainFile? || node.files.config.Absent?
        || (node.files.config.Parsed? && node.files.config.value.cli.None?)
    ensures CliCommandFor(d, name) == GlobalCli(d)
    ensures d.config.Absent? ==> CliCommandFor(d, name) == Ok("q chat")
  {
  }

  /** Resolution fails exactly when the task is missing or a configuration
      it needs does not parse. */
  lemma CliCommandErrors(d: Disk, name: string)
    ensures !TaskExists(d, name) ==> CliCommandFor(d, name) == Err("Task '" + name + "' does not exist")
    ensures CliCommandFor(d, name).Err? <==>
      || !TaskExists(d, name)
      || (match Lookup(Entries(d), name)
          case None => d.config.Malformed?
          case Some(node) =>
            if node.TaskDirectory? && node.files.config.Malformed? then true
            else if node.TaskDirectory? && node.files.config.Parsed? && node.files.config.value.cli.Some? then false
            else d.config.Malformed?)
  {
  }

  /** A task made by `create_task` runs `q chat`, whatever the global
      configuration said: its own `config.toml` names that CLI, and for `..`
      the template has replaced the global configuration, whose default CLI
      is then `q chat`. The task `""` falls back to the global default. */
  lemma CreatedTaskRunsQChat(d: Disk, name: string)
    requires CreateTaskOn(d, name).1.Ok?
    ensures name != "" ==> CliCommandFor(CreateTaskOn(d, name).0, name) == Ok("q chat")
    ensures name == "" ==> CliCommandFor(CreateTaskOn(d, name).0, name) == GlobalCli(d)
  {
    CreateTaskEffect(d, name);
  }

  /** The session's task in `start`: the explicit name if one is given,
      else the environment's current task. */
  function ResolveTaskName(explicit: Option<string>, d: Disk): (r: Result<string>)
    ensures explicit.Some? ==> r == Ok(explicit.value)
    ensures explicit.None? ==> r == CurrentTaskOf(d)
  {
    match explicit
    case Some(name) => Ok(name)
    case None => CurrentTaskOf(d)
  }

  // ---------------------------------------------------------------------
  // The help text

  /** One line of `get_help_text`: the syntax, the gap before the
      description, the description. */
  datatype Usage = Usage(command: Command, gap: string, description: string)

  /** The seven commands in the order the help lists them; a task name is
      shown as `<n>`. */
  const HelpSize: nat := 7

  function HelpEntry(i: nat): Usage
    requires i < HelpSize
  {
    if i == 0 then Usage(CurrentTask, "                 ", "Show the current task")
    else if i == 1 then Usage(ListTasks, "            ", "List all available tasks")
    else if i == 2 then Usage(SwitchTask("<n>"), "          ", "Switch to the specified task")
    else if i == 3 then Usage(CreateTask("<n>"), "     ", "Create a new task")
    else if i == 4 then Usage(DeleteTask("<n>"), "   ", "Delete a task")
    else if i == 5 then Usage(Help, "                 ", "Show this help message")
    else Usage(Quit, "                 ", "Exit grill")
  }

  function UsageLine(u: Usage): string
  {
    "  " + Unwords(CommandWords(u.command)) + u.gap + u.description + "\n"
  }

  /** The help lines of the first `n` entries. */
  function UsageLines(n: nat): string
    requires n <= HelpSize
  {
    if n == 0 then "" else UsageLines(n - 1) + UsageLine(HelpEntry(n - 1))
  }

  /** `get_help_text`: a header, one line per command, a blank line. */
  function GrillHelpText(): string
  {
    "\nGrill Commands:\n" + UsageLines(HelpSize) + "\n"
  }

  /** The position of a command's variant in the declaration of `Command`. */
  function Variant(c: Command): nat
  {
    match c
    case SwitchTask(_) => 0
    case ListTasks => 1
    case CurrentTask => 2
    case CreateTask(_) => 3
    case DeleteTask(_) => 4
    case Help => 5
    case Quit => 6
  }

  /** The help documents every command, each once. */
  lemma HelpCoversEveryCommand(c: Command)
    ensures exists i :: 0 <= i < HelpSize && Variant(HelpEntry(i).command) == Variant(c)
    ensures forall i, j :: 0 <= i < j < HelpSize ==>
      Variant(HelpEntry(i).command) != Variant(HelpEntry(j).command)
  {
    var i := match c
      case SwitchTask(_) => 2
      case ListTasks => 1
      case CurrentTask => 0
      case CreateTask(_) => 3
      case DeleteTask(_) => 4
      case Help => 5
      case Quit => 6;
    assert Variant(HelpEntry(i).command) == Variant(c);
  }

  /** The syntax each help line shows is the syntax the line classifier
      accepts: typed as shown (with `<n>` as the name), it yields the
      documented command. */
  lemma HelpSyntaxIsAccepted(i: nat)
    requires i < HelpSize
    ensures var c := HelpEntry(i).command;
      Classify(Unwords(CommandWords(c)) + "\n") == Emit(c)
  {
    var c := HelpEntry(i).command;
    PlaceholderIsWord();
    NewlineIsWhitespace();
    assert CommandWords(c) + [] == CommandWords(c);
    ClassifyRoundTrip(c, [], "\n");
  }

  lemma PlaceholderIsWord()
    ensures IsWord("<n>") && "<n>" != "list"
  {
  }

  lemma NewlineIsWhitespace()
    ensures AllWhitespace("\n")
  {
  }

  // ---------------------------------------------------------------------
  // The task listing

  /** The line of the listing for one task. */
  function ListingLine(task: string, current: string): string
  {
    if task == current then "* " + task + " (current)\n" else "  " + task + "\n"
  }

  const ListingTitle: string := "Available tasks:\n"

  /** The opening of the listing: a blank line, then the title. */
  const ListingHeader: string := "\n" + ListingTitle

  /** The text the `ListTasks` branch sends for `list_tasks`'s names. */
  function Listing(tasks: seq<string>, current: string): string
  {
    ListingHeader + ListingBody(tasks, current) + "\n"
  }

  function ListingBody(tasks: seq<string>, current: string): string
  {
    if tasks == [] then "" else ListingBody(tasks[..|tasks| - 1], current) + ListingLine(tasks[|tasks| - 1], current)
  }

  /** Reading a listing line back: whether it carries the marker, and the task it names. */
  predicate IsMarkedLine(line: string)
  {
    "* " <= line
  }

  function TaskOfLine(line: string): string
  {
    if IsMarkedLine(line) && |line| >= 13 then line[2..|line| - 11]
    else if |line| >= 3 then line[2..|line| - 1]
    else ""
  }

  /** Each line names its task, and it is marked exactly when that task is
      the session's task. */
  lemma ListingLineReadsBack(task: string, current: string)
    ensures TaskOfLine(ListingLine(task, current)) == task
    ensures IsMarkedLine(ListingLine(task, current)) <==> task == current
  {
    var line := ListingLine(task, current);
    if task == current {
      assert line == "* " + task + " (current)\n";
      assert line[2..|line| - 11] == task;
    } else {
      assert line[0] == ' ';
      assert line[2..|line| - 1] == task;
    }
  }

  /** Each task adds its own line after the lines of the tasks before it. */
  lemma ListingOfPrefix(tasks: seq<string>, i: nat, current: string)
    requires i < |tasks|
    ensures ListingBody(tasks[..i + 1], current) == ListingBody(tasks[..i], current) + ListingLine(tasks[i], current)
  {
    assert tasks[..i + 1][..i] == tasks[..i];
  }

  // Reading the listing back as text

  /** A line of text: a single `'\n'`, at its end. */
  predicate IsLine(line: string)
  {
    |line| > 0 && line[|line| - 1] == '\n' && forall j :: 0 <= j < |line| - 1 ==> line[j] != '\n'
  }

  /** `lines` cuts `s` into whole lines. */
  predicate SplitsIntoLines(s: string, lines: seq<string>)
  {
    Concat(lines) == s && forall i :: 0 <= i < |lines| ==> IsLine(lines[i])
  }

  /** Two lines that start the same text are the same line. */
  lemma FirstLineIsUnique(a: string, x: string, b: string, y: string)
    requires IsLine(a) && IsLine(b) && a + x == b + y
    ensures a == b && x == y
  {
    var n := if |a| < |b| then |a| else |b|;
    assert (a + x)[n - 1] == a[n - 1] && (b + y)[n - 1] == b[n - 1];
    assert a == (a + x)[..|a|];
    assert b == (b + y)[..|b|];
    assert x == (a + x)[|a|..];
    assert y == (b + y)[|b|..];
  }

  lemma ConcatCons(first: string, rest: seq<string>)
    ensures Concat([first] + rest) == first + Concat(rest)
  {
    ConcatAppend([first], rest);
    assert [first][..0] == [];
  }

  /** Whole lines never make empty text. */
  lemma LinesAreNotEmpty(s: string, lines: seq<string>)
    requires SplitsIntoLines(s, lines) && lines != []
    ensures s != []
  {
    assert IsLine(lines[|lines| - 1]);
  }

  /** A text cuts into whole lines in at most one way: reading it back line
      by line gives exactly those lines. */
  lemma {:induction false} SplitIsUnique(s: string, a: seq<string>, b: seq<string>)
    requires SplitsIntoLines(s, a) && SplitsIntoLines(s, b)
    ensures a == b
    decreases |a|
  {
    if a != [] && b != [] {
      assert a == [a[0]] + a[1..];
      assert b == [b[0]] + b[1..];
      ConcatCons(a[0], a[1..]);
      ConcatCons(b[0], b[1..]);
      assert IsLine(a[0]) && IsLine(b[0]);
      FirstLineIsUnique(a[0], Concat(a[1..]), b[0], Concat(b[1..]));
      assert forall i :: 0 <= i < |a[1..]| ==> a[1..][i] == a[i + 1];
      assert forall i :: 0 <= i < |b[1..]| ==> b[1..][i] == b[i + 1];
      SplitIsUnique(Concat(a[1..]), a[1..], b[1..]);
    } else if a != [] {
      LinesAreNotEmpty(s, a);
    } else if b != [] {
      LinesAreNotEmpty(s, b);
    }
  }

  /** A task name without `'\n'` gives a listing line that is one line of text. */
  lemma ListingLineIsLine(task: string, current: string)
    requires '\n' !in task
    ensures IsLine(ListingLine(task, current))
  {
    var line := ListingLine(task, current);
    forall j | 0 <= j < |line| - 1
      ensures line[j] != '\n'
    {
      if task == current {
        assert line == "* " + task + " (current)\n";
        if 2 <= j < 2 + |task| { assert line[j] == task[j - 2]; }
      } else {
        assert line == "  " + task + "\n";
        if 2 <= j < 2 + |task| { assert line[j] == task[j - 2]; }
      }
    }
  }

  /** One listing line per task, in list order. */
  function TaskLines(tasks: seq<string>, current: string): (lines: seq<string>)
    ensures |lines| == |tasks|
  {
    seq(|tasks|, i requires 0 <= i < |tasks| => ListingLine(tasks[i], current))
  }

  /** The lines of the listing: the two header lines, a line per task, and
      a blank line. */
  function ListingLines(tasks: seq<string>, current: string): seq<string>
  {
    ["\n", ListingTitle] + TaskLines(tasks, current) + ["\n"]
  }

  lemma {:induction false} ListingBodyIsTaskLines(tasks: seq<string>, current: string)
    ensures ListingBody(tasks, current) == Concat(TaskLines(tasks, current))
    decreases |tasks|
  {
    if tasks != [] {
      var init := tasks[..|tasks| - 1];
      var lines := TaskLines(tasks, current);
      ListingBodyIsTaskLines(init, current);
      assert lines[..|lines| - 1] == TaskLines(init, current);
    }
  }

  lemma ListingIsListingLines(tasks: seq<string>, current: string)
    ensures Listing(tasks, current) == Concat(ListingLines(tasks, current))
  {
    var title := ListingTitle;
    var header: seq<string> := ["\n", title];
    var body := TaskLines(tasks, current);
    assert Concat(header) == ListingHeader by {
      ConcatCons("\n", [title]);
      ConcatCons(title, []);
      assert [title] + [] == [title];
      assert title + "" == title;
    }
    assert Concat(["\n"]) == "\n" by {
      ConcatCons("\n", []);
      assert ["\n"] + [] == ["\n"];
    }
    ListingBodyIsTaskLines(tasks, current);
    ConcatAppend(header, body);
    ConcatAppend(header + body, ["\n"]);
    assert ListingLines(tasks, current) == (header + body) + ["\n"];
  }

  lemma TitleIsLine()
    ensures IsLine(ListingTitle) && !IsMarkedLine(ListingTitle)
  {
    var title := ListingTitle;
    assert title[0] == 'A';
    forall j | 0 <= j < |title| - 1
      ensures title[j] != '\n'
    {
    }
  }

  /** The listing is made of the lines of `ListingLines`. */
  lemma ListingCutsIntoLines(tasks: seq<string>, current: string)
    requires forall i :: 0 <= i < |tasks| ==> '\n' !in tasks[i]
    ensures SplitsIntoLines(Listing(tasks, current), ListingLines(tasks, current))
  {
    var body := TaskLines(tasks, current);
    var expected := ListingLines(tasks, current);
    ListingIsListingLines(tasks, current);
    TitleIsLine();
    assert IsLine("\n");
    TaskLinesAreLines(tasks, current);
    forall i | 0 <= i < |expected|
      ensures IsLine(expected[i])
    {
      if 2 <= i < |tasks| + 2 {
        assert expected[i] == body[i - 2];
      }
    }
  }

  lemma TaskLinesAreLines(tasks: seq<string>, current: string)
    requires forall i :: 0 <= i < |tasks| ==> '\n' !in tasks[i]
    ensures forall i :: 0 <= i < |tasks| ==> IsLine(TaskLines(tasks, current)[i])
  {
    forall i | 0 <= i < |tasks|
      ensures IsLine(TaskLines(tasks, current)[i])
    {
      ListingLineIsLine(tasks[i], current);
    }
  }

  /** The whole listing decodes back to `tasks`. It cuts into lines in one
      way only: the two header lines, then one line per task, in order,
      naming that task, then a blank line. Exactly the lines of the
      session's task carry the `*` marker. */
  lemma ListingReadsBack(tasks: seq<string>, current: string)
    requires forall i :: 0 <= i < |tasks| ==> '\n' !in tasks[i]
    ensures SplitsIntoLines(Listing(tasks, current), ListingLines(tasks, current))
    ensures forall lines :: SplitsIntoLines(Listing(tasks, current), lines) ==>
      && |lines| == |tasks| + 3
      && !IsMarkedLine(lines[0]) && !IsMarkedLine(lines[1]) && lines[|tasks| + 2] == "\n"
      && forall i :: 0 <= i < |tasks| ==>
           TaskOfLine(lines[i + 2]) == tasks[i] && (IsMarkedLine(lines[i + 2]) <==> tasks[i] == current)
  {
    ListingCutsIntoLines(tasks, current);
    forall lines | SplitsIntoLines(Listing(tasks, current), lines)
      ensures |lines| == |tasks| + 3
      ensures !IsMarkedLine(lines[0]) && !IsMarkedLine(lines[1]) && lines[|tasks| + 2] == "\n"
      ensures forall i :: 0 <= i < |tasks| ==>
           TaskOfLine(lines[i + 2]) == tasks[i] && (IsMarkedLine(lines[i + 2]) <==> tasks[i] == current)
    {
      SplitOfListing(tasks, current, lines);
    }
  }

  /** One way of cutting the listing into lines, read back. */
  lemma SplitOfListing(tasks: seq<string>, current: string, lines: seq<string>)
    requires forall i :: 0 <= i < |tasks| ==> '\n' !in tasks[i]
    requires SplitsIntoLines(Listing(tasks, current), lines)
    ensures |lines| == |tasks| + 3
    ensures !IsMarkedLine(lines[0]) && !IsMarkedLine(lines[1]) && lines[|tasks| + 2] == "\n"
    ensures forall i :: 0 <= i < |tasks| ==>
      TaskOfLine(lines[i + 2]) == tasks[i] && (IsMarkedLine(lines[i + 2]) <==> tasks[i] == current)
  {
    ListingCutsIntoLines(tasks, current);
    SplitIsUnique(Listing(tasks, current), lines, ListingLines(tasks, current));
    TitleIsLine();
    assert lines[1] == ListingTitle;
    forall i | 0 <= i < |tasks|
      ensures TaskOfLine(lines[i + 2]) == tasks[i] && (IsMarkedLine(lines[i + 2]) <==> tasks[i] == current)
    {
      assert lines[i + 2] == TaskLines(tasks, current)[i];
      ListingLineReadsBack(tasks[i], current);
    }
  }

  /** The `ListTasks` branch's `for` loop building the text with `push_str`. */
  method FormatListing(tasks: seq<string>, current: string) returns (output: string)
    ensures output == Listing(tasks, current)
  {
    output := ListingHeader;
    ghost var body: string := [];
    for i := 0 to |tasks|
      invariant output == ListingHeader + body
      invariant body == ListingBody(tasks[..i], current)
    {
      var line := ListingLine(tasks[i], current);
      ListingOfPrefix(tasks, i, current);
      AppendAssociates(ListingHeader, body, line);
      output := output + line;
      body := body + line;
    }
    assert tasks[..|tasks|] == tasks;
    output := output + "\n";
  }

  // ---------------------------------------------------------------------
  // Forwarding terminal input to the child

  /** What the forwarding task sends to the child for one input line:
      the intercepted text, nothing if the handler drops it, and the
      original line if the handler fails. */
  function ForwardOne(intercept: string -> Result<Option<string>>, input: string): seq<string>
  {
    match intercept(input)
    case Ok(Some(modified)) => [modified]
    case Ok(None) => []
    case Err(_) => [input]
  }

  function ForwardAll(intercept: string -> Result<Option<string>>, inputs: seq<string>): seq<string>
  {
    if inputs == [] then [] else ForwardAll(intercept, inputs[..|inputs| - 1]) + ForwardOne(intercept, inputs[|inputs| - 1])
  }

  /** The forwarding task's loop, over the lines received on the input channel. */
  method ForwardInputs(intercept: string -> Result<Option<string>>, inputs: seq<string>) returns (toChild: seq<string>)
    ensures toChild == ForwardAll(intercept, inputs)
  {
    toChild := [];
    for i := 0 to |inputs|
      invariant toChild == ForwardAll(intercept, inputs[..i])
    {
      assert inputs[..i + 1][..i] == inputs[..i];
      match intercept(inputs[i]) {
        case Ok(Some(modified)) =>
          toChild := toChild + [modified];
        case Ok(None) =>
        case Err(_) =>
          toChild := toChild + [inputs[i]];
      }
    }
    assert inputs[..|inputs|] == inputs;
  }

  /** With the Q handler, every line reaches the child unchanged and in order. */
  lemma {:induction false} QForwardsEverything(h: CliHandler, inputs: seq<string>)
    ensures ForwardAll(s => InterceptInput(h, s), inputs) == inputs
  {
    if inputs != [] {
      QForwardsEverything(h, inputs[..|inputs| - 1]);
      assert inputs[..|inputs| - 1] + [inputs[|inputs| - 1]] == inputs;
    }
  }

  /** Nothing is ever sent that the handler did not produce or pass through:
      the child gets at most one message per line. */
  lemma {:induction false} ForwardAtMostOnePerLine(intercept: string -> Result<Option<string>>, inputs: seq<string>)
    ensures |ForwardAll(intercept, inputs)| <= |inputs|
  {
    if inputs != [] {
      ForwardAtMostOnePerLine(intercept, inputs[..|inputs| - 1]);
    }
  }

  // ---------------------------------------------------------------------
  // The command dispatcher

  /** What handling one command does: the tree afterwards, the messages for
      the output channel and for the child, and whether the loop ends. */
  datatype Reply = Reply(disk: Disk, output: seq<Notice>, toChild: seq<string>, stop: bool)

  /** The handler's part in dispatching, which `src/cli_handler.rs` does not
      fully define: whether it claims a command, whether it can run a given
      CLI command, and its context switch to a task. */
  datatype HandlerHooks = HandlerHooks(
    claim: Command -> Result<bool>,
    canHandle: string -> bool,
    clearContext: string -> Result<()>)

  /** A message the command loop sends on the output channel. The loop
      decides which message to send; `Render` gives the text that reaches
      the terminal. */
  datatype Notice =
    | ClaimFailed(error: string)
    | Exiting
    | TaskListing(tasks: seq<string>, current: string)
    | ListFailed(error: string)
    | CurrentTaskShown(current: string)
    | SwitchFailed(name: string, error: string)
    | CliLookupFailed(name: string, error: string)
    | SeamlessSwitch(name: string)
    | ContextFailed(error: string)
    | PointerNotUpdated(error: string)
    | SwitchedTo(name: string)
    | RestartNeeded
    | Created(name: string)
    | CreateFailed(name: string, error: string)
    | Deleted(name: string)
    | DeleteFailed(name: string, error: string)
    | HelpShown(handler: CliHandler)

  /** The text of each message, as the `format!` calls of the command loop
      write it. */
  function Render(n: Notice): string
  {
    match n
    case ClaimFailed(e) => "\nError processing command: " + e + "\n\n"
    case Exiting => "\nExiting grill...\n"
    case TaskListing(tasks, current) => Listing(tasks, current)
    case ListFailed(e) => "\nError listing tasks: " + e + "\n"
    case CurrentTaskShown(current) => "\nCurrent task: " + current + "\n\n"
    case SwitchFailed(name, e) => "\nError switching to task '" + name + "': " + e + "\n\n"
    case CliLookupFailed(name, e) => "\nError getting CLI command for task '" + name + "': " + e + "\n\n"
    case SeamlessSwitch(name) => "\nSwitching to task: " + name + " (seamless switch)\n"
    case ContextFailed(e) => "Error switching task context: " + e + "\n\n"
    case PointerNotUpdated(e) => "Warning: Failed to update current task file: " + e + "\n"
    case SwitchedTo(name) => "\nSwitched to task: " + name + "\n"
    case RestartNeeded => "Task uses a different CLI. Please restart grill to apply the change.\n\n"
    case Created(name) => "\nCreated task: " + name + "\n\n"
    case CreateFailed(name, e) => "\nError creating task '" + name + "': " + e + "\n\n"
    case Deleted(name) => "\nDeleted task: " + name + "\n\n"
    case DeleteFailed(name, e) => "\nError deleting task '" + name + "': " + e + "\n\n"
    case HelpShown(handler) => GrillHelpText() + CliHandlers.HelpText(handler)
  }

  /** What `send_prompt_restore` sends to the child. */
  const PromptRestore: string := "\r"

  /** What the `Help` branch sends to the child for its own help. */
  const ChildHelp: string := "/help\r"

  // How each outcome of an environment operation is reported.

  function ListReport(r: Result<seq<string>>, current: string): Notice
  {
    match r
    case Ok(tasks) => TaskListing(tasks, current)
    case Err(e) => ListFailed(e)
  }

  function CreateReport(name: string, r: Result<()>): Notice
  {
    match r
    case Ok(_) => Created(name)
    case Err(e) => CreateFailed(name, e)
  }

  function DeleteReport(name: string, r: Result<()>): Notice
  {
    match r
    case Ok(_) => Deleted(name)
    case Err(e) => DeleteFailed(name, e)
  }

  /** After a seamless switch: a warning only if the pointer was not written. */
  function PointerReport(r: Result<()>): seq<Notice>
  {
    match r
    case Ok(_) => []
    case Err(e) => [PointerNotUpdated(e)]
  }

  /** A switch that needs a restart. */
  function RestartReport(name: string, r: Result<()>): seq<Notice>
  {
    match r
    case Ok(_) => [SwitchedTo(name), RestartNeeded]
    case Err(e) => [SwitchFailed(name, e)]
  }

  /** The body of the command loop for one command: the handler's
      `process_command` first, the built-in handling if it declines. */
  function Dispatch(d: Disk, current: string, handler: CliHandler, hooks: HandlerHooks, command: Command): Reply
  {
    match hooks.claim(command)
    case Ok(true) => Reply(d, [], [], false)
    case Err(e) => Reply(d, [ClaimFailed(e)], [], false)
    case Ok(false) => BuiltIn(d, current, handler, hooks, command)
  }

  /** The built-in handling of each command. */
  function BuiltIn(d: Disk, current: string, handler: CliHandler, hooks: HandlerHooks, command: Command): Reply
  {
    match command
    case Quit => Reply(d, [Exiting], [], true)
    case ListTasks => ListReply(d, current)
    case CurrentTask => Reply(d, [CurrentTaskShown(current)], [PromptRestore], false)
    case SwitchTask(name) => SwitchTo(d, hooks, name)
    case CreateTask(name) => CreateReply(d, name)
    case DeleteTask(name) => DeleteReply(d, name)
    case Help => Reply(d, [HelpShown(handler)], [ChildHelp], false)
  }

  /** The `ListTasks` branch. */
  function ListReply(d: Disk, current: string): Reply
  {
    Reply(d, [ListReport(ListTasksOf(d), current)], [PromptRestore], false)
  }

  /** The `CreateTask` branch. */
  function CreateReply(d: Disk, name: string): Reply
  {
    var (d', r) := CreateTaskOn(d, name);
    Reply(d', [CreateReport(name, r)], [PromptRestore], false)
  }

  /** The `DeleteTask` branch. */
  function DeleteReply(d: Disk, name: string): Reply
  {
    var (d', r) := DeleteTaskOn(d, name);
    Reply(d', [DeleteReport(name, r)], [PromptRestore], false)
  }

  /** The `SwitchTask` branch. */
  function SwitchTo(d: Disk, hooks: HandlerHooks, name: string): Reply
  {
    match TaskDirOf(d, name)
    case Err(e) => Reply(d, [SwitchFailed(name, e)], [PromptRestore], false)
    case Ok(_) =>
      match CliCommandFor(d, name)
      case Err(e) => Reply(d, [CliLookupFailed(name, e)], [PromptRestore], false)
      case Ok(cli) =>
        if hooks.canHandle(cli) then
          match hooks.clearContext(name)
          case Err(e) => Reply(d, [SeamlessSwitch(name), ContextFailed(e)], [PromptRestore], false)
          case Ok(_) =>
            var (d', r) := SetCurrentTaskOn(d, name);
            Reply(d', [SeamlessSwitch(name)] + PointerReport(r), [PromptRestore], false)
        else
          var (d', r) := SetCurrentTaskOn(d, name);
          Reply(d', RestartReport(name, r), [PromptRestore], false)
  }

  /** A command the handler claims, or fails on, gets no built-in handling:
      at most the error is reported, and nothing else happens. */
  lemma ClaimedCommandsSkipBuiltIns(d: Disk, current: string, handler: CliHandler, hooks: HandlerHooks, command: Command)
    requires hooks.claim(command) != Ok(false)
    ensures var r := Dispatch(d, current, handler, hooks, command);
      && r.disk == d && r.toChild == [] && !r.stop
      && r.output == (if hooks.claim(command).Err? then [ClaimFailed(hooks.claim(command).error)] else [])
  {
  }

  /** Only an unclaimed `Quit` ends the loop. */
  lemma OnlyQuitStops(d: Disk, current: string, handler: CliHandler, hooks: HandlerHooks, command: Command)
    ensures var r := Dispatch(d, current, handler, hooks, command);
      r.stop <==> hooks.claim(command) == Ok(false) && command == Quit
  {
  }

  /** Every built-in branch except `Quit` and `Help` sends exactly one
      carriage return to the child; `Help` sends `/help` and a carriage
      return instead, `Quit` nothing. */
  lemma PromptIsRestored(d: Disk, current: string, handler: CliHandler, hooks: HandlerHooks, command: Command)
    requires hooks.claim(command) == Ok(false)
    ensures var r := Dispatch(d, current, handler, hooks, command);
      r.toChild == (if command == Quit then [] else if command == Help then ["/help\r"] else ["\r"])
  {
  }

  /** Only the task commands touch the tree: creating, deleting and
      switching do what the environment's operations do, and nothing else
      changes it. */
  lemma DispatchChangesTreeOnlyForTaskCommands(d: Disk, current: string, handler: CliHandler, hooks: HandlerHooks, command: Command)
    requires hooks.claim(command) == Ok(false)
    ensures var r := Dispatch(d, current, handler, hooks, command);
      && (command.CreateTask? ==> r.disk == CreateTaskOn(d, command.name).0)
      && (command.DeleteTask? ==> r.disk == DeleteTaskOn(d, command.name).0)
      && (command.SwitchTask? ==> r.disk == d || r.disk == SetCurrentTaskOn(d, command.name).0)
      && (!command.CreateTask? && !command.DeleteTask? && !command.SwitchTask? ==> r.disk == d)
  {
  }

  /** Switching to a missing task reports it and changes nothing. */
  lemma SwitchToMissingTask(d: Disk, current: string, handler: CliHandler, hooks: HandlerHooks, name: string)
    requires hooks.claim(SwitchTask(name)) == Ok(false) && !TaskExists(d, name)
    ensures Dispatch(d, current, handler, hooks, SwitchTask(name)) ==
      Reply(d, [SwitchFailed(name, "Task '" + name + "' does not exist")], [PromptRestore], false)
  {
  }

  /** When the handler cannot run the task's CLI, the pointer is moved to
      the task and the restart notice follows. */
  lemma SwitchNeedingRestart(d: Disk, current: string, handler: CliHandler, hooks: HandlerHooks, name: string)
    requires hooks.claim(SwitchTask(name)) == Ok(false)
    requires CliCommandFor(d, name).Ok? && !hooks.canHandle(CliCommandFor(d, name).value)
    ensures var r := Dispatch(d, current, handler, hooks, SwitchTask(name));
      && r.disk == d.(pointer := Some(name))
      && r.output == [SwitchedTo(name), RestartNeeded]
  {
    assert TaskExists(d, name);
  }

  /** A seamless switch moves the pointer only once the handler has
      switched its context; when that fails the tree is left alone. */
  lemma SeamlessSwitchNeedsContext(d: Disk, current: string, handler: CliHandler, hooks: HandlerHooks, name: string)
    requires hooks.claim(SwitchTask(name)) == Ok(false)
    requires CliCommandFor(d, name).Ok? && hooks.canHandle(CliCommandFor(d, name).value)
    ensures var r := Dispatch(d, current, handler, hooks, SwitchTask(name));
      && r.output[0] == SeamlessSwitch(name)
      && (hooks.clearContext(name).Ok? ==> r.disk == d.(pointer := Some(name)) && r.output == [SeamlessSwitch(name)])
      && (hooks.clearContext(name).Err? ==> r.disk == d && r.output == [SeamlessSwitch(name), ContextFailed(hooks.clearContext(name).error)])
  {
    assert TaskExists(d, name);
  }

  /** The task the session shows never follows a switch: whatever the tree
      says after any command, `/task` reports the task the session started with. */
  lemma ShownTaskIsFixed(d: Disk, current: string, handler: CliHandler, hooks: HandlerHooks, command: Command)
    requires hooks.claim(CurrentTask) == Ok(false)
    ensures var after := Dispatch(d, current, handler, hooks, command).disk;
      var shown := Dispatch(after, current, handler, hooks, CurrentTask).output;
      shown == [CurrentTaskShown(current)]
  {
  }

  /** With the Q handler, whose `process_command` never claims, every
      command gets its built-in handling. */
  lemma QHandlerUsesBuiltIns(d: Disk, current: string, handler: CliHandler, hooks: HandlerHooks, command: Command)
    requires hooks.claim == (c => CliHandlers.ProcessCommand(handler, c, current))
    ensures Dispatch(d, current, handler, hooks, command) == BuiltIn(d, current, handler, hooks, command)
  {
  }

  /** Help changes nothing and does not stop the loop: it shows grill's
      help followed by the handler's, and asks the child for its own. */
  lemma HelpReply(d: Disk, current: string, handler: CliHandler, hooks: HandlerHooks)
    requires hooks.claim(Help) == Ok(false)
    ensures Dispatch(d, current, handler, hooks, Help) == Reply(d, [HelpShown(handler)], ["/help\r"], false)
  {
  }

  /** The listing reply names every task the environment lists, in order,
      and marks the session's task. */
  lemma ListingNamesEveryTask(d: Disk, current: string, handler: CliHandler, hooks: HandlerHooks)
    requires hooks.claim(ListTasks) == Ok(false) && !d.tasks.TasksFile?
    ensures Dispatch(d, current, handler, hooks, ListTasks).output == [TaskListing(DirectoryNames(Entries(d)), current)]
  {
  }

  /** The dispatcher with its captured state, as a step on the tree. */
  function Stepper(current: string, handler: CliHandler, hooks: HandlerHooks): (Disk, Command) -> Reply
  {
    (d, c) => Dispatch(d, current, handler, hooks, c)
  }

  /** The loop over received commands, as a function: each command is
      handled against the tree the previous ones left, and the loop ends
      after the first command that stops it. */
  function RunFrom(step: (Disk, Command) -> Reply, d: Disk, commands: seq<Command>): (r: (Reply, nat))
    ensures r.1 <= |commands|
    decreases |commands|
  {
    if commands == [] then (Reply(d, [], [], false), 0)
    else
      var first := step(d, commands[0]);
      if first.stop then (first, 1)
      else Prepend(first.output, first.toChild, 1, RunFrom(step, first.disk, commands[1..]))
  }

  /** Messages and a count of commands handled before the rest of a run. */
  function Prepend(output: seq<Notice>, toChild: seq<string>, n: nat, rest: (Reply, nat)): (Reply, nat)
  {
    (Reply(rest.0.disk, output + rest.0.output, toChild + rest.0.toChild, rest.0.stop), n + rest.1)
  }

  /** Regrouping one append, as a separate step: the loops of `FormatListing`
      and `Dispatcher.Run` call it so that their own proofs need not search
      for the regrouping among all the other sequence facts in scope. */
  lemma AppendAssociates<T>(a: seq<T>, b: seq<T>, c: seq<T>)
    ensures (a + b) + c == a + (b + c)
  {
  }

  lemma PrependTwice(o1: seq<Notice>, c1: seq<string>, n1: nat, o2: seq<Notice>, c2: seq<string>, n2: nat, rest: (Reply, nat))
    ensures Prepend(o1, c1, n1, Prepend(o2, c2, n2, rest)) == Prepend(o1 + o2, c1 + c2, n1 + n2, rest)
  {
    assert o1 + (o2 + rest.0.output) == (o1 + o2) + rest.0.output;
    assert c1 + (c2 + rest.0.toChild) == (c1 + c2) + rest.0.toChild;
  }

  /** A run whose steps stop exactly on the commands `stops` picks ends at
      the first such command and handles every command before it. */
  lemma {:induction false} RunStopsAtFirstStop(step: (Disk, Command) -> Reply, stops: Command -> bool, d: Disk, commands: seq<Command>)
    requires forall d', c :: step(d', c).stop == stops(c)
    ensures var (r, n) := RunFrom(step, d, commands);
      && (forall i :: 0 <= i < n - 1 ==> !stops(commands[i]))
      && (r.stop <==> n > 0 && stops(commands[n - 1]))
      && (!r.stop ==> n == |commands|)
    decreases |commands|
  {
    if commands != [] {
      var first := step(d, commands[0]);
      if !first.stop {
        RunStopsAtFirstStop(step, stops, first.disk, commands[1..]);
        var (r, n) := RunFrom(step, first.disk, commands[1..]);
        assert RunFrom(step, d, commands).1 == n + 1;
        forall i | 1 <= i < n + 1
          ensures commands[i] == commands[1..][i - 1]
        {
        }
      }
    }
  }

  /** The session's command loop ends at the first `Quit` the handler does
      not claim, and handles every command before it. */
  lemma SessionStopsAtFirstQuit(current: string, handler: CliHandler, hooks: HandlerHooks, d: Disk, commands: seq<Command>)
    ensures var (r, n) := RunFrom(Stepper(current, handler, hooks), d, commands);
      && (forall i :: 0 <= i < n - 1 ==> !(commands[i] == Quit && hooks.claim(Quit) == Ok(false)))
      && (r.stop <==> n > 0 && commands[n - 1] == Quit && hooks.claim(Quit) == Ok(false))
      && (!r.stop ==> n == |commands|)
  {
    var stops := c => c == Quit && hooks.claim(Quit) == Ok(false);
    forall d', c
      ensures Stepper(current, handler, hooks)(d', c).stop == stops(c)
    {
      OnlyQuitStops(d', current, handler, hooks, c);
    }
    RunStopsAtFirstStop(Stepper(current, handler, hooks), stops, d, commands);
  }

  /** A shared `Arc<Mutex<bool>>`. */
  class Flag {
    var up: bool

    constructor(up0: bool)
      ensures up == up0
    {
      up := up0;
    }
  }

  /** The command-processing task: what it captured from the session, and
      what it has sent so far. */
  class Dispatcher {
    const env: Environment
    const currentTask: string
    const handler: CliHandler
    const hooks: HandlerHooks
    const running: Flag
    var output: seq<Notice>
    var toChild: seq<string>

    constructor(env0: Environment, currentTask0: string, handler0: CliHandler, hooks0: HandlerHooks, running0: Flag)
      ensures env == env0 && currentTask == currentTask0 && handler == handler0 && hooks == hooks0 && running == running0
      ensures output == [] && toChild == []
    {
      env, currentTask, handler, hooks, running := env0, currentTask0, handler0, hooks0, running0;
      output, toChild := [], [];
    }

    /** One iteration of the loop; `stop` is its `break`. */
    method Step(command: Command) returns (stop: bool)
      modifies this, env, running
      ensures var r := Dispatch(old(env.Tree()), currentTask, handler, hooks, command);
        && env.Tree() == r.disk
        && output == old(output) + r.output
        && toChild == old(toChild) + r.toChild
        && stop == r.stop
        && running.up == (if r.stop then false else old(running.up))
    {
      var claim := hooks.claim(command);
      match claim {
        case Ok(true) =>
          stop := false;
        case Err(e) =>
          output := output + [ClaimFailed(e)];
          stop := false;
        case Ok(false) =>
          var sent, prompt;
          sent, prompt, stop := BuiltInStep(command);
          output, toChild := output + sent, toChild + prompt;
          if stop {
            running.up := false;
          }
      }
    }

    /** The built-in handling of one command: what it sends on the output
        channel and to the child, and whether the loop ends. */
    method BuiltInStep(command: Command) returns (sent: seq<Notice>, prompt: seq<string>, stop: bool)
      modifies env
      ensures var r := BuiltIn(old(env.Tree()), currentTask, handler, hooks, command);
        env.Tree() == r.disk && Reply(env.Tree(), sent, prompt, stop) == r
    {
      sent, prompt, stop := [], [PromptRestore], false;
      match command {
        case Quit =>
          sent, prompt, stop := [Exiting], [], true;
        case ListTasks =>
          sent := ListTasks();
        case CurrentTask =>
          sent := [CurrentTaskShown(currentTask)];
        case SwitchTask(name) =>
          sent := SwitchTask(name);
        case CreateTask(name) =>
          sent := CreateTask(name);
        case DeleteTask(name) =>
          sent := DeleteTask(name);
        case Help =>
          sent, prompt := [HelpShown(handler)], [ChildHelp];
      }
    }

    /** The `ListTasks` branch (its prompt restore is sent by the caller). */
    method ListTasks() returns (sent: seq<Notice>)
      ensures ListReply(env.Tree(), currentTask) == Reply(env.Tree(), sent, [PromptRestore], false)
    {
      var listed := env.ListTasks();
      match listed {
        case Ok(tasks) =>
          sent := [TaskListing(tasks, currentTask)];
        case Err(e) =>
          sent := [ListFailed(e)];
      }
    }

    /** The `CreateTask` branch (its prompt restore is sent by the caller). */
    method CreateTask(name: string) returns (sent: seq<Notice>)
      modifies env
      ensures CreateReply(old(env.Tree()), name) == Reply(env.Tree(), sent, [PromptRestore], false)
    {
      var r := env.CreateTask(name);
      sent := [CreateReport(name, r)];
    }

    /** The `DeleteTask` branch (its prompt restore is sent by the caller). */
    method DeleteTask(name: string) returns (sent: seq<Notice>)
      modifies env
      ensures DeleteReply(old(env.Tree()), name) == Reply(env.Tree(), sent, [PromptRestore], false)
    {
      var r := env.DeleteTask(name);
      sent := [DeleteReport(name, r)];
    }

    /** The `SwitchTask` branch: what it sends on the output channel
        (its prompt restore is sent by the caller). */
    method SwitchTask(name: string) returns (sent: seq<Notice>)
      modifies env
      ensures SwitchTo(old(env.Tree()), hooks, name) == Reply(env.Tree(), sent, [PromptRestore], false)
    {
      var dir := env.GetTaskDir(name);
      match dir {
        case Err(e) =>
          sent := [SwitchFailed(name, e)];
        case Ok(_) =>
          var cli := CliCommandFor(env.Tree(), name);
          match cli {
            case Err(e) =>
              sent := [CliLookupFailed(name, e)];
            case Ok(command) =>
              if hooks.canHandle(command) {
                sent := [SeamlessSwitch(name)];
                var cleared := hooks.clearContext(name);
                match cleared {
                  case Ok(_) =>
                    var pointed := env.SetCurrentTask(name);
                    sent := sent + PointerReport(pointed);
                  case Err(e) =>
                    sent := sent + [ContextFailed(e)];
                }
              } else {
                var pointed := env.SetCurrentTask(name);
                sent := RestartReport(name, pointed);
              }
          }
      }
    }

    /** The loop over the commands received on the command channel, until
        `Quit` or until the channel yields no more. */
    method Run(commands: seq<Command>) returns (consumed: nat)
      modifies this, env, running
      ensures var (r, n) := RunFrom(Stepper(currentTask, handler, hooks), old(env.Tree()), commands);
        && consumed == n
        && env.Tree() == r.disk
        && output == old(output) + r.output
        && toChild == old(toChild) + r.toChild
        && running.up == (if r.stop then false else old(running.up))
    {
      var step := Stepper(currentTask, handler, hooks);
      consumed := 0;
      ghost var all := RunFrom(step, env.Tree(), commands);
      ghost var out0, child0 := output, toChild;
      ghost var sent: seq<Notice>, childSent: seq<string> := [], [];
      RunStart(step, env.Tree(), commands);
      while consumed < |commands|
        invariant consumed <= |commands|
        invariant running.up == old(running.up)
        invariant output == out0 + sent && toChild == child0 + childSent
        invariant all == Prepend(sent, childSent, consumed, RunFrom(step, env.Tree(), commands[consumed..]))
      {
        ghost var r := step(env.Tree(), commands[consumed]);
        RunAdvance(step, env.Tree(), commands, consumed, sent, childSent);
        var stop := Step(commands[consumed]);
        AppendAssociates(out0, sent, r.output);
        AppendAssociates(child0, childSent, r.toChild);
        if stop {
          return consumed + 1;
        }
        sent, childSent := sent + r.output, childSent + r.toChild;
        consumed := consumed + 1;
      }
      RunEnd(step, env.Tree(), commands, sent, childSent);
    }
  }

  lemma RunStart(step: (Disk, Command) -> Reply, d: Disk, commands: seq<Command>)
    ensures RunFrom(step, d, commands) == Prepend([], [], 0, RunFrom(step, d, commands[0..]))
  {
    var rest := RunFrom(step, d, commands);
    assert commands[0..] == commands;
    assert [] + rest.0.output == rest.0.output && [] + rest.0.toChild == rest.0.toChild;
  }

  /** One more command of a run: it stops the run, or the run goes on
      with its messages added. */
  lemma RunAdvance(step: (Disk, Command) -> Reply, d: Disk, commands: seq<Command>, k: nat, sent: seq<Notice>, childSent: seq<string>)
    requires k < |commands|
    ensures var r := step(d, commands[k]);
      Prepend(sent, childSent, k, RunFrom(step, d, commands[k..])) ==
        if r.stop then (Reply(r.disk, sent + r.output, childSent + r.toChild, true), k + 1)
        else Prepend(sent + r.output, childSent + r.toChild, k + 1, RunFrom(step, r.disk, commands[k + 1..]))
  {
    var r := step(d, commands[k]);
    assert commands[k..][0] == commands[k];
    assert commands[k..][1..] == commands[k + 1..];
    if !r.stop {
      PrependTwice(sent, childSent, k, r.output, r.toChild, 1, RunFrom(step, r.disk, commands[k + 1..]));
    }
  }

  lemma RunEnd(step: (Disk, Command) -> Reply, d: Disk, commands: seq<Command>, sent: seq<Notice>, childSent: seq<string>)
    ensures Prepend(sent, childSent, |commands|, RunFrom(step, d, commands[|commands|..])) == (Reply(d, sent, childSent, false), |commands|)
  {
    assert commands[|commands|..] == [];
    assert sent + [] == sent && childSent + [] == childSent;
  }

  // ---------------------------------------------------------------------
  // Starting a session

  /** `Session`: the environment, the process manager and handler once
      started, the session's task, and the shared `running` flag. */
  class Session {
    const env: Environment
    const running: Flag
    var processManager: Option<ProcessManager>
    var currentTask: Option<string>
    var handler: Option<CliHandler>
    /** What `start` itself sends on the output channel. */
    var output: seq<string>

    /** `Session::new`. */
    constructor(env0: Environment)
      ensures env == env0 && !running.up && fresh(running)
      ensures processManager.None? && currentTask.None? && handler.None? && output == []
    {
      env := env0;
      running := new Flag(false);
      processManager, currentTask, handler := None, None, None;
      output := [];
    }

    /** `is_running`. */
    method IsRunning() returns (b: bool)
      ensures b == running.up
    {
      b := running.up;
    }

    /** The task `start` runs: the explicit name, or the current task. */
    method SettleTask(taskName: Option<string>) returns (r: Result<string>)
      ensures r == ResolveTaskName(taskName, env.Tree())
    {
      match taskName {
        case Some(n) =>
          r := Ok(n);
        case None =>
          r := env.GetCurrentTask();
      }
    }

    /** `ProcessManager::new` with the handler's command, then its `start`. */
    static method Launch(h: CliHandler, outputTx: Sender, fault: StartFault, spawn: Spawn)
      returns (manager: ProcessManager, r: Result<Sender>)
      ensures fresh(manager)
      ensures (manager.command, manager.args) == SplitCommand(GetCommand(h))
      ensures r.Ok? <==> fault == NoFault
      ensures fault == NoFault ==>
        manager.State() == ManagerState(Some(spawn.pty), Some(spawn.child), Some(spawn.input), Some(outputTx), true, true)
    {
      manager := new ProcessManager(GetCommand(h));
      r := manager.Start(outputTx, fault, spawn);
    }

    /** `start` up to the spawning of the concurrent tasks: raises
        `running`, settles the task and its CLI, starts the child with the
        handler's command and greets the user. Errors return early, with
        what was already done left in place. */
    method Start(taskName: Option<string>, outputTx: Sender, fault: StartFault, spawn: Spawn) returns (r: Result<()>)
      modifies this, running
      ensures running.up
      ensures ResolveTaskName(taskName, env.Tree()).Err? ==>
        r == Err(ResolveTaskName(taskName, env.Tree()).error) && currentTask == old(currentTask)
      ensures ResolveTaskName(taskName, env.Tree()).Ok? ==>
        currentTask == Some(ResolveTaskName(taskName, env.Tree()).value)
      ensures r.Ok? <==> (ResolveTaskName(taskName, env.Tree()).Ok?
                          && CliCommandFor(env.Tree(), currentTask.value).Ok? && fault == NoFault)
      ensures r.Ok? ==>
        var name := currentTask.value;
        var h := CreateHandler(CliCommandFor(env.Tree(), name).value);
        && handler == Some(h)
        && processManager.Some? && processManager.value.command == SplitCommand(GetCommand(h)).0
        && processManager.value.args == SplitCommand(GetCommand(h)).1
        && processManager.value.State()
           == ManagerState(Some(spawn.pty), Some(spawn.child), Some(spawn.input), Some(outputTx), true, true)
        && output == old(output) + OnStart(h, name)
      ensures r.Err? ==> output == old(output) && handler == old(handler) && processManager == old(processManager)
    {
      ghost var d := env.Tree();
      running.up := true;
      var task := SettleTask(taskName);
      if task.Err? {
        return Err(task.error);
      }
      var name := task.value;
      currentTask := Some(name);
      r := StartTask(name, outputTx, fault, spawn);
      assert currentTask.value == name && env.Tree() == d;
    }

    /** The rest of `start` once the task is settled: resolves the task's
        CLI, starts the child with the handler's command, stores the
        manager and the handler, and greets the user. A failure stores and
        sends nothing. */
    method StartTask(name: string, outputTx: Sender, fault: StartFault, spawn: Spawn) returns (r: Result<()>)
      modifies this
      ensures currentTask == old(currentTask)
      ensures r.Ok? <==> CliCommandFor(env.Tree(), name).Ok? && fault == NoFault
      ensures CliCommandFor(env.Tree(), name).Err? ==> r == Err(CliCommandFor(env.Tree(), name).error)
      ensures r.Ok? ==>
        var h := CreateHandler(CliCommandFor(env.Tree(), name).value);
        && handler == Some(h)
        && processManager.Some? && processManager.value.command == SplitCommand(GetCommand(h)).0
        && processManager.value.args == SplitCommand(GetCommand(h)).1
        && processManager.value.State()
           == ManagerState(Some(spawn.pty), Some(spawn.child), Some(spawn.input), Some(outputTx), true, true)
        && output == old(output) + OnStart(h, name)
      ensures r.Err? ==> output == old(output) && handler == old(handler) && processManager == old(processManager)
    {
      var cli := CliCommandFor(env.Tree(), name);
      if cli.Err? {
        return Err(cli.error);
      }
      var h := CreateHandler(cli.value);
      var manager, started := Launch(h, outputTx, fault, spawn);
      if started.Err? {
        return Err(started.error);
      }
      processManager := Some(manager);
      handler := Some(h);
      output := output + OnStart(h, name);
      r := Ok(());
    }
  }
}
