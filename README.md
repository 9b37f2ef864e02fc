# grill, modelled in Dafny

grill is a terminal wrapper around an AI chat CLI (by default `q chat`). It
keeps named *tasks* under a `.grill/` directory and starts the chat CLI as a
child process in a pseudo-terminal. It copies the user's keystrokes to the
child and the child's output back to the terminal. It also intercepts a few
control lines (`/task`, `/task list`, `/task init <n>`, `/task delete <n>`,
`/help`, `/quit`) and carries them out itself.

This project models the core of grill and proves properties of the model.
It has nine modules, one file each:

| file | module | models |
|---|---|---|
| `outcomes.dfy` | `Outcomes` | `Option` and `Result`. An `anyhow` error is modelled by the text it displays. |
| `traces.dfy` | `Traces` | `Trace`: how many events a loop consumed and what it produced. |
| `text.dfy` | `Text` | The Rust string primitives the core relies on: `char::is_whitespace`, `trim`, `split_whitespace`, `contains`. |
| `configuration.dfy` | `Configuration` | `src/config.rs`: the global and per-task configuration, and their defaults. |
| `cli_handlers.dfy` | `CliHandlers` | `src/cli_handler.rs`: the `CliHandler` adapter and its only variant, the Q handler. |
| `io.dfy` | `Io` | `src/io.rs`: classifying each terminal line, the stdin reader loop, the stdout writer loop. |
| `process.dfy` | `Process` | `src/process.rs`: splitting the command line, the `ProcessManager` lifecycle, the pty reader and writer loops. |
| `environments.dfy` | `Environments` | `src/environment.rs`: the tree under `.grill/` as a value (`Disk`), each operation as a transition, and the `Environment` class that applies them in place. |
| `sessions.dfy` | `Sessions` | `src/session.rs`: the session's task and CLI, the help text, the task listing, input forwarding, the command loop, and `Session::start`. |

## How the model is built

- **State that changes in place is a class.** `Environment`,
  `ProcessManager`, `Session`, the command-processing task (`Dispatcher`)
  and the shared `Arc<Mutex<bool>>` (`Flag`) are classes. Each method is
  proved equal to a pure function of the old state, for example
  `(Tree(), r) == CreateTaskOn(old(Tree()), name)`. The lemmas about the
  operations are stated on those functions.
- **Loops are methods with loops.** Each loop is specified by a function of
  what its input stream delivers, and proved against it:
  - the stdin reader (`Reader`) and the stdout writer (`Concat`);
  - the pty reader (`OutputPump`) and the pty writer (`InputPump`);
  - the input forwarder (`ForwardAll`), the task listing (`Listing`) and
    the command loop (`RunFrom`).

  Concurrency is reduced to the events each loop can observe. For example,
  `Halted` in a pty read stands for `running` found false at the top of the
  loop. A loop that runs out of events stands for one still waiting.
- **Channels are sequences.** What a task sends is the sequence of values
  it sent. The command loop sends `Notice` values on the output channel;
  `Render` gives the exact text of each one.
- **Unknown behaviour is a parameter.** Three things the handler does are
  parameters of the command loop, collected in `HandlerHooks`:
  - `process_command`'s decision (`claim`);
  - `can_handle_command` (`canHandle`);
  - `clear_context_and_switch_task` (`clearContext`).

  `src/cli_handler.rs` does not define the last two. What the operating
  system does (pty, spawn, kill, read and write failures) is an input of
  the operation that meets it.
- **TOML is abstracted.** A configuration file on disk is `Absent`,
  `Parsed(value)` or `Malformed`.

## Model

| member | source | states |
|---|---|---|
| Configuration.LoadConfig | src/config.rs:42-54 | A missing file gives `Config::default()`. A parsed file gives its value. The result is an error exactly when the file does not parse. |
| Configuration.LoadTaskConfig | src/config.rs:85-97 | The same three cases for a task's `config.toml`, with `TaskConfig::default()` for a missing file. |
| Configuration.DefaultsAgree | src/config.rs:23-38 | The default CLI is `q chat`. The default `clis` map is `{q: "q chat"}`. There are no default hooks. A missing global file yields `q chat`, and a missing task file yields no override. |
| Configuration.DefaultConfig | src/config.rs:27-38 | Definition: `Config::default()` is the default CLI, the `clis` map `{q: "q chat"}` and no hooks. `DefaultsAgree` proves these values. |
| Configuration.DefaultTaskConfig | src/config.rs:74-81 | Definition: `TaskConfig::default()` has no CLI override and no hooks. `DefaultsAgree` proves it. |
| Configuration.GetDefaultCli | src/config.rs:57-59 | Definition: the `default_cli` field. `DefaultsAgree` and `Sessions.GlobalDefaultApplies` state what it yields. |
| Configuration.GetCli | src/config.rs:100-102 | Definition: the task's `cli` override, verbatim. `Sessions.TaskCliWins` states that it wins over the global default. |
| CliHandlers.NeverClaims | src/cli_handler.rs:75-84 | The Q handler's `process_command` is always `Ok(false)`. |
| CliHandlers.InterceptorsAreIdentity | src/cli_handler.rs:102-112 | Both interceptors return `Ok(Some(x))` for every input `x`. |
| CliHandlers.CreateHandlerKeepsCommand | src/cli_handler.rs:120-129 | Both branches of the factory build the Q handler, which keeps the command string exactly. |
| CliHandlers.OnStartNamesTask | src/cli_handler.rs:91-100 | `on_start` offers exactly two messages. The first names the task. |
| CliHandlers.HelpTextIsFixed | src/cli_handler.rs:86-89 | The handler's help fragment does not depend on the handler's state. |
| CliHandlers.GetCommand | src/cli_handler.rs:13-17 | Definition: the command string the handler was built with. `CreateHandlerKeepsCommand` proves that it is the factory's argument. |
| CliHandlers.ProcessCommand | src/cli_handler.rs:19-28 | Definition: dispatches to the Q handler, which answers `Ok(false)`. `NeverClaims` states this. |
| CliHandlers.HelpText | src/cli_handler.rs:30-34 | Definition: the Q handler's help fragment. `HelpTextIsFixed` states that it does not depend on the handler's state. |
| CliHandlers.OnStart | src/cli_handler.rs:36-44 | Definition: the two welcome messages. `OnStartNamesTask` states that the first names the task. |
| CliHandlers.InterceptInput | src/cli_handler.rs:46-50 | Definition: dispatches to the Q handler's `intercept_input`. `InterceptorsAreIdentity` states that it is `Ok(Some(x))`. |
| CliHandlers.InterceptOutput | src/cli_handler.rs:52-56 | Definition: dispatches to the Q handler's `intercept_output`. `InterceptorsAreIdentity` states that it is `Ok(Some(x))`. |
| CliHandlers.CreateHandler | src/cli_handler.rs:120-129 | Definition: both branches build the Q handler. `CreateHandlerKeepsCommand` states that it keeps the command. |
| Text.Trim | src/io.rs:104 | The result is no longer than the input and neither starts nor ends with whitespace. |
| Text.TrimPadding | src/environment.rs:102 | `trim` removes only whitespace: `s` is the trimmed text with whitespace on each side. |
| Text.TrimOfPadded | src/io.rs:104-109 | Trimming a whitespace-padded text whose ends are not whitespace gives back that text. |
| Text.Words | src/io.rs:73 | Every token `split_whitespace` yields is non-empty and free of whitespace. |
| Text.WordsOfUnwords | src/io.rs:73 | Splitting tokens joined by single spaces gives the tokens back. |
| Text.WordsOfTrim | src/io.rs:73 | `trim().split_whitespace()` yields the same tokens as `split_whitespace()`. |
| Io.ForwardIsVerbatim | src/io.rs:104-118 | A line is forwarded exactly when it does not start with `/task` and its trimmed text is neither `/quit` nor `/help`. It is then forwarded unchanged, newline included. |
| Io.ClassifyTaskLine | src/io.rs:72-103 | Every line starting with `/task` becomes the command the `parts` match picks from its whitespace tokens. |
| Io.ClassifyPaddedKeyword | src/io.rs:104-112 | `/quit` and `/help` are recognised with any whitespace around them. |
| Io.ClassifyTaskWords | src/io.rs:72-103 | A `/task` line written as tokens joined by spaces, plus trailing whitespace, follows the `parts` match on exactly those tokens. |
| Io.ClassifyRoundTrip | src/io.rs:72-112 | Parsing inverts printing. The tokens of any expressible command, plus ignorable extra tokens and trailing whitespace, classify as that command. |
| Io.LoneTaskTokenShowsCurrentTask | src/io.rs:98-102 | A line whose only token starts with `/task` (`/tasks` too) asks for the current task. |
| Io.IndentedTaskIsForwarded | src/io.rs:72-118 | A `/task` line indented by whitespace is not a command: it is forwarded. |
| Io.Classify | src/io.rs:72-117 | Definition of one reader iteration's decision. `ClassifyTaskLine`, `ClassifyPaddedKeyword`, `ForwardIsVerbatim` and `ClassifyRoundTrip` state its cases, and the round trip from `CommandWords`. |
| Io.TaskCommand | src/io.rs:74-103 | Definition of the `parts` match, arm by arm. `ClassifyTaskWords` and `ClassifyRoundTrip` state what each token sequence yields. |
| Io.Reader | src/io.rs:64-125 | The loop consumes at most the reads it was given and yields at most one action per read. `ReaderClassifiesEachLine` and `ReaderStopsAtFirstEnd` state the rest. |
| Io.ReadStdin | src/io.rs:59-125 | The stdin thread sends exactly the commands and the forwarded lines of `Reader(Classify, stdin)`, in order, and consumes what `Reader` consumes. |
| Io.ReadLines | src/io.rs:64-125 | The same loop with its per-line decision as a parameter. |
| Io.ReaderClassifiesEachLine | src/io.rs:64-125 | Each consumed line becomes exactly the action the classifier gives it, in input order. Only the last consumed read may be something else. |
| Io.ReaderStopsAtFirstEnd | src/io.rs:64-125 | The loop stops exactly at the first end of input, read error or `/quit`. Every earlier read is a line that lets it go on. |
| Io.QuitIsLast | src/io.rs:104-108 | `Quit` is sent at most once, and only as the last action. |
| Io.ChannelsPartitionActions | src/io.rs:70-118 | Every line goes to exactly one of the two channels. |
| Io.WriteOutput | src/io.rs:134-138 | Standard output receives the concatenation of the received strings, in order. A failing write ends the loop with that error, after the strings before it. |
| Io.ConcatIsOrdered | src/io.rs:134-138 | Output is never reordered. What is written up to any string is a prefix of the whole output. |
| Process.SplitCommandKeepsTokens | src/process.rs:26-29 | The program and the arguments are exactly the tokens of the command line. The program is `""` only when there are no tokens. |
| Process.SplitCommandOfJoined | src/process.rs:26-29 | Splitting inverts joining: a program and its arguments written as one padded line come back as they were. |
| Process.SplitCommand | src/process.rs:26-29 | Definition of `new`'s split. `SplitCommandKeepsTokens` and `SplitCommandOfJoined` state its meaning and its inverse. |
| Process.StartOn | src/process.rs:44-181 | `start` succeeds exactly when no step fails, and then returns the new input sender. A pty or spawn failure changes nothing. After the child runs, the handles are stored and both flags are raised. |
| Process.StopOn | src/process.rs:184-208 | After `stop`, both flags are down and the child is taken. `kill` is attempted exactly when the child is alive. An error comes only from `try_wait` or `kill`, and then leaves the pty and senders in place. On success the manager is idle. |
| Process.StopIsIdempotent | src/process.rs:184-208 | A second `stop` succeeds, kills nothing and leaves the manager idle. |
| Process.StopOfIdle | src/process.rs:184-208 | Stopping an idle manager changes nothing. |
| Process.StartThenStop | src/process.rs:184-208 | After a successful `start`, `stop` kills the child exactly when it is alive. Unless that fails, the manager returns to idle. |
| Process.ProcessManager.constructor | src/process.rs:26-41 | `new` stores the split command line and holds nothing, with both flags down. |
| Process.ProcessManager.Start | src/process.rs:44-181 | The new fields and the result are those of `StartOn`. |
| Process.ProcessManager.Stop | src/process.rs:184-208 | The new fields, the result and the kill attempt are those of `StopOn`. |
| Process.ProcessManager.Drop | src/process.rs:212-216 | `drop` leaves the state `stop` leaves, and ignores its result. |
| Process.ProcessManager.PumpOutput | src/process.rs:93-141 | The reader thread sends what `OutputPump` sends and lowers `running` when it exits. |
| Process.PumpOutputLoop | src/process.rs:99-136 | The reader loop's sent chunks and consumed turns are those of `OutputPump`. |
| Process.OutputPumpSendsForwarded | src/process.rs:99-136 | The loop sends exactly the intercepted delivered chunks it consumed, in order. It stops at the first end of file, read error, closed channel or lowered flag. |
| Process.IdentityForwardsChunks | src/process.rs:105-116 | With the identity interceptor and an open channel, every chunk is sent unchanged and in order. |
| Process.OutputPump | src/process.rs:99-136 | The reader loop consumes at most the turns it was given and sends at most one chunk per turn. `OutputPumpSendsForwarded` states which chunks it sends. |
| Process.PumpInput | src/process.rs:151-178 | The writer loop's written strings and consumed events are those of `InputPump`. |
| Process.InputPumpWritesInOrder | src/process.rs:151-178 | The writer loop writes exactly the successfully written strings, in queue order. A failed write is skipped. Only a closed queue or a lowered flag ends the loop. |
| Process.InputPump | src/process.rs:151-178 | The writer loop consumes at most the events it was given and writes at most one string per event. `InputPumpWritesInOrder` states which strings. |
| Environments.CurrentTaskOf | src/environment.rs:94-103 | `get_current_task` fails exactly when there is no pointer file, with `No current task set`. |
| Environments.CurrentTaskIgnoresPadding | src/environment.rs:99-102 | Whitespace around the name in the pointer file does not reach the name read back. |
| Environments.TaskDirOf | src/environment.rs:106-114 | `get_task_dir` succeeds exactly when `join(name).exists()` holds, and otherwise reports `Task '<n>' does not exist`. For `""`, `.` and `..` that is whenever `.grill/tasks` is a directory. |
| Environments.TaskExists | src/environment.rs:108 | Definition of `tasks_dir.join(name).exists()`. An entry of any kind counts. The names `""`, `.` and `..` exist exactly when `.grill/tasks` is a directory. `DeletingAliasRemovesEveryTask` and `CreateTaskEffect` build on it. |
| Environments.CreateTaskOn | src/environment.rs:66-91 | `create_task` fails exactly when the name exists (`already exists`), when `.grill/tasks` is a file, or when the name is `.` with no tasks directory. In that last case `create_dir_all` has made `.grill`. With no tasks directory, `""` succeeds: the directory is made and the three files land in it. Any other failure changes nothing, and no failure changes the tasks, the configuration or the pointer. |
| Environments.LooseTaskFiles | src/environment.rs:76-88 | Definition of what `create_task("")` leaves in a new `.grill/tasks`: `instructions.md`, `state.md` and `config.toml` as plain files. `CreateTaskEffect` states that they list no task. |
| Environments.SetCurrentTaskOn | src/environment.rs:125-136 | The pointer becomes the name exactly when `join(name).exists()` holds, `""`, `.` and `..` included. Otherwise nothing changes and the error names the task. |
| Environments.ListTasksOf | src/environment.rs:140-157 | `list_tasks` gives no names without a tasks directory, and fails exactly when the tasks path is a file. |
| Environments.DeleteTaskOn | src/environment.rs:161-178 | `delete_task` succeeds exactly when the task exists, a current task is set, the task is not the current one, and its entry is a directory, or the name is `""` or `..`. The missing-task, missing-pointer and current-task errors carry their messages. A failure changes nothing, except for `.`: its `remove_dir_all` empties `.grill/tasks` and then fails. |
| Environments.RemoveTaskOn | src/environment.rs:173-174 | Definition of the `remove_dir_all` step of `delete_task`. `""` removes `.grill/tasks`, `.` empties it and fails, `..` empties `.grill`, a plain file is refused, and a task directory goes. `DeleteTaskOn`'s ensures state the outcomes. |
| Environments.InitOn | src/environment.rs:31-58 | `init` fails exactly when the tasks path is a file, or when there is no pointer file and a `default` entry already exists. |
| Environments.CreateTaskEffect | src/environment.rs:66-91 | A successful create makes the name exist and keeps the pointer. For an ordinary name it adds the task with its three default files and leaves every other name and the configuration alone. For `""` the tasks directory is new and holds the three files as plain files, so it lists no task. For `..` the template replaces the global `config.toml`. Names stay unique. |
| Environments.DeleteTaskEffect | src/environment.rs:161-178 | A successful delete of an ordinary name removes exactly that task and keeps the configuration and the pointer. Names stay unique. |
| Environments.DeletingAliasRemovesEveryTask | src/environment.rs:161-178 | Deleting `""`, `.` or `..` while another task is current passes every check and leaves no task listed, the current task included. Only `.` reports failure. |
| Environments.ListTasksNamesDirectories | src/environment.rs:147-154 | A name is listed exactly when its entry is a directory. |
| Environments.InitEffect | src/environment.rs:31-58 | `init` creates only what is missing and never overwrites the configuration or the pointer. Afterwards the environment exists. |
| Environments.CreateThenFind | src/environment.rs:66-114 | A created task is found by `get_task_dir`, and creating it again fails with `already exists`. |
| Environments.SetThenGetCurrentTask | src/environment.rs:94-136 | After setting the pointer, reading it gives the name trimmed, and any whitespace-free name unchanged. |
| Environments.CurrentTaskIsNotDeleted | src/environment.rs:168-172 | The current task can never be deleted, and the attempt changes nothing. |
| Environments.CreateThenDelete | src/environment.rs:66-178 | Creating a task and deleting it again restores the tree, when the task is not current. |
| Environments.InitIsIdempotent | src/environment.rs:31-58 | After a successful `init`, running it again succeeds and changes nothing. |
| Environments.InitOfEmpty | src/environment.rs:31-58 | `init` on an empty directory creates the default configuration and the single task `default`, which becomes current. |
| Environments.Environment.constructor | src/environment.rs:16-28 | The environment holds the tree found on disk. |
| Environments.Environment.Exists | src/environment.rs:61-63 | `exists` holds exactly when the `.grill` directory and `config.toml` both exist. |
| Environments.Environment.GetCurrentTask | src/environment.rs:94-103 | The result is `CurrentTaskOf` of the tree. |
| Environments.Environment.GetTaskDir | src/environment.rs:106-114 | The result is `TaskDirOf` of the tree. |
| Environments.Environment.PathExists | src/environment.rs:68 | The check `tasks_dir.join(name).exists()` computes `TaskExists` of the tree, `""`, `.` and `..` included. |
| Environments.Environment.CreateTask | src/environment.rs:66-91 | The new tree and the result are those of `CreateTaskOn`. |
| Environments.Environment.SetCurrentTask | src/environment.rs:125-136 | The new tree and the result are those of `SetCurrentTaskOn`. |
| Environments.Environment.ListTasks | src/environment.rs:140-157 | The loop over the entries returns `ListTasksOf` of the tree. |
| Environments.Environment.DeleteTask | src/environment.rs:161-178 | The new tree and the result are those of `DeleteTaskOn`. |
| Environments.Environment.RemoveTaskDir | src/environment.rs:173-174 | For a name that exists, the new tree and the result are those of `RemoveTaskOn`. |
| Environments.Environment.Init | src/environment.rs:31-58 | The new tree and the result are those of `InitOn`. |
| Sessions.TaskCliWins | src/session.rs:302-312 | A `cli` in the task's `config.toml` is the task's CLI, whatever the global configuration says. |
| Sessions.GlobalDefaultApplies | src/session.rs:314-317 | Without a task override, the global `default_cli` applies. Without a global file, that is `q chat`. |
| Sessions.CliCommandErrors | src/session.rs:302-318 | The lookup fails exactly when the task is missing, or when a configuration it needs does not parse. |
| Sessions.CreatedTaskRunsQChat | src/environment.rs:87-88 | A task made by `create_task` runs `q chat`, whatever the global default was. For `..` the template has replaced the global configuration. For `""` the model gives the global default (see Left out). |
| Sessions.CliCommandFor | src/session.rs:302-337 | Definition of `get_cli_command`: `get_task_dir`, then the task's `config.toml`, then the global default. `TaskCliWins`, `GlobalDefaultApplies` and `CliCommandErrors` state its three outcomes. |
| Sessions.GlobalCli | src/session.rs:314-317 | Definition of the fallback: the global configuration's `default_cli`, or its parse error. `GlobalDefaultApplies` states when it is used. |
| Sessions.ResolveTaskName | src/session.rs:39-42 | The session's task is the explicit name if one is given, and otherwise `get_current_task`. |
| Sessions.HelpCoversEveryCommand | src/session.rs:346-356 | The help documents every command exactly once. |
| Sessions.HelpSyntaxIsAccepted | src/session.rs:348-354 | Each help line's syntax, typed as shown, classifies as the command it documents. |
| Sessions.GrillHelpText | src/session.rs:346-356 | Definition: the help text, line by line. `HelpCoversEveryCommand` and `HelpSyntaxIsAccepted` state what it documents. |
| Sessions.ListingLineReadsBack | src/session.rs:162-168 | Each listing line names its task, and is marked exactly when that task is the session's task. |
| Sessions.Listing | src/session.rs:161-169 | Definition of the listing text: the header, one line per task, and a blank line. `ListingReadsBack` states what it means. |
| Sessions.ListingReadsBack | src/session.rs:161-169 | The listing decodes back to the task list. It cuts into whole lines in exactly one way: the two header lines, then one line per task in list order naming that task, then a blank line. Exactly the lines of the session's task carry the `*` marker. Task names must hold no newline. |
| Sessions.ListingCutsIntoLines | src/session.rs:161-169 | The listing text is the concatenation of `ListingLines`, and each of those is one whole line. |
| Sessions.FormatListing | src/session.rs:161-169 | The `for` loop builds exactly `Listing`: the header, one line per task, and a blank line. |
| Sessions.ForwardInputs | src/session.rs:84-109 | The forwarding task sends the child exactly `ForwardAll`: the intercepted text, nothing for a dropped line, the original line on an interceptor error. |
| Sessions.QForwardsEverything | src/session.rs:87-95 | With the Q handler, every line reaches the child unchanged and in order. |
| Sessions.ForwardAtMostOnePerLine | src/session.rs:87-107 | At most one message reaches the child per line. |
| Sessions.ForwardAll | src/session.rs:87-108 | Definition of the forwarder loop over the lines received, one `ForwardOne` per line. `ForwardInputs`, `QForwardsEverything` and `ForwardAtMostOnePerLine` state what reaches the child. |
| Sessions.ClaimedCommandsSkipBuiltIns | src/session.rs:133-148 | A command the handler claims or fails on gets no built-in handling. At most the error is reported. |
| Sessions.OnlyQuitStops | src/session.rs:150-156 | The loop ends exactly on an unclaimed `Quit`. |
| Sessions.PromptIsRestored | src/session.rs:157-285 | Every built-in branch except `Quit` and `Help` sends one carriage return to the child. `Help` sends `/help\r` and `Quit` sends nothing. |
| Sessions.DispatchChangesTreeOnlyForTaskCommands | src/session.rs:149-286 | Only create, delete and switch change the tree, each as the environment operation it calls. |
| Sessions.SwitchToMissingTask | src/session.rs:187-244 | Switching to a missing task reports `get_task_dir`'s error and changes nothing. |
| Sessions.SwitchNeedingRestart | src/session.rs:225-236 | When the handler cannot run the task's CLI, the pointer moves to the task and the restart notice follows. |
| Sessions.SeamlessSwitchNeedsContext | src/session.rs:202-224 | A seamless switch announces itself. It moves the pointer only once the context switch succeeds, and a failed switch leaves the tree alone. |
| Sessions.ShownTaskIsFixed | src/session.rs:180-186 | `/task` always shows the task the session started with, even after a switch has moved the pointer. |
| Sessions.QHandlerUsesBuiltIns | src/session.rs:134-148 | With the Q handler's `process_command`, every command gets its built-in handling. |
| Sessions.HelpReply | src/session.rs:274-285 | Help shows grill's help followed by the handler's, sends `/help\r` to the child, and changes nothing. |
| Sessions.ListingNamesEveryTask | src/session.rs:157-179 | The listing reply names every task directory the environment lists, in order. |
| Sessions.Dispatch | src/session.rs:132-148 | Definition of one iteration: the handler's `process_command` first, then `BuiltIn`. `ClaimedCommandsSkipBuiltIns` and `QHandlerUsesBuiltIns` state it. |
| Sessions.BuiltIn | src/session.rs:149-286 | Definition of the `match command`, one arm per command. `OnlyQuitStops`, `PromptIsRestored` and `DispatchChangesTreeOnlyForTaskCommands` state it. |
| Sessions.ListReply | src/session.rs:157-179 | Definition of the `ListTasks` arm. `ListingNamesEveryTask` states it. |
| Sessions.CreateReply | src/session.rs:246-259 | Definition of the `CreateTask` arm: `create_task`, then its report. `DispatchChangesTreeOnlyForTaskCommands` states its effect on the tree. |
| Sessions.DeleteReply | src/session.rs:260-273 | Definition of the `DeleteTask` arm: `delete_task`, then its report. `DispatchChangesTreeOnlyForTaskCommands` states its effect on the tree. |
| Sessions.SwitchTo | src/session.rs:187-245 | Definition of the `SwitchTask` arm. `SwitchToMissingTask`, `SwitchNeedingRestart` and `SeamlessSwitchNeedsContext` state its paths. |
| Sessions.Render | src/session.rs:142-285 | Definition of the exact text of each message the loop sends. `ListingReadsBack` and `HelpReply` state what the listing and help texts hold. |
| Sessions.RunStopsAtFirstStop | src/session.rs:129-156 | A run ends at the first command that stops it and handles every command before it. |
| Sessions.SessionStopsAtFirstQuit | src/session.rs:129-156 | The command loop ends at the first unclaimed `Quit` and handles every command before it. |
| Sessions.RunFrom | src/session.rs:129-156 | The loop consumes at most the commands it was given. `RunStopsAtFirstStop` states where it stops and what it handles. |
| Sessions.Flag.constructor | src/session.rs:26 | A new shared flag holds its initial value. |
| Sessions.Dispatcher.constructor | src/session.rs:112-119 | The task captures the environment, the session's task, the handler and the shared `running` flag. It has sent nothing yet. |
| Sessions.Dispatcher.Step | src/session.rs:130-287 | One iteration changes the tree and sends what `Dispatch` says. It lowers `running` exactly when it stops. |
| Sessions.Dispatcher.BuiltInStep | src/session.rs:149-286 | The built-in handling does what `BuiltIn` says. |
| Sessions.Dispatcher.ListTasks | src/session.rs:157-179 | The `ListTasks` branch sends `ListReply`'s message. |
| Sessions.Dispatcher.CreateTask | src/session.rs:246-259 | The `CreateTask` branch changes the tree and reports as `CreateReply` says. |
| Sessions.Dispatcher.DeleteTask | src/session.rs:260-273 | The `DeleteTask` branch changes the tree and reports as `DeleteReply` says. |
| Sessions.Dispatcher.SwitchTask | src/session.rs:187-245 | The `SwitchTask` branch changes the tree and reports as `SwitchTo` says. |
| Sessions.Dispatcher.Run | src/session.rs:122-289 | The command loop's tree, messages, consumed commands and flag are those of `RunFrom`. |
| Sessions.Session.constructor | src/session.rs:21-29 | A new session holds nothing and is not running. |
| Sessions.Session.IsRunning | src/session.rs:340-342 | `is_running` reads the shared flag. |
| Sessions.Session.SettleTask | src/session.rs:39-44 | The task `start` runs is `ResolveTaskName` of the tree: the explicit name, or the current task. |
| Sessions.Session.Launch | src/session.rs:59-65 | A fresh manager holds the handler's command split into program and arguments. It starts exactly when no step fails, and then holds the pty, the child and both senders, with both flags up. |
| Sessions.Session.Start | src/session.rs:32-75 | `start` raises `running` and settles the task: the explicit name, or the current task. It succeeds exactly when the task and its CLI resolve and the child starts. Then it stores the handler and a manager for that CLI's program and arguments, and sends the handler's greeting. On failure, no handler or manager is stored and nothing is sent. |
| Sessions.Session.StartTask | src/session.rs:47-75 | Once the task is settled, `start` succeeds exactly when the task's CLI resolves and the child starts. It then stores the handler and a manager for that CLI's program and arguments, and sends the greeting. A CLI error is returned as is. On failure nothing is stored or sent, and the current task stays. |

## Left out

- The spawned tasks of `Session::start` are not modelled as concurrent tasks. The input forwarder (`ForwardInputs`) and the command loop (`Dispatcher.Run`) are modelled separately and share `running` through a `Flag`. No interleaving of their messages on the shared channels is modelled.
- Sessions.Session.Start: stops where `start` spawns its tasks. Its `IoHandler` is not modelled, and the `?` on `on_start` never fires, because `on_start` always returns `Ok`.
- Sessions.Session.Start: when `start` fails after the spawn, the source drops its local `ProcessManager`, and that `Drop` runs `stop` and kills the child. The model leaves `processManager` unchanged and does not model that kill.
- Pseudo-terminals, threads, sleeps, channel capacities and `eprintln!` are not modelled. A send that fails is kept only where the loop reacts to it: the pty reader stops on a closed output channel. Elsewhere the result is ignored (`let _ =`).
- Broadcast channel lag (`RecvError::Lagged`) is not modelled. The forwarder and the command loop receive every message.
- `String::from_utf8_lossy` is not modelled: the pty delivers chunks of text.
- Io.ReadStdin: does not model `IoHandler`'s `running` flag, which nothing in the source lowers.
- File reads and writes always succeed in the model. Only the failures the tree's shape causes are modelled: `.grill/tasks` being a file, and a plain file under a task's name. In particular, the pointer write of `set_current_task` cannot fail, so the `PointerNotUpdated` branch of `PointerReport` (`Warning: Failed to update current task file`) is modelled but not reached after a successful `get_task_dir`.
- `read_dir` is taken to yield the entries in a fixed order, the order of `TasksDirectory.entries`. Names that are not valid UTF-8, and task names that are paths (containing `/`), are not modelled. The names `""`, `.` and `..` are modelled: joined to `.grill/tasks`, `""` and `.` name that directory and `..` names `.grill`, on a Unix file system. A blank pointer file or `--task ""` reaches `""`.
- Sessions.CliCommandFor: for `""`, `.` and `..` the model uses the global default. The source reads `.grill/tasks/config.toml` (for `""` and `.`) or `.grill/config.toml` (for `..`) as the task configuration. The two agree when that file is missing or sets no `cli`. The model does not keep the contents of plain files in `.grill/tasks`.
- Sessions.CreatedTaskRunsQChat: for `""` it promises only the global default, not `q chat`. In the source, `create_task("")` writes the template to `.grill/tasks/config.toml` and `get_cli_command("")` reads it back. The model keeps that file as a plain file without contents (see `Sessions.CliCommandFor`).
- Environments.CreateTaskEffect: for `""` it does not promise that other names keep their entries. `create_task("")` adds `instructions.md`, `state.md` and `config.toml` to the new `.grill/tasks` as plain files, and the lemma states those entries instead.
- Environments.CreateTaskOn: for `..`, the model records only that the template replaces the global `config.toml`. The `instructions.md` and `state.md` that land in `.grill` are not modelled, since nothing in the core reads them.
- TOML parsing is not modelled. A stored configuration is `Absent`, `Parsed(value)` or `Malformed`, and the global file `init` writes is recorded as what it parses to.
- Environments.Document: the markdown files of a task hold a template or edited text, and nothing in the core reads them.
- `can_handle_command` and `clear_context_and_switch_task` are not defined in `src/cli_handler.rs`. They are parameters (`HandlerHooks.canHandle`, `HandlerHooks.clearContext`). Anything `clear_context_and_switch_task` itself sends on `process_input_tx` or `output_tx` is not modelled; `clearContext` returns only its result.
- Process.ProcessManager.Start: does not take the `CliHandler` argument. The reader thread it spawns is `PumpOutput` with the handler's interceptor as a parameter.
- Sessions.FormatListing: models the `for` loop that builds the listing text. `Dispatcher.ListTasks` sends `TaskListing(tasks, current)`, whose text `Render` gives as `Listing`, the function `FormatListing` is proved to compute.
- `src/main.rs` (argument parsing) and `src/task.rs` are not part of this model.
