/** The per-CLI capability adapter of `src/cli_handler.rs`: a closed union
    with one variant, the handler for the Amazon Q CLI. */
module CliHandlers {
  import opened Outcomes
  import opened Text
  import opened Io

  /** `QCliHandler`: remembers the command string it was built for. */
  datatype QCliHandler = QCliHandler(command: string)

  /** `CliHandler`: one variant per supported child CLI. */
  datatype CliHandler = Q(q: QCliHandler)

  /** `CliHandler::get_command`. */
  function GetCommand(h: CliHandler): string
  {
    match h
    case Q(q) => q.command
  }

  /** `CliHandler::process_command`: `Ok(true)` would claim the command;
      the Q handler has no commands of its own. */
  function ProcessCommand(h: CliHandler, command: Command, currentTask: string): Result<bool>
  {
    match h
    case Q(_) => Ok(false)
  }

  /** `CliHandler::get_help_text`: the adapter's fragment of `/help`. */
  function HelpText(h: CliHandler): string
  {
    match h
    case Q(_) => "\nAmazon Q Commands:\n  (No Q-specific commands available yet)\n"
  }

  /** `CliHandler::on_start`: the messages it offers to the output channel
      with `try_send`, in order. Sending is best effort, and the call always
      returns `Ok`. */
  function OnStart(h: CliHandler, taskName: string): seq<string>
  {
    match h
    case Q(_) =>
      ["\nStarting grill with task: " + taskName + "\n",
       "Type /help for available commands\n\n"]
  }

  /** `CliHandler::intercept_input`: `Ok(None)` would drop the input. */
  function InterceptInput(h: CliHandler, input: string): Result<Option<string>>
  {
    match h
    case Q(_) => Ok(Some(input))
  }

  /** `CliHandler::intercept_output`: `Ok(None)` would drop the chunk. */
  function InterceptOutput(h: CliHandler, output: string): Result<Option<string>>
  {
    match h
    case Q(_) => Ok(Some(output))
  }

  /** `CliHandlerFactory::create_handler`: both branches build the Q handler. */
  function CreateHandler(command: string): CliHandler
  {
    if Contains(command, "q chat") then Q(QCliHandler(command))
    else Q(QCliHandler(command))
  }

  // ---------------------------------------------------------------------
  // What the adapter promises

  /** Both interceptors keep their argument unchanged. */
  lemma InterceptorsAreIdentity(h: CliHandler, s: string)
    ensures InterceptInput(h, s) == Ok(Some(s))
    ensures InterceptOutput(h, s) == Ok(Some(s))
  {
  }

  /** The adapter never claims a command, so the session's built-in handling
      always runs. */
  lemma NeverClaims(h: CliHandler, command: Command, currentTask: string)
    ensures ProcessCommand(h, command, currentTask) == Ok(false)
  {
  }

  /** The factory always builds the Q variant and keeps the command exactly. */
  lemma CreateHandlerKeepsCommand(command: string)
    ensures CreateHandler(command).Q?
    ensures GetCommand(CreateHandler(command)) == command
  {
  }

  /** `on_start` offers exactly two messages, the first naming the task. */
  lemma OnStartNamesTask(h: CliHandler, taskName: string)
    ensures |OnStart(h, taskName)| == 2
    ensures OnStart(h, taskName)[0] == "\nStarting grill with task: " + taskName + "\n"
  {
  }

  /** The help fragment depends on the variant only. */
  lemma HelpTextIsFixed(h: CliHandler, g: CliHandler)
    ensures HelpText(h) == HelpText(g)
  {
  }
}
