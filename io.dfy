/** The terminal side of a session, `src/io.rs`: the classification of each
    line read from standard input into a command or a pass-through string,
    the reader loop around it, and the loop that copies the output channel
    to standard output. */
module Io {
  import opened Outcomes
  import opened Text
  import opened Traces

  /** `Command`: the control commands a line can carry. */
  datatype Command =
    | SwitchTask(name: string)
    | ListTasks
    | CurrentTask
    | CreateTask(name: string)
    | DeleteTask(name: string)
    | Help
    | Quit

  /** What one line becomes: a command on the command channel, or the line
      itself on the input channel. Never both. */
  datatype LineAction = Emit(command: Command) | Forward(text: string)

  /** The body of the reader loop for one line returned by `read_line`
      (its newline, if any, included). `/task` is a prefix test on the raw
      line; `/quit` and `/help` are compared with the trimmed line. */
  function Classify(line: string): LineAction
  {
    if "/task" <= line then Emit(TaskCommand(Words(Trim(line))))
    else if Trim(line) == "/quit" then Emit(Quit)
    else if Trim(line) == "/help" then Emit(Help)
    else Forward(line)
  }

  /** The `/task` grammar on the tokens of the line (`parts`), in the order
      the arms are tried: `init` and `delete` take the third token when there
      is one, `list` lists, any other second token (a lone `init` or `delete`
      included) names a task to switch to, and no second token asks for the
      current task. Later tokens are ignored. */
  function TaskCommand(parts: seq<string>): Command
  {
    if |parts| > 1 && parts[1] == "init" && |parts| > 2 then CreateTask(parts[2])
    else if |parts| > 1 && parts[1] == "delete" && |parts| > 2 then DeleteTask(parts[2])
    else if |parts| > 1 && parts[1] == "list" then ListTasks
    else if |parts| > 1 then SwitchTask(parts[1])
    else CurrentTask
  }

  /** The tokens a user types for a command. */
  function CommandWords(c: Command): seq<string>
  {
    match c
    case SwitchTask(n) => ["/task", n]
    case ListTasks => ["/task", "list"]
    case CurrentTask => ["/task"]
    case CreateTask(n) => ["/task", "init", n]
    case DeleteTask(n) => ["/task", "delete", n]
    case Help => ["/help"]
    case Quit => ["/quit"]
  }

  /** Commands that a line can express: names are single tokens, and a task
      called `list` cannot be switched to (its line lists the tasks). */
  predicate Expressible(c: Command)
  {
    match c
    case SwitchTask(n) => IsWord(n) && n != "list"
    case CreateTask(n) => IsWord(n)
    case DeleteTask(n) => IsWord(n)
    case _ => true
  }

  /** Commands whose line may carry further tokens that are ignored
      (switching to a task called `init` or `delete` may not: a third token
      would make the line create or delete a task). */
  predicate IgnoresExtraWords(c: Command)
  {
    || (c.SwitchTask? && c.name != "init" && c.name != "delete")
    || c.ListTasks? || c.CreateTask? || c.DeleteTask?
  }

  // ---------------------------------------------------------------------
  // Classification of single lines

  /** A line is forwarded exactly when it is none of the three commands, and
      then it is forwarded unchanged, newline included. */
  lemma ForwardIsVerbatim(line: string)
    ensures Classify(line).Forward? <==>
      !("/task" <= line) && Trim(line) != "/quit" && Trim(line) != "/help"
    ensures Classify(line).Forward? ==> Classify(line).text == line
  {
  }

  /** Every line starting with `/task` (so `/tasks` too) follows the grammar
      of `TaskCommand` on its tokens, whatever whitespace separates them. */
  lemma ClassifyTaskLine(line: string)
    requires "/task" <= line
    ensures Classify(line) == Emit(TaskCommand(Words(line)))
  {
    WordsOfTrim(line);
  }

  lemma KeywordIsNotTaskLine(lead: string, keyword: string, trail: string)
    requires keyword == "/quit" || keyword == "/help"
    requires AllWhitespace(lead)
    ensures !("/task" <= lead + (keyword + trail))
  {
    var line := lead + (keyword + trail);
    if lead == [] {
      assert line[1] == keyword[1];
    } else {
      assert line[0] == lead[0];
    }
  }

  /** `/quit` and `/help` are recognised with any whitespace around them. */
  lemma {:induction false} ClassifyPaddedKeyword(lead: string, keyword: string, trail: string)
    requires keyword == "/quit" || keyword == "/help"
    requires AllWhitespace(lead) && AllWhitespace(trail)
    ensures Classify(lead + (keyword + trail)) == Emit(if keyword == "/quit" then Quit else Help)
  {
    KeywordIsNotTaskLine(lead, keyword, trail);
    TrimOfPadded(lead, keyword, trail);
  }

  /** The joined tokens start with the first token. */
  lemma UnwordsStartsWithHead(ws: seq<string>)
    requires |ws| >= 1
    ensures ws[0] <= Unwords(ws)
  {
    if |ws| > 1 {
      var rest := " " + Unwords(ws[1..]);
      assert Unwords(ws) == ws[0] + rest;
      PrefixOfAppend(ws[0], rest);
    }
  }

  lemma TaskHeadIsTaskLine(ws: seq<string>, trail: string)
    requires |ws| >= 1 && "/task" <= ws[0]
    ensures "/task" <= Unwords(ws) + trail
  {
    UnwordsStartsWithHead(ws);
    assert Unwords(ws) <= Unwords(ws) + trail;
  }

  /** Tokens joined by single spaces and followed by whitespace, read back:
      a `/task` line follows `TaskCommand` on exactly those tokens. */
  lemma ClassifyTaskWords(ws: seq<string>, trail: string)
    requires |ws| >= 1 && "/task" <= ws[0]
    requires AllWords(ws) && AllWhitespace(trail)
    ensures Classify(Unwords(ws) + trail) == Emit(TaskCommand(ws))
  {
    var line := Unwords(ws) + trail;
    TaskHeadIsTaskLine(ws, trail);
    ClassifyTaskLine(line);
    WordsBeforeBlank(Unwords(ws), trail);
    WordsOfUnwords(ws);
  }

  lemma CommandWordsOfTaskCommand(c: Command, extra: seq<string>)
    requires Expressible(c) && !c.Quit? && !c.Help? && AllWords(extra)
    requires extra != [] ==> IgnoresExtraWords(c)
    ensures var ws := CommandWords(c) + extra;
      |ws| >= 1 && "/task" <= ws[0] && AllWords(ws) && TaskCommand(ws) == c
  {
    CommandWordsAreWords(c);
    AllWordsAppend(CommandWords(c), extra);
    TaskCommandOfCommandWords(c, extra);
  }

  lemma CommandWordsAreWords(c: Command)
    requires Expressible(c)
    ensures AllWords(CommandWords(c))
  {
    KeywordsAreWords();
    match c
    case SwitchTask(n) => AllWordsOfTwo("/task", n);
    case ListTasks => AllWordsOfTwo("/task", "list");
    case CurrentTask =>
    case CreateTask(n) => AllWordsOfThree("/task", "init", n);
    case DeleteTask(n) => AllWordsOfThree("/task", "delete", n);
    case Help => SlashHelpIsWord();
    case Quit => SlashQuitIsWord();
  }

  lemma AllWordsOfTwo(a: string, b: string)
    requires IsWord(a) && IsWord(b)
    ensures AllWords([a, b])
  {
  }

  lemma AllWordsOfThree(a: string, b: string, c: string)
    requires IsWord(a) && IsWord(b) && IsWord(c)
    ensures AllWords([a, b, c])
  {
  }

  lemma SlashHelpIsWord()
    ensures IsWord("/help")
  {
  }

  lemma SlashQuitIsWord()
    ensures IsWord("/quit")
  {
  }

  lemma TaskCommandOfCommandWords(c: Command, extra: seq<string>)
    requires Expressible(c) && !c.Quit? && !c.Help?
    requires extra != [] ==> IgnoresExtraWords(c)
    ensures var ws := CommandWords(c) + extra;
      |ws| >= 1 && ws[0] == "/task" && TaskCommand(ws) == c
  {
    var ws := CommandWords(c) + extra;
    match c
    case SwitchTask(n) =>
      assert ws[1] == n;
    case ListTasks =>
      assert ws[1] == "list";
    case CurrentTask =>
      assert ws == ["/task"];
    case CreateTask(n) =>
      assert ws[1] == "init" && ws[2] == n;
    case DeleteTask(n) =>
      assert ws[1] == "delete" && ws[2] == n;
  }

  lemma KeywordsAreWords()
    ensures IsWord("/task") && IsWord("list") && IsWord("init") && IsWord("delete")
  {
    assert IsWord("/task");
    assert IsWord("list");
    assert IsWord("init");
    assert IsWord("delete");
  }

  lemma AllWordsAppend(a: seq<string>, b: seq<string>)
    requires AllWords(a) && AllWords(b)
    ensures AllWords(a + b)
  {
    assert forall i | 0 <= i < |a + b| :: (a + b)[i] == if i < |a| then a[i] else b[i - |a|];
  }

  /** Parsing inverts printing: the tokens of a command, followed by any
      ignorable tokens and any trailing whitespace, classify as that command. */
  lemma {:induction false} ClassifyRoundTrip(c: Command, extra: seq<string>, trail: string)
    requires Expressible(c) && AllWords(extra) && AllWhitespace(trail)
    requires extra != [] ==> IgnoresExtraWords(c)
    ensures Classify(Unwords(CommandWords(c) + extra) + trail) == Emit(c)
  {
    var ws := CommandWords(c) + extra;
    if c.Quit? || c.Help? {
      assert ws == CommandWords(c);
      var keyword := if c.Quit? then "/quit" else "/help";
      assert Unwords(ws) + trail == "" + (keyword + trail);
      ClassifyPaddedKeyword("", keyword, trail);
    } else {
      CommandWordsOfTaskCommand(c, extra);
      ClassifyTaskWords(ws, trail);
    }
  }

  /** A line whose only token starts with `/task` (so `/tasks` too: the test
      is a prefix test) asks for the current task. */
  lemma LoneTaskTokenShowsCurrentTask(token: string, trail: string)
    requires "/task" <= token && IsWord(token) && AllWhitespace(trail)
    ensures Classify(token + trail) == Emit(CurrentTask)
  {
    assert Unwords([token]) == token;
    ClassifyTaskWords([token], trail);
  }

  /** An indented `/task` line is not a command: it is forwarded. */
  lemma IndentedTaskIsForwarded(lead: string, rest: string)
    requires lead != [] && AllWhitespace(lead)
    requires "/task" <= rest
    ensures Classify(lead + rest) == Forward(lead + rest)
  {
    IndentedIsNotTaskLine(lead, rest);
    TrimStartAfterBlank(lead, rest);
    TaskLineIsNoKeyword(rest);
  }

  lemma IndentedIsNotTaskLine(lead: string, rest: string)
    requires lead != [] && AllWhitespace(lead)
    ensures !("/task" <= lead + rest)
  {
    assert (lead + rest)[0] == lead[0];
  }

  /** Trimming the end of a `/task...` line leaves a text starting with `/t`. */
  lemma TaskLineIsNoKeyword(rest: string)
    requires "/task" <= rest
    ensures !IsWhitespace(rest[0])
    ensures TrimEnd(rest) != "/quit" && TrimEnd(rest) != "/help"
  {
    var t := TrimEnd(rest);
    if |t| >= 2 {
      assert t[1] == rest[1];
    }
  }

  // ---------------------------------------------------------------------
  // The reader loop

  /** What one `read_line` call on standard input returns: a line of text
      (`Ok(n)` with `n > 0`), end of input (`Ok(0)`) or an error. A line is
      never empty, since it holds at least one byte; the type still admits
      `Line("")`, which `Classify` forwards like any other text, so the
      extra value adds no behaviour the loop could not have. */
  datatype StdinRead = Line(text: string) | Eof | ReadFailed(message: string)

  /** The reader loop as a function of what standard input delivers, with
      the per-line decision `classify` as a parameter (the loop uses
      `Classify`). The trace says how many reads the loop consumes and which
      action each consumed line became. End of input, a read error and a line
      classified as `Quit` end the loop; every other line is classified and
      the loop goes on. Running out of `stdin` stands for a `read_line` that
      has not returned yet. */
  function Reader(classify: string -> LineAction, stdin: seq<StdinRead>): (t: Trace<LineAction>)
    ensures t.consumed <= |stdin| && |t.items| <= t.consumed
  {
    if stdin == [] then Trace(0, [])
    else match stdin[0]
      case Eof => Trace(1, [])
      case ReadFailed(_) => Trace(1, [])
      case Line(text) =>
        var a := classify(text);
        if a == Emit(Quit) then Trace(1, [a])
        else
          var rest := Reader(classify, stdin[1..]);
          Trace(1 + rest.consumed, [a] + rest.items)
  }

  /** Whether a read makes the reader loop stop after handling it. */
  predicate EndsReader(classify: string -> LineAction, read: StdinRead)
  {
    !read.Line? || classify(read.text) == Emit(Quit)
  }

  /** The commands among the actions, in order: what the command channel carries. */
  function Commands(actions: seq<LineAction>): seq<Command>
  {
    if actions == [] then []
    else
      var last := actions[|actions| - 1];
      Commands(actions[..|actions| - 1]) + (if last.Emit? then [last.command] else [])
  }

  /** The forwarded lines among the actions, in order: what the input channel carries. */
  function Inputs(actions: seq<LineAction>): seq<string>
  {
    if actions == [] then []
    else
      var last := actions[|actions| - 1];
      Inputs(actions[..|actions| - 1]) + (if last.Forward? then [last.text] else [])
  }

  /** The loop of `IoHandler::start`'s stdin thread: reads lines until end
      of input, a read error or `/quit`, sending each command on the command
      channel and each other line on the input channel. */
  method ReadStdin(stdin: seq<StdinRead>) returns (commands: seq<Command>, inputs: seq<string>, consumed: nat)
    ensures consumed == Reader(Classify, stdin).consumed
    ensures commands == Commands(Reader(Classify, stdin).items)
    ensures inputs == Inputs(Reader(Classify, stdin).items)
  {
    commands, inputs, consumed := ReadLines(Classify, stdin);
  }

  /** The same loop with its per-line decision as a parameter. */
  method ReadLines(classify: string -> LineAction, stdin: seq<StdinRead>) returns (commands: seq<Command>, inputs: seq<string>, consumed: nat)
    ensures consumed == Reader(classify, stdin).consumed
    ensures commands == Commands(Reader(classify, stdin).items)
    ensures inputs == Inputs(Reader(classify, stdin).items)
  {
    commands, inputs, consumed := [], [], 0;
    ghost var seen: seq<LineAction> := [];
    ReaderStart(classify, stdin);
    while consumed < |stdin|
      invariant consumed <= |stdin|
      invariant Reader(classify, stdin) == Then(consumed, seen, Reader(classify, stdin[consumed..]))
      invariant commands == Commands(seen) && inputs == Inputs(seen)
    {
      var read := stdin[consumed];
      ReaderAdvance(classify, stdin, consumed, seen);
      if !read.Line? {
        return commands, inputs, consumed + 1;
      }
      var action := classify(read.text);
      ChannelsAppend(seen, action);
      match action {
        case Emit(command) =>
          commands := commands + [command];
        case Forward(text) =>
          inputs := inputs + [text];
      }
      seen := seen + [action];
      consumed := consumed + 1;
      if action == Emit(Quit) {
        return;
      }
    }
    ReaderEnd(classify, stdin, seen);
  }

  lemma ReaderStart(classify: string -> LineAction, stdin: seq<StdinRead>)
    ensures Reader(classify, stdin) == Then(0, [], Reader(classify, stdin[0..]))
  {
    assert stdin[0..] == stdin;
    assert [] + Reader(classify, stdin).items == Reader(classify, stdin).items;
  }

  /** One more read of the loop: it ends the loop, or the loop goes on with
      its action recorded. */
  lemma ReaderAdvance(classify: string -> LineAction, stdin: seq<StdinRead>, k: nat, seen: seq<LineAction>)
    requires k < |stdin|
    ensures var whole := Then(k, seen, Reader(classify, stdin[k..]));
      && (!stdin[k].Line? ==> whole == Trace(k + 1, seen))
      && (stdin[k].Line? && classify(stdin[k].text) == Emit(Quit) ==> whole == Trace(k + 1, seen + [Emit(Quit)]))
      && (stdin[k].Line? && classify(stdin[k].text) != Emit(Quit) ==>
            whole == Then(k + 1, seen + [classify(stdin[k].text)], Reader(classify, stdin[k + 1..])))
  {
    var rest := stdin[k..];
    assert rest[0] == stdin[k] && rest[1..] == stdin[k + 1..];
    assert seen + [] == seen;
    if stdin[k].Line? && classify(stdin[k].text) != Emit(Quit) {
      ThenTwice(k, seen, 1, [classify(stdin[k].text)], Reader(classify, stdin[k + 1..]));
    }
  }

  lemma ReaderEnd(classify: string -> LineAction, stdin: seq<StdinRead>, seen: seq<LineAction>)
    ensures Then(|stdin|, seen, Reader(classify, stdin[|stdin|..])) == Trace(|stdin|, seen)
  {
    assert stdin[|stdin|..] == [];
    assert seen + [] == seen;
  }

  lemma ChannelsAppend(seen: seq<LineAction>, action: LineAction)
    ensures Commands(seen + [action]) == Commands(seen) + (if action.Emit? then [action.command] else [])
    ensures Inputs(seen + [action]) == Inputs(seen) + (if action.Forward? then [action.text] else [])
  {
    assert (seen + [action])[..|seen|] == seen;
  }

  /** Each consumed line becomes exactly the action `classify` gives it, in
      input order; only the last consumed read may be something else. */
  lemma {:induction false} ReaderClassifiesEachLine(classify: string -> LineAction, stdin: seq<StdinRead>)
    ensures var t := Reader(classify, stdin);
      && (forall i :: 0 <= i < |t.items| ==> stdin[i].Line? && t.items[i] == classify(stdin[i].text))
      && (t.consumed == |t.items| || t.consumed == |t.items| + 1)
  {
    if stdin != [] && !EndsReader(classify, stdin[0]) {
      ReaderClassifiesEachLine(classify, stdin[1..]);
    }
  }

  /** The loop stops exactly at the first read that ends it: every earlier
      read is a line that does not end it, and the stopping read is consumed. */
  lemma {:induction false} ReaderStopsAtFirstEnd(classify: string -> LineAction, stdin: seq<StdinRead>)
    ensures var t := Reader(classify, stdin);
      && (forall i :: 0 <= i < t.consumed - 1 ==> !EndsReader(classify, stdin[i]))
      && (t.consumed < |stdin| ==> t.consumed > 0 && EndsReader(classify, stdin[t.consumed - 1]))
      && (t.consumed == |stdin| && t.consumed > 0 && !EndsReader(classify, stdin[t.consumed - 1]) ==>
            forall i :: 0 <= i < |stdin| ==> !EndsReader(classify, stdin[i]))
  {
    if stdin != [] && !EndsReader(classify, stdin[0]) {
      ReaderStopsAtFirstEnd(classify, stdin[1..]);
    }
  }

  /** `Quit` is sent at most once, and only as the last action. */
  lemma {:induction false} QuitIsLast(classify: string -> LineAction, stdin: seq<StdinRead>)
    ensures var t := Reader(classify, stdin);
      forall i :: 0 <= i < |t.items| - 1 ==> t.items[i] != Emit(Quit)
  {
    if stdin != [] && !EndsReader(classify, stdin[0]) {
      QuitIsLast(classify, stdin[1..]);
      var actions := Reader(classify, stdin).items;
      assert actions == [classify(stdin[0].text)] + Reader(classify, stdin[1..]).items;
      assert forall i :: 1 <= i < |actions| ==> actions[i] == Reader(classify, stdin[1..]).items[i - 1];
    }
  }

  /** Every action goes to exactly one channel. */
  lemma {:induction false} ChannelsPartitionActions(actions: seq<LineAction>)
    ensures |Commands(actions)| + |Inputs(actions)| == |actions|
  {
    if actions != [] {
      ChannelsPartitionActions(actions[..|actions| - 1]);
    }
  }

  // ---------------------------------------------------------------------
  // The output loop

  /** A failing `write_all` or `flush` on standard output: which received
      string hit it, and the error's text. */
  datatype WriteFailure = WriteFailure(index: nat, message: string)

  /** The output loop of `IoHandler::start`: every string received on the
      output channel is written to standard output unchanged and in receive
      order; a failing write ends the loop with that error. */
  method WriteOutput(received: seq<string>, failure: Option<WriteFailure>)
    returns (stdout: string, r: Result<()>)
    ensures failure.Some? && failure.value.index < |received| ==>
      stdout == Concat(received[..failure.value.index]) && r == Err(failure.value.message)
    ensures !(failure.Some? && failure.value.index < |received|) ==>
      stdout == Concat(received) && r == Ok(())
  {
    stdout := "";
    var i := 0;
    while i < |received|
      invariant i <= |received|
      invariant stdout == Concat(received[..i])
      invariant failure.Some? ==> i <= failure.value.index
    {
      if failure.Some? && failure.value.index == i {
        return stdout, Err(failure.value.message);
      }
      assert received[..i + 1][..i] == received[..i];
      stdout := stdout + received[i];
      i := i + 1;
    }
    assert received[..i] == received;
    r := Ok(());
  }

  /** Output is never reordered: what is written for a prefix of the
      received strings is a prefix of what is written for all of them, and
      each string sits right after the strings received before it. */
  lemma ConcatIsOrdered(received: seq<string>, k: nat)
    requires k < |received|
    ensures Concat(received[..k]) + received[k] <= Concat(received)
  {
    ConcatSplit(received, k + 1);
    ConcatSnoc(received, k);
    PrefixOfAppend(Concat(received[..k + 1]), Concat(received[k + 1..]));
  }

  lemma ConcatSplit(received: seq<string>, k: nat)
    requires k <= |received|
    ensures Concat(received) == Concat(received[..k]) + Concat(received[k..])
  {
    SplitAt(received, k);
    ConcatAppend(received[..k], received[k..]);
  }

  lemma ConcatSnoc(received: seq<string>, k: nat)
    requires k < |received|
    ensures Concat(received[..k + 1]) == Concat(received[..k]) + received[k]
  {
    assert received[..k + 1][..k] == received[..k];
  }

  lemma PrefixOfAppend(a: string, b: string)
    ensures a <= a + b
  {
    assert (a + b)[..|a|] == a;
  }
}
