/** The child-process manager of `src/process.rs`: the split of the CLI
    command into program and arguments, the lifecycle of the manager's
    fields and flags across `new`, `start`, `stop` and `drop`, and the
    decisions its reader and writer loops take for each chunk and each
    queued input. The pseudo-terminal, the child and the channels are
    opaque handles; what the operating system does is a parameter. */
module Process {
  import opened Outcomes
  import opened Text
  import opened Traces

  // ---------------------------------------------------------------------
  // The command line

  /** `ProcessManager::new`'s split: the first whitespace-separated token is
      the program (`""` when there is none) and the remaining tokens, in
      order, are its arguments. Quotes mean nothing. */
  function SplitCommand(commandLine: string): (string, seq<string>)
  {
    var parts := Words(commandLine);
    if parts == [] then ("", []) else (parts[0], parts[1..])
  }

  /** The program and arguments are exactly the tokens of the command line;
      an empty program means the line had no tokens at all. */
  lemma SplitCommandKeepsTokens(commandLine: string)
    ensures var (program, args) := SplitCommand(commandLine);
      && (program == "" <==> Words(commandLine) == [])
      && (program != "" ==> [program] + args == Words(commandLine))
      && (program == "" ==> args == [])
  {
    var parts := Words(commandLine);
    if parts != [] {
      assert IsWord(parts[0]);
      assert [parts[0]] + parts[1..] == parts;
    }
  }

  /** Splitting inverts joining with single spaces: a program and arguments
      written as one line come back as they were, surrounding whitespace and
      all. */
  lemma {:induction false} SplitCommandOfJoined(program: string, args: seq<string>, lead: string, trail: string)
    requires IsWord(program) && AllWords(args)
    requires AllWhitespace(lead) && AllWhitespace(trail)
    ensures SplitCommand(lead + Unwords([program] + args) + trail) == (program, args)
  {
    var ws := [program] + args;
    assert AllWords(ws) by {
      assert forall i :: 0 < i < |ws| ==> ws[i] == args[i - 1];
    }
    var line := Unwords(ws);
    WordsAfterBlank(lead, line + trail);
    WordsBeforeBlank(line, trail);
    WordsOfUnwords(ws);
    assert lead + line + trail == lead + (line + trail);
    assert ws[1..] == args;
  }

  // ---------------------------------------------------------------------
  // Lifecycle of the manager

  /** Opaque handles for what the operating system hands out. */
  datatype Pty = Pty(id: nat)
  datatype Child = Child(pid: nat)
  /** A sending end of a string channel. */
  datatype Sender = Sender(channel: nat)

  /** The manager's mutable part: the pseudo-terminal pair, the child, both
      senders, and the two flags its loops poll. */
  datatype ManagerState = ManagerState(
    pty: Option<Pty>,
    child: Option<Child>,
    inputTx: Option<Sender>,
    outputTx: Option<Sender>,
    running: bool,
    writerRunning: bool)

  /** Nothing held, both flags down: the state after `new`, and after `stop`. */
  predicate Idle(s: ManagerState)
  {
    s.pty.None? && s.child.None? && s.inputTx.None? && s.outputTx.None?
    && !s.running && !s.writerRunning
  }

  /** What `openpty` and `spawn_command` return and the input channel
      `start` creates, when they succeed. */
  datatype Spawn = Spawn(pty: Pty, child: Child, input: Sender)

  /** Which of `start`'s fallible steps fails, if any. */
  datatype StartFault = NoFault | OpenPtyFailed | SpawnFailed | CloneReaderFailed | TakeWriterFailed

  /** `start`: opening the pty or spawning the child can fail before
      anything is stored; once the child runs, the handles and senders are
      stored and both flags raised before the reader and the writer are
      taken, so a failure there leaves them in place. */
  function StartOn(s: ManagerState, fault: StartFault, spawn: Spawn, output: Sender): (r: (ManagerState, Result<Sender>))
    ensures r.1.Ok? <==> fault == NoFault
    ensures r.1.Ok? ==> r.1.value == spawn.input
    ensures fault == OpenPtyFailed || fault == SpawnFailed ==> r.0 == s
    ensures fault != OpenPtyFailed && fault != SpawnFailed ==>
      r.0 == ManagerState(Some(spawn.pty), Some(spawn.child), Some(spawn.input), Some(output), true, true)
  {
    match fault
    case OpenPtyFailed => (s, Err("Failed to open pty"))
    case SpawnFailed => (s, Err("Failed to spawn command"))
    case _ =>
      var started := ManagerState(Some(spawn.pty), Some(spawn.child), Some(spawn.input), Some(output), true, true);
      if fault == CloneReaderFailed then (started, Err("Failed to clone reader"))
      else if fault == TakeWriterFailed then (started, Err("Failed to take writer"))
      else (started, Ok(spawn.input))
  }

  /** What `try_wait` reports about the child and, when it is still alive,
      how `kill` goes. */
  datatype ChildProbe = Exited | Alive(killError: Option<string>) | WaitFailed(message: string)

  datatype StopResult = StopResult(state: ManagerState, reply: Result<()>, killAttempted: bool)

  /** `stop`: both flags go down and the child is taken out first; a child
      that `try_wait` finds alive is killed; then the pty and the senders are
      dropped. An error from `try_wait` or `kill` returns early, before that. */
  function StopOn(s: ManagerState, probe: ChildProbe): (r: StopResult)
    ensures !r.state.running && !r.state.writerRunning && r.state.child.None?
    ensures r.reply.Ok? ==> Idle(r.state)
    ensures r.reply.Err? ==> r.state.pty == s.pty && r.state.inputTx == s.inputTx && r.state.outputTx == s.outputTx
    ensures r.killAttempted <==> s.child.Some? && probe.Alive?
    ensures r.reply.Err? <==> s.child.Some? && (probe.WaitFailed? || (probe.Alive? && probe.killError.Some?))
  {
    var flagsDown := s.(running := false, writerRunning := false, child := None);
    var cleared := flagsDown.(pty := None, inputTx := None, outputTx := None);
    if s.child.None? then StopResult(cleared, Ok(()), false)
    else match probe
      case Exited => StopResult(cleared, Ok(()), false)
      case WaitFailed(message) => StopResult(flagsDown, Err(message), false)
      case Alive(None) => StopResult(cleared, Ok(()), true)
      case Alive(Some(message)) => StopResult(flagsDown, Err(message), true)
  }

  /** `stop` is idempotent: whatever the first call met, a second one finds
      no child, kills nothing, succeeds and leaves the manager idle. */
  lemma StopIsIdempotent(s: ManagerState, first: ChildProbe, second: ChildProbe)
    ensures var again := StopOn(StopOn(s, first).state, second);
      again.reply == Ok(()) && !again.killAttempted && Idle(again.state)
  {
  }

  /** Stopping an idle manager changes nothing. */
  lemma StopOfIdle(s: ManagerState, probe: ChildProbe)
    requires Idle(s)
    ensures StopOn(s, probe) == StopResult(s, Ok(()), false)
  {
  }

  /** After a successful `start`, `stop` kills the child exactly when it is
      still alive and, unless that fails, returns the manager to idle. */
  lemma StartThenStop(s: ManagerState, spawn: Spawn, output: Sender, probe: ChildProbe)
    ensures var (started, reply) := StartOn(s, NoFault, spawn, output);
      var stopped := StopOn(started, probe);
      && reply == Ok(spawn.input)
      && (stopped.killAttempted <==> probe.Alive?)
      && (probe == Exited || probe == Alive(None) ==> stopped.reply == Ok(()) && Idle(stopped.state))
  {
  }

  /** The manager. `command` and `args` never change after `new`. */
  class ProcessManager {
    const command: string
    const args: seq<string>
    var pty: Option<Pty>
    var child: Option<Child>
    var inputTx: Option<Sender>
    var outputTx: Option<Sender>
    var running: bool
    var writerRunning: bool

    function State(): ManagerState
      reads this
    {
      ManagerState(pty, child, inputTx, outputTx, running, writerRunning)
    }

    /** `ProcessManager::new`: splits the command line and holds nothing yet. */
    constructor(commandLine: string)
      ensures (command, args) == SplitCommand(commandLine)
      ensures Idle(State())
    {
      var (program, rest) := SplitCommand(commandLine);
      command, args := program, rest;
      pty, child, inputTx, outputTx := None, None, None, None;
      running, writerRunning := false, false;
    }

    /** `start`, returning the sender for the child's input. */
    method Start(output: Sender, fault: StartFault, spawn: Spawn) returns (r: Result<Sender>)
      modifies this
      ensures (State(), r) == StartOn(old(State()), fault, spawn, output)
    {
      if fault == OpenPtyFailed {
        return Err("Failed to open pty");
      }
      if fault == SpawnFailed {
        return Err("Failed to spawn command");
      }
      pty := Some(spawn.pty);
      child := Some(spawn.child);
      inputTx := Some(spawn.input);
      outputTx := Some(output);
      running := true;
      writerRunning := true;
      if fault == CloneReaderFailed {
        return Err("Failed to clone reader");
      }
      if fault == TakeWriterFailed {
        return Err("Failed to take writer");
      }
      r := Ok(spawn.input);
    }

    /** `stop`; `killAttempted` tells whether `kill` was called. */
    method Stop(probe: ChildProbe) returns (r: Result<()>, killAttempted: bool)
      modifies this
      ensures StopOn(old(State()), probe) == StopResult(State(), r, killAttempted)
    {
      writerRunning := false;
      running := false;
      var taken := child;
      child := None;
      killAttempted := false;
      if taken.Some? {
        match probe {
          case WaitFailed(message) =>
            return Err(message), false;
          case Alive(killError) =>
            killAttempted := true;
            if killError.Some? {
              return Err(killError.value), true;
            }
          case Exited =>
        }
      }
      pty := None;
      inputTx := None;
      outputTx := None;
      r := Ok(());
    }

    /** `Drop`: a `stop` whose result is ignored. */
    method Drop(probe: ChildProbe)
      modifies this
      ensures State() == StopOn(old(State()), probe).state
    {
      var _, _ := Stop(probe);
    }

    /** The reader thread: turns the pty chunk by chunk while `running` holds
        and clears `running` when it exits. */
    method PumpOutput(intercept: string -> Result<Option<string>>, turns: seq<PtyRead>)
      returns (sent: seq<string>, consumed: nat)
      modifies this`running
      ensures Trace(consumed, sent) == OutputPump(intercept, turns)
      ensures !running
    {
      sent, consumed := PumpOutputLoop(intercept, turns);
      running := false;
    }
  }

  // ---------------------------------------------------------------------
  // The reader loop

  /** One turn of the reader loop: a chunk of `n > 0` bytes (as text) with
      whether the output channel still accepts it, a zero-byte read, a read
      that would block, a read error, or `running` found false at the top
      of the loop (`stop` lowered it). */
  datatype PtyRead = Chunk(text: string, delivered: bool) | Eof | WouldBlock | ReadFailed(message: string) | Halted

  /** Whether a turn ends the reader loop, given what the handler makes of
      the chunk. */
  predicate EndsOutputPump(intercept: string -> Result<Option<string>>, read: PtyRead)
  {
    read.Eof? || read.ReadFailed? || read.Halted?
    || (read.Chunk? && intercept(read.text).Ok? && intercept(read.text).value.Some? && !read.delivered)
  }

  /** The reader loop: each chunk goes through the handler's output
      interceptor; `Some` is sent on, `None` and an interceptor error drop
      the chunk, a would-block read retries; end of file, a read error, a
      closed output channel or a lowered flag end the loop. */
  function OutputPump(intercept: string -> Result<Option<string>>, turns: seq<PtyRead>): (t: Trace<string>)
    ensures t.consumed <= |turns| && |t.items| <= t.consumed
  {
    if turns == [] then Trace(0, [])
    else if EndsOutputPump(intercept, turns[0]) then Trace(1, [])
    else
      var rest := OutputPump(intercept, turns[1..]);
      var sent := if turns[0].Chunk? && intercept(turns[0].text).Ok? && intercept(turns[0].text).value.Some?
                  then [intercept(turns[0].text).value.value] else [];
      Then(1, sent, rest)
  }

  /** What the loop would send for these turns if none of them stopped it. */
  function Forwarded(intercept: string -> Result<Option<string>>, turns: seq<PtyRead>): seq<string>
  {
    if turns == [] then []
    else
      var head := if turns[0].Chunk? && turns[0].delivered && intercept(turns[0].text).Ok? && intercept(turns[0].text).value.Some?
                  then [intercept(turns[0].text).value.value] else [];
      head + Forwarded(intercept, turns[1..])
  }

  method PumpOutputLoop(intercept: string -> Result<Option<string>>, turns: seq<PtyRead>)
    returns (sent: seq<string>, consumed: nat)
    ensures Trace(consumed, sent) == OutputPump(intercept, turns)
  {
    sent, consumed := [], 0;
    assert turns[0..] == turns;
    while consumed < |turns|
      invariant consumed <= |turns|
      invariant OutputPump(intercept, turns) == Then(consumed, sent, OutputPump(intercept, turns[consumed..]))
    {
      var read := turns[consumed];
      ghost var rest := turns[consumed..];
      assert rest[0] == read && rest[1..] == turns[consumed + 1..];
      match read {
        case Eof =>
          return sent, consumed + 1;
        case ReadFailed(_) =>
          return sent, consumed + 1;
        case Halted =>
          return sent, consumed + 1;
        case WouldBlock =>
        case Chunk(text, delivered) =>
          var intercepted := intercept(text);
          if intercepted.Ok? && intercepted.value.Some? {
            if !delivered {
              return sent, consumed + 1;
            }
            ThenTwice(consumed, sent, 1, [intercepted.value.value], OutputPump(intercept, turns[consumed + 1..]));
            sent := sent + [intercepted.value.value];
            consumed := consumed + 1;
            continue;
          }
      }
      ThenTwice(consumed, sent, 1, [], OutputPump(intercept, turns[consumed + 1..]));
      assert sent + [] == sent;
      consumed := consumed + 1;
    }
    assert turns[consumed..] == [];
    assert sent + [] == sent;
  }

  /** The reader loop sends exactly what the interceptor makes of the
      delivered chunks it consumed, in order, and every turn before the last
      one it consumed let it go on. */
  lemma {:induction false} OutputPumpSendsForwarded(intercept: string -> Result<Option<string>>, turns: seq<PtyRead>)
    ensures var t := OutputPump(intercept, turns);
      && t.items == Forwarded(intercept, turns[..t.consumed])
      && (forall i :: 0 <= i < t.consumed - 1 ==> !EndsOutputPump(intercept, turns[i]))
      && (t.consumed < |turns| ==> t.consumed > 0 && EndsOutputPump(intercept, turns[t.consumed - 1]))
  {
    var t := OutputPump(intercept, turns);
    if turns == [] {
    } else if EndsOutputPump(intercept, turns[0]) {
      assert turns[..1] == [turns[0]];
      assert Forwarded(intercept, turns[..1]) == [] + Forwarded(intercept, []);
    } else {
      OutputPumpSendsForwarded(intercept, turns[1..]);
      var r := OutputPump(intercept, turns[1..]);
      assert turns[..t.consumed][1..] == turns[1..][..r.consumed];
    }
  }

  /** The text of every chunk, in order. */
  function ChunkTexts(turns: seq<PtyRead>): seq<string>
  {
    if turns == [] then []
    else (if turns[0].Chunk? then [turns[0].text] else []) + ChunkTexts(turns[1..])
  }

  /** With an interceptor that passes everything through unchanged (the only
      one `CliHandler` has) and an output channel that stays open, the
      loop sends every chunk it turns, unchanged and in order. */
  lemma {:induction false} IdentityForwardsChunks(intercept: string -> Result<Option<string>>, turns: seq<PtyRead>)
    requires forall text :: intercept(text) == Ok(Some(text))
    requires forall i :: 0 <= i < |turns| && turns[i].Chunk? ==> turns[i].delivered
    ensures Forwarded(intercept, turns) == ChunkTexts(turns)
  {
    if turns != [] {
      IdentityForwardsChunks(intercept, turns[1..]);
    }
  }

  // ---------------------------------------------------------------------
  // The writer loop

  /** One turn of the writer loop: a string taken from the input queue with
      whether writing it to the pty succeeds, the queue closed, or
      `writer_running` found false at the top of the loop. */
  datatype PtyWrite = Received(text: string, writeOk: bool) | Closed | Stopped

  /** The writer loop: each queued string is written to the pty in queue
      order; a failed write is skipped; a closed queue or a lowered flag
      ends the loop. */
  function InputPump(events: seq<PtyWrite>): (t: Trace<string>)
    ensures t.consumed <= |events| && |t.items| <= t.consumed
  {
    if events == [] then Trace(0, [])
    else match events[0]
      case Closed => Trace(1, [])
      case Stopped => Trace(1, [])
      case Received(text, writeOk) =>
        Then(1, if writeOk then [text] else [], InputPump(events[1..]))
  }

  /** The strings written successfully, in order, for turns that do not end the loop. */
  function Written(events: seq<PtyWrite>): seq<string>
  {
    if events == [] then []
    else (if events[0].Received? && events[0].writeOk then [events[0].text] else []) + Written(events[1..])
  }

  method PumpInput(events: seq<PtyWrite>) returns (written: seq<string>, consumed: nat)
    ensures Trace(consumed, written) == InputPump(events)
  {
    written, consumed := [], 0;
    assert events[0..] == events;
    while consumed < |events|
      invariant consumed <= |events|
      invariant InputPump(events) == Then(consumed, written, InputPump(events[consumed..]))
    {
      var event := events[consumed];
      ghost var rest := events[consumed..];
      assert rest[0] == event && rest[1..] == events[consumed + 1..];
      match event {
        case Closed =>
          return written, consumed + 1;
        case Stopped =>
          return written, consumed + 1;
        case Received(text, writeOk) =>
          var step := if writeOk then [text] else [];
          ThenTwice(consumed, written, 1, step, InputPump(events[consumed + 1..]));
          written := written + step;
          consumed := consumed + 1;
      }
    }
    assert events[consumed..] == [];
    assert written + [] == written;
  }

  /** The writer loop writes exactly the successfully written strings it
      consumed, in queue order, and only a closed queue or a lowered flag
      ends it. */
  lemma {:induction false} InputPumpWritesInOrder(events: seq<PtyWrite>)
    ensures var t := InputPump(events);
      && t.items == Written(events[..t.consumed])
      && (forall i :: 0 <= i < t.consumed - 1 ==> events[i].Received?)
      && (t.consumed < |events| ==> t.consumed > 0 && !events[t.consumed - 1].Received?)
  {
    var t := InputPump(events);
    if events == [] {
    } else if !events[0].Received? {
      assert events[..1] == [events[0]];
      assert Written(events[..1]) == [] + Written([]);
    } else {
      InputPumpWritesInOrder(events[1..]);
      var r := InputPump(events[1..]);
      assert events[..t.consumed][1..] == events[1..][..r.consumed];
    }
  }
}
