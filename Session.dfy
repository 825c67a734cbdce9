/** The process state of the console tool and the handlers that change it:
    the static fields CurrentPage and _exit become the fields of one Session
    object, and what the program writes is appended to its log. */
module ProgramState {
  import opened Router

  /** One pass of the loop of Main, from state `s` before line `i`: the
      loop either stops with the final state and count, or goes on with the
      same final state and count still ahead of it. */
  lemma LoopStep(start: State, s: State, inputs: seq<string>, i: nat)
    requires i < |inputs| && !s.exit
    requires Run(start, inputs) == Run(s, inputs[i..])
    requires Consumed(inputs) == i + Consumed(inputs[i..])
    requires "quit" !in inputs[..i]
    ensures var t := Step(s, inputs[i]);
      && (!t.exit ==> && Run(start, inputs) == Run(t, inputs[i + 1..])
                      && Consumed(inputs) == i + 1 + Consumed(inputs[i + 1..])
                      && "quit" !in inputs[..i + 1])
      && (t.exit ==> Run(start, inputs) == t && Consumed(inputs) == i + 1 && "quit" in inputs)
  {
    assert inputs[i..][1..] == inputs[i + 1..];
    assert inputs[..i + 1] == inputs[..i] + [inputs[i]];
  }

  class Session {
    /** CurrentPage */
    var page: PageType
    /** _exit */
    var exit: bool
    /** Everything written to the console so far. */
    var log: seq<Event>

    /** The static initial values: no page, not exiting, nothing written. */
    constructor ()
      ensures page == PageType.None && !exit && log == []
    {
      page := PageType.None;
      exit := false;
      log := [];
    }

    /** The observable state, as the router's pure functions see it. */
    function Current(): State
      reads this
    {
      State(page, exit)
    }

    /** The `quit` handler: raise the exit flag. */
    method Quit()
      modifies this
      ensures exit && page == old(page)
      ensures log == old(log) + [Line("Quitting application...")]
    {
      log := log + [Line("Quitting application...")];
      exit := true;
    }

    /** The `restart` handler, a stub that only writes a message. */
    method Restart()
      modifies this
      ensures page == old(page) && exit == old(exit)
      ensures log == old(log) + [Line("To be added...")]
    {
      log := log + [Line("To be added...")];
    }

    /** The `clear` handler. */
    method Clear()
      modifies this
      ensures page == old(page) && exit == old(exit)
      ensures log == old(log) + [ClearScreen]
    {
      log := log + [ClearScreen];
    }

    /** The `help` handler: write the help text again. */
    method Help()
      modifies this
      ensures page == old(page) && exit == old(exit)
      ensures log == old(log) + [HelpText]
    {
      log := log + [HelpText];
    }

    /** The `commands` handler: list the keys of the current page's table,
        then the word "help". */
    method Commands()
      modifies this
      ensures page == old(page) && exit == old(exit)
      ensures |log| >= |old(log)| && log[..|old(log)|] == old(log)
      ensures IsCommandsOutput(page, log[|old(log)|..])
    {
      var header := [Line("~~~ Commands for page: " + PageName(page) + "\n")];
      var commandMap := GetPageCommands(page);
      var keys := ListKeys(commandMap);
      var out := header + LookupDiagnostic(page) + keys + [Line("help"), Line("\n~~~ End \n")];
      var d := LookupDiagnostic(page);
      assert out[1..1 + |d|] == d;
      assert out[1 + |d|..|out| - 2] == keys;
      log := log + out;
      assert log[|old(log)|..] == out;
    }

    /** The `cfile` handler: move to the create-file page. */
    method CreateFile()
      modifies this
      ensures page == PageType.CreateFile && exit == old(exit)
      ensures log == old(log) + HandlerOutput(Cmd.CreateFile)
    {
      page := PageType.CreateFile;
      log := log + [Line("\n ~~~ Creating a file:"), Line("Welcome to the menu for creating a file!")];
    }

    /** Run the handler a command table bound to a keyword. */
    method Invoke(cmd: Cmd)
      modifies this
      ensures Current() == Effect(cmd, old(Current()))
      ensures cmd != Cmd.Commands ==> log == old(log) + HandlerOutput(cmd)
      ensures cmd == Cmd.Commands ==>
                |log| >= |old(log)| && log[..|old(log)|] == old(log) &&
                IsCommandsOutput(page, log[|old(log)|..])
    {
      match cmd
      case Quit => Quit();
      case Restart => Restart();
      case Clear => Clear();
      case Help => Help();
      case Commands => Commands();
      case CreateFile => CreateFile();
    }

    /** Handle one input line: a common command first; otherwise look the
        line up in the current page's table, and write a message when it is
        not there. */
    method HandleInput(input: string)
      modifies this
      ensures Current() == Step(old(Current()), input)
      ensures |log| >= |old(log)| && log[..|old(log)|] == old(log)
      ensures IsResponse(old(page), input, log[|old(log)|..])
    {
      if input in CommonCommands {
        Invoke(CommonCommands[input]);
        return;
      }
      var commandMap := GetPageCommands(page);
      log := log + LookupDiagnostic(page);
      if input in commandMap {
        Invoke(commandMap[input]);
      } else {
        log := log + [Line(NotFoundMessage(input, page))];
      }
    }

    /** One pass of Main's loop: write the prompt, then handle the line read. */
    method PromptAndHandle(input: string)
      modifies this
      ensures Current() == Step(old(Current()), input)
      ensures |log| > |old(log)| && log[..|old(log)|] == old(log)
      ensures log[|old(log)|] == Line("Enter command: ")
      ensures IsResponse(old(page), input, log[|old(log)| + 1..])
    {
      log := log + [Line("Enter command: ")];
      ghost var prompted := log;
      HandleInput(input);
      assert log[|old(log)| + 1..] == log[|prompted|..];
    }

    /** The body of Main: write the banner and the help text, move to the
        menu, then read and handle lines until one of them sets the exit flag
        (do ... while (!_exit)), or until the input runs out. Returns how many
        lines were read. */
    method RunMain(inputs: seq<string>) returns (consumed: nat)
      requires !exit
      modifies this
      ensures Current() == Run(State(Menu, false), inputs)
      ensures consumed == Consumed(inputs)
      ensures exit <==> "quit" in inputs
      ensures |log| >= |old(log)| && log[..|old(log)|] == old(log)
    {
      log := log + [Line("A nice tool for renaming, editing & creating files easily.\n"), HelpText];
      page := Menu;
      var i := 0;
      var more := true;
      while more && i < |inputs|
        invariant 0 <= i <= |inputs|
        invariant |log| >= |old(log)| && log[..|old(log)|] == old(log)
        invariant more ==> !exit
        invariant more ==> Run(State(Menu, false), inputs) == Run(Current(), inputs[i..])
        invariant more ==> Consumed(inputs) == i + Consumed(inputs[i..])
        invariant more ==> "quit" !in inputs[..i]
        invariant !more ==> Run(State(Menu, false), inputs) == Current()
        invariant !more ==> Consumed(inputs) == i && exit && "quit" in inputs
        decreases |inputs| - i
      {
        LoopStep(State(Menu, false), Current(), inputs, i);
        PromptAndHandle(inputs[i]);
        i := i + 1;
        more := !exit;
      }
      consumed := i;
    }
  }
}
