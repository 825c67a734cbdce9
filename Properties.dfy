/** Properties of the command router and of the page state machine it drives. */
module RouterProperties {
  import opened Router

  /** The two tables InitCommands builds: five common keywords, one menu
      keyword, and no keyword in both. */
  lemma CommandTables()
    ensures CommonCommands.Keys == {"quit", "restart", "clear", "help", "commands"}
    ensures MenuCommands.Keys == {"cfile"}
    ensures CommonCommands.Keys !! MenuCommands.Keys
    ensures CommonCommands["quit"] == Quit && MenuCommands["cfile"] == Cmd.CreateFile
  {
  }

  /** A common keyword runs its common handler whatever the page's table
      says, even when that table binds the same keyword to another handler. */
  lemma CommonTakesPrecedence(pageTable: map<string, Cmd>, input: string)
    requires input in CommonCommands
    ensures Dispatch(CommonCommands, pageTable, input) == Found(CommonCommands[input])
  {
  }

  /** The page's table is consulted exactly for the inputs the common table
      does not know. */
  lemma PageTableIsFallback(pageTable: map<string, Cmd>, input: string)
    requires input !in CommonCommands
    ensures Dispatch(CommonCommands, pageTable, input) ==
              if input in pageTable then Found(pageTable[input]) else NotFound
  {
  }

  /** Off the menu only the five common keywords select a handler. */
  lemma OnlyCommonOffMenu(page: PageType, input: string)
    requires page != Menu
    ensures Resolve(page, input).Found? <==> input in CommonCommands
  {
  }

  /** An input no table knows changes neither the page nor the exit flag. */
  lemma UnknownInputChangesNothing(s: State, input: string)
    requires Resolve(s.page, input) == NotFound
    ensures Step(s, input) == s
  {
  }

  /** `quit` raises the exit flag on every page and keeps the page; the loop
      of Main reads no line after it. */
  lemma QuitStopsTheLoop(s: State, rest: seq<string>)
    ensures Step(s, "quit") == State(s.page, true)
    ensures Run(s, ["quit"] + rest) == State(s.page, true)
  {
  }

  /** `cfile` on the menu moves to the create-file page and keeps the flag. */
  lemma CreateFileFromMenu(s: State)
    requires s.page == Menu
    ensures Step(s, "cfile") == State(PageType.CreateFile, s.exit)
  {
  }

  /** `restart`, `clear`, `help` and `commands` only write to the console. */
  lemma OutputOnlyCommands(s: State, input: string)
    requires input in {"restart", "clear", "help", "commands"}
    ensures Step(s, input) == s
  {
  }

  /** Started with the flag down, the loop ends with the flag up exactly when
      some line is `quit`; and it then stops right after the first one. */
  lemma {:induction false} ExitIffQuit(s: State, inputs: seq<string>)
    requires !s.exit
    ensures Run(s, inputs).exit <==> "quit" in inputs
    decreases |inputs|
  {
    if inputs != [] {
      assert inputs == [inputs[0]] + inputs[1..];
      var t := Step(s, inputs[0]);
      if !t.exit {
        ExitIffQuit(t, inputs[1..]);
      }
    }
  }

  /** From the menu, the loop ends on the create-file page exactly when a
      `cfile` line is read, that is, one before the first `quit`. */
  lemma {:induction false} CreateFileIffCfileRead(s: State, inputs: seq<string>)
    requires s.page == Menu && !s.exit
    ensures Run(s, inputs).page == PageType.CreateFile <==> "cfile" in inputs[..Consumed(inputs)]
    decreases |inputs|
  {
    if inputs != [] {
      var t := Step(s, inputs[0]);
      if inputs[0] == "quit" {
        assert inputs[..Consumed(inputs)] == ["quit"];
      } else if inputs[0] == "cfile" {
        assert inputs[..Consumed(inputs)][0] == "cfile";
      } else {
        assert t == s;
        CreateFileIffCfileRead(s, inputs[1..]);
        assert inputs[..Consumed(inputs)] == [inputs[0]] + inputs[1..][..Consumed(inputs[1..])];
      }
    }
  }

  /** Main starts the loop on the menu; from there the pages the loop can end
      on are exactly Menu and CreateFile, and None is never seen again. */
  lemma ReachablePages(inputs: seq<string>)
    ensures Run(State(Menu, false), inputs).page in {Menu, PageType.CreateFile}
    ensures Run(State(Menu, false), []).page == Menu
    ensures Run(State(Menu, false), ["cfile"]).page == PageType.CreateFile
  {
  }
}
