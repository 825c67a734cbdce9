/** The command router of the console tool: the pages, the handlers, the two
    fixed command tables, and the pure meaning of one input line and of the
    read-eval loop. The stateful session that runs these lives in module
    ProgramState. */
module Router {

  /** The page the console is on (enum PageTypes). */
  datatype PageType = None | Menu | CreateFile

  /** The handler a command keyword is bound to (the CommandHandler delegates). */
  datatype Cmd = Quit | Restart | Clear | Help | Commands | CreateFile

  /** What the program writes to the console, kept as an abstract log. */
  datatype Event =
    | Line(text: string)   // one Write/WriteLine of that text (colour left out)
    | ClearScreen          // Console.Clear
    | HelpText             // the fixed help text of PrintHelp

  /** The outcome of looking an input line up in the command tables. */
  datatype Lookup = NotFound | Found(cmd: Cmd)

  /** The observable part of the process state: CurrentPage and _exit. */
  datatype State = State(page: PageType, exit: bool)

  /** The enum's name as C# string interpolation renders it. */
  function PageName(page: PageType): string
  {
    match page
    case None => "None"
    case Menu => "Menu"
    case CreateFile => "CreateFile"
  }

  /** The table of commands usable on any page, built by InitCommands. */
  const CommonCommands: map<string, Cmd> :=
    map["quit" := Quit, "restart" := Restart, "clear" := Clear, "help" := Help, "commands" := Commands]

  /** The table of commands of the menu page, built by InitCommands. */
  const MenuCommands: map<string, Cmd> := map["cfile" := Cmd.CreateFile]

  /** The command table of a page: only the menu has commands of its own. */
  function GetPageCommands(page: PageType): (m: map<string, Cmd>)
    ensures page == Menu ==> m.Keys == {"cfile"} && m["cfile"] == Cmd.CreateFile
    ensures page != Menu ==> m.Keys == {}
  {
    if page == Menu then MenuCommands else map[]
  }

  /** What GetPageCommands writes while looking up the table of a page. */
  function LookupDiagnostic(page: PageType): (out: seq<Event>)
    ensures page == Menu <==> out == []
  {
    if page == Menu then []
    else [Line("Could not find any commands for page: " + PageName(page) + ".")]
  }

  /** The message written for an input no table knows. */
  function NotFoundMessage(input: string, page: PageType): (msg: string)
    ensures |msg| > 10 + |input|
    ensures msg[..10] == "Command: '" && msg[10..10 + |input|] == input
  {
    "Command: '" + input + "' did not exist in the command map for page: " + PageName(page) + "."
  }

  /** The lookup order of HandleInput for any pair of tables: the common
      table is consulted first, the page's table only when the common one
      misses. */
  function Dispatch(common: map<string, Cmd>, pageTable: map<string, Cmd>, input: string): (r: Lookup)
    ensures r.Found? <==> input in common || input in pageTable
    ensures r.Found? ==> r.cmd == (if input in common then common[input] else pageTable[input])
  {
    if input in common then Found(common[input])
    else if input in pageTable then Found(pageTable[input])
    else NotFound
  }

  /** The handler an input line selects on a page. */
  function Resolve(page: PageType, input: string): (r: Lookup)
    ensures r.Found? <==> input in CommonCommands || (page == Menu && input == "cfile")
  {
    Dispatch(CommonCommands, GetPageCommands(page), input)
  }

  /** The effect of a handler on the state: only Quit and CreateFile change it. */
  function Effect(cmd: Cmd, s: State): (r: State)
    ensures r.exit <==> s.exit || cmd == Quit
    ensures r.page == if cmd == Cmd.CreateFile then PageType.CreateFile else s.page
  {
    match cmd
    case Quit => s.(exit := true)
    case CreateFile => s.(page := PageType.CreateFile)
    case _ => s
  }

  /** The state after one call of HandleInput. */
  function Step(s: State, input: string): (r: State)
    ensures r.exit <==> s.exit || input == "quit"
    ensures r.page == if s.page == Menu && input == "cfile" then PageType.CreateFile else s.page
  {
    match Resolve(s.page, input)
    case NotFound => s
    case Found(cmd) => Effect(cmd, s)
  }

  /** The state the do-while loop of Main leaves after reading the lines of
      `inputs` from state `s`: each line is handled, and the loop stops after
      the line that set the exit flag, or when there is no more input. */
  function Run(s: State, inputs: seq<string>): (r: State)
    ensures r.page == s.page || r.page == PageType.CreateFile
    ensures inputs != [] && inputs[0] == "quit" ==> r == State(s.page, true)
    decreases |inputs|
  {
    if inputs == [] then s
    else
      var t := Step(s, inputs[0]);
      if t.exit then t else Run(t, inputs[1..])
  }

  /** How many lines that loop reads: up to and including the first "quit". */
  function Consumed(inputs: seq<string>): (n: nat)
    ensures n <= |inputs|
    ensures forall j :: 0 <= j < n - 1 ==> inputs[j] != "quit"
    ensures n < |inputs| ==> n > 0 && inputs[n - 1] == "quit"
  {
    if inputs == [] then 0
    else if inputs[0] == "quit" then 1
    else 1 + Consumed(inputs[1..])
  }

  /** `lines` writes every key of `keys` exactly once and nothing else. */
  ghost predicate IsKeyListing(lines: seq<Event>, keys: set<string>)
  {
    && (forall i :: 0 <= i < |lines| ==> lines[i].Line? && lines[i].text in keys)
    && (forall k :: k in keys ==> Line(k) in lines)
    && (forall i, j :: 0 <= i < j < |lines| ==> lines[i] != lines[j])
  }

  /** The foreach over the keys of a command table in the `commands` handler.
      The order in which a Dictionary enumerates its keys is not modelled. */
  method ListKeys(m: map<string, Cmd>) returns (lines: seq<Event>)
    ensures IsKeyListing(lines, m.Keys)
    ensures |lines| == |m.Keys|
  {
    lines := [];
    var rest := m.Keys;
    while rest != {}
      invariant rest <= m.Keys
      invariant |lines| + |rest| == |m.Keys|
      invariant forall i :: 0 <= i < |lines| ==> lines[i].Line? && lines[i].text in m.Keys - rest
      invariant forall k :: k in m.Keys - rest ==> Line(k) in lines
      invariant forall i, j :: 0 <= i < j < |lines| ==> lines[i] != lines[j]
      decreases rest
    {
      var k :| k in rest;
      lines := lines + [Line(k)];
      rest := rest - {k};
    }
  }

  /** What the `commands` handler writes on a page: a header, the lookup
      diagnostic, every key of the page's table once, "help", a footer. */
  ghost predicate IsCommandsOutput(page: PageType, out: seq<Event>)
  {
    var d := LookupDiagnostic(page);
    && |out| >= 3 + |d|
    && out[0] == Line("~~~ Commands for page: " + PageName(page) + "\n")
    && out[1..1 + |d|] == d
    && IsKeyListing(out[1 + |d|..|out| - 2], GetPageCommands(page).Keys)
    && out[|out| - 2] == Line("help")
    && out[|out| - 1] == Line("\n~~~ End \n")
  }

  /** What a handler other than `commands` writes. */
  function HandlerOutput(cmd: Cmd): (out: seq<Event>)
    ensures out == [] <==> cmd == Commands
    ensures ClearScreen in out <==> cmd == Clear
    ensures HelpText in out <==> cmd == Help
    ensures |out| == 2 <==> cmd == Cmd.CreateFile
  {
    match cmd
    case Quit => [Line("Quitting application...")]
    case Restart => [Line("To be added...")]
    case Clear => [ClearScreen]
    case Help => [HelpText]
    case Commands => []
    case CreateFile => [Line("\n ~~~ Creating a file:"), Line("Welcome to the menu for creating a file!")]
  }

  /** What one call of HandleInput writes on `page` for `input`. */
  ghost predicate IsResponse(page: PageType, input: string, out: seq<Event>)
  {
    if input in CommonCommands then
      if CommonCommands[input] == Commands then IsCommandsOutput(page, out)
      else out == HandlerOutput(CommonCommands[input])
    else
      var d := LookupDiagnostic(page);
      match Resolve(page, input)
      case NotFound => out == d + [Line(NotFoundMessage(input, page))]
      case Found(cmd) => out == d + HandlerOutput(cmd)
  }
}
