# File refactoring app: command router and page state machine

This project models the core of the console tool's `Program.cs`. The program
keeps two pieces of process-wide state: the current page (`None`, `Menu` or
`CreateFile`) and an exit flag. At startup it builds two fixed command tables.
The common table (`quit`, `restart`, `clear`, `help`, `commands`) works on every
page. The menu table holds only `cfile`. `Main` moves to the menu and then runs
a `do … while (!_exit)` loop. Each pass reads one line and hands it to
`HandleInput`, which looks in the common table first and falls back to the
current page's table. A line that neither table knows only writes messages.

The model has three modules:

- `Router` (Router.dfy) holds the values: the page and handler datatypes, the
  two tables as `map<string, Cmd>`, `GetPageCommands`, the lookup order, and
  the pure meaning of one input line (`Step`) and of the whole loop (`Run`,
  `Consumed`). It also holds the `foreach` over a table's keys in the
  `commands` handler (`ListKeys`).
- `ProgramState` (Session.dfy) holds the imperative side. A `Session` object
  owns the fields `page` and `exit`, plus a log of what is written to the
  console. Its handler methods, `HandleInput` and `RunMain` (the body of
  `Main`), are each proved against the pure functions of `Router`.
- `RouterProperties` (Properties.dfy) holds the lemmas: dispatch precedence,
  unknown input changing nothing, the effects of `quit` and `cfile`, the
  reachable pages, and loop termination after `quit`.

Program.cs has three pages and six commands. It has no file transforms, no
wizard steps, and no `return` or `reset` commands, so the model has none
either.

## Model

| member | source | states |
|---|---|---|
| `Router.GetPageCommands` | Program.cs:82-96 | on the menu page the table is exactly `{cfile ↦ CreateFile}`; every other page has an empty table |
| `Router.LookupDiagnostic` | Program.cs:90-92 | the lookup writes a diagnostic exactly when the page is not the menu |
| `Router.Dispatch` | Program.cs:38-54 | for any pair of tables, a handler is found iff the input is a key of either table; if it is in the common table, the common handler is chosen |
| `Router.Resolve` | Program.cs:41-49 | with the program's own tables, an input selects a handler iff it is one of the five common keywords, or it is `cfile` and the page is the menu |
| `Router.Step` | Program.cs:38-54 | after one input, the exit flag is up iff it was up before or the input is `quit`; the page becomes `CreateFile` iff the page was `Menu` and the input is `cfile`, and otherwise stays the same |
| `Router.NotFoundMessage` | Program.cs:52 | the not-found message starts with `Command: '` followed by the input line itself |
| `Router.Effect` | Program.cs:110-148 | after running a handler, the exit flag is up iff it was up or the handler is `Quit` (line 113); the page becomes `CreateFile` iff the handler is `CreateFile` (line 145), and otherwise stays |
| `Router.HandlerOutput` | Program.cs:110-148 | the handlers other than `commands` write something: only `clear` clears the screen (line 124), only `help` writes the help text (line 129), only `cfile` writes two lines (lines 146-147) |
| `Router.Run` | Program.cs:28-35 | the loop ends on the page it started on or on `CreateFile`, so `CreateFile` is never left and no handler returns to `Menu` or `None`; a first line `quit` ends the loop with the flag up and the page kept, whatever follows. Its other properties are the lemmas `ExitIffQuit` and `CreateFileIffCfileRead` |
| `Router.Consumed` | Program.cs:28-35 | the loop reads at most all lines; no line before the last one read is `quit`; if it stops early, the last line read is `quit` |
| `Router.ListKeys` | Program.cs:136-138 | the key listing writes every key of the table exactly once, and nothing else |
| `ProgramState.Session.constructor` | Program.cs:11-12 | the initial state: page `None`, exit flag down |
| `ProgramState.Session.Quit` | Program.cs:110-114 | raises the exit flag, keeps the page, writes the quitting message |
| `ProgramState.Session.Restart` | Program.cs:116-120 | changes no state, writes only the stub message |
| `ProgramState.Session.Clear` | Program.cs:122-125 | changes no state, only clears the screen |
| `ProgramState.Session.Help` | Program.cs:127-130 | changes no state, only writes the help text |
| `ProgramState.Session.Commands` | Program.cs:132-141 | changes no state; writes a header, then the lookup diagnostic, then every key of the current page's table once, then `help`, then a footer |
| `ProgramState.Session.CreateFile` | Program.cs:143-148 | moves to page `CreateFile`, keeps the exit flag, writes the two welcome lines |
| `ProgramState.Session.Invoke` | Program.cs:42 | running a handler changes the state exactly as that handler's effect says; it writes that handler's output |
| `ProgramState.Session.HandleInput` | Program.cs:38-54 | the new page and flag are those of `Step`; the log grows by exactly the response `IsResponse` describes, including the not-found message and the off-menu diagnostic |
| `ProgramState.LoopStep` | Program.cs:28-35 | one pass of the do-while: after line `i`, the loop either stops with its final state, and with `i + 1` lines read and a `quit` among them, or goes on with the same final state still ahead |
| `ProgramState.Session.PromptAndHandle` | Program.cs:30-32 | writes the prompt, then changes the state as `Step` says and writes the response `IsResponse` describes |
| `ProgramState.Session.RunMain` | Program.cs:18-36 | starting from the menu with the flag down, the final state is `Run` of the inputs; the number of lines read is `Consumed`; the flag is up iff some line is `quit` |
| `RouterProperties.CommandTables` | Program.cs:65-80 | the common table has exactly the five keywords and the menu table has exactly `cfile`; the two tables share no key |
| `RouterProperties.CommonTakesPrecedence` | Program.cs:41-44 | a common keyword selects its common handler whatever the page's table holds, even a different handler for the same key |
| `RouterProperties.PageTableIsFallback` | Program.cs:47-53 | for a non-common input, the outcome is exactly the page table's entry, or not-found |
| `RouterProperties.OnlyCommonOffMenu` | Program.cs:82-96 | off the menu, an input selects a handler iff it is one of the common keywords |
| `RouterProperties.UnknownInputChangesNothing` | Program.cs:47-53 | an input neither table knows leaves the page and the exit flag unchanged |
| `RouterProperties.QuitStopsTheLoop` | Program.cs:110-114 | `quit` raises the flag and keeps the page; the loop reads nothing after it |
| `RouterProperties.CreateFileFromMenu` | Program.cs:143-148 | `cfile` on the menu moves to `CreateFile` and keeps the exit flag |
| `RouterProperties.OutputOnlyCommands` | Program.cs:116-141 | `restart`, `clear`, `help` and `commands` leave the page and the exit flag unchanged |
| `RouterProperties.ExitIffQuit` | Program.cs:28-35 | started with the flag down, the loop ends with the flag up iff some input line is `quit` |
| `RouterProperties.CreateFileIffCfileRead` | Program.cs:28-35 | from the menu, the loop ends on `CreateFile` iff a `cfile` line is among the lines read, that is, before the first `quit` |
| `RouterProperties.ReachablePages` | Program.cs:26-35 | starting from the menu, every final page is `Menu` or `CreateFile`, and both occur (no input, and a single `cfile`) |

## Left out

- Console presentation is not modelled: `Console.Title`, the colour switching in `WriteLineHighlight`, and the text of `PrintHelp` (kept as one abstract `HelpText` event). Written text is kept as a log of lines, and whether a line ended with a newline is not recorded.
- `Thread.Sleep(250)` in the loop is left out. It only affects timing.
- The delegate type and `Dictionary<string, CommandHandler>` become the `Cmd` datatype and a `map`.
- `ProgramState.Session.Commands`: the order in which a `Dictionary` enumerates its keys is not modelled. The contract states that each key is listed exactly once, in some order.
- End of input: `Console.ReadLine` returning null would throw inside `ContainsKey`. Here input lines are never null, and the loop simply stops when the given lines run out.
- `ProgramState.Session.RunMain`: the contract states the final page, flag and number of lines read exactly. For the log it states only that the log grows. The banner, the per-line prompt and each line's response are written by the body but are not restated in the postcondition.
- `ProgramState.Session.RunMain` requires the exit flag to be down on entry. This matches the static initial value, since `Main` runs once.
