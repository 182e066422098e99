# HelpCommand: the `help` pseudo-subcommand

A Dafny model of `HelpCommand`, the built-in `help` subcommand of Swift Argument Parser. The user types `help` followed by subcommand names, optionally `-s <term>`. The parser turns the names into a command stack. Running the command then always raises a `CommandError` whose parser error is `helpRequested`. That error carries the stack, the visibility and the search term, and the driver renders help from it.

Layout:

- `wrappers.dfy`, module `Wrappers`: `Option` stands for Swift optionals. `Result` and `Outcome` stand for `throws`.
- `help_command.dfy`, module `Usage`:
  - `ArgumentVisibility`, `ParserError`, `CommandError`: the values the command raises.
  - `CommandNames`: the `map { $0._commandName }` step.
  - The keyed decoder, as pure functions over a key-to-value map.
  - Class `HelpCommand`, whose fields the initialisers and `buildCommandStack` assign.
  - Two client methods, one per half of the finding below.

The parser's command types are a type parameter `Cmd`. A command type's name is passed in as a function `Cmd -> string`. The parser's `commandStack(for:)` is passed in as a function `seq<string> -> seq<Cmd>`.

`run()` is `mutating` in Swift but assigns nothing. `Run` therefore has no `modifies` clause, so Dafny guarantees that no field changes.

`search` is declared `String?` (HelpCommand.swift:26), but line 63 decodes it as a required `String`. The model follows line 63: a missing or `nil` `search` is a decoding error (`MissingSearchFails`, `NullSearchFails`).

## Model

| member | source | states |
|---|---|---|
| `Usage.CommandNames` | Sources/ArgumentParser/Usage/HelpCommand.swift:69 | The names list has the stack's length, and entry i is the name of command i. |
| `Usage.HelpCommand.constructor` | Sources/ArgumentParser/Usage/HelpCommand.swift:19-31 | `init()`: `subcommands` is empty, `help` is false, `search` is absent, `commandStack` is empty and `visibility` is `.default`. |
| `Usage.HelpCommand.FromCommandStack` | Sources/ArgumentParser/Usage/HelpCommand.swift:66-73 | `init(commandStack:visibility:)`: it stores both arguments unchanged. `subcommands` has the stack's length and holds the stack's names in order. `help` is false. `search` stays absent, because line 72 assigns it from itself (assuming the wrapper yields its `nil` default). |
| `Usage.HelpCommand.Run` | Sources/ArgumentParser/Usage/HelpCommand.swift:33-37 | It never completes normally: the outcome is always a failure. The failure carries the fields `commandStack`, `visibility` and `search` exactly, with an absent search staying absent. It mentions neither `help` nor `subcommands`. No field changes. |
| `Usage.HelpCommand.BuildCommandStack` | Sources/ArgumentParser/Usage/HelpCommand.swift:39-41 | `commandStack` becomes the resolver's result for the current `subcommands`. `subcommands`, `help`, `search` and `visibility` are unchanged. |
| `Usage.DecodeStringElements` | Sources/ArgumentParser/Usage/HelpCommand.swift:60 | Decoding an array as `[String]` succeeds exactly when every element is a string. On success the result has the array's length, and element i is the string of entry i. Otherwise the error is a type mismatch for that key. |
| `Usage.DecodeFields` | Sources/ArgumentParser/Usage/HelpCommand.swift:52-64 | Decoding succeeds exactly when `subcommands` holds a string array, `help` a bool and `search` a string. On success each decoded value is what the container holds under its key. Otherwise the error concerns the first key, in the order `subcommands`, `help`, `search`, that does not hold such a value. It is KeyNotFound if the key is missing and ValueNotFound if the value is `nil`. |
| `Usage.DecodeStringArray` | Sources/ArgumentParser/Usage/HelpCommand.swift:60 | A string array decodes back to the same strings. |
| `Usage.DecodeFieldsOf` | Sources/ArgumentParser/Usage/HelpCommand.swift:58-64 | A container that holds a string array, a bool and a string under the three keys decodes to exactly those values. |
| `Usage.MissingSearchFails` | Sources/ArgumentParser/Usage/HelpCommand.swift:63 | Suppose the other two keys decode. Then a container without `search` fails with KeyNotFound(search), because line 63 decodes a required `String`. |
| `Usage.NullSearchFails` | Sources/ArgumentParser/Usage/HelpCommand.swift:63 | Suppose the other two keys decode. Then a `nil` `search` fails with ValueNotFound(search). |
| `Usage.DecodeReadsOnlyCodingKeys` | Sources/ArgumentParser/Usage/HelpCommand.swift:52-56 | Two containers that agree on the three coding keys decode the same way. Nothing else in the container is read. |
| `Usage.HelpCommand.Decode` | Sources/ArgumentParser/Usage/HelpCommand.swift:58-64 | `init(from:)`: it fails exactly when `DecodeFields` fails, and with the same error. Otherwise it returns a new command with the decoded `subcommands`, `help` and `search`. `commandStack` stays empty and `visibility` stays `.default`. |
| `Usage.RequestHelpFor` | Sources/ArgumentParser/Usage/HelpCommand.swift:66-73 | Build the command with `init(commandStack:visibility:)` and run it. The result is the help request for that stack and visibility, with no search term, whatever term the caller held. |
| `Usage.HelpCommand.FromCommandStackSearching` | Sources/ArgumentParser/Usage/HelpCommand.swift:71-72 | This is the corrected initialiser. It behaves like `init(commandStack:visibility:)`, but `search` is the given term. |
| `Usage.RequestHelpSearchingFor` | Sources/ArgumentParser/Usage/HelpCommand.swift:71-72 | Build the command with the corrected initialiser and run it. The result is the help request carrying the given search term verbatim. |

## Findings

| source | as written | input that shows it | evidently intended | confidence | as-written member | corrected member |
|---|---|---|---|---|---|---|
| Sources/ArgumentParser/Usage/HelpCommand.swift:71-72 | `self.search = search` assigns the field from itself. The initialiser therefore has no way to receive a search term. Assuming the wrapper yields its `nil` default, `search` stays `nil`. | Take a parent help flow that knows stack `[c]` and whose user asked for `-s timeout`. It calls `init(commandStack: [c], visibility: .default)` and runs the command. The request carries `search == nil`. | The term is an explicit input that flows into the request unchanged. | low (line 71 marks it "TODO: Needed?"); not executed | `Usage.RequestHelpFor` | `Usage.RequestHelpSearchingFor` |

## Left out

- Resolving subcommand names into command types (`CommandParser.commandStack(for:)`, line 40) is not part of this model. It is a function parameter, and no matching policy is assumed.
- `generateHelp(screenWidth:)` (lines 44-50) is left out. It renders text through `HelpGenerator`, which is not part of this model.
- The property-wrapper declarations are left out. These are `@Argument`, `@Flag` and `@Option` with the spellings `-h`, `--help`, `-help` and `-s`. The `CommandConfiguration` metadata (abstract, `helpNames: []`) is left out too. Only the command name `"help"` is kept, as `HelpCommand.Name`.
- Swift's `Decoder` and `CodingKey` machinery is replaced by a map from key names to values. Decoding contexts and coding paths are not modelled. A non-string element inside the `subcommands` array is always a type mismatch, including a `nil` element.
- `buildCommandStack(with:)` is declared `throws`, but its body has no throwing call, so `BuildCommandStack` cannot fail.
- `HelpCommand` is a Swift struct with value semantics, and the model makes it a class. Copies and aliasing are not modelled.
- The wrapped properties `subcommands`, `help` and `search` (`@Argument`, `@Flag`, `@Option`) are modelled as plain stored fields holding their declared defaults. The library's wrapper getters are not part of this model. Line 72 reads `search` through its wrapper before anything has set it. If that read traps, then `init(commandStack:visibility:)` traps rather than leaving `search` as `nil`. `HelpCommand.constructor`, `HelpCommand.FromCommandStack` and `RequestHelpFor` all assume the plain-field reading.
- Only the `helpRequested` kind of parser error is modelled. The parser's other error kinds are raised elsewhere. So the kind of the error `Run` raises holds by the type `ParserError` alone, and no contract states it.
- Catching the raised error, exit codes and printing happen outside this file.
