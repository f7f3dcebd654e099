# clop command parser, modelled in Dafny

This project models `Clop::Command` (`lib/clop/command.rb`), a small command-line
option parser. It has three parts:

- **A per-command-type registry.** A command type declares options, positional
  arguments and usage lines. Each goes into an append-only list. `find_option`
  returns the first option whose switch equals a key.
- **The parse loop.** `Command#parse` looks at the token at the front of the
  caller's token array. A token that does not start with `-` ends scanning and
  stays in the array. A dash token is removed and is one of three kinds:
  - a standalone `--`, which is dropped and ends scanning;
  - a well-formed switch, whose `--\w+` or `-\w` prefix is looked up in the registry;
  - a malformed dash token, which raises a plain error.

  A flag writes `true`. A value option consumes the next token, or writes `nil`
  when there is none. An unknown switch raises `UsageError`, which carries the
  command. The same array, with the scanned tokens removed, becomes the command's
  `arguments` and is what `parse` returns.
- **Help text.** It is generated from the registry. Instance help replaces every
  `__COMMAND__` with the command's name.

Layout:

- `text.dfy` (`Text`): the Ruby builtins the code relies on. These are `\w`, a
  greedy `\w` run, `rstrip`, `%-31s`, `join`, and `gsub` with a literal pattern.
- `switches.dfy` (`Switches`): how a token is classified.
- `declarations.dfy` (`Declarations`): option and argument descriptors, and the
  class-level `find_option`.
- `parsing.dfy` (`Parsing`): `Scan`, a function stating what one call of `parse`
  computes, with lemmas about it.
- `helpformat.dfy` (`HelpFormat`): `HelpText` and `InstanceHelp`, functions
  stating the help output, with lemmas about them.
- `clop.dfy` (`Clop`): the imperative part.
  - `Registry` is the class-level state.
  - `Command` holds the instance attributes (a map) and `arguments`.
  - `TokenList` is the caller's array, shifted in place.
  - `StringBuffer` is the `StringIO` that `help` writes into.

  `Command.Parse` is a loop over the token list, proved to produce exactly what
  `Scan` describes. `Registry.Help` writes its lines through the loop in
  `StringBuffer.PutsEach` and is proved to write exactly `HelpText`.

## Model

| member | source | states |
|---|---|---|
| `Switches.Classify` | lib/clop/command.rb:16-28 | A token not starting with `-` stops scanning. The terminator is exactly `--`. A switch's key is a well-formed `-x`/`--word` prefix of the token, and a long key is the longest possible `--\w+` match. A dash token is malformed exactly when it is not `--` and neither alternative matches. |
| `Text.WordRun` | lib/clop/command.rb:22 | The greedy `\w+` run is a prefix of word characters that cannot be extended. |
| `Text.WordRunUnique` | lib/clop/command.rb:22 | Any prefix of word characters that cannot be extended is that run. |
| `Switches.SwitchSpellingClassifies` | lib/clop/command.rb:22-23 | A token that is itself a well-formed switch is looked up as itself. |
| `Switches.SwitchPrefixLookup` | lib/clop/command.rb:22-23 | Only the matched prefix is looked up. A short switch may be followed by anything. A long switch may be followed by anything that does not continue its word run. |
| `Switches.ClassifyExamples` | lib/clop/command.rb:16-28 | `-abc` looks up `-a`. `--foo=bar` looks up `--foo`. `-`, `---x` and `-=` are malformed. `--` is the terminator. `file` and the empty token are positional. |
| `Declarations.FindOption` | lib/clop/command.rb:78-80 | The result is a declared option with exactly that switch. Nothing is returned exactly when no declared option has that switch. |
| `Declarations.FindOptionFirst` | lib/clop/command.rb:78-80 | Lookup returns the earliest declared option with the switch. |
| `Declarations.FindOptionShadows` | lib/clop/command.rb:67-80 | Declaring another option never changes a lookup that already succeeds, so a later duplicate switch is never found. |
| `Declarations.FindOptionDeclared` | lib/clop/command.rb:67-80 | A newly declared option is found by its switch when no earlier option has that switch. |
| `Parsing.Scan` | lib/clop/command.rb:15-33 | One call of `parse`. The tokens left are never more than the input. A failure always follows a consumed token. When nothing is consumed, nothing fails and no attribute is written. |
| `Parsing.Message` | lib/clop/command.rb:27-53 | The raised text is `Unrecognised option '<key>'` or `can't handle <token>`. The key or token can be read back from it, and its first letter tells the two kinds apart. |
| `Parsing.ScanSuffix` | lib/clop/command.rb:16-32 | The tokens left after parsing are a suffix of the input, in order and unchanged. |
| `Parsing.ScanStops` | lib/clop/command.rb:16-20 | Without a failure, scanning stopped at the end, at a token not starting with `-`, or right after a consumed `--`. |
| `Parsing.ScanUnrecognisedToken` | lib/clop/command.rb:22-23 | An unknown-switch failure names the matched prefix of the last consumed token, and no declared option has that switch. |
| `Parsing.ScanMalformedToken` | lib/clop/command.rb:27-28 | A malformed-token failure names the whole last consumed token, and that token is malformed. |
| `Parsing.ScanWrites` | lib/clop/command.rb:23-25 | Parsing writes only attributes of declared options and removes none. Every other attribute keeps its value. |
| `Parsing.ScanPositional` | lib/clop/command.rb:16-32 | Empty input, or input starting with a non-dash token, is left whole as the residue, and no attribute is written. |
| `Parsing.ScanTerminator` | lib/clop/command.rb:19-20 | A leading `--` is dropped and everything after it is residue, even tokens that look like switches. |
| `Parsing.ScanFlag` | lib/clop/command.rb:24-25 | A flag writes `true` and consumes only its own token. |
| `Parsing.ScanValue` | lib/clop/command.rb:24-25 | A value option consumes exactly the next token as its value, whatever that token looks like. |
| `Parsing.ScanValueMissing` | lib/clop/command.rb:24-25 | A value option at the end of input writes `nil` and raises nothing. |
| `Parsing.ScanUnknown` | lib/clop/command.rb:50-53 | An unknown switch fails with message `Unrecognised option '<prefix>'` and writes nothing more. |
| `Parsing.ScanMalformed` | lib/clop/command.rb:27-28 | A malformed dash token fails with the whole token, as a `can't handle` error rather than a usage error. |
| `Parsing.AssignLast` | lib/clop/command.rb:23-25 | Settings are written in the order given, so the last setting given for an attribute is the one that stays. |
| `Parsing.ScanSettingsThen` | lib/clop/command.rb:16-31 | Scanning `[switch, value, ...]` and then any tokens equals scanning those tokens from the attributes the settings leave. |
| `Parsing.ScanSettings` | lib/clop/command.rb:15-33 | Round trip: value options given as switch/value pairs, followed by positional tokens, set exactly those values and leave the positional tokens as `arguments`. |
| `Parsing.ScanUnknownAfterSettings` | lib/clop/command.rb:50-58 | An unknown switch after some settings fails, and the settings already written stay written. Nothing is rolled back. |
| `Clop.TokenList.Shift` | lib/clop/command.rb:17 | Removes and returns the first token, or returns `nil` on an empty list. |
| `Clop.Command.constructor` | lib/clop/command.rb:8-10 | A new command has its name, no attributes, and `arguments` unset. |
| `Clop.Command.FindOption` | lib/clop/command.rb:50-59 | Succeeds exactly when some declared option has the switch, and then returns the first declared option with it, as the class-level lookup does. Otherwise the error is a `UsageError` with message `Unrecognised option '<key>'` whose command is this instance. |
| `Clop.Command.Raised` | lib/clop/command.rb:55-58 | A failed parse raises an error with the failure's message. It is a `UsageError` carrying this command exactly when the switch was unrecognised. Otherwise it is a plain error. |
| `Clop.Command.RaisedByFindOption` | lib/clop/command.rb:50-58 | The error `parse` raises for an unknown switch is the one the instance-level `find_option` signals. |
| `Clop.Command.Parse` | lib/clop/command.rb:15-33 | The new attributes and the tokens left in the caller's list are exactly what `Scan` gives. On success, `arguments` is that same list object, and it is also the value returned. On failure, the matching error is raised and `arguments` is unchanged. |
| `Clop.Command.Execute` | lib/clop/command.rb:35-37 | The base `execute` always fails with `you need to define #execute`. |
| `Clop.Command.Run` | lib/clop/command.rb:39-42 | Parses as `Parse` does. If parsing fails, that error is returned. Otherwise `execute` runs. |
| `Clop.Command.Help` | lib/clop/command.rb:44-46 | Instance help is the class help with every placeholder replaced by the name, and it begins `Usage:` followed by the indented name. |
| `Clop.Registry.constructor` | lib/clop/command.rb:63-65 | A new command type has no options, arguments or usages. |
| `Clop.Registry.DeclareOption` | lib/clop/command.rb:67-72 | Appends the option and changes nothing else. |
| `Clop.Registry.DeclareUsage` | lib/clop/command.rb:82-85 | Appends the usage line and changes nothing else. |
| `Clop.Registry.DeclareArgument` | lib/clop/command.rb:91-93 | Appends the argument and changes nothing else. |
| `Clop.Registry.HasOptions` | lib/clop/command.rb:74-76 | True exactly when some option is declared. |
| `Clop.Registry.Help` | lib/clop/command.rb:99-121 | The text written is exactly `HelpText` of the current declarations. |
| `Clop.Registry.PutsUsages` | lib/clop/command.rb:101-107 | Writes the `Usage:` heading and one line per usage. |
| `Clop.Registry.PutsArguments` | lib/clop/command.rb:108-113 | Writes the Arguments section, or nothing when no argument is declared. |
| `Clop.Registry.PutsOptions` | lib/clop/command.rb:114-119 | Writes the Options section, or nothing when no option is declared. |
| `Clop.StringBuffer.Puts` | lib/clop/command.rb:101 | Appends what `puts` writes for one string. |
| `Clop.StringBuffer.PutsEach` | lib/clop/command.rb:110-112 | `puts` for each line in turn appends exactly `Emit` of those lines. |
| `HelpFormat.Emit` | lib/clop/command.rb:100-120 | The text written by a series of `puts` calls has at least one character per line. |
| `HelpFormat.PutsText` | lib/clop/command.rb:101 | `puts` output always ends in a newline. It extends the string by at most one character. |
| `HelpFormat.EmitAppend` | lib/clop/command.rb:100-120 | Writing two groups of lines writes the first group, then the second. |
| `HelpFormat.Banner` | lib/clop/command.rb:104-105 | The start of a usage line is `    __COMMAND__`, 15 characters, or 25 with ` [OPTIONS]` when options exist. It ends in a visible character. |
| `HelpFormat.DerivedUsage` | lib/clop/command.rb:95-97 | With no arguments the derived usage is empty. Otherwise it starts with the first name and is as long as all names plus one space between each pair. |
| `HelpFormat.UsageTexts` | lib/clop/command.rb:102 | The declared usages, in order, or exactly one derived usage when none is declared. |
| `HelpFormat.UsageLine` | lib/clop/command.rb:104-106 | A usage line starts with `    __COMMAND__`, followed by ` [OPTIONS]` when options exist. It is a prefix of the unstripped line, with only whitespace cut and no trailing whitespace left. |
| `HelpFormat.UsageLineBlank` | lib/clop/command.rb:95-106 | A blank usage, such as the derived usage when no arguments exist, gives the banner alone. |
| `HelpFormat.UsageLineCount` | lib/clop/command.rb:95-107 | With no declared usage there is exactly one usage line, built from the argument names joined by single spaces. Otherwise there is one line per declared usage. |
| `HelpFormat.ArgumentLine` | lib/clop/command.rb:111 | An argument line is four spaces, then the name padded with spaces to at least 31 characters and never truncated, then one space, then the description. |
| `HelpFormat.ArgumentsText` | lib/clop/command.rb:108-113 | The Arguments section is empty exactly when no argument is declared. Otherwise it opens with the `\nArguments:` heading line and ends in a newline. |
| `HelpFormat.OptionsText` | lib/clop/command.rb:114-119 | The Options section is empty exactly when no option is declared. Otherwise it opens with the `\nOptions:` heading line and ends in a newline. |
| `HelpFormat.OptionLine` | lib/clop/command.rb:117 | An option line is four spaces followed by the option's own help line, unchanged. |
| `HelpFormat.HelpText` | lib/clop/command.rb:99-121 | Class help starts with `Usage:` and ends in a newline. |
| `HelpFormat.InstanceHelp` | lib/clop/command.rb:44-46 | A name no longer than the placeholder never makes the help longer. A name at least as long never makes it shorter. |
| `HelpFormat.UsageBlockShape` | lib/clop/command.rb:101-107 | The usage block starts with `Usage:` and the first banner, and ends in a newline. |
| `HelpFormat.HelpLayout` | lib/clop/command.rb:99-121 | Help is the usage block, then the Arguments section, then the Options section. Each section is empty unless something is declared, and a present section starts with its `\n` heading. |
| `HelpFormat.SectionsOpenOnNewline` | lib/clop/command.rb:108-115 | The usage block, and the usage block followed by the Arguments section, each end in a newline. So the `\n` that opens each section heading leaves a blank line. |
| `HelpFormat.HelpStartsWithPlaceholder` | lib/clop/command.rb:101-106 | Class help begins with `Usage:`, a newline, four spaces and the placeholder. |
| `HelpFormat.InstanceHelpStartsWithName` | lib/clop/command.rb:44-46 | Instance help begins with `Usage:`, a newline, four spaces and the command's name. |
| `HelpFormat.InstanceHelpSplit` | lib/clop/command.rb:44-46 | Instance help is the heading, then each usage line substituted on its own, then the substituted sections. No placeholder straddles a line break. |
| `HelpFormat.InstanceUsageLines` | lib/clop/command.rb:44-46 | Instance help has one usage line per usage text. Every one of them, not just the first, starts with four spaces and the name, and ends in a newline. |
| `HelpFormat.InstanceHelpOfPlaceholder` | lib/clop/command.rb:44-46 | A command named `__COMMAND__` gets the class help unchanged. |
| `Text.RStrip` | lib/clop/command.rb:106 | `rstrip` returns a prefix with no trailing whitespace, and everything cut off is whitespace. |
| `Text.RStripUnique` | lib/clop/command.rb:106 | Those three properties determine the result of `rstrip`. |
| `Text.RStripAfter` | lib/clop/command.rb:106 | Stripping never reaches into a prefix that ends in a visible character. |
| `Text.PadRight` | lib/clop/command.rb:111 | `%-31s` keeps the string, pads it with spaces to the width, and never truncates. |
| `Text.JoinLength` | lib/clop/command.rb:96 | `join(" ")` adds exactly one separator between neighbouring names. |
| `Text.JoinSnoc` | lib/clop/command.rb:96 | Joining one more name appends a separator and that name. |
| `Text.Join` | lib/clop/command.rb:96 | `join` of no parts is empty. Otherwise the result starts with the first part. |
| `Text.ReplaceAll` | lib/clop/command.rb:45 | `gsub` with a literal pattern: a replacement no longer than the pattern never lengthens the text, and one at least as long never shortens it. |
| `Text.ReplaceAllAbsent` | lib/clop/command.rb:45 | `gsub` leaves a text without the placeholder unchanged. |
| `Text.ReplaceAllSelf` | lib/clop/command.rb:45 | Replacing the placeholder by itself changes nothing. |
| `Text.ReplaceAllLength` | lib/clop/command.rb:45 | A replacement as long as the placeholder keeps the text's length. |
| `Text.ReplaceAllSkip` | lib/clop/command.rb:45 | A leading stretch that cannot start the placeholder is copied through unchanged. |
| `Text.ReplaceAllSplit` | lib/clop/command.rb:45 | When the first part ends in a character that is not in the pattern, `gsub` of the two parts together is `gsub` of each part, joined. |
| `Text.ReplaceAllLast` | lib/clop/command.rb:45 | A last character that is not in the pattern is kept as the last character. |

Calling class help twice on the same declarations gives identical text. This is
because `Registry.Help` is proved equal to a function of those declarations.

## Left out

- `Clop::Option` and `Clop::Argument` are not part of this model. An option's
  attribute name, `flag?` and rendered help line are fields of `OptionDecl`, as
  `Option.new` would supply them. They are not derived from the switch and the
  argument type.
- The reader and writer methods generated with `class_eval` are modelled as one
  map from attribute name to value. An unwritten attribute reads as absent from
  the map, not as `nil`. The `?` suffix on flag readers is not modelled.
- `Clop.Command.Parse`: the attribute map is kept apart from the command's own
  members. In Ruby the generated accessors share instance variables and method
  names with them. An option whose attribute is `name` sets `@name`. An option
  whose attribute is `arguments` has its value overwritten by line 32. These
  collisions are not modelled.
- `Clop.Command.Parse` and `Clop.Command.Help`: every token, name and help string
  is taken to be valid text in one encoding. Ruby's regexp match, `gsub` and `%`
  raise `ArgumentError` on invalid byte sequences, and
  `Encoding::CompatibilityError` on strings whose encodings clash. These raises
  are not modelled.
- `Clop.Command.Help`: `name` stays the constructor's value. In Ruby an option
  with attribute `name` changes the name that instance help substitutes, and a
  value option with attribute `help` defines a reader that replaces instance
  `help`. Neither is modelled.
- `Clop.Command.Run`: only the base `execute` is modelled. Subclasses override it
  with code outside this repository.
- `set_backtrace(caller)` is runtime diagnostics and is not modelled.
- In `/^-/` and `/^(--\w+|-\w)/`, Ruby's `^` also matches after a newline inside
  a token. Tokens are taken to contain no newlines, so `^` means the start of the
  token.
- `Clop.Command.Help` and `HelpFormat.InstanceHelp` insert the name literally.
  Ruby's `gsub` would also expand backslash sequences such as `\0` or `\\` in the
  name. Names containing backslashes are not modelled.
- Class-level instance variables are not inherited, so every command class starts
  with empty lists. The model has one `Registry` per command type. A `nil`
  `@usages` is an empty `usages` list. `usage` always appends, so the two
  coincide.
- `Clop.Registry.Help` writes each `each` loop's lines through one shared loop,
  `StringBuffer.PutsEach`. The lines are computed before the loop, not inside it.
  This gives the same output.
- Non-string tokens, a `nil` name and other Ruby type errors are not modelled.
- `Parsing.ScanSettings`: it does not state that, when the declared options have
  distinct switches, the result is the same whatever order they were declared
  in. `Assign` depends on the declared options only through `FindOption`, which
  `FindOptionFirst` characterises.
