# bpomodes in Dafny

A model of `BpoModes`, a git-style subcommand dispatcher built on
Boost.Program_options. Programs register modes. Each mode has its own
option schema and an optional handler. `parse` works in two phases:

1. A common pass reads the shared options, the mode name and the leftover
   tokens.
2. Unless help was asked for, the named mode's handler prepares a second
   parser over the leftover tokens. The values of that pass are stored on
   top of the common ones and handed to the handler's `ingest`.

`run_subcommand` then calls the selected handler's `run`. The project also
models two helpers of the unit-test driver: `split`, which cuts a command
line at runs of spaces and tabs, and `check_vm_keys`, which compares the
keys of a values map with an expected set.

Layout:

- `strings.dfy` (module `Strings`): the lexicographic order of `std::string` over characters.
  It defines the ascending enumeration a `std::map` visits its keys in, and
  joining names with a separator.
- `program_options.dfy` (module `ProgramOptions`): the parts of
  Boost.Program_options the dispatcher uses, kept opaque. They form an
  `Engine`, a bundle of functions (see "Left out").
- `bpomodes.dfy` (module `Modes`): the class `BpoModes` with the fields of
  `bpomodes.cpp`. Its methods are proved against the ghost function
  `Dispatch`, which states what one `parse` does. The handler's hooks are
  recorded in a ghost `trace` of `Prepare`, `Ingest` and `Run` events.
  The exits are a tagged `Outcome`:
  - `Parsed(values)` when `parse` returns;
  - `Help(stdout)` for `exit(0)`;
  - `Failed(stderr)` for `exit(1)`;
  - `Uncaught(message)` when an exception escapes `parse`: from `notify`, or an exception other than `boost::program_options::error` from a handler hook.
- `lifecycle.dfy` (module `Lifecycle`): what one `parse` promises, stated
  over `Dispatch`.
- `testmain.dfy` (module `TestSupport`): `Split`, its round trip with
  joining, and `CheckVmKeys`.

Where the two disagree, the model follows `bpomodes.cpp` and not the older
interface declared in `bpomodes.hpp`. The header's `parse(argc, argv)`,
`selected_handler` and four-argument `handleSub` are not modelled. `add` uses
`std::map::emplace`, which keeps the first entry registered under a name;
the model follows that (`Modes.Emplace`).

## Model

| member | source | states |
|---|---|---|
| Strings.LessEqTotal | bpomodes.hpp:63 | any two strings are ordered one way or the other |
| Strings.LessEqAntisymmetric | bpomodes.hpp:63 | two strings ordered both ways are equal, so map keys are distinct |
| Strings.LessEqTransitive | bpomodes.hpp:63 | the key order is transitive |
| Strings.LessEqReflexive | bpomodes.hpp:63 | every string is ordered no later than itself |
| Strings.LeastExists | bpomodes.hpp:63 | every non-empty set of names has a least element |
| Strings.LeastUnique | bpomodes.hpp:63 | the least element is unique |
| Strings.Least | bpomodes.hpp:63 | picks the least name of a non-empty set |
| Strings.SortedKeys | bpomodes.hpp:63 | the enumeration of a key set has one entry per key |
| Strings.SortedKeysAscending | bpomodes.hpp:63 | the enumeration holds exactly the keys, each strictly before the next (ascending, no repetition) |
| Strings.SortedKeysEnds | bpomodes.hpp:63 | a non-empty enumeration starts with the least key and ends with the greatest |
| Strings.SortedKeysStep | bpomodes.cpp:40-44 | visiting keys in order starts with the least and goes on with the rest |
| Strings.EnumerationStep | bpomodes.cpp:40-44 | one loop step keeps "visited keys followed by the remaining enumeration is the whole enumeration" |
| Strings.JoinWithCons | bpomodes.cpp:40-44 | a joined list is its first element, the separator, and the join of the rest |
| Strings.JoinWithEnds | bpomodes.cpp:40-44 | a joined list begins with its first element and ends with its last, with no separator before or after |
| Strings.JoinWithLength | bpomodes.cpp:40-44 | joined length is the element lengths plus one separator per gap |
| Strings.JoinWithSnoc | bpomodes.cpp:40-44 | writing one more name adds the separator (none before the first) and the name |
| ProgramOptions.Store | bpomodes.cpp:79 | `store` keeps every key of both maps, and a key only one side has keeps that side's value, with its defaulted flag; a collision is settled by the engine's `keep` |
| ProgramOptions.StoreRespectsDefaults | bpomodes.cpp:163 | under the library's collision rule, a value given explicitly replaces a defaulted one, and a default never replaces a stored value, so a mode's explicit option overrides a common default and not the reverse |
| ProgramOptions.AsText | bpomodes.cpp:83 | `as<std::string>()` yields a value exactly when the key is present and holds text, and then it is that text; otherwise the cast throws and the catch at bpomodes.cpp:86-88 swallows it |
| Modes.DefaultHandler | bpomodes.hpp:27-39 | the base `prepare` returns its parser unchanged, the base `ingest` does not throw, and the base `run` returns 0 for every values map |
| Modes.ExitCode | bpomodes.cpp:105-114 | only help and errors exit; the status is 0 exactly for help |
| Modes.Emplace | bpomodes.cpp:27 | the name is registered afterwards; every entry already present is unchanged; a new name gets the given entry |
| Modes.MenuShape | bpomodes.cpp:35-46 | the menu of an empty registry is ""; otherwise it starts with the least name, ends with the greatest, and has one separator per gap |
| Modes.Selection | bpomodes.cpp:83-84 | a mode is selected exactly when the name was read and is registered, and then it is that name |
| Modes.EraseFirst | bpomodes.cpp:101 | as written: removing the first token, defined only when there is one |
| Modes.DropLeading | bpomodes.cpp:98-101 | the tokens after the first, and none when nothing was collected |
| Modes.Dispatch | bpomodes.cpp:55-119 | one `parse` after finalization, with the corrected drop of the first token (see Findings); a selection it reports is registered |
| Modes.AfterCommon | bpomodes.cpp:79-104 | after a successful common pass: help short-cut, name check or the mode's pass; a selection it reports is registered |
| Modes.SubPass | bpomodes.cpp:154-165 | `handleSub` calls `prepare` first, on the mode's parser over the tokens, and `ingest` at most once, for that mode; when it completes, `ingest` was called last, with exactly the values it leaves |
| Modes.ModePass | bpomodes.cpp:103-116 | the mode's pass, its exceptions and `notify` always leave that mode selected |
| Modes.BpoModes.constructor | bpomodes.cpp:12-13 | a new dispatcher: no common options, help on, nothing registered, options not final; no selection, where the source leaves the selection uninitialized (see Left out) |
| Modes.BpoModes.WithCommon | bpomodes.cpp:16-17 | a new dispatcher over the given common options, with the given help flag, defaulting to true as at bpomodes.hpp:23-24; nothing registered, options not final, no selection (see Left out) |
| Modes.BpoModes.Add | bpomodes.cpp:20-31 | the registry becomes `Emplace` of the entry, a missing handler replaced by the base handler; the selection is cleared; the same dispatcher is returned; the invariant holds |
| Modes.BpoModes.SubcommandMenu | bpomodes.cpp:35-46 | the loop's text equals the registered names in ascending order joined by the separator |
| Modes.BpoModes.PrintOpts | bpomodes.cpp:168-179 | the text is the usage of the current state: common options, the menu line, the arguments line, a blank line, and the selected mode's options only when one is selected |
| Modes.BpoModes.FinalizeCommon | bpomodes.cpp:134-151 | the help option is appended when asked for; the hidden name option (default `_default_`, menu in its description) and the leftover-token option are appended; the options are final |
| Modes.BpoModes.HandleSub | bpomodes.cpp:154-165 | the values left and the hooks recorded are those of `SubPass`: `prepare` once on the mode's parser over the tokens, the parser it returns run, the values stored over the given map and `ingest` once with the result; a throw from `prepare`, the run or `ingest` ends it there |
| Modes.BpoModes.Parse | bpomodes.cpp:55-119 | the options are finalized on the first call only (help option and hidden options added once, whatever the help flag); the outcome, the new selection and the hooks called are those of `Dispatch` on the current state, with no input from an earlier selection, and with the corrected drop of the first token (see Findings) |
| Modes.BpoModes.ParseFinal | bpomodes.cpp:64-109 | the common pass over common and hidden options, name in slot 1, the rest in the leftover list, unknown options tolerated; a grammar error becomes the error exit with usage |
| Modes.BpoModes.Resolve | bpomodes.cpp:79-104 | follows `AfterCommon`: values stored, name looked up, leftover key erased when a name was read |
| Modes.BpoModes.Stop | bpomodes.cpp:90-114 | the help text or the unknown-mode error text, exactly as `EarlyExit` states |
| Modes.BpoModes.RunMode | bpomodes.cpp:98-116 | follows `ModePass`: sub pass; a `boost::program_options::error` from it is the error exit with the mode's usage, any other exception escapes; then `notify` |
| Modes.BpoModes.RunSubcommand | bpomodes.cpp:122-130 | with nothing selected, the `invalid_option` validation error whose option name is "nullptr" and whose original token is the name parameter, and no hook; otherwise exactly the selected handler's `run` status, recorded once |
| Lifecycle.HelpShortCircuits | bpomodes.cpp:80-114 | with the help flag no hook runs, the name check is skipped, the usage goes to stdout and the status is 0 |
| Lifecycle.UnknownModeFails | bpomodes.cpp:90-108 | without help, an unregistered or unreadable name fails with `<param> "<name>" is not in { <menu joined by ", "> }`, usage without mode options, no hook, no selection, status 1 |
| Lifecycle.DefaultNameRefused | bpomodes.cpp:91-95 | the default name `_default_` (the hidden option's default) is refused like any other unless a mode is registered under it |
| Lifecycle.SelectedModeRuns | bpomodes.cpp:98-116 | for a registered mode: `prepare` once on the tokens minus the first, the parser it returns is run, `ingest` once on the stored result; if `ingest` throws, that exception decides, otherwise `notify` decides success |
| Lifecycle.CommonPassFails | bpomodes.cpp:73-108 | a failing common pass is the error exit with the message and the usage without mode options: no hook, no selection, status 1 |
| Lifecycle.ModeParserFails | bpomodes.cpp:159-163 | when the parser `prepare` returns fails to run, only `prepare` has been called, the mode stays selected, and the error exit shows the message and the mode's usage with status 1 |
| Lifecycle.PrepareThrows | bpomodes.cpp:103-108 | a throw from `prepare` ends the pass with only `prepare` called: an options error is the error exit with the mode's usage, any other exception escapes |
| Lifecycle.IngestThrows | bpomodes.cpp:103-108 | a throw from `ingest` comes after both hooks, and `notify` is not reached: an options error is the error exit with the mode's usage, any other exception escapes |
| Lifecycle.ResultKeys | bpomodes.cpp:85 | result keys are the common keys minus the leftover key plus the sub-pass keys; the leftover key is present only if the sub pass defines it |
| Lifecycle.HookOrder | bpomodes.cpp:55-119 | on every path: at most `prepare` then `ingest`, both for the selected mode, never `run`; a successful result is what `ingest` saw |
| Lifecycle.ModePassHooks | bpomodes.cpp:154-165 | the mode's pass calls `prepare` first, on the given parser, and `ingest` at most once |
| Lifecycle.ErrorTextLayout | bpomodes.cpp:106-107 | error text starts with `progname: ` and ends with a blank line and the usage |
| Lifecycle.UsageDestination | bpomodes.cpp:105-114 | on every path, errors put `progname: ` and the usage on stderr with status 1, and help puts the usage alone on stdout with status 0 |
| Lifecycle.AfterCommonUsage | bpomodes.cpp:90-114 | the same after the common pass |
| Lifecycle.ModePassUsage | bpomodes.cpp:103-108 | the same for the mode's pass, whichever of `prepare`, the run or `ingest` throws, with that mode's options in the usage |
| Lifecycle.UsageWithSelection | bpomodes.cpp:168-179 | usage with a mode selected = usage without one + that mode's options + a line break |
| Lifecycle.DefaultHandlerRunsGivenParser | bpomodes.hpp:29-31 | with the base handler the sub pass fails exactly when the unmodified parser fails, and `ingest` sees its stored values |
| Lifecycle.EraseFirstReachedOnEmpty | bpomodes.cpp:98-101 | a mode registered as `_default_` and an empty command line reach the erase with an empty token list |
| Lifecycle.DefaultModeWithNoTokens | bpomodes.cpp:98-103 | with the corrected drop, that call runs the default mode over no tokens and succeeds |
| TestSupport.WordLength | testmain.cpp:17-18 | the longest prefix without a space or tab |
| TestSupport.BlankLength | testmain.cpp:17-18 | the longest prefix of spaces and tabs |
| TestSupport.Split | testmain.cpp:14-21 | at least one token; no token holds a space or tab; only the first and last tokens may be empty; the first is empty exactly when the line is empty or starts with a blank |
| TestSupport.Unblanked | testmain.cpp:17-18 | the line's non-blank characters, in order |
| TestSupport.SplitKeepsCharacters | testmain.cpp:14-21 | the tokens written one after another are the line with its blanks removed: order and characters kept |
| TestSupport.SplitJoin | testmain.cpp:14-21 | tokens a split could produce, joined with any non-empty run of blanks, split back into themselves: each run acts as one separator |
| TestSupport.SplitStep | testmain.cpp:17-18 | a word, a run of blanks and the rest split into the word followed by the split of the rest |
| TestSupport.SplitFourWords | testmain.cpp:46-47 | four words with runs of blanks between them split into those four words |
| TestSupport.SplitExample | testmain.cpp:45-51 | `split("alpha beta   gamma \t \t delta")` is `["alpha", "beta", "gamma", "delta"]` |
| TestSupport.CheckVmKeys | testmain.cpp:24-32 | the observed set is the map's key set, and the check passes exactly when it equals the expected set |

## Left out

- Boost.Program_options internals are not modelled: tokenising, option syntax, type coercion, positional binding, `allow_unregistered`, `collect_unrecognized`, and the text `operator<<` writes for a schema. They are foreign library code, so running a parser, storing with a key collision, `notify` and describing a schema are functions supplied in an `Engine`.
- `ProgramOptions.Store`: on a collision the kept value is the engine's `keep`. The model states only the part of the library's rule that depends on whether values were defaulted (`ProgramOptions.DefaultsYield`). Between two explicit values the option's semantic decides (first wins, or composing options merge), and that is not modelled.
- `exit()` and stream writes are not modelled. They become the `Outcome` carrying the text that would have been written.
- The values of `subcommand_param` and `subcmd_args_param` are not visible, so they are constructor parameters. The default argument of `subcommandMenu` is not visible either; the model picks "|" (`Modes.MenuSeparator`), and no property depends on that choice.
- Modes.BpoModes.constructor: bpomodes.cpp:12-13 leaves `selected_subcmd` uninitialized, so `run_subcommand` or `printOpts` before any `add` or `parse` compares a singular iterator, which is undefined. The model starts with no selection instead, so `run_subcommand` there yields the validation error.
- Modes.BpoModes.WithCommon: the same for bpomodes.cpp:16-17, which also leaves `selected_subcmd` uninitialized; the model starts with no selection.
- Handler-owned state is not modelled. `ingest` changes nothing the dispatcher sees, so it appears as an `Ingest` event in the trace and as the exception it may throw.
- Exceptions thrown from a handler's `run` are not modelled: `run_subcommand` lets them through unchanged.
- `Modes.BpoModes.RunSubcommand`: the null-handler check is kept, but it cannot fire, because `add` always installs a handler.
- The `add_help` field is stored and never read, because `parse` calls `finalizeCommon()` with its default. The model keeps the field and gives it no effect.
- `append_help` is not part of `ModeHandler` and is never called, so it is not modelled.
- The string order compares `char` code points. `std::string` compares bytes as unsigned char; the two agree on ASCII names.
- demo.cpp, main.cpp, tests.cpp and the Boost.Test harness are not part of this model.

## Findings

| source | as written | input that shows it | evidently intended | confidence | as-written member | corrected member |
|---|---|---|---|---|---|---|
| bpomodes.cpp:98-101 | `sub_args.erase(sub_args.begin())` runs without checking that any token was collected | a mode registered as `_default_` and an empty command line: the name check passes, nothing is collected, and `erase(begin())` on an empty vector is undefined | drop the first token only when there is one | not executed; follows from the code as read | Lifecycle.EraseFirstReachedOnEmpty | Lifecycle.DefaultModeWithNoTokens |
