/** The subcommand dispatcher of bpomodes: a registry of git-style modes,
    each with its own option schema and handler, and a two-phase `parse` that
    runs the common options first and hands the leftover tokens to the
    selected mode's parser. */
module Modes {
  import opened ProgramOptions
  import opened Strings

  /** An exception a hook throws: a `boost::program_options::error`, which
      `parse` catches, or any other, which escapes `parse`. */
  datatype Raised = OptionsError(message: string) | OtherError(message: string)

  /** What a hook does: it returns a value or it throws. */
  datatype Hook<T> = Returns(value: T) | Throws(error: Raised)

  /** The hooks of a `ModeHandler`. `ingest` returns nothing and changes only
      the handler's own state, so all it shows the dispatcher is whether it
      throws; its call is recorded in the trace. */
  datatype Handler = Handler(prepare: CommandLine -> Hook<CommandLine>,
                             ingest: VarMap -> Option<Raised>,
                             run: VarMap -> int)

  /** The base `ModeHandler`: `prepare` hands back the parser it was given,
      `ingest` does nothing and `run` reports status 0; none of them throws. */
  function DefaultHandler(): (h: Handler)
    ensures forall p :: h.prepare(p) == Returns(p)
    ensures forall vm :: h.ingest(vm).None?
    ensures forall vm :: h.run(vm) == 0
  {
    Handler(p => Returns(p), vm => None, vm => 0)
  }

  /** A registered mode: its options and its (possibly null) handler. */
  datatype SubCommand = SubCommand(opts: Schema, handler: Option<Handler>)

  type Registry = map<string, SubCommand>

  /** A call of one of the selected handler's hooks. */
  datatype Event =
    | Prepare(mode: string, given: CommandLine)
    | Ingest(mode: string, values: VarMap)
    | Run(mode: string, values: VarMap)

  /** How a call of `parse` ends: it returns the values map, it prints usage
      to stdout and exits with status 0, it prints an error and usage to
      stderr and exits with status 1, or an exception escapes it. */
  datatype Outcome =
    | Parsed(values: VarMap)
    | Help(stdout: string)
    | Failed(stderr: string)
    | Uncaught(message: string)

  /** What `run_subcommand` yields: the handler's status, or the
      `validation_error(invalid_option, option_name, original_token)` it throws. */
  datatype RunResult = Status(code: int) | InvalidOption(optionName: string, originalToken: string)

  /** The status a terminating outcome passes to `exit`. */
  function ExitCode(o: Outcome): (code: Option<int>)
    ensures code.Some? <==> o.Help? || o.Failed?
    ensures code.Some? ==> (code.value == 0 <==> o.Help?)
  {
    match o
    case Help(_) => Some(0)
    case Failed(_) => Some(1)
    case _ => None
  }

  const HelpKey := "help"
  const HelpOption := OptionSpec("help,h", "Show usage information", None)
  /** The value the hidden subcommand option takes when no mode is named. */
  const DefaultMode := "_default_"
  /** The separator `subcommandMenu()` uses when called without one. Its
      default argument is not visible in the source, so the model picks
      "|"; no property proved here depends on that choice. */
  const MenuSeparator := "|"

  /** Every registered handler is non-null. */
  predicate HandlersBound(reg: Registry) {
    forall m :: m in reg ==> reg[m].handler.Some?
  }

  /** `std::map::emplace`: the entry goes in only when the name is new; an
      entry already registered under that name is left as it is. */
  function Emplace(reg: Registry, mode: string, entry: SubCommand): (r: Registry)
    ensures r.Keys == reg.Keys + {mode}
    ensures forall m :: m in reg ==> r[m] == reg[m]
    ensures mode !in reg ==> r[mode] == entry
  {
    if mode in reg then reg else reg[mode := entry]
  }

  /** The registered names in key order, separated by `sep`. */
  ghost function Menu(reg: Registry, sep: string): string {
    JoinWith(SortedKeys(reg.Keys), sep)
  }

  /** The menu of an empty registry is empty. Otherwise it begins with the
      least registered name and ends with the greatest, with no separator
      before or after them, and holds every name once with one separator
      between neighbours. */
  lemma MenuShape(reg: Registry, sep: string)
    ensures |reg| == 0 ==> Menu(reg, sep) == ""
    ensures |reg| > 0 ==>
              var menu, names := Menu(reg, sep), SortedKeys(reg.Keys);
              && IsLeast(names[0], reg.Keys)
              && (forall m :: m in reg ==> LessEq(m, names[|names| - 1]))
              && |names[0]| <= |menu| && menu[..|names[0]|] == names[0]
              && |names[|names| - 1]| <= |menu|
              && menu[|menu| - |names[|names| - 1]|..] == names[|names| - 1]
              && |menu| == TotalLength(names) + (|reg| - 1) * |sep|
  {
    if |reg| > 0 {
      var names := SortedKeys(reg.Keys);
      SortedKeysEnds(reg.Keys);
      JoinWithEnds(names, sep);
      JoinWithLength(names, sep);
    }
  }

  /** The two options `finalizeCommon` adds to the hidden schema; `menu` is
      the subcommand menu at the time of the call. */
  function HiddenOptions(subcommandParam: string, argsParam: string, menu: string): seq<OptionSpec> {
    [ OptionSpec(subcommandParam, "subcommand [" + menu + "]", Some(Text(DefaultMode))),
      OptionSpec(argsParam, "subcommand arguments", None) ]
  }

  /** The dispatcher state one `parse` works from once the common options are
      final. */
  datatype Setup = Setup(subcommands: Registry, common: Schema, hidden: Schema,
                         subcommandParam: string, argsParam: string)

  /** The parser of the common pass: the caller's tokens, the common and the
      hidden options, the name in positional slot 1 and every further
      positional token in the leftover list, unknown options tolerated. */
  function CommonParser(s: Setup, parser: CommandLine): CommandLine {
    parser.(schema := Schema("", s.common.options + s.hidden.options),
            positional := [Slot(s.subcommandParam, 1), Slot(s.argsParam, -1)],
            allowUnregistered := true)
  }

  /** The selected mode's name, when the common pass produced a registered one. */
  function Selection(reg: Registry, name: Option<string>): (sel: Option<string>)
    ensures sel.Some? <==> name.Some? && name.value in reg
    ensures sel.Some? ==> sel == name
  {
    if name.Some? && name.value in reg then name else None
  }

  /** The message of the error an unregistered mode name raises. */
  function UnknownMessage(param: string, mode: string, menu: string): string {
    param + " \"" + mode + "\" is not in { " + menu + " }"
  }

  /** What the error path writes to stderr before exiting. */
  function ErrorText(progname: string, message: string, usage: string): string {
    progname + ": " + message + "\n\n" + usage
  }

  /** The text `printOpts` writes: the common options, the menu, a line for
      the mode's own arguments, a blank line and, only when a mode is
      selected, that mode's options. */
  ghost function Usage(s: Setup, selected: Option<string>, describe: Schema -> string): string
    requires selected.Some? ==> selected.value in s.subcommands
  {
    describe(s.common) + "  [" + Menu(s.subcommands, MenuSeparator) + "]\n"
      + "  <subcommand_args> ...\n" + "\n"
      + (if selected.Some? then describe(s.subcommands[selected.value].opts) + "\n" else "")
  }

  /** `erase(begin())` has a first element to remove. */
  predicate Erasable(tokens: seq<string>) {
    |tokens| > 0
  }

  /** `sub_args.erase(sub_args.begin())` as written: only defined on a
      non-empty vector. */
  function EraseFirst(tokens: seq<string>): (r: seq<string>)
    requires Erasable(tokens)
    ensures [tokens[0]] + r == tokens
  {
    tokens[1..]
  }

  /** The collected tokens (unregistered options and positional tokens, in
      command-line order) after the first, and none when nothing was
      collected. */
  function DropLeading(tokens: seq<string>): (r: seq<string>)
    ensures |tokens| > 0 ==> [tokens[0]] + r == tokens
    ensures |tokens| == 0 ==> r == []
  {
    if |tokens| == 0 then [] else tokens[1..]
  }

  /** The result of one `parse`: its outcome, the selection it leaves behind
      and the hooks it calls, in order. */
  datatype Step = Step(outcome: Outcome, selected: Option<string>, events: seq<Event>)

  /** What `parse` does once the common options are final. Nothing of an
      earlier parse enters: the selection starts out empty. */
  ghost function Dispatch(s: Setup, progname: string, parser: CommandLine, engine: Engine): (st: Step)
    requires HandlersBound(s.subcommands)
    ensures st.selected.Some? ==> st.selected.value in s.subcommands
  {
    match engine.run(CommonParser(s, parser))
    case Err(message) =>
      Step(Failed(ErrorText(progname, message, Usage(s, None, engine.describe))), None, [])
    case Ok(found) =>
      AfterCommon(s, progname, found, engine)
  }

  /** The common pass succeeded with `found`: take the help short-cut, or
      resolve the mode name and run its pass. */
  ghost function AfterCommon(s: Setup, progname: string, found: ParsedOptions, engine: Engine): (st: Step)
    requires HandlersBound(s.subcommands)
    ensures st.selected.Some? ==> st.selected.value in s.subcommands
  {
    var stored := Store(map[], found.values, engine.keep);
    var name := AsText(stored, s.subcommandParam);
    var selected := Selection(s.subcommands, name);
    if HelpKey in stored || selected.None? then
      Step(EarlyExit(s, progname, HelpKey in stored, name, engine.describe), selected, [])
    else
      ModePass(s, progname, selected.value, DropLeading(found.unrecognized), stored - {s.argsParam}, engine)
  }

  /** How `parse` ends before any hook runs: usage on stdout when help was
      asked for, otherwise the unknown-mode error and usage on stderr. */
  ghost function EarlyExit(s: Setup, progname: string, help: bool, name: Option<string>,
                           describe: Schema -> string): Outcome
  {
    var selected := Selection(s.subcommands, name);
    if help then Help(Usage(s, selected, describe))
    else
      var mode := if name.Some? then name.value else "";
      var message := UnknownMessage(s.subcommandParam, mode, Menu(s.subcommands, ", "));
      Failed(ErrorText(progname, message, Usage(s, None, describe)))
  }

  /** What `handleSub` leaves behind: the stored values or the exception
      that leaves it, and the hooks it called. */
  datatype SubResult = SubResult(result: Hook<VarMap>, events: seq<Event>)

  /** `handleSub(cmd, args, varmap)`: `prepare` on the mode's parser over
      `args`, the parser it returns is run, its values are stored over
      `varmap` and `ingest` is given the result. A throw from `prepare`,
      from the run or from `ingest` ends it there. */
  function SubPass(mode: string, cmd: SubCommand, args: seq<string>, varmap: VarMap, engine: Engine): (p: SubResult)
    requires cmd.handler.Some?
    ensures 1 <= |p.events| <= 2
    ensures p.events[0] == Prepare(mode, CommandLine(args, cmd.opts, [], false))
    ensures |p.events| == 2 ==> p.events[1].Ingest? && p.events[1].mode == mode
    ensures p.result.Returns? ==> p.events == p.events[..1] + [Ingest(mode, p.result.value)]
  {
    var handler := cmd.handler.value;
    var given := CommandLine(args, cmd.opts, [], false);
    match handler.prepare(given)
    case Throws(e) => SubResult(Throws(e), [Prepare(mode, given)])
    case Returns(prepared) =>
      match engine.run(prepared)
      case Err(message) => SubResult(Throws(OptionsError(message)), [Prepare(mode, given)])
      case Ok(sub) =>
        var result := Store(varmap, sub.values, engine.keep);
        var events := [Prepare(mode, given), Ingest(mode, result)];
        match handler.ingest(result)
        case Some(e) => SubResult(Throws(e), events)
        case None => SubResult(Returns(result), events)
  }

  /** How an exception from the mode's pass ends `parse`: a
      `boost::program_options::error` is reported with the mode's usage on
      stderr, any other escapes. */
  ghost function ModeError(s: Setup, progname: string, mode: string, e: Raised, describe: Schema -> string): Outcome
    requires mode in s.subcommands
  {
    match e
    case OptionsError(message) => Failed(ErrorText(progname, message, Usage(s, Some(mode), describe)))
    case OtherError(message) => Uncaught(message)
  }

  /** The selected mode's pass over `args`, its values stored on top of
      `varmap`, then `notify`. */
  ghost function ModePass(s: Setup, progname: string, mode: string, args: seq<string>, varmap: VarMap, engine: Engine): (st: Step)
    requires HandlersBound(s.subcommands) && mode in s.subcommands
    ensures st.selected == Some(mode)
  {
    var p := SubPass(mode, s.subcommands[mode], args, varmap, engine);
    match p.result
    case Throws(e) => Step(ModeError(s, progname, mode, e, engine.describe), Some(mode), p.events)
    case Returns(result) =>
      match engine.notify(result)
      case Some(message) => Step(Uncaught(message), Some(mode), p.events)
      case None => Step(Parsed(result), Some(mode), p.events)
  }

  class BpoModes {
    var addHelp: bool
    var optsFinalized: bool
    var commonOpts: Schema
    var hiddenOpts: Schema
    var subcommands: Registry
    /** `selected_subcmd`: a registered name, or `None` for `subcommands.end()`. */
    var selected: Option<string>
    /** The key the selected mode's name is stored under. */
    const subcommandParam: string
    /** The internal key of the leftover-token list. */
    const argsParam: string
    /** The common options as the constructor received them. */
    ghost const givenCommon: Schema
    /** Every hook call made through this dispatcher, oldest first. */
    ghost var trace: seq<Event>

    /** The registry and the option schemas agree with how they were built:
        every handler is bound, the help option is present exactly when the
        common options are final, and the hidden schema is empty before and
        holds the two hidden options after. */
    ghost predicate Consistent()
      reads this`subcommands, this`commonOpts, this`hiddenOpts, this`optsFinalized
    {
      && HandlersBound(subcommands)
      && commonOpts == givenCommon.(options := givenCommon.options + (if optsFinalized then [HelpOption] else []))
      && (!optsFinalized ==> hiddenOpts == Schema("", []))
      && (optsFinalized ==> |hiddenOpts.options| == 2
                            && hiddenOpts.options[0].name == subcommandParam
                            && hiddenOpts.options[0].defaultValue == Some(Text(DefaultMode))
                            && hiddenOpts.options[1].name == argsParam)
    }

    /** Consistent, and the selection (if any) names a registered mode. */
    ghost predicate Valid()
      reads this`subcommands, this`commonOpts, this`hiddenOpts, this`optsFinalized, this`selected
    {
      Consistent() && (selected.Some? ==> selected.value in subcommands)
    }

    ghost function Current(): Setup
      reads this`subcommands, this`commonOpts, this`hiddenOpts
    {
      Setup(subcommands, commonOpts, hiddenOpts, subcommandParam, argsParam)
    }

    /** `BpoModes()`: no common options, help on. */
    constructor (subcommandParam: string, argsParam: string)
      ensures Valid() && fresh(this)
      ensures addHelp && !optsFinalized && commonOpts == Schema("", [])
      ensures subcommands == map[] && selected.None? && trace == []
      ensures this.subcommandParam == subcommandParam && this.argsParam == argsParam
    {
      this.subcommandParam := subcommandParam;
      this.argsParam := argsParam;
      addHelp := true;
      optsFinalized := false;
      commonOpts := Schema("", []);
      givenCommon := Schema("", []);
      hiddenOpts := Schema("", []);
      subcommands := map[];
      selected := None;
      trace := [];
    }

    /** `BpoModes(common, add_help = true)`. */
    constructor WithCommon(common: Schema, subcommandParam: string, argsParam: string, addHelp: bool := true)
      ensures Valid() && fresh(this)
      ensures this.addHelp == addHelp && !optsFinalized && commonOpts == common
      ensures subcommands == map[] && selected.None? && trace == []
      ensures this.subcommandParam == subcommandParam && this.argsParam == argsParam
    {
      this.subcommandParam := subcommandParam;
      this.argsParam := argsParam;
      this.addHelp := addHelp;
      optsFinalized := false;
      commonOpts := common;
      givenCommon := common;
      hiddenOpts := Schema("", []);
      subcommands := map[];
      selected := None;
      trace := [];
    }

    /** Register a mode. A null handler becomes the base `ModeHandler`; a
        name already registered keeps its first entry; the selection is
        cleared; the dispatcher itself is returned so calls chain. */
    method Add(mode: string, opts: Schema, handler: Option<Handler> := None) returns (self: BpoModes)
      requires Valid()
      modifies this`subcommands, this`selected
      ensures Valid() && self == this
      ensures subcommands == Emplace(old(subcommands), mode,
                SubCommand(opts, Some(if handler.None? then DefaultHandler() else handler.value)))
      ensures selected.None?
    {
      var h := handler;
      if h.None? {
        h := Some(DefaultHandler());
      }
      subcommands := Emplace(subcommands, mode, SubCommand(opts, h));
      selected := None;
      self := this;
    }

    /** `subcommandMenu(sep)`: the registered names in key order, `sep`
        between neighbours. */
    method SubcommandMenu(sep: string := MenuSeparator) returns (menu: string)
      ensures menu == Menu(subcommands, sep)
    {
      menu := "";
      var first := true;
      var names := subcommands.Keys;
      var remaining := names;
      ghost var visited: seq<string> := [];
      while remaining != {}
        invariant remaining <= names
        invariant SortedKeys(names) == visited + SortedKeys(remaining)
        invariant first <==> visited == []
        invariant menu == JoinWith(visited, sep)
        decreases remaining
      {
        LeastExists(remaining);
        var name :| IsLeast(name, remaining);
        EnumerationStep(names, remaining, visited, name);
        JoinWithSnoc(visited, name, sep);
        menu := menu + (if first then "" else sep) + name;
        first := false;
        visited := visited + [name];
        remaining := remaining - {name};
      }
      assert visited + SortedKeys(remaining) == visited;
    }

    /** `printOpts`: the usage text, built from the current state. */
    method PrintOpts(describe: Schema -> string) returns (text: string)
      requires selected.Some? ==> selected.value in subcommands
      ensures text == Usage(Current(), selected, describe)
    {
      var menu := SubcommandMenu();
      text := describe(commonOpts) + "  [" + menu + "]\n" + "  <subcommand_args> ...\n" + "\n";
      if selected.Some? {
        text := text + describe(subcommands[selected.value].opts) + "\n";
      }
    }

    /** `finalizeCommon(add_help = true)`: the help option (if asked for) and
        the two hidden options are appended. */
    method FinalizeCommon(addHelp: bool := true)
      modifies this`commonOpts, this`hiddenOpts, this`optsFinalized
      ensures optsFinalized
      ensures commonOpts == old(commonOpts).(options := old(commonOpts).options + (if addHelp then [HelpOption] else []))
      ensures hiddenOpts == old(hiddenOpts).(options := old(hiddenOpts).options
                              + HiddenOptions(subcommandParam, argsParam, Menu(subcommands, MenuSeparator)))
    {
      if addHelp {
        commonOpts := commonOpts.(options := commonOpts.options + [HelpOption]);
      }
      var menu := SubcommandMenu();
      hiddenOpts := hiddenOpts.(options := hiddenOpts.options + HiddenOptions(subcommandParam, argsParam, menu));
      optsFinalized := true;
    }

    /** `handleSub`: let the handler prepare the mode's parser, run what it
        returns, store the values and let the handler ingest them. */
    method HandleSub(mode: string, cmd: SubCommand, args: seq<string>, varmap: VarMap, engine: Engine)
      returns (r: Hook<VarMap>)
      requires cmd.handler.Some?
      modifies this`trace
      ensures var p := SubPass(mode, cmd, args, varmap, engine);
              r == p.result && trace == old(trace) + p.events
    {
      var handler := cmd.handler.value;
      var parser := CommandLine(args, cmd.opts, [], false);
      trace := trace + [Prepare(mode, parser)];
      var prepared := handler.prepare(parser);
      if prepared.Throws? {
        return Throws(prepared.error);
      }
      var ran := engine.run(prepared.value);
      if ran.Err? {
        return Throws(OptionsError(ran.message));
      }
      var stored := Store(varmap, ran.value.values, engine.keep);
      trace := trace + [Ingest(mode, stored)];
      var ingested := handler.ingest(stored);
      if ingested.Some? {
        return Throws(ingested.value);
      }
      r := Returns(stored);
    }

    /** `parse(progname, parser)`. The common options are finalized on the
        first call only; the selection is cleared before anything else;
        the rest is `Dispatch`. */
    method Parse(progname: string, parser: CommandLine, engine: Engine) returns (outcome: Outcome)
      requires Valid()
      modifies this`commonOpts, this`hiddenOpts, this`optsFinalized, this`selected, this`trace
      ensures Valid() && optsFinalized
      ensures old(optsFinalized) ==> unchanged(this`commonOpts, this`hiddenOpts)
      ensures !old(optsFinalized) ==> commonOpts.options == old(commonOpts).options + [HelpOption]
      ensures !old(optsFinalized) ==> hiddenOpts.options == HiddenOptions(subcommandParam, argsParam, Menu(subcommands, MenuSeparator))
      ensures var st := Dispatch(Current(), progname, parser, engine);
              outcome == st.outcome && selected == st.selected && trace == old(trace) + st.events
    {
      if !optsFinalized {
        FinalizeCommon();
      }
      selected := None;
      outcome := ParseFinal(progname, parser, engine);
    }

    /** `parse` once the options are final and nothing is selected: the
        common pass, its error path, and the rest. */
    method ParseFinal(progname: string, parser: CommandLine, engine: Engine) returns (outcome: Outcome)
      requires HandlersBound(subcommands) && selected.None?
      modifies this`selected, this`trace
      ensures selected.Some? ==> selected.value in subcommands
      ensures var st := Dispatch(Current(), progname, parser, engine);
              outcome == st.outcome && selected == st.selected && trace == old(trace) + st.events
    {
      var merged := Schema("", commonOpts.options + hiddenOpts.options);
      var podesc := [Slot(subcommandParam, 1), Slot(argsParam, -1)];
      var common := engine.run(parser.(schema := merged, positional := podesc, allowUnregistered := true));
      assert common == engine.run(CommonParser(Current(), parser));
      if common.Err? {
        var usage := PrintOpts(engine.describe);
        return Failed(ErrorText(progname, common.message, usage));
      }
      outcome := Resolve(progname, common.value, engine);
    }

    /** The part of `parse` after a successful common pass: the values are
        stored, the mode name is looked up, and the help short-cut, the
        unknown-mode error or the mode's own pass follows. */
    method Resolve(progname: string, parsedOpts: ParsedOptions, engine: Engine) returns (outcome: Outcome)
      requires HandlersBound(subcommands) && selected.None?
      modifies this`selected, this`trace
      ensures selected.Some? ==> selected.value in subcommands
      ensures var st := AfterCommon(Current(), progname, parsedOpts, engine);
              outcome == st.outcome && selected == st.selected && trace == old(trace) + st.events
    {
      var varmap := Store(map[], parsedOpts.values, engine.keep);
      var printHelp := HelpKey in varmap;
      var name := AsText(varmap, subcommandParam);
      if name.Some? {
        selected := Selection(subcommands, name);
        varmap := varmap - {argsParam};
      }
      assert selected == Selection(subcommands, name);
      if printHelp || selected.None? {
        outcome := Stop(progname, printHelp, name, engine.describe);
      } else {
        outcome := RunMode(progname, selected.value, DropLeading(parsedOpts.unrecognized), varmap, engine);
      }
    }

    /** The help short-cut and the unknown-mode error: `printOpts` to stdout,
        or the message and `printOpts` to stderr. */
    method Stop(progname: string, help: bool, name: Option<string>, describe: Schema -> string)
      returns (outcome: Outcome)
      requires selected == Selection(subcommands, name) && (help || selected.None?)
      ensures outcome == EarlyExit(Current(), progname, help, name, describe)
    {
      var usage := PrintOpts(describe);
      if help {
        return Help(usage);
      }
      var subcommand := if name.Some? then name.value else "";
      var menu := SubcommandMenu(", ");
      outcome := Failed(ErrorText(progname, UnknownMessage(subcommandParam, subcommand, menu), usage));
    }

    /** `handleSub` for the selected mode, then the error path or `notify`. */
    method RunMode(progname: string, mode: string, subArgs: seq<string>, varmap: VarMap, engine: Engine)
      returns (outcome: Outcome)
      requires HandlersBound(subcommands) && selected == Some(mode) && mode in subcommands
      modifies this`trace
      ensures var st := ModePass(Current(), progname, mode, subArgs, varmap, engine);
              outcome == st.outcome && trace == old(trace) + st.events
    {
      var handled := HandleSub(mode, subcommands[mode], subArgs, varmap, engine);
      if handled.Throws? {
        if handled.error.OtherError? {
          return Uncaught(handled.error.message);
        }
        var usage := PrintOpts(engine.describe);
        return Failed(ErrorText(progname, handled.error.message, usage));
      }
      var notified := engine.notify(handled.value);
      if notified.Some? {
        return Uncaught(notified.value);
      }
      outcome := Parsed(handled.value);
    }

    /** `run_subcommand(varmap)`: the selected handler's status, or the
        validation error when nothing is selected or the handler is null. */
    method RunSubcommand(varmap: VarMap) returns (r: RunResult)
      requires Valid()
      modifies this`trace
      ensures selected.None? ==> r == InvalidOption("nullptr", subcommandParam) && trace == old(trace)
      ensures selected.Some? ==>
                r == Status(subcommands[selected.value].handler.value.run(varmap))
                && trace == old(trace) + [Run(selected.value, varmap)]
    {
      if selected.None? || subcommands[selected.value].handler.None? {
        return InvalidOption("nullptr", subcommandParam);
      }
      var mode := selected.value;
      trace := trace + [Run(mode, varmap)];
      r := Status(subcommands[mode].handler.value.run(varmap));
    }
  }
}
