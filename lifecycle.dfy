/** What one `parse` promises, stated over `Dispatch`, the function the
    `BpoModes.Parse` method is proved to follow: the help short-cut, the
    unknown-mode error, the order of the handler's hooks, the keys of a
    successful result, and where the usage text goes. */
module Lifecycle {
  import opened ProgramOptions
  import opened Modes

  /** The values of the common pass as `parse` stores them. */
  function CommonValues(found: ParsedOptions, engine: Engine): VarMap {
    Store(map[], found.values, engine.keep)
  }

  /** The mode name the common pass produced, if it is text. */
  function CommonName(s: Setup, found: ParsedOptions, engine: Engine): Option<string> {
    AsText(CommonValues(found, engine), s.subcommandParam)
  }

  predicate EndsWith(text: string, suffix: string) {
    |suffix| <= |text| && text[|text| - |suffix|..] == suffix
  }

  /** With the help flag the name check is skipped and no hook runs: the
      usage (with the named mode's options when the name is registered) goes
      to stdout and the exit status is 0. */
  lemma HelpShortCircuits(s: Setup, progname: string, parser: CommandLine, engine: Engine, found: ParsedOptions)
    requires HandlersBound(s.subcommands)
    requires engine.run(CommonParser(s, parser)) == Ok(found)
    requires HelpKey in found.values
    ensures var st := Dispatch(s, progname, parser, engine);
            && st.selected == Selection(s.subcommands, CommonName(s, found, engine))
            && st.outcome == Help(Usage(s, st.selected, engine.describe))
            && st.events == []
            && ExitCode(st.outcome) == Some(0)
  {
    assert HelpKey in CommonValues(found, engine);
  }

  /** Without the help flag, a name that is not registered (or a value that
      is not text) is an error: no hook runs, nothing is selected, the
      message names the parameter, the name and the menu joined by ", ",
      and the exit status is 1. */
  lemma UnknownModeFails(s: Setup, progname: string, parser: CommandLine, engine: Engine, found: ParsedOptions)
    requires HandlersBound(s.subcommands)
    requires engine.run(CommonParser(s, parser)) == Ok(found)
    requires HelpKey !in found.values
    requires Selection(s.subcommands, CommonName(s, found, engine)).None?
    ensures var st := Dispatch(s, progname, parser, engine);
            var name := CommonName(s, found, engine);
            var mode := if name.Some? then name.value else "";
            && st.outcome == Failed(ErrorText(progname,
                 UnknownMessage(s.subcommandParam, mode, Menu(s.subcommands, ", ")),
                 Usage(s, None, engine.describe)))
            && st.selected.None?
            && st.events == []
            && ExitCode(st.outcome) == Some(1)
  {
    assert HelpKey !in CommonValues(found, engine);
  }

  /** When no mode is named the common pass supplies the default name; it
      is refused like any other unless a mode is registered under it. */
  lemma DefaultNameRefused(s: Setup, progname: string, parser: CommandLine, engine: Engine, found: ParsedOptions)
    requires HandlersBound(s.subcommands)
    requires engine.run(CommonParser(s, parser)) == Ok(found)
    requires HelpKey !in found.values
    requires s.subcommandParam in found.values && found.values[s.subcommandParam].value == Text(DefaultMode)
    requires DefaultMode !in s.subcommands
    ensures var st := Dispatch(s, progname, parser, engine);
            && st.outcome == Failed(ErrorText(progname,
                 UnknownMessage(s.subcommandParam, DefaultMode, Menu(s.subcommands, ", ")),
                 Usage(s, None, engine.describe)))
            && st.events == []
  {
    assert CommonValues(found, engine)[s.subcommandParam].value == Text(DefaultMode);
    UnknownModeFails(s, progname, parser, engine, found);
  }

  /** A registered mode without the help flag: the handler prepares a parser
      over the collected tokens minus the first, the parser `prepare`
      returns is the one run, its values are stored over the common ones
      (the leftover-token key taken out), `ingest` sees exactly the stored
      values, and unless `ingest` throws, `notify` decides between success
      and an escaping error. */
  lemma SelectedModeRuns(s: Setup, progname: string, parser: CommandLine, engine: Engine,
                         found: ParsedOptions, mode: string, prepared: CommandLine, sub: ParsedOptions)
    requires HandlersBound(s.subcommands)
    requires engine.run(CommonParser(s, parser)) == Ok(found)
    requires HelpKey !in found.values
    requires CommonName(s, found, engine) == Some(mode) && mode in s.subcommands
    requires var given := CommandLine(DropLeading(found.unrecognized), s.subcommands[mode].opts, [], false);
             s.subcommands[mode].handler.value.prepare(given) == Returns(prepared)
    requires engine.run(prepared) == Ok(sub)
    ensures var given := CommandLine(DropLeading(found.unrecognized), s.subcommands[mode].opts, [], false);
            var result := Store(CommonValues(found, engine) - {s.argsParam}, sub.values, engine.keep);
            var st := Dispatch(s, progname, parser, engine);
            && st.selected == Some(mode)
            && st.events == [Prepare(mode, given), Ingest(mode, result)]
            && st.outcome == match s.subcommands[mode].handler.value.ingest(result)
                             case Some(e) => ModeError(s, progname, mode, e, engine.describe)
                             case None =>
                               if engine.notify(result).Some? then Uncaught(engine.notify(result).value)
                               else Parsed(result)
  {
    assert HelpKey !in CommonValues(found, engine);
  }

  /** The keys of a successful result: the common keys without the
      leftover-token key, and the keys of the mode's own pass. The
      leftover-token key is therefore present only when the mode's own
      options define it. */
  lemma ResultKeys(s: Setup, found: ParsedOptions, sub: ParsedOptions, engine: Engine)
    ensures var result := Store(CommonValues(found, engine) - {s.argsParam}, sub.values, engine.keep);
            && result.Keys == (found.values.Keys - {s.argsParam}) + sub.values.Keys
            && (s.argsParam in result <==> s.argsParam in sub.values)
  {
    assert CommonValues(found, engine).Keys == found.values.Keys;
  }

  /** Over every path of one `parse`: at most the two hooks `prepare` then
      `ingest` run, both for the selected mode, `run` never runs, and a
      successful result is exactly what `ingest` was given. */
  lemma HookOrder(s: Setup, progname: string, parser: CommandLine, engine: Engine)
    requires HandlersBound(s.subcommands)
    ensures var st := Dispatch(s, progname, parser, engine);
            && |st.events| <= 2
            && (forall i :: 0 <= i < |st.events| ==> !st.events[i].Run?)
            && (st.events != [] ==> st.selected.Some? && st.events[0] == Prepare(st.selected.value, st.events[0].given))
            && (|st.events| == 2 ==> st.events[1] == Ingest(st.selected.value, st.events[1].values))
            && (st.outcome.Parsed? ==> |st.events| == 2 && st.events[1].values == st.outcome.values)
  {
    match engine.run(CommonParser(s, parser))
    case Err(_) =>
    case Ok(found) =>
      var stored := Store(map[], found.values, engine.keep);
      var selected := Selection(s.subcommands, AsText(stored, s.subcommandParam));
      if HelpKey !in stored && selected.Some? {
        ModePassHooks(s, progname, selected.value, DropLeading(found.unrecognized), stored - {s.argsParam}, engine);
      }
  }

  lemma ModePassHooks(s: Setup, progname: string, mode: string, args: seq<string>, varmap: VarMap, engine: Engine)
    requires HandlersBound(s.subcommands) && mode in s.subcommands
    ensures var st := ModePass(s, progname, mode, args, varmap, engine);
            && 1 <= |st.events| <= 2
            && (forall i :: 0 <= i < |st.events| ==> !st.events[i].Run?)
            && st.events[0] == Prepare(mode, CommandLine(args, s.subcommands[mode].opts, [], false))
            && (|st.events| == 2 ==> st.events[1] == Ingest(mode, st.events[1].values))
            && (st.outcome.Parsed? ==> |st.events| == 2 && st.events[1].values == st.outcome.values)
  {
  }

  /** `progname: message`, a blank line, then the usage text. */
  lemma ErrorTextLayout(progname: string, message: string, usage: string)
    ensures (progname + ": ") <= ErrorText(progname, message, usage)
    ensures EndsWith(ErrorText(progname, message, usage), "\n\n" + usage)
  {
    var text := ErrorText(progname, message, usage);
    assert text == (progname + ": ") + message + ("\n\n" + usage);
    assert text[..|progname + ": "|] == progname + ": ";
  }

  /** Where the usage goes: after `progname: message` on stderr with status
      1 on an error, alone on stdout with status 0 for help. The usage shows
      the selected mode's options exactly when a mode is selected at that
      point. */
  ghost predicate UsageReported(s: Setup, progname: string, describe: Schema -> string, st: Step)
    requires st.selected.Some? ==> st.selected.value in s.subcommands
  {
    && (st.outcome.Failed? ==>
          && (progname + ": ") <= st.outcome.stderr
          && EndsWith(st.outcome.stderr, "\n\n" + Usage(s, st.selected, describe))
          && ExitCode(st.outcome) == Some(1))
    && (st.outcome.Help? ==>
          st.outcome.stdout == Usage(s, st.selected, describe) && ExitCode(st.outcome) == Some(0))
  }

  /** Every path of one `parse` reports the usage that way. */
  lemma UsageDestination(s: Setup, progname: string, parser: CommandLine, engine: Engine)
    requires HandlersBound(s.subcommands)
    ensures UsageReported(s, progname, engine.describe, Dispatch(s, progname, parser, engine))
  {
    match engine.run(CommonParser(s, parser))
    case Err(message) =>
      ErrorTextLayout(progname, message, Usage(s, None, engine.describe));
    case Ok(found) =>
      AfterCommonUsage(s, progname, found, engine);
  }

  lemma AfterCommonUsage(s: Setup, progname: string, found: ParsedOptions, engine: Engine)
    requires HandlersBound(s.subcommands)
    ensures UsageReported(s, progname, engine.describe, AfterCommon(s, progname, found, engine))
  {
    var stored := Store(map[], found.values, engine.keep);
    var name := AsText(stored, s.subcommandParam);
    var selected := Selection(s.subcommands, name);
    if HelpKey in stored {
    } else if selected.None? {
      var mode := if name.Some? then name.value else "";
      var message := UnknownMessage(s.subcommandParam, mode, Menu(s.subcommands, ", "));
      ErrorTextLayout(progname, message, Usage(s, None, engine.describe));
    } else {
      ModePassUsage(s, progname, selected.value, DropLeading(found.unrecognized), stored - {s.argsParam}, engine);
    }
  }

  lemma ModePassUsage(s: Setup, progname: string, mode: string, args: seq<string>, varmap: VarMap, engine: Engine)
    requires HandlersBound(s.subcommands) && mode in s.subcommands
    ensures UsageReported(s, progname, engine.describe, ModePass(s, progname, mode, args, varmap, engine))
  {
    var p := SubPass(mode, s.subcommands[mode], args, varmap, engine);
    if p.result.Throws? && p.result.error.OptionsError? {
      ErrorTextLayout(progname, p.result.error.message, Usage(s, Some(mode), engine.describe));
    }
  }

  /** A failing common pass (an option the grammar rejects, a value of the
      wrong type) is the error exit: no hook runs, nothing is selected, and
      the usage without mode options follows the message on stderr. */
  lemma CommonPassFails(s: Setup, progname: string, parser: CommandLine, engine: Engine, message: string)
    requires HandlersBound(s.subcommands)
    requires engine.run(CommonParser(s, parser)) == Err(message)
    ensures var st := Dispatch(s, progname, parser, engine);
            && st.outcome == Failed(ErrorText(progname, message, Usage(s, None, engine.describe)))
            && st.selected.None?
            && st.events == []
            && ExitCode(st.outcome) == Some(1)
  {
  }

  /** When the parser `prepare` returns fails to run (say, on an option the
      mode does not know), the pass ends with only `prepare` called and the
      error exit shows the mode's usage. */
  lemma ModeParserFails(s: Setup, progname: string, mode: string, args: seq<string>, varmap: VarMap,
                        engine: Engine, prepared: CommandLine, message: string)
    requires HandlersBound(s.subcommands) && mode in s.subcommands
    requires var given := CommandLine(args, s.subcommands[mode].opts, [], false);
             s.subcommands[mode].handler.value.prepare(given) == Returns(prepared)
    requires engine.run(prepared) == Err(message)
    ensures var given := CommandLine(args, s.subcommands[mode].opts, [], false);
            var st := ModePass(s, progname, mode, args, varmap, engine);
            && st.events == [Prepare(mode, given)]
            && st.selected == Some(mode)
            && st.outcome == Failed(ErrorText(progname, message, Usage(s, Some(mode), engine.describe)))
            && ExitCode(st.outcome) == Some(1)
  {
  }

  /** A throw from `prepare` ends the mode's pass before anything runs: a
      `boost::program_options::error` becomes the error exit with the mode's
      usage, any other exception escapes `parse`. */
  lemma PrepareThrows(s: Setup, progname: string, mode: string, args: seq<string>, varmap: VarMap,
                      engine: Engine, e: Raised)
    requires HandlersBound(s.subcommands) && mode in s.subcommands
    requires var given := CommandLine(args, s.subcommands[mode].opts, [], false);
             s.subcommands[mode].handler.value.prepare(given) == Throws(e)
    ensures var given := CommandLine(args, s.subcommands[mode].opts, [], false);
            var st := ModePass(s, progname, mode, args, varmap, engine);
            && st.events == [Prepare(mode, given)]
            && (e.OptionsError? ==> st.outcome == Failed(ErrorText(progname, e.message, Usage(s, Some(mode), engine.describe))))
            && (e.OtherError? ==> st.outcome == Uncaught(e.message))
  {
  }

  /** A throw from `ingest` comes after the values are stored, so `notify`
      is not reached: a `boost::program_options::error` becomes the error
      exit with the mode's usage, any other exception escapes `parse`. */
  lemma IngestThrows(s: Setup, progname: string, mode: string, args: seq<string>, varmap: VarMap,
                     engine: Engine, prepared: CommandLine, sub: ParsedOptions, e: Raised)
    requires HandlersBound(s.subcommands) && mode in s.subcommands
    requires var given := CommandLine(args, s.subcommands[mode].opts, [], false);
             s.subcommands[mode].handler.value.prepare(given) == Returns(prepared)
    requires engine.run(prepared) == Ok(sub)
    requires s.subcommands[mode].handler.value.ingest(Store(varmap, sub.values, engine.keep)) == Some(e)
    ensures var given := CommandLine(args, s.subcommands[mode].opts, [], false);
            var result := Store(varmap, sub.values, engine.keep);
            var st := ModePass(s, progname, mode, args, varmap, engine);
            && st.events == [Prepare(mode, given), Ingest(mode, result)]
            && (e.OptionsError? ==> st.outcome == Failed(ErrorText(progname, e.message, Usage(s, Some(mode), engine.describe))))
            && (e.OtherError? ==> st.outcome == Uncaught(e.message))
  {
  }

  /** The usage with a mode selected is the usage without one, followed by
      that mode's options and a line break. */
  lemma UsageWithSelection(s: Setup, mode: string, describe: Schema -> string)
    requires mode in s.subcommands
    ensures Usage(s, Some(mode), describe) == Usage(s, None, describe) + describe(s.subcommands[mode].opts) + "\n"
  {
    var head := describe(s.common) + "  [" + Menu(s.subcommands, MenuSeparator) + "]\n"
                + "  <subcommand_args> ...\n" + "\n";
    assert Usage(s, None, describe) == head + "";
    assert head + "" == head;
  }

  /** With the base handler the parser the mode's pass runs is the one built
      from the mode's options and the tokens, unchanged: the pass fails
      exactly when running that parser fails. */
  lemma DefaultHandlerRunsGivenParser(s: Setup, progname: string, mode: string, args: seq<string>,
                                      varmap: VarMap, engine: Engine)
    requires HandlersBound(s.subcommands) && mode in s.subcommands
    requires s.subcommands[mode].handler == Some(DefaultHandler())
    ensures var given := CommandLine(args, s.subcommands[mode].opts, [], false);
            var st := ModePass(s, progname, mode, args, varmap, engine);
            && (st.outcome.Failed? <==> engine.run(given).Err?)
            && (engine.run(given).Ok? ==>
                  st.events[1] == Ingest(mode, Store(varmap, engine.run(given).value.values, engine.keep)))
  {
    var given := CommandLine(args, s.subcommands[mode].opts, [], false);
    assert DefaultHandler().prepare(given) == Returns(given);
  }

  /** The engine of the default-mode example: the common pass reports the
      default name and collects no tokens; nothing else is said. */
  function DefaultOnlyEngine(subcommandParam: string): Engine {
    Engine(
      cl => Ok(ParsedOptions(map[subcommandParam := Stored(Text(DefaultMode), true)], [])),
      (key: string, kept: Stored, given: Stored) => if given.defaulted then kept else given,
      vm => None,
      sc => "")
  }

  /** A dispatcher with a single mode registered under the default name. */
  function DefaultOnlySetup(subcommandParam: string, argsParam: string): Setup {
    Setup(map[DefaultMode := SubCommand(Schema("", []), Some(DefaultHandler()))],
          Schema("", [HelpOption]), Schema("", HiddenOptions(subcommandParam, argsParam, DefaultMode)),
          subcommandParam, argsParam)
  }

  /** As written, `parse` erases the first collected token unconditionally.
      With a mode registered under the default name and an empty command
      line, the name check passes and the collected list is empty, so the
      erase is reached with nothing to erase: `EraseFirst` is not defined
      there. */
  lemma EraseFirstReachedOnEmpty(subcommandParam: string, argsParam: string)
    requires subcommandParam != HelpKey
    ensures var s := DefaultOnlySetup(subcommandParam, argsParam);
            var engine := DefaultOnlyEngine(subcommandParam);
            match engine.run(CommonParser(s, Parser([])))
            case Ok(found) =>
              && HelpKey !in CommonValues(found, engine)
              && Selection(s.subcommands, CommonName(s, found, engine)) == Some(DefaultMode)
              && !Erasable(found.unrecognized)
            case Err(_) => false
  {
    var engine := DefaultOnlyEngine(subcommandParam);
    var found := ParsedOptions(map[subcommandParam := Stored(Text(DefaultMode), true)], []);
    assert CommonValues(found, engine)[subcommandParam].value == Text(DefaultMode);
  }

  /** With the first token dropped only when there is one, the same call
      runs the default mode over no tokens and succeeds. */
  lemma DefaultModeWithNoTokens(subcommandParam: string, argsParam: string)
    requires subcommandParam != HelpKey
    ensures var s := DefaultOnlySetup(subcommandParam, argsParam);
            var engine := DefaultOnlyEngine(subcommandParam);
            var st := Dispatch(s, "prog", Parser([]), engine);
            && st.selected == Some(DefaultMode)
            && st.outcome.Parsed?
            && st.events[0] == Prepare(DefaultMode, CommandLine([], Schema("", []), [], false))
  {
    var s := DefaultOnlySetup(subcommandParam, argsParam);
    var engine := DefaultOnlyEngine(subcommandParam);
    var found := ParsedOptions(map[subcommandParam := Stored(Text(DefaultMode), true)], []);
    assert CommonValues(found, engine)[subcommandParam].value == Text(DefaultMode);
    SelectedModeRuns(s, "prog", Parser([]), engine, found, DefaultMode, CommandLine([], Schema("", []), [], false), found);
  }
}
