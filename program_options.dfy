/** The part of Boost.Program_options the dispatcher leans on, kept opaque.
    Tokenising, `--flag value` syntax, type coercion and positional binding
    belong to the library; the dispatcher only decides which parser it runs
    with which schema, and what it does with the results. The library is
    therefore an `Engine`: a bundle of functions the caller supplies. */
module ProgramOptions {

  datatype Option<T> = None | Some(value: T)

  /** A library call that either yields a value or throws
      `boost::program_options::error` with a message. */
  datatype Result<T> = Ok(value: T) | Err(message: string)

  /** A stored option value. The dispatcher only ever asks whether a value
      is a `std::string`; every other typed value is opaque to it. */
  datatype Value = Text(text: string) | TextList(items: seq<string>) | Other(shown: string)

  /** A `variable_value`: the value, and whether it was only defaulted (the
      option's default applied because the option was not given). */
  datatype Stored = Stored(value: Value, defaulted: bool)

  /** A `variables_map`: option name to stored value. */
  type VarMap = map<string, Stored>

  /** One entry of an `options_description`: its name ("help,h"), its
      description, and its default value if it has one. */
  datatype OptionSpec = OptionSpec(name: string, description: string, defaultValue: Option<Value>)

  /** An `options_description`: a caption and the options added to it, in order. */
  datatype Schema = Schema(caption: string, options: seq<OptionSpec>)

  /** One `positional_options_description::add(name, max_count)` call;
      a count of -1 takes every remaining positional token. */
  datatype Slot = Slot(name: string, maxCount: int)

  /** A `command_line_parser` that has not been run: its tokens, the schema
      set by `options()`, the slots set by `positional()` and whether
      `allow_unregistered()` was called. */
  datatype CommandLine = CommandLine(args: seq<string>, schema: Schema, positional: seq<Slot>, allowUnregistered: bool)

  /** What running a parser yields: the values `store` puts into an empty
      map, and what `collect_unrecognized(..., include_positional)` returns. */
  datatype ParsedOptions = ParsedOptions(values: VarMap, unrecognized: seq<string>)

  /** The library, seen from outside.
      - `run`: `command_line_parser::run` followed by `store` into an empty
        map; `Err` when either throws (a grammar error from the run, a
        type-coercion error from the store);
      - `keep`: which value `store` keeps when a key is already present;
        `DefaultsYield` states the part of the library's rule that depends
        on whether the values were defaulted, the rest depends on the option;
      - `notify`: `notify(varmap)`; `Some(message)` when it throws;
      - `describe`: the text `operator<<` writes for an `options_description`. */
  datatype Engine = Engine(
    run: CommandLine -> Result<ParsedOptions>,
    keep: (string, Stored, Stored) -> Stored,
    notify: VarMap -> Option<string>,
    describe: Schema -> string)

  /** A parser over `args` with an empty schema, as `command_line_parser(args)`. */
  function Parser(args: seq<string>): CommandLine {
    CommandLine(args, Schema("", []), [], false)
  }

  /** `store(parsed, vm)`: every key of either map ends up in the result;
      keys only one side has keep that side's value. */
  function Store(vm: VarMap, parsed: VarMap, keep: (string, Stored, Stored) -> Stored): (r: VarMap)
    ensures r.Keys == vm.Keys + parsed.Keys
    ensures forall k :: k in parsed && k !in vm ==> r[k] == parsed[k]
    ensures forall k :: k in vm && k !in parsed ==> r[k] == vm[k]
  {
    map k | k in vm.Keys + parsed.Keys ::
      if k in vm && k in parsed then keep(k, vm[k], parsed[k])
      else if k in parsed then parsed[k]
      else vm[k]
  }

  /** The collision rule of `store` as far as it depends on provenance: a
      value given explicitly replaces one that was only defaulted, and a
      default never replaces a value already present (defaults are applied
      to missing keys only). Between two explicit values the option decides:
      the first stays unless the option composes. */
  ghost predicate DefaultsYield(keep: (string, Stored, Stored) -> Stored) {
    && (forall k: string, was: Stored, given: Stored :: was.defaulted && !given.defaulted ==> keep(k, was, given) == given)
    && (forall k: string, was: Stored, given: Stored :: given.defaulted ==> keep(k, was, given) == was)
  }

  /** Under that rule, storing over a map: an explicit value wins over a
      default on either side, whichever pass produced it. */
  lemma StoreRespectsDefaults(vm: VarMap, parsed: VarMap, keep: (string, Stored, Stored) -> Stored, k: string)
    requires DefaultsYield(keep)
    requires k in vm && k in parsed
    ensures vm[k].defaulted && !parsed[k].defaulted ==> Store(vm, parsed, keep)[k] == parsed[k]
    ensures parsed[k].defaulted ==> Store(vm, parsed, keep)[k] == vm[k]
  {
  }

  /** `vm[key].as<std::string>()`: the text stored under `key`, or `None`
      where the cast throws `boost::bad_any_cast` (an absent key reads as an
      empty value, which no cast accepts). */
  function AsText(vm: VarMap, key: string): (r: Option<string>)
    ensures r.Some? <==> key in vm && vm[key].value.Text?
    ensures r.Some? ==> vm[key].value == Text(r.value)
  {
    if key in vm && vm[key].value.Text? then Some(vm[key].value.text) else None
  }
}
