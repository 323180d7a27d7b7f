/** The parsed command line or configuration file, reduced to what the core
    reads from it: for every option name the values it was given, already
    converted to the type the reader asks for. */
module Options {
  datatype Args = Args(
    reals: map<string, seq<real>>,   // options read as doubles (one or several values)
    counts: map<string, nat>,        // options read as `unsigned`
    words: map<string, string>,      // options read as strings
    switches: map<string, bool>)     // options read as booleans

  /** Whether a numeric option was given at all. */
  predicate CheckArg(a: Args, name: string)
  {
    name in a.reals
  }

  /** All values of a numeric option, empty when it was not given. */
  function ArgList(a: Args, name: string): seq<real>
  {
    if name in a.reals then a.reals[name] else []
  }

  /** A single-valued double option, or `default` when it was not given. */
  function ArgOpt(a: Args, name: string, default: real): real
  {
    if name in a.reals && |a.reals[name]| > 0 then a.reals[name][0] else default
  }

  function ArgOptCount(a: Args, name: string, default: nat): nat
  {
    if name in a.counts then a.counts[name] else default
  }

  function ArgOptWord(a: Args, name: string, default: string): string
  {
    if name in a.words then a.words[name] else default
  }

  function ArgOptSwitch(a: Args, name: string, default: bool): bool
  {
    if name in a.switches then a.switches[name] else default
  }
}
