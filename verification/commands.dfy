/** The closed enumerations of the command line: the three commands and the
    download strategies (plus the SKIP pseudo-strategy), with the validation
    that argparse's `choices` performs on the raw argument strings. */
module Commands {

  datatype Option<+T> = None | Some(value: T)

  /** The command chosen once per run. */
  datatype Command = Init | Refresh | Download

  /** The download strategy selector; `Skip` means "do not download at all". */
  datatype Strategy = Api | Http | Skip

  /** The string constants of class `Commands`. */
  function Name(c: Command): (r: string)
    ensures r == "init" <==> c == Init
    ensures r == "refresh" <==> c == Refresh
    ensures r == "download" <==> c == Download
  {
    match c
    case Init => "init"
    case Refresh => "refresh"
    case Download => "download"
  }

  /** `Commands.commands()`: every command name, each once, in declaration order. */
  function CommandNames(): (r: seq<string>)
    ensures |r| == 3
    ensures r[0] == Name(Init) && r[1] == Name(Refresh) && r[2] == Name(Download)
    ensures forall c: Command :: Name(c) in r
    ensures forall i, j :: 0 <= i < j < |r| ==> r[i] != r[j]
  {
    ["init", "refresh", "download"]
  }

  /** argparse's `choices` check on the positional command: any other string is a
      usage error, reported before anything else runs. */
  function ParseCommand(s: string): (r: Option<Command>)
    ensures r.Some? <==> s in CommandNames()
    ensures r.Some? ==> Name(r.value) == s
  {
    if s == "init" then Some(Init)
    else if s == "refresh" then Some(Refresh)
    else if s == "download" then Some(Download)
    else None
  }

  /** The names accepted by `--strategy`: the registered download strategies and "SKIP". */
  function StrategyName(s: Strategy): (r: string)
    ensures r == "API" <==> s == Api
    ensures r == "HTTP" <==> s == Http
    ensures r == "SKIP" <==> s == Skip
  {
    match s
    case Api => "API"
    case Http => "HTTP"
    case Skip => "SKIP"
  }

  /** argparse's handling of `--strategy`: absent means the default "HTTP"; a value
      outside the choices is a usage error. */
  function ParseStrategy(arg: Option<string>): (r: Option<Strategy>)
    ensures arg.None? ==> r == Some(Http)
    ensures arg.Some? ==> (r.Some? <==> arg.value in ["API", "HTTP", "SKIP"])
    ensures arg.Some? && r.Some? ==> StrategyName(r.value) == arg.value
  {
    match arg
    case None => Some(Http)
    case Some(s) =>
      if s == "API" then Some(Api)
      else if s == "HTTP" then Some(Http)
      else if s == "SKIP" then Some(Skip)
      else None
  }

  /** Parsing a command's own name gives that command back. */
  lemma ParseCommandName(c: Command)
    ensures ParseCommand(Name(c)) == Some(c)
  {
  }

  /** Parsing a strategy's own name gives that strategy back. */
  lemma ParseStrategyName(s: Strategy)
    ensures ParseStrategy(Some(StrategyName(s))) == Some(s)
  {
  }
}
