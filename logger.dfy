/** The log-level parser of the logger set-up. */
module Logger {
  import opened Text

  /** `log::LevelFilter`. */
  datatype LevelFilter = Off | Error | Warn | Info | Debug | Trace

  /** The lower-case names the parser recognises. */
  const LevelNames: set<string> := {"error", "warn", "info", "debug", "trace"}

  /** The lower-case name of each level the parser can produce. */
  function LevelName(l: LevelFilter): string
  {
    match l
    case Off => "off"
    case Error => "error"
    case Warn => "warn"
    case Info => "info"
    case Debug => "debug"
    case Trace => "trace"
  }

  /**
    `parse_log_level`: a recognised name, in any letter case, gives the level
    of that name; anything else falls back to Info. Off is never produced.
  */
  function ParseLogLevel(level: string): (r: LevelFilter)
    ensures r != Off
    ensures ToLower(level) in LevelNames ==> LevelName(r) == ToLower(level)
    ensures ToLower(level) !in LevelNames ==> r == Info
  {
    var l := ToLower(level);
    if l == "error" then Error
    else if l == "warn" then Warn
    else if l == "info" then Info
    else if l == "debug" then Debug
    else if l == "trace" then Trace
    else Info
  }

  /** The parser ignores letter case: a string and its lower-cased form give the same level. */
  lemma ParseIgnoresCase(level: string)
    ensures ParseLogLevel(ToLower(level)) == ParseLogLevel(level)
  {
    ToLowerIdempotent(level);
  }

  /** Each level the parser produces is recovered from its own name. */
  lemma ParseLevelName(l: LevelFilter)
    requires l != Off
    ensures ParseLogLevel(LevelName(l)) == l
  {
  }

  /** The cases the Rust test of `parse_log_level` exercises: each name gives its level. */
  lemma ParseExamples()
    ensures ParseLogLevel("error") == Error && ParseLogLevel("warn") == Warn
    ensures ParseLogLevel("info") == Info && ParseLogLevel("debug") == Debug
    ensures ParseLogLevel("trace") == Trace
  {
    ParseLevelName(Error);
    ParseLevelName(Warn);
    ParseLevelName(Info);
    ParseLevelName(Debug);
    ParseLevelName(Trace);
  }

  /** Upper case is accepted. */
  lemma ParseUpperCase()
    ensures ParseLogLevel("ERROR") == Error
  {
    var u := ToLower("ERROR");
    assert u[0] == 'e' && u[1] == 'r' && u[2] == 'r' && u[3] == 'o' && u[4] == 'r';
    assert u == "error";
  }

  /** An unknown name falls back to Info. */
  lemma ParseUnknownFallsBack()
    ensures ParseLogLevel("invalid") == Info
  {
    LowerFixed("invalid");
  }
}
