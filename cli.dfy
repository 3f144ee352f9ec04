/** The command-line entry point: the version short cut, the packaged defaults
    for the processed license list and the n-gram keyword file, the call to the
    runner, and the normalisation of every agent's output into one record list
    wrapped with the input file's absolute path. */
module Cli {
  import opened Wrappers
  import opened Agents
  import opened Runner

  const VERSION := "0.0.11"
  /** `print("atarashi ", __version__)` separates its two arguments by a space. */
  const VERSION_BANNER := "atarashi " + " " + VERSION

  const PACKAGE := "atarashi"
  const PROCESSED_LICENSES := "data/licenses/processedLicenses.csv"
  const NGRAM_KEYWORDS := "data/Ngram_keywords.json"

  /** The process environment the entry point consults: the package resource
      lookup and path canonicalisation. */
  datatype Environment = Environment(resourceFilename: (string, string) -> string,
                                     abspath: string -> string)

  function DefaultProcessed(env: Environment): string
  {
    env.resourceFilename(PACKAGE, PROCESSED_LICENSES)
  }

  function DefaultJson(env: Environment): string
  {
    env.resourceFilename(PACKAGE, NGRAM_KEYWORDS)
  }

  /** The parsed command line; a `None` path is an option left out. */
  datatype Args = Args(inputFile: string, processedLicense: Option<string>, agentName: string,
                       similarity: string, ngramJson: Option<string>, verbose: bool, version: bool)

  /** A missing path becomes the packaged default; a given one is kept. */
  function ResolvePath(given: Option<string>, default: string): (r: string)
    ensures given == None ==> r == default
    ensures given != None ==> r == given.value
  {
    match given
    case None => default
    case Some(p) => p
  }

  /** The fixed sim_type tag of the two scalar agents' records. */
  function ScalarSimType(k: AgentKind): string
    requires IsScalarAgent(k)
  {
    if k == WordFrequency then "wordFrequencySimilarity" else "dld"
  }

  /** Result normalisation: a scalar agent's single value becomes exactly one
      record (also when the value is empty); a ranked list passes through. */
  function Normalize(k: AgentKind, raw: RawResult): (r: seq<MatchRecord>)
    requires ShapeFits(k, raw)
    ensures IsScalarAgent(k) ==>
              && |r| == 1
              && r[0].shortname == raw.value
              && r[0].simScore == 1.0
              && r[0].simType == ScalarSimType(k)
              && r[0].description == ""
    ensures !IsScalarAgent(k) ==> r == raw.records
  {
    match raw
    case Scalar(v) => [MatchRecord(v, 1.0, ScalarSimType(k), "")]
    case Ranked(records) => records
  }

  /** The object printed by the entry point: the file and its results. */
  datatype Report = Report(file: string, results: seq<MatchRecord>)

  /** Why the entry point stops without a report: an unknown agent leaves the
      runner without a scanner; a rejected similarity makes the runner return
      `-1`, which the entry point cannot turn into a list. */
  datatype MainError = UnknownAgent | RejectedSimilarity(hint: string)

  datatype MainOutcome = VersionShown(banner: string) | Printed(report: Report) | Failed(error: MainError)

  /** The entry point's outcome as a function of the command line. */
  function MainSpec(args: Args, env: Environment, engine: Engine): (r: MainOutcome)
    ensures args.version ==> r == VersionShown(VERSION_BANNER)
    ensures r == Failed(UnknownAgent) <==> !args.version && ParseAgent(args.agentName) == None
    ensures r.Failed? && r.error.RejectedSimilarity? ==> args.agentName == "tfidf" || args.agentName == "Ngram"
    ensures (r.Failed? && r.error.RejectedSimilarity?) <==>
              !args.version && ParseAgent(args.agentName).Some?
              && SelectAlgo(ParseAgent(args.agentName).value, args.similarity) == None
    ensures r.Printed? ==> !args.version && ParseAgent(args.agentName).Some? && r.report.file == env.abspath(args.inputFile)
    ensures r.Printed? && IsScalarAgent(ParseAgent(args.agentName).value) ==> |r.report.results| == 1
    ensures r.Printed? && !IsScalarAgent(ParseAgent(args.agentName).value) ==>
              && SelectAlgo(ParseAgent(args.agentName).value, args.similarity).Some?
              && r.report.results
                 == engine.ranking(SelectedConfig(ParseAgent(args.agentName).value,
                                                  SelectAlgo(ParseAgent(args.agentName).value, args.similarity).value,
                                                  ResolvePath(args.processedLicense, DefaultProcessed(env)),
                                                  Some(ResolvePath(args.ngramJson, DefaultJson(env)))),
                                   args.inputFile)
  {
    if args.version then VersionShown(VERSION_BANNER)
    else
      var corpus := ResolvePath(args.processedLicense, DefaultProcessed(env));
      var ngramJson := ResolvePath(args.ngramJson, DefaultJson(env));
      match RunSpec(args.inputFile, corpus, args.agentName, args.similarity, Some(ngramJson), engine)
      case NoScanner => Failed(UnknownAgent)
      case SimilarityRejected(hint) => Failed(RejectedSimilarity(hint))
      case Scanned(raw) => Printed(Report(env.abspath(args.inputFile), Normalize(ParseAgent(args.agentName).value, raw)))
  }

  /** The calls the entry point causes on an agent object. */
  function MainTrace(args: Args): seq<Call>
  {
    if args.version then []
    else
      match ParseAgent(args.agentName)
      case None => []
      case Some(k) => RunTrace(k, args.similarity, args.verbose, args.inputFile)
  }

  method MainEntry(args: Args, env: Environment, engine: Engine) returns (outcome: MainOutcome, ghost calls: seq<Call>)
    ensures outcome == MainSpec(args, env, engine)
    ensures calls == MainTrace(args)
  {
    var defaultProcessed := env.resourceFilename(PACKAGE, PROCESSED_LICENSES);
    var defaultJson := env.resourceFilename(PACKAGE, NGRAM_KEYWORDS);

    if args.version {
      outcome, calls := VersionShown(VERSION_BANNER), [];
      return;
    }
    var processedLicense := args.processedLicense;
    if processedLicense == None {
      processedLicense := Some(defaultProcessed);
    }
    var ngramJson := args.ngramJson;
    if ngramJson == None {
      ngramJson := Some(defaultJson);
    }

    var result, scanner := AtarashiiRunner(args.inputFile, processedLicense.value, args.agentName,
                                           args.similarity, ngramJson, args.verbose, engine);
    calls := if scanner == null then [] else scanner.history;
    if result.NoScanner? {
      outcome := Failed(UnknownAgent);
      return;
    }

    var records: seq<MatchRecord>;
    if args.agentName == "wordFrequencySimilarity" {
      records := [MatchRecord(result.raw.value, 1.0, "wordFrequencySimilarity", "")];
    } else if args.agentName == "DLD" {
      records := [MatchRecord(result.raw.value, 1.0, "dld", "")];
    } else if result.SimilarityRejected? {
      outcome := Failed(RejectedSimilarity(result.hint));
      return;
    } else {
      records := result.raw.records;
    }
    outcome := Printed(Report(env.abspath(args.inputFile), records));
  }

  /** The version flag answers before any default is substituted, any selection or any scan. */
  lemma VersionShortCircuits(args: Args, env: Environment, engine: Engine)
    requires args.version
    ensures MainSpec(args, env, engine) == VersionShown(VERSION_BANNER)
    ensures MainTrace(args) == []
  {
  }

  /** Leaving out the processed license list is the same as naming the packaged one. */
  lemma OmittedCorpusIsPackagedDefault(args: Args, env: Environment, engine: Engine)
    ensures MainSpec(args.(processedLicense := None), env, engine)
         == MainSpec(args.(processedLicense := Some(DefaultProcessed(env))), env, engine)
  {
  }

  /** Leaving out the n-gram keyword file is the same as naming the packaged one. */
  lemma OmittedNgramJsonIsPackagedDefault(args: Args, env: Environment, engine: Engine)
    ensures MainSpec(args.(ngramJson := None), env, engine)
         == MainSpec(args.(ngramJson := Some(DefaultJson(env))), env, engine)
  {
  }

  /** Only the Ngram agent is affected by the n-gram keyword file. */
  lemma NgramJsonOnlyReachesNgram(args: Args, env: Environment, engine: Engine, j1: Option<string>, j2: Option<string>)
    requires args.agentName != "Ngram"
    ensures MainSpec(args.(ngramJson := j1), env, engine) == MainSpec(args.(ngramJson := j2), env, engine)
  {
  }

  /** A scalar agent's report holds exactly one record: its scan's value, score 1,
      the agent's tag and an empty description, whatever the value is. */
  lemma ScalarAgentReport(args: Args, env: Environment, engine: Engine, k: AgentKind)
    requires !args.version && IsScalarAgent(k) && args.agentName == AgentName(k)
    ensures var config := ScanConfig(k, ResolvePath(args.processedLicense, DefaultProcessed(env)), None, AgentDefault);
            MainSpec(args, env, engine)
            == Printed(Report(env.abspath(args.inputFile),
                              [MatchRecord(engine.bestMatch(config, args.inputFile), 1.0, ScalarSimType(k), "")]))
  {
  }

  /** A tfidf or Ngram report lists the agent's ranking unchanged, in order. */
  lemma RankedAgentReport(args: Args, env: Environment, engine: Engine, k: AgentKind)
    requires !args.version && !IsScalarAgent(k) && args.agentName == AgentName(k)
    requires SelectAlgo(k, args.similarity).Some?
    ensures var config := SelectedConfig(k, SelectAlgo(k, args.similarity).value,
                                         ResolvePath(args.processedLicense, DefaultProcessed(env)),
                                         Some(ResolvePath(args.ngramJson, DefaultJson(env))));
            MainSpec(args, env, engine)
            == Printed(Report(env.abspath(args.inputFile), engine.ranking(config, args.inputFile)))
  {
  }

  /** An illegal similarity for tfidf or Ngram ends without a report and without a scan. */
  lemma RejectedSimilarityFails(args: Args, env: Environment, engine: Engine, k: AgentKind)
    requires !args.version && args.agentName == AgentName(k)
    requires SelectAlgo(k, args.similarity) == None
    ensures MainSpec(args, env, engine) == Failed(RejectedSimilarity(RejectionHint(k)))
    ensures MainTrace(args) == []
  {
  }

  /** Every run that does not stop at the version flag or an error scans the
      input file exactly once. */
  lemma PrintedRunScansOnce(args: Args, env: Environment, engine: Engine)
    requires MainSpec(args, env, engine).Printed?
    ensures ScanCount(MainTrace(args)) == 1
    ensures MainTrace(args)[|MainTrace(args)| - 1] == ScanCall(args.inputFile)
  {
    var k := ParseAgent(args.agentName).value;
    SelectedRunProtocol(k, args.similarity, args.verbose, args.inputFile);
  }
}
