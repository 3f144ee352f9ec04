/** The four similarity agents as seen by the orchestration layer: their names on
    the command line, the sub-algorithms two of them accept, the records they
    produce, and a scanner object with the setSimAlgo / setVerbose / scan
    protocol. What an agent computes when it scans is not modelled: it is an
    `Engine` handed in from outside. */
module Agents {
  import opened Wrappers

  /** The agent kinds accepted by the runner. */
  datatype AgentKind = WordFrequency | Dld | Tfidf | Ngram

  /** The command-line name of each agent. */
  function AgentName(k: AgentKind): string
  {
    match k
    case WordFrequency => "wordFrequencySimilarity"
    case Dld => "DLD"
    case Tfidf => "tfidf"
    case Ngram => "Ngram"
  }

  /** Name lookup done by the runner's if/elif chain; None when no branch matches. */
  function ParseAgent(name: string): (r: Option<AgentKind>)
    ensures forall k :: r == Some(k) <==> name == AgentName(k)
    ensures r == None <==> name !in ["wordFrequencySimilarity", "DLD", "tfidf", "Ngram"]
  {
    if name == "wordFrequencySimilarity" then Some(WordFrequency)
    else if name == "DLD" then Some(Dld)
    else if name == "tfidf" then Some(Tfidf)
    else if name == "Ngram" then Some(Ngram)
    else None
  }

  /** The agents whose scan yields one best-guess value instead of a ranked list. */
  predicate IsScalarAgent(k: AgentKind)
  {
    k == WordFrequency || k == Dld
  }

  /** TFIDF.TfidfAlgo */
  datatype TfidfAlgo = CosineSim | ScoreSim

  /** NgramAgent.NgramAlgo */
  datatype NgramAlgo = CosineSim | DiceSim | BigramCosineSim

  /** The similarity name that selects each TF-IDF algorithm. */
  function TfidfAlgoName(a: TfidfAlgo): string
  {
    match a
    case CosineSim => "CosineSim"
    case ScoreSim => "ScoreSim"
  }

  /** The similarity name that selects each n-gram algorithm. */
  function NgramAlgoName(a: NgramAlgo): string
  {
    match a
    case CosineSim => "CosineSim"
    case DiceSim => "DiceSim"
    case BigramCosineSim => "BigramCosineSim"
  }

  const TFIDF_CHOICES: seq<string> := ["CosineSim", "ScoreSim"]
  const NGRAM_CHOICES: seq<string> := ["CosineSim", "DiceSim", "BigramCosineSim"]

  /** Hints printed when the similarity is not legal for the agent. */
  const TFIDF_HINT := "Please choose similarity from {CosineSim,ScoreSim}"
  const NGRAM_HINT := "Please choose similarity from {CosineSim,DiceSim,BigramCosineSim}"

  /** The tfidf branch of the runner's similarity check. */
  function ParseTfidfAlgo(similarity: string): (r: Option<TfidfAlgo>)
    ensures forall a :: r == Some(a) <==> similarity == TfidfAlgoName(a)
    ensures r.Some? <==> similarity in TFIDF_CHOICES
  {
    if similarity == "CosineSim" then Some(TfidfAlgo.CosineSim)
    else if similarity == "ScoreSim" then Some(TfidfAlgo.ScoreSim)
    else None
  }

  /** The Ngram branch of the runner's similarity check. */
  function ParseNgramAlgo(similarity: string): (r: Option<NgramAlgo>)
    ensures forall a :: r == Some(a) <==> similarity == NgramAlgoName(a)
    ensures r.Some? <==> similarity in NGRAM_CHOICES
  {
    if similarity == "CosineSim" then Some(NgramAlgo.CosineSim)
    else if similarity == "DiceSim" then Some(NgramAlgo.DiceSim)
    else if similarity == "BigramCosineSim" then Some(NgramAlgo.BigramCosineSim)
    else None
  }

  /** The sub-algorithm a scanner holds: the agent's own default until setSimAlgo
      is called, or one of the two enums. */
  datatype SimAlgo = AgentDefault | TfidfSim(tfidf: TfidfAlgo) | NgramSim(ngram: NgramAlgo)

  /** Only TFIDF takes a TfidfAlgo and only NgramAgent takes an NgramAlgo. */
  predicate Compatible(k: AgentKind, a: SimAlgo)
  {
    match a
    case AgentDefault => true
    case TfidfSim(_) => k == Tfidf
    case NgramSim(_) => k == Ngram
  }

  /** The sub-algorithm selection for an agent; None is the runner's `-1`. */
  function SelectAlgo(k: AgentKind, similarity: string): (r: Option<SimAlgo>)
    ensures r.Some? ==> Compatible(k, r.value)
    ensures IsScalarAgent(k) ==> r == Some(AgentDefault)
    ensures k == Tfidf ==> (r.Some? <==> similarity in TFIDF_CHOICES)
    ensures k == Tfidf ==> forall a :: r == Some(TfidfSim(a)) <==> similarity == TfidfAlgoName(a)
    ensures k == Ngram ==> (r.Some? <==> similarity in NGRAM_CHOICES)
    ensures k == Ngram ==> forall a :: r == Some(NgramSim(a)) <==> similarity == NgramAlgoName(a)
  {
    match k
    case WordFrequency => Some(AgentDefault)
    case Dld => Some(AgentDefault)
    case Tfidf =>
      (match ParseTfidfAlgo(similarity)
       case Some(a) => Some(TfidfSim(a))
       case None => None)
    case Ngram =>
      (match ParseNgramAlgo(similarity)
       case Some(a) => Some(NgramSim(a))
       case None => None)
  }

  /** The hint printed when SelectAlgo rejects the similarity. */
  function RejectionHint(k: AgentKind): string
  {
    if k == Ngram then NGRAM_HINT else TFIDF_HINT
  }

  /** One candidate match. */
  datatype MatchRecord = MatchRecord(shortname: string, simScore: real, simType: string, description: string)

  /** What an agent's scan returns: a single value for the scalar agents, an
      ordered list of records for the others. */
  datatype RawResult = Scalar(value: string) | Ranked(records: seq<MatchRecord>)

  predicate ShapeFits(k: AgentKind, raw: RawResult)
  {
    raw.Scalar? <==> IsScalarAgent(k)
  }

  /** Everything a constructed and configured agent knows when it scans. */
  datatype ScanConfig = ScanConfig(kind: AgentKind, corpus: string, ngramJson: Option<string>, simAlgo: SimAlgo)

  /** The agents' own scoring, outside this model: given a configuration and an
      input file, the best match of a scalar agent and the ranking of a list agent. */
  datatype Engine = Engine(bestMatch: (ScanConfig, string) -> string,
                           ranking: (ScanConfig, string) -> seq<MatchRecord>)

  /** The value an agent's scan of `file` returns. */
  function ScanResult(engine: Engine, config: ScanConfig, file: string): (r: RawResult)
    ensures ShapeFits(config.kind, r)
    ensures r.Scalar? ==> r.value == engine.bestMatch(config, file)
    ensures r.Ranked? ==> r.records == engine.ranking(config, file)
  {
    if IsScalarAgent(config.kind) then Scalar(engine.bestMatch(config, file))
    else Ranked(engine.ranking(config, file))
  }

  /** A call made on a scanner, recorded to state the calling protocol. */
  datatype Call = SetSimAlgoCall(algo: SimAlgo) | SetVerboseCall(verbose: bool) | ScanCall(file: string)

  /** Number of scans in a call history. */
  function ScanCount(calls: seq<Call>): nat
  {
    if calls == [] then 0
    else (if calls[0].ScanCall? then 1 else 0) + ScanCount(calls[1..])
  }

  lemma {:induction false} ScanCountAppend(a: seq<Call>, b: seq<Call>)
    ensures ScanCount(a + b) == ScanCount(a) + ScanCount(b)
  {
    if a == [] {
      assert a + b == b;
    } else {
      assert (a + b)[1..] == a[1..] + b;
      ScanCountAppend(a[1..], b);
    }
  }

  /** One agent object (WordFrequencySimilarity, DameruLevenDist, TFIDF or
      NgramAgent). The corpus and the n-gram file are bound at construction;
      the sub-algorithm and verbosity are set afterwards. */
  class Scanner {
    const kind: AgentKind
    const corpus: string
    const ngramJson: Option<string>
    const engine: Engine
    var simAlgo: SimAlgo
    var verbose: bool
    ghost var history: seq<Call>

    ghost predicate Valid()
      reads this
    {
      (kind != Ngram ==> ngramJson == None) && Compatible(kind, simAlgo)
    }

    function Config(): (c: ScanConfig)
      reads this
      ensures c.kind == kind && c.corpus == corpus && c.ngramJson == ngramJson && c.simAlgo == simAlgo
    {
      ScanConfig(kind, corpus, ngramJson, simAlgo)
    }

    constructor (kind: AgentKind, corpus: string, ngramJson: Option<string>, engine: Engine)
      requires kind != Ngram ==> ngramJson == None
      ensures Valid()
      ensures this.kind == kind && this.corpus == corpus && this.ngramJson == ngramJson && this.engine == engine
      ensures simAlgo == AgentDefault && !verbose && history == []
    {
      this.kind := kind;
      this.corpus := corpus;
      this.ngramJson := ngramJson;
      this.engine := engine;
      simAlgo := AgentDefault;
      verbose := false;
      history := [];
    }

    method SetSimAlgo(a: SimAlgo)
      requires Valid() && a != AgentDefault && Compatible(kind, a)
      modifies this
      ensures Valid()
      ensures simAlgo == a && verbose == old(verbose)
      ensures history == old(history) + [SetSimAlgoCall(a)]
    {
      simAlgo := a;
      history := history + [SetSimAlgoCall(a)];
    }

    method SetVerbose(v: bool)
      requires Valid()
      modifies this
      ensures Valid()
      ensures verbose == v && simAlgo == old(simAlgo)
      ensures history == old(history) + [SetVerboseCall(v)]
    {
      verbose := v;
      history := history + [SetVerboseCall(v)];
    }

    method Scan(file: string) returns (r: RawResult)
      requires Valid()
      modifies this
      ensures Valid()
      ensures r == ScanResult(engine, old(Config()), file)
      ensures simAlgo == old(simAlgo) && verbose == old(verbose)
      ensures history == old(history) + [ScanCall(file)]
    {
      r := ScanResult(engine, Config(), file);
      history := history + [ScanCall(file)];
    }
  }
}
