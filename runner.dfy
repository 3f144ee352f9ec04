/** atarashii_runner: pick the agent by name, construct it over the processed
    license list, set its sub-algorithm (tfidf and Ngram only, rejecting an
    illegal similarity before any scan), set verbosity, scan once and return
    the raw result. */
module Runner {
  import opened Wrappers
  import opened Agents

  /** What the runner yields. `SimilarityRejected` is its `-1` return (after
      printing `hint`); `NoScanner` is an agent name no branch matches, where
      `atarashii_runner` is left without a scanner object and fails at setVerbose. */
  datatype RunOutcome = Scanned(raw: RawResult) | SimilarityRejected(hint: string) | NoScanner

  /** Only the Ngram agent is given the n-gram JSON location. */
  function NgramJsonFor(k: AgentKind, ngramJsonLoc: Option<string>): (r: Option<string>)
    ensures k == Ngram ==> r == ngramJsonLoc
    ensures k != Ngram ==> r == None
  {
    if k == Ngram then ngramJsonLoc else None
  }

  /** The configuration a successful selection scans with. */
  function SelectedConfig(k: AgentKind, a: SimAlgo, processedLicense: string, ngramJsonLoc: Option<string>): ScanConfig
  {
    ScanConfig(k, processedLicense, NgramJsonFor(k, ngramJsonLoc), a)
  }

  /** The setSimAlgo calls made for a selected sub-algorithm. */
  function SetupCalls(a: SimAlgo): seq<Call>
  {
    if a == AgentDefault then [] else [SetSimAlgoCall(a)]
  }

  /** The calls the runner makes on the scanner it built for agent `k`. */
  function RunTrace(k: AgentKind, similarity: string, verbose: bool, inputFile: string): seq<Call>
  {
    match SelectAlgo(k, similarity)
    case None => []
    case Some(a) => SetupCalls(a) + [SetVerboseCall(verbose), ScanCall(inputFile)]
  }

  /** The runner's result as a function of its inputs. */
  function RunSpec(inputFile: string, processedLicense: string, agentName: string, similarity: string,
                   ngramJsonLoc: Option<string>, engine: Engine): (r: RunOutcome)
    ensures r.NoScanner? <==> ParseAgent(agentName) == None
    ensures r.SimilarityRejected? ==> agentName == "tfidf" || agentName == "Ngram"
    ensures r.Scanned? ==> ShapeFits(ParseAgent(agentName).value, r.raw)
  {
    match ParseAgent(agentName)
    case None => NoScanner
    case Some(k) =>
      match SelectAlgo(k, similarity)
      case None => SimilarityRejected(RejectionHint(k))
      case Some(a) => Scanned(ScanResult(engine, SelectedConfig(k, a, processedLicense, ngramJsonLoc), inputFile))
  }

  method AtarashiiRunner(inputFile: string, processedLicense: string, agentName: string, similarity: string,
                         ngramJsonLoc: Option<string>, verbose: bool, engine: Engine)
    returns (outcome: RunOutcome, scanner: Scanner?)
    ensures outcome == RunSpec(inputFile, processedLicense, agentName, similarity, ngramJsonLoc, engine)
    ensures scanner == null <==> ParseAgent(agentName) == None
    ensures scanner != null ==>
              && fresh(scanner) && scanner.Valid()
              && scanner.kind == ParseAgent(agentName).value
              && scanner.corpus == processedLicense
              && scanner.ngramJson == NgramJsonFor(scanner.kind, ngramJsonLoc)
              && scanner.engine == engine
              && scanner.history == RunTrace(scanner.kind, similarity, verbose, inputFile)
    ensures scanner != null && SelectAlgo(scanner.kind, similarity).Some? ==>
              scanner.simAlgo == SelectAlgo(scanner.kind, similarity).value && scanner.verbose == verbose
    ensures scanner != null && SelectAlgo(scanner.kind, similarity) == None ==>
              scanner.simAlgo == AgentDefault && !scanner.verbose
  {
    scanner := null;
    if agentName == "wordFrequencySimilarity" {
      scanner := new Scanner(WordFrequency, processedLicense, None, engine);
    } else if agentName == "DLD" {
      scanner := new Scanner(Dld, processedLicense, None, engine);
    } else if agentName == "tfidf" {
      scanner := new Scanner(Tfidf, processedLicense, None, engine);
      if similarity == "CosineSim" {
        scanner.SetSimAlgo(TfidfSim(TfidfAlgo.CosineSim));
      } else if similarity == "ScoreSim" {
        scanner.SetSimAlgo(TfidfSim(TfidfAlgo.ScoreSim));
      } else {
        outcome := SimilarityRejected(TFIDF_HINT);
        return;
      }
    } else if agentName == "Ngram" {
      scanner := new Scanner(Ngram, processedLicense, ngramJsonLoc, engine);
      if similarity == "CosineSim" {
        scanner.SetSimAlgo(NgramSim(NgramAlgo.CosineSim));
      } else if similarity == "DiceSim" {
        scanner.SetSimAlgo(NgramSim(NgramAlgo.DiceSim));
      } else if similarity == "BigramCosineSim" {
        scanner.SetSimAlgo(NgramSim(NgramAlgo.BigramCosineSim));
      } else {
        outcome := SimilarityRejected(NGRAM_HINT);
        return;
      }
    }

    if scanner == null {
      outcome := NoScanner;
      return;
    }
    scanner.SetVerbose(verbose);
    var result := scanner.Scan(inputFile);
    outcome := Scanned(result);
  }

  /** For the two scalar agents selection always succeeds, and the similarity
      argument changes neither the outcome nor the calls made. */
  lemma ScalarAgentsIgnoreSimilarity(inputFile: string, processedLicense: string, k: AgentKind,
                                     s1: string, s2: string, ngramJsonLoc: Option<string>, verbose: bool, engine: Engine)
    requires IsScalarAgent(k)
    ensures RunSpec(inputFile, processedLicense, AgentName(k), s1, ngramJsonLoc, engine).Scanned?
    ensures RunSpec(inputFile, processedLicense, AgentName(k), s1, ngramJsonLoc, engine)
         == RunSpec(inputFile, processedLicense, AgentName(k), s2, ngramJsonLoc, engine)
    ensures RunTrace(k, s1, verbose, inputFile) == RunTrace(k, s2, verbose, inputFile)
  {
  }

  /** A tfidf or Ngram selection with an illegal similarity yields `-1` with the
      agent's hint, and no call at all is made on the scanner it built. */
  lemma RejectedSimilarityNeverScans(inputFile: string, processedLicense: string, k: AgentKind,
                                     similarity: string, ngramJsonLoc: Option<string>, verbose: bool, engine: Engine)
    requires k == Tfidf || k == Ngram
    requires similarity !in (if k == Tfidf then TFIDF_CHOICES else NGRAM_CHOICES)
    ensures RunSpec(inputFile, processedLicense, AgentName(k), similarity, ngramJsonLoc, engine)
         == SimilarityRejected(RejectionHint(k))
    ensures RunTrace(k, similarity, verbose, inputFile) == []
  {
  }

  /** On every successful selection the scanner gets at most one setSimAlgo,
      then setVerbose, then exactly one scan of the input file, last. */
  lemma {:induction false} SelectedRunProtocol(k: AgentKind, similarity: string, verbose: bool, inputFile: string)
    requires SelectAlgo(k, similarity).Some?
    ensures var t := RunTrace(k, similarity, verbose, inputFile);
            && 2 <= |t| <= 3
            && t[|t| - 1] == ScanCall(inputFile)
            && t[|t| - 2] == SetVerboseCall(verbose)
            && ScanCount(t) == 1
            && (|t| == 3 <==> SelectAlgo(k, similarity).value != AgentDefault)
            && (|t| == 3 ==> t[0] == SetSimAlgoCall(SelectAlgo(k, similarity).value))
  {
    var a := SelectAlgo(k, similarity).value;
    var tail := [SetVerboseCall(verbose), ScanCall(inputFile)];
    assert ScanCount(tail) == 1 by {
      assert tail[1..] == [ScanCall(inputFile)];
      assert [ScanCall(inputFile)][1..] == [];
      assert ScanCount([ScanCall(inputFile)]) == 1 + ScanCount([]);
    }
    assert ScanCount(SetupCalls(a)) == 0 by {
      if a != AgentDefault {
        assert SetupCalls(a)[1..] == [];
      }
    }
    ScanCountAppend(SetupCalls(a), tail);
  }
}
