# atarashi: agent selection and result normalisation

atarashi guesses which software license a text file resembles. It runs one of
four similarity agents over the file against a processed license list
(`wordFrequencySimilarity`, `DLD`, `tfidf` or `Ngram`). This project models the
orchestration layer in `atarashi/atarashii.py`. That layer has three parts:

- `atarashii_runner` maps the agent name to an agent object. For `tfidf` and
  `Ngram` it also maps the similarity name to a sub-algorithm, and it rejects an
  illegal name with `-1` before any scan. Otherwise it sets verbosity, scans
  the input file once and returns the raw result.
- `main` handles the version flag and fills in the packaged default paths for
  the processed license list and the n-gram keyword file.
- `main` then normalises the result. The two scalar agents give one best-guess
  value, which becomes exactly one record. The two ranking agents give a list,
  which passes through unchanged. Everything is wrapped as `{file, results}`.

Modules:

- `Wrappers` (`wrappers.dfy`): `Option`.
- `Agents` (`agents.dfy`): agent names, the `TfidfAlgo` and `NgramAlgo` enums,
  sub-algorithm selection, match records, and the `Scanner` class with its
  `SetSimAlgo` / `SetVerbose` / `Scan` protocol. `Scanner` stands for the four
  agent objects. A ghost call history records the protocol.
- `Runner` (`runner.dfy`): `AtarashiiRunner`, an imperative method. It is
  proved against the pure `RunSpec` and `RunTrace`.
- `Cli` (`cli.dfy`): defaults, normalisation, and `MainEntry`. `MainEntry` is
  imperative, mirrors `main` step by step, and is proved against `MainSpec`.
- `ReportJson` (`report_json.dfy`): the dumped JSON object. Decoding and
  encoding are proved to be mutual inverses.

The agents' own scoring is not part of this model. It enters as an `Engine`:
two total functions from a scan configuration and a file name, one to the
scalar agents' best match and one to the ranking agents' record list. The
package resource lookup and `os.path.abspath` enter as an `Environment` of two
functions. Because these are functions, a repeated scan with the same inputs
gives the same result.

The runner constructs the `TFIDF` or `NgramAgent` object (lines 62 and 71)
before it checks the similarity, and only then returns `-1`. `AtarashiiRunner`
therefore returns that scanner, with an empty call history.

## Model

| member | source | states |
|---|---|---|
| `Agents.ParseAgent` | atarashi/atarashii.py:57-71 | An agent name is recognised exactly when it is one of the four command-line names. When it is recognised, the result is the agent with that name. |
| `Agents.ParseTfidfAlgo` | atarashi/atarashii.py:63-69 | `CosineSim` selects `cosineSim` and `ScoreSim` selects `scoreSim`. Every other similarity is rejected. Both directions are stated through the algorithm's name. |
| `Agents.ParseNgramAlgo` | atarashi/atarashii.py:72-80 | `CosineSim`, `DiceSim` and `BigramCosineSim` select the matching n-gram algorithm. Every other similarity is rejected. |
| `Agents.SelectAlgo` | atarashi/atarashii.py:57-80 | Scalar agents always succeed and keep their default algorithm. `tfidf` succeeds iff the similarity is one of its two names, and `Ngram` iff it is one of its three. On success the algorithm has exactly that name and suits the agent. |
| `Agents.Scanner.constructor` | atarashi/atarashii.py:56-71 | The agent kind, the processed license list and the n-gram file are bound at construction. Only an Ngram scanner may hold an n-gram file. No call has been made yet. |
| `Agents.Scanner.SetSimAlgo` | atarashi/atarashii.py:63-77 | Sets the sub-algorithm, which must suit the agent, and records the call. Verbosity is unchanged. |
| `Agents.Scanner.SetVerbose` | atarashi/atarashii.py:82 | Sets verbosity and records the call. The sub-algorithm is unchanged. |
| `Agents.Scanner.Scan` | atarashi/atarashii.py:83 | Returns the engine's result for the scanner's current configuration and the file. The shape is a single value for scalar agents and a list otherwise. Records one scan call. |
| `Runner.RunSpec` | atarashi/atarashii.py:36-84 | The runner's outcome. There is no scanner iff the name is unknown. A rejection only happens for `tfidf` or `Ngram`. A scanned result has the shape its agent produces. |
| `Runner.AtarashiiRunner` | atarashi/atarashii.py:36-84 | The outcome equals `RunSpec`. A scanner exists iff the agent name is known. It is fresh, holds the given corpus and engine, and holds the n-gram file only for Ngram. Its call history is `RunTrace`. On success it holds the selected algorithm and the verbosity; after a rejection it still holds the default algorithm with verbosity off. |
| `Runner.ScalarAgentsIgnoreSimilarity` | atarashi/atarashii.py:57-60 | For `wordFrequencySimilarity` and `DLD`, selection always scans. Two different similarity names give the same outcome and the same calls. |
| `Runner.RejectedSimilarityNeverScans` | atarashi/atarashii.py:61-80 | For `tfidf` or `Ngram` with an illegal similarity, the result is `-1` with that agent's hint. No call is ever made on the scanner. |
| `Runner.SelectedRunProtocol` | atarashi/atarashii.py:82-84 | After a successful selection there is at most one `setSimAlgo`, and it happens only for tfidf and Ngram. `setVerbose(verbose)` comes next, then exactly one scan of the input file, last. |
| `Cli.ResolvePath` | atarashi/atarashii.py:109-112 | A missing path becomes the default. A given path is kept as it is. |
| `Cli.Normalize` | atarashi/atarashii.py:115-129 | A scalar result becomes exactly one record: its value as `shortname`, score 1, the agent's tag and an empty description. This holds even for an empty value. A list result is returned unchanged. |
| `Cli.MainSpec` | atarashi/atarashii.py:98-130 | The version flag gives the banner. An unknown agent name gives the unknown-agent error, and nothing else does; the similarity is rejected exactly when the agent is known and `SelectAlgo` rejects it (only possible for tfidf or Ngram). A printed report carries the absolute input path; a scalar agent's report has exactly one record, and a ranking agent's report has the ranking unchanged. |
| `Cli.MainEntry` | atarashi/atarashii.py:98-130 | The step-by-step entry point equals `MainSpec`. The calls it causes on an agent object equal `MainTrace`. |
| `Cli.VersionShortCircuits` | atarashi/atarashii.py:106-108 | With the version flag the run shows the banner and stops. No agent call is made. |
| `Cli.OmittedCorpusIsPackagedDefault` | atarashi/atarashii.py:103-110 | Omitting the processed license list gives the same outcome as naming the packaged file. |
| `Cli.OmittedNgramJsonIsPackagedDefault` | atarashi/atarashii.py:104-112 | Omitting the n-gram keyword file gives the same outcome as naming the packaged file. |
| `Cli.NgramJsonOnlyReachesNgram` | atarashi/atarashii.py:70-71 | For any agent other than `Ngram`, the n-gram file argument does not affect the outcome. |
| `Cli.ScalarAgentReport` | atarashi/atarashii.py:114-130 | A scalar agent's report has the absolute input path and one record. That record holds the engine's best match, score 1, `wordFrequencySimilarity` or `dld`, and an empty description. |
| `Cli.RankedAgentReport` | atarashi/atarashii.py:114-130 | A tfidf or Ngram report has the absolute input path and the engine's ranking, unchanged and in order. The ranking is computed with the resolved paths and the selected algorithm. |
| `Cli.RejectedSimilarityFails` | atarashi/atarashii.py:114-129 | An illegal similarity ends the run with that agent's hint, without a report and without a scan. |
| `Cli.PrintedRunScansOnce` | atarashi/atarashii.py:82-84 | Every run that prints a report scanned the input file exactly once, and the scan was the last call. |
| `ReportJson.RecordToJson` | atarashi/atarashii.py:116-121 | A record dumps as an object with exactly the keys `shortname`, `sim_score`, `sim_type` and `description`. |
| `ReportJson.RecordsToJson` | atarashi/atarashii.py:129-130 | The results array has one object per record, in the same order. |
| `ReportJson.ReportToJson` | atarashi/atarashii.py:130-131 | The dumped object has exactly the keys `file` and `results`. It holds the file and as many result objects as records. |
| `ReportJson.RecordsRoundTrip` | atarashi/atarashii.py:129-131 | Parsing a dumped results array gives back the same records in the same order. |
| `ReportJson.ReportRoundTrip` | atarashi/atarashii.py:130-131 | Parsing the dumped object gives back the same file and the same records in the same order. |
| `ReportJson.ReportDecodeInverse` | atarashi/atarashii.py:130-131 | Any object that parses as a report is exactly that report's dump. |

## Left out

- The agents' scoring (`WordFrequencySimilarity`, `DameruLevenDist`, `TFIDF`, `NgramAgent`): these modules are not part of this model. They read files and compute floating-point similarities. Their scan enters as the `Engine` functions. File read errors and agent-internal errors are not modelled.
- An agent's verbosity is assumed not to change its scan result. The `Engine` does not see it.
- The initial sub-algorithm and verbosity of a freshly built agent are defined in those modules. The model calls them `AgentDefault` and `false`.
- `resource_filename` and `os.path.abspath` are environment lookups. They are the two functions of `Environment`.
- `plac` argument parsing and its annotations (lines 87-95, 135-136) are left out; `Args` is the already-parsed command line.
- `json.dumps` text layout (indentation, `ensure_ascii`) and `print` are left out. The version banner and the rejection hints are carried as values in the outcome.
- `str()` of arbitrary Python objects (lines 117, 124) is left out. A scalar agent's result is taken to be a string already.
- Python's crash paths are explicit errors here. An unknown agent name leaves `scanner = ""`, which fails at line 82; this is `NoScanner` / `UnknownAgent`. After a rejected similarity, `list(-1)` fails at line 129; this is `RejectedSimilarity`.
- Cli.Normalize: requires that the raw result has the shape its agent produces. `main` assumes this too. An agent that returned the other shape (`str` of a list, or `list` of a string) is not modelled.
- The tfidf and Ngram agents' records are taken to be four-field records with the keys `shortname`, `sim_score`, `sim_type` and `description`; `list(result)` at line 129 passes on whatever dicts those agents return (the runner's docstring at lines 46-54 names the fourth key `desc`), so the key sets proved for ranked results rest on this typing.
- `sim_score = 1` is a Python integer; the model uses `1.0`, with every score a `real`.
- The keyword defaults of `atarashii_runner` (`similarity="CosineSim"`, `ngramJsonLoc=None`, `verbose=None`) are not modelled. `main` always passes all six arguments, and `verbose` is a boolean flag.
- The `main` signature at line 98 places a non-default parameter after a default one, which Python rejects. The model treats all seven parameters as given.
