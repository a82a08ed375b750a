# Assets legal mentions checker, modelled in Dafny

The checker is a command-line tool. It checks that every PNG image under a folder carries an expected legal mention
(a copyright line) in its metadata, and reports the verdict through its exit status. This project models the tool's
logic that does no I/O and proves properties about it:

- `console_argument_types.dfy` (module `ConsoleArgumentTypes`): the option kinds, their raw values and the
  mapping from the typed option word to its kind.
- `console_arguments_parser.dfy` (module `ConsoleArgumentsParser`): the validation of the parsed command line,
  a list of (kind, value) pairs. It covers well-definedness, help and version requests and the verbose flag.
- `metadata_explorer.dfy` (module `MetadataExplorer`): the check of one file against the TIFF
  `Copyright`, IPTC `CopyrightNotice` and PNG `Copyright` fields, and the running AND over a list of files.
  Both are imperative methods proved against a reference definition. That definition is a static table of the three
  places a mention may sit.
- `main.dfy` (module `Main`): the top-level script, from the parsed command line to the exit. Each exit is named
  after the message printed before it. A lookup of a folder or mention entry that is not there ends in
  `IndexOutOfRange`.
- `wrappers.dfy` (module `Wrappers`): `Option`, standing for Swift's optionals.

Foreign calls are inputs. The image data a path yields is a map from path to `ImageData`; a path the map lacks cannot
be read. The file manager's existence test is a set of paths. The folder crawler is a function from folder and filter
to paths.

Help or version together with `--verbose` is rejected, because an accepted two-option list must be a folder and
a mention (ConsoleArgumentsParser.swift:43-46). Every three-option list with exactly one verbose entry is accepted,
whatever the other two entries are (ConsoleArgumentsParser.swift:48).

## Model

| member | source | states |
|---|---|---|
| `ConsoleArgumentTypes.FromValue` | Swift-AssetsLegalMentionsChecker/Swift-AssetsLegalMentionsChecker/Console/ConsoleArgumentTypes.swift:56-70 | a word maps to a kind other than `undefined` exactly when it is one of the five recognised option words |
| `ConsoleArgumentTypes.ArgumentType.RawValue` | Swift-AssetsLegalMentionsChecker/Swift-AssetsLegalMentionsChecker/Console/ConsoleArgumentTypes.swift:35-50 | a raw value is one of the recognised option words exactly for folder, mention, help and version; verbose's "--versbose" and undefined's "undefined" are not |
| `ConsoleArgumentTypes.FromValueInjective` | Swift-AssetsLegalMentionsChecker/Swift-AssetsLegalMentionsChecker/Console/ConsoleArgumentTypes.swift:56-70 | two words that map to the same recognised kind are the same word |
| `ConsoleArgumentTypes.RawValueRoundTrip` | Swift-AssetsLegalMentionsChecker/Swift-AssetsLegalMentionsChecker/Console/ConsoleArgumentTypes.swift:35-69 | reading a kind's raw value back gives that kind, for every kind except verbose; `undefined` has raw value "undefined", which reads back as `undefined` |
| `ConsoleArgumentTypes.VerboseRawValueDoesNotRoundTrip` | Swift-AssetsLegalMentionsChecker/Swift-AssetsLegalMentionsChecker/Console/ConsoleArgumentTypes.swift:47-69 | verbose's raw value "--versbose" is not a recognised word and reads back as `undefined` |
| `ConsoleArgumentTypes.RawValueFixedRoundTrip` | Swift-AssetsLegalMentionsChecker/Swift-AssetsLegalMentionsChecker/Console/ConsoleArgumentTypes.swift:47 | with the raw value spelled "--verbose", every kind reads back as itself |
| `ConsoleArgumentTypes.FromValueCaseSensitive` | Swift-AssetsLegalMentionsChecker/Swift-AssetsLegalMentionsChecker/Console/ConsoleArgumentTypes.swift:68-69 | case variants such as "--Folder" and "--VERBOSE", and words without the dashes, map to `undefined` |
| `ConsoleArgumentsParser.Filter` | Swift-AssetsLegalMentionsChecker/Swift-AssetsLegalMentionsChecker/Console/ConsoleArgumentsParser.swift:69 | the filtered list is no longer than the input, holds only input entries of the kind, and holds every such entry |
| `ConsoleArgumentsParser.IsForHelp` | Swift-AssetsLegalMentionsChecker/Swift-AssetsLegalMentionsChecker/Console/ConsoleArgumentsParser.swift:54-56 | a help request is well defined and is not a version request |
| `ConsoleArgumentsParser.IsForVersion` | Swift-AssetsLegalMentionsChecker/Swift-AssetsLegalMentionsChecker/Console/ConsoleArgumentsParser.swift:61-63 | a version request is well defined |
| `ConsoleArgumentsParser.AreWellDefined` | Swift-AssetsLegalMentionsChecker/Swift-AssetsLegalMentionsChecker/Console/ConsoleArgumentsParser.swift:37-49 | only lists of one to three options are accepted, and an accepted two-option list holds a folder entry and a mention entry |
| `ConsoleArgumentsParser.AreWellDefinedFixed` | Swift-AssetsLegalMentionsChecker/Swift-AssetsLegalMentionsChecker/Console/ConsoleArgumentsParser.swift:37-49 | the corrected validator accepts only lists the original accepts, and an accepted list that is neither a help nor a version request holds a folder and a mention |
| `ConsoleArgumentsParser.FilterEmptyIff` | Swift-AssetsLegalMentionsChecker/Swift-AssetsLegalMentionsChecker/Console/ConsoleArgumentsParser.swift:69 | filtering gives the empty list exactly when no entry has the kind |
| `ConsoleArgumentsParser.FilterFirstIsFirstOccurrence` | Swift-AssetsLegalMentionsChecker/Swift-AssetsLegalMentionsChecker/main.swift:78-79 | the first filtered entry is the first occurrence of the kind, so a repeated flag uses its first value |
| `ConsoleArgumentsParser.FilterKeepsBoth` | Swift-AssetsLegalMentionsChecker/Swift-AssetsLegalMentionsChecker/Console/ConsoleArgumentsParser.swift:69 | two entries of one kind at different positions make the filtered count at least two |
| `ConsoleArgumentsParser.FilterCountIsOccurrences` | Swift-AssetsLegalMentionsChecker/Swift-AssetsLegalMentionsChecker/Console/ConsoleArgumentsParser.swift:69 | the filtered list has as many entries as the input has entries of the kind |
| `ConsoleArgumentsParser.ExactlyOneKept` | Swift-AssetsLegalMentionsChecker/Swift-AssetsLegalMentionsChecker/Console/ConsoleArgumentsParser.swift:69 | when exactly one position holds the kind, the filtered list has exactly one entry |
| `ConsoleArgumentsParser.FilterCountOneIff` | Swift-AssetsLegalMentionsChecker/Swift-AssetsLegalMentionsChecker/Console/ConsoleArgumentsParser.swift:69 | the filtered list has exactly one entry exactly when one position, and no other, holds the kind |
| `ConsoleArgumentsParser.FilterCountOfThree` | Swift-AssetsLegalMentionsChecker/Swift-AssetsLegalMentionsChecker/Console/ConsoleArgumentsParser.swift:48 | on a three-option list the filtered count is the number of positions holding the kind |
| `ConsoleArgumentsParser.FilterCountIgnoresValues` | Swift-AssetsLegalMentionsChecker/Swift-AssetsLegalMentionsChecker/Console/ConsoleArgumentsParser.swift:69 | two lists with the same kinds position by position have the same filtered count, whatever their values |
| `ConsoleArgumentsParser.TwoOptionsIff` | Swift-AssetsLegalMentionsChecker/Swift-AssetsLegalMentionsChecker/Console/ConsoleArgumentsParser.swift:43-46 | a two-option list is accepted exactly when it is folder then mention, or mention then folder |
| `ConsoleArgumentsParser.HelpWithVerboseRejected` | Swift-AssetsLegalMentionsChecker/Swift-AssetsLegalMentionsChecker/Console/ConsoleArgumentsParser.swift:37-48 | help followed by verbose is rejected |
| `ConsoleArgumentsParser.ThreeOptionsWithOneVerboseAccepted` | Swift-AssetsLegalMentionsChecker/Swift-AssetsLegalMentionsChecker/Console/ConsoleArgumentsParser.swift:48 | a three-option list in which exactly one of the three positions is verbose is accepted, whatever the other two positions hold |
| `ConsoleArgumentsParser.IsVerboseDefinedIff` | Swift-AssetsLegalMentionsChecker/Swift-AssetsLegalMentionsChecker/Console/ConsoleArgumentsParser.swift:68-70 | verbose is defined exactly when one position, and no other, holds a verbose entry |
| `ConsoleArgumentsParser.TwoVerboseNotDefined` | Swift-AssetsLegalMentionsChecker/Swift-AssetsLegalMentionsChecker/Console/ConsoleArgumentsParser.swift:68-70 | two verbose entries make verbose not defined, since it needs exactly one |
| `ConsoleArgumentsParser.PredicatesIgnoreValues` | Swift-AssetsLegalMentionsChecker/Swift-AssetsLegalMentionsChecker/Console/ConsoleArgumentsParser.swift:37-70 | the four predicates agree on any two lists with the same kinds, whatever their values |
| `ConsoleArgumentsParser.ThreeOptionsAdmitMissingFolder` | Swift-AssetsLegalMentionsChecker/Swift-AssetsLegalMentionsChecker/Console/ConsoleArgumentsParser.swift:48 | verbose, help and version together are accepted, are neither a help nor a version request, and have no folder or mention entry |
| `ConsoleArgumentsParser.FixedAcceptsVerboseRun` | Swift-AssetsLegalMentionsChecker/Swift-AssetsLegalMentionsChecker/Console/ConsoleArgumentsParser.swift:48 | the corrected validator accepts folder, mention and verbose in any order |
| `MetadataExplorer.TiffLookupMatchesTable` | Swift-AssetsLegalMentionsChecker/Swift-AssetsLegalMentionsChecker/Checker/MetadataExplorer.swift:116-121 | the TIFF lookup through a cast to a dictionary of strings yields the detail exactly when the TIFF row of the table holds it |
| `MetadataExplorer.IptcLookupMatchesTable` | Swift-AssetsLegalMentionsChecker/Swift-AssetsLegalMentionsChecker/Checker/MetadataExplorer.swift:130-135 | the IPTC lookup yields the detail exactly when the IPTC row of the table holds it |
| `MetadataExplorer.PngLookupMatchesTable` | Swift-AssetsLegalMentionsChecker/Swift-AssetsLegalMentionsChecker/Checker/MetadataExplorer.swift:144-149 | the PNG lookup yields the detail exactly when the PNG row of the table holds it |
| `MetadataExplorer.Lookup` | Swift-AssetsLegalMentionsChecker/Swift-AssetsLegalMentionsChecker/Checker/MetadataExplorer.swift:89 | looking up a group gives a value exactly when the properties hold that group name |
| `MetadataExplorer.AsStringDictionary` | Swift-AssetsLegalMentionsChecker/Swift-AssetsLegalMentionsChecker/Checker/MetadataExplorer.swift:89 | the cast to a dictionary of strings succeeds exactly on a group whose every value is text, and keeps its keys and texts |
| `MetadataExplorer.AsDictionary` | Swift-AssetsLegalMentionsChecker/Swift-AssetsLegalMentionsChecker/Checker/MetadataExplorer.swift:99 | the cast to a dictionary of any values succeeds exactly on a group, and gives its fields unchanged |
| `MetadataExplorer.ProcessTiff` | Swift-AssetsLegalMentionsChecker/Swift-AssetsLegalMentionsChecker/Checker/MetadataExplorer.swift:116-121 | the TIFF lookup is nil exactly when the group is absent or lacks "Copyright" |
| `MetadataExplorer.ProcessIptc` | Swift-AssetsLegalMentionsChecker/Swift-AssetsLegalMentionsChecker/Checker/MetadataExplorer.swift:130-135 | the IPTC lookup is nil exactly when the group is absent or lacks "CopyrightNotice" |
| `MetadataExplorer.ProcessPng` | Swift-AssetsLegalMentionsChecker/Swift-AssetsLegalMentionsChecker/Checker/MetadataExplorer.swift:144-149 | the PNG lookup is nil exactly when the group is absent, lacks "Copyright", or holds a non-text value there |
| `MetadataExplorer.LookAtFile` | Swift-AssetsLegalMentionsChecker/Swift-AssetsLegalMentionsChecker/Checker/MetadataExplorer.swift:70-107 | the sequence of three lookups decides exactly whether the file is suitable: readable, decodable, with properties, and some row of the table holds the detail |
| `MetadataExplorer.LookAtFiles` | Swift-AssetsLegalMentionsChecker/Swift-AssetsLegalMentionsChecker/Checker/MetadataExplorer.swift:48-60 | the loop returns true exactly when every file of the list is suitable; this equals the running AND over all files in order |
| `MetadataExplorer.AccumulateIsAll` | Swift-AssetsLegalMentionsChecker/Swift-AssetsLegalMentionsChecker/Checker/MetadataExplorer.swift:50-59 | the running AND over the files is the start value AND every file being suitable |
| `MetadataExplorer.FalseAccumulatorStaysFalse` | Swift-AssetsLegalMentionsChecker/Swift-AssetsLegalMentionsChecker/Checker/MetadataExplorer.swift:57 | once the accumulator is false, no later file sets it back to true |
| `MetadataExplorer.EmptyBatchPasses` | Swift-AssetsLegalMentionsChecker/Swift-AssetsLegalMentionsChecker/Checker/MetadataExplorer.swift:50-59 | an empty list of files passes |
| `MetadataExplorer.OneUnsuitableFails` | Swift-AssetsLegalMentionsChecker/Swift-AssetsLegalMentionsChecker/Checker/MetadataExplorer.swift:51-58 | one unsuitable file at any position makes the batch fail |
| `MetadataExplorer.SuitableIff` | Swift-AssetsLegalMentionsChecker/Swift-AssetsLegalMentionsChecker/Checker/MetadataExplorer.swift:88-105 | a decoded file is suitable exactly when one of three holds: TIFF `Copyright` equals the detail in an all-text TIFF group, IPTC `CopyrightNotice` does so in an all-text IPTC group, or PNG `Copyright` is that text |
| `MetadataExplorer.UnreadableFilesUnsuitable` | Swift-AssetsLegalMentionsChecker/Swift-AssetsLegalMentionsChecker/Checker/MetadataExplorer.swift:74-86 | an unreadable file, an undecodable one, or one without properties is not suitable |
| `MetadataExplorer.MissingFieldGivesNil` | Swift-AssetsLegalMentionsChecker/Swift-AssetsLegalMentionsChecker/Checker/MetadataExplorer.swift:116-149 | when each of the three groups is missing or lacks its field, every lookup gives nil, and such a file is not suitable even for the empty detail |
| `MetadataExplorer.NonTextEntryHidesTiffGroup` | Swift-AssetsLegalMentionsChecker/Swift-AssetsLegalMentionsChecker/Checker/MetadataExplorer.swift:89-148 | one non-text entry in the TIFF group hides a matching copyright; the same group under PNG still matches |
| `MetadataExplorer.MatchIsExact` | Swift-AssetsLegalMentionsChecker/Swift-AssetsLegalMentionsChecker/Checker/MetadataExplorer.swift:89-99 | a source that holds one detail holds no detail with different characters |
| `MetadataExplorer.SubstringDoesNotMatch` | Swift-AssetsLegalMentionsChecker/Swift-AssetsLegalMentionsChecker/Checker/MetadataExplorer.swift:94 | a stored "2019 Corp" does not satisfy the expected "© 2019 Corp" |
| `Main.ExitReason.Status` | Swift-AssetsLegalMentionsChecker/Swift-AssetsLegalMentionsChecker/main.swift:30-34 | -1 for a bad command line and for the failed pre-checks, 0 for help and version, 1 when some file lacks the mention, 2 when all files have it |
| `Main.Run` | Swift-AssetsLegalMentionsChecker/Swift-AssetsLegalMentionsChecker/main.swift:57-112 | the order of the guards. A bad command line exits first. Help and version exit next, with verbose still unset. Verbose is then set exactly when one entry is verbose. A missing folder or mention entry traps. Then come, in order, the empty-folder, missing-folder and empty-mention exits. Last, the check of the files the crawler finds with the PNG filter picks the exit for a failing or passing batch |
| `Main.TrapOnVerboseHelpVersion` | Swift-AssetsLegalMentionsChecker/Swift-AssetsLegalMentionsChecker/main.swift:78 | verbose, help and version together pass validation and trap on the folder lookup |
| `Main.FixedValidatorNeverTraps` | Swift-AssetsLegalMentionsChecker/Swift-AssetsLegalMentionsChecker/main.swift:57-79 | with the corrected validator, no accepted command line reaches the unguarded lookups of the folder and mention |
| `Main.EmptyFolderReportedFirst` | Swift-AssetsLegalMentionsChecker/Swift-AssetsLegalMentionsChecker/main.swift:81-94 | an empty folder with an empty mention reports the folder error, status -1 |
| `Main.OneFileWithoutMetadataFails` | Swift-AssetsLegalMentionsChecker/Swift-AssetsLegalMentionsChecker/main.swift:100-112 | a folder with one image whose IPTC mention matches and one image without properties exits with 1 |
| `Main.SingleMatchingFilePasses` | Swift-AssetsLegalMentionsChecker/Swift-AssetsLegalMentionsChecker/main.swift:100-112 | a folder whose only image has the mention in its PNG group, run with verbose, exits with 2 |

## Findings

| source | as written | input that shows it | evidently intended | confidence | as-written member | corrected member |
|---|---|---|---|---|---|---|
| Swift-AssetsLegalMentionsChecker/Swift-AssetsLegalMentionsChecker/Console/ConsoleArgumentsParser.swift:48 | accepts any three options with exactly one verbose entry | `--verbose --help --version` passes validation, then main.swift:78 indexes an empty filtered list | three options are verbose with exactly one folder and one mention | not executed | `Main.TrapOnVerboseHelpVersion` | `Main.FixedValidatorNeverTraps` |
| Swift-AssetsLegalMentionsChecker/Swift-AssetsLegalMentionsChecker/Console/ConsoleArgumentTypes.swift:47 | verbose's raw value is "--versbose" | reading `verbose.rawValue` back gives `undefined` | raw value "--verbose" | not executed | `ConsoleArgumentTypes.VerboseRawValueDoesNotRoundTrip` | `ConsoleArgumentTypes.RawValueFixedRoundTrip` |

`Main.Run` keeps the validator as written, so that it stays the behaviour of the program. The corrected validator
`AreWellDefinedFixed` accepts only lists the original accepts. `Main.FixedValidatorNeverTraps` proves that `Run` never
reaches `IndexOutOfRange` on a list the corrected validator accepts. Nothing in the modelled files reads the raw values.
The typed word "--verbose" is still recognised, because `FromValue` matches that spelling.

## Left out

- Reading a file and decoding its image properties are foreign calls. Their outcome per path is the `Disk` input.
  A read failure is a path absent from it.
- Metadata keys are modelled as strings. A non-string key inside a TIFF or IPTC group, which would also fail the cast
  to a dictionary of strings, is not modelled. Every value that does not bridge to a Swift string is `NonText`.
- The file manager's existence test is the `existing` set. It does not tell a folder from a file, and neither does
  the source.
- `exit` is the returned `Outcome`. Swift's trap on an index out of range is the `IndexOutOfRange` outcome,
  not a crash of the process.
- Console output is not modelled: messages, verbose lines, warnings and the per-file report of unsuitable files. Each
  exit only records which message preceded it.
- The parsing of the raw command line into (kind, value) pairs is not part of this model. `Run` takes the parsed
  list as input.
- The folder crawler and its regular-expression filter are not part of this model. They are the `crawl` input. The
  thin wrapper that applies the explorer to the crawler's output is inlined into `Run`.
- The global `VERBOSE` variable is `Run`'s `verbose` result, and the `VERSION` constant is not modelled.
- MetadataExplorer.LookAtFile: compares the stored text and the detail code point by code point. Swift's `==` on
  strings treats canonically equivalent strings as equal, such as "é" written as one code point or as "e" plus a
  combining accent. Unicode normalisation is not modelled, so the model calls such a file unsuitable where the program
  finds it suitable.
- MetadataExplorer.MatchIsExact: holds for code-point equality only. Under Swift's canonical equivalence one stored
  text also matches every detail canonically equivalent to it.
- ConsoleArgumentTypes.FromValue: matches the option words code point by code point, where Swift's `switch` on a
  string uses canonical equivalence.
- ConsoleArgumentsParser.Filter: its own contract gives only membership. The number of entries kept is stated by
  `FilterCountIsOccurrences`, and the first entry by `FilterFirstIsFirstOccurrence`. The order of the later entries
  is not stated, because the program only reads the first one.
