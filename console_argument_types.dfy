/**
 * The kinds of command-line options the checker understands, each with the
 * raw value Swift attaches to the enum case, and the string-to-kind mapping
 * used when the command line is read.
 */
module ConsoleArgumentTypes {

  /** One case per option; `Undefined` stands for every unrecognised word. */
  datatype ArgumentType = FolderToProcess | LineToFind | Help | Version | Verbose | Undefined
  {
    /**
     * The raw value of the case as declared. `Verbose` is declared with the
     * misspelt raw value "--versbose"; `Undefined` has no explicit raw value
     * and so gets its own case name.
     */
    function RawValue(): (raw: string)
      ensures raw in RecognisedWords <==> this != Verbose && this != Undefined
    {
      match this
      case FolderToProcess => "--folder"
      case LineToFind => "--mention"
      case Help => "--help"
      case Version => "--version"
      case Verbose => "--versbose"
      case Undefined => "undefined"
    }

    /** The same raw values with the spelling of `Verbose` corrected. */
    function RawValueFixed(): string
    {
      if this == Verbose then "--verbose" else RawValue()
    }
  }

  /** The five option words the program recognises, spelled exactly. */
  const RecognisedWords: set<string> := {"--folder", "--mention", "--help", "--version", "--verbose"}

  /**
   * `init(value:)`: the option word typed on the command line mapped to its
   * kind. The match is exact and case sensitive; anything else is `Undefined`.
   */
  function FromValue(value: string): (t: ArgumentType)
    ensures t != Undefined <==> value in RecognisedWords
  {
    if value == "--folder" then FolderToProcess
    else if value == "--mention" then LineToFind
    else if value == "--help" then Help
    else if value == "--version" then Version
    else if value == "--verbose" then Verbose
    else Undefined
  }

  /** Each recognised word maps to its own kind, so no two words share one. */
  lemma FromValueInjective(a: string, b: string)
    requires FromValue(a) == FromValue(b) != Undefined
    ensures a == b
  {
  }

  /** Every kind except `Verbose` is recovered from its own raw value. */
  lemma RawValueRoundTrip(t: ArgumentType)
    requires t != Verbose
    ensures FromValue(t.RawValue()) == t
  {
  }

  /** The misspelt raw value of `Verbose` is read back as `Undefined`. */
  lemma VerboseRawValueDoesNotRoundTrip()
    ensures Verbose.RawValue() !in RecognisedWords
    ensures FromValue(Verbose.RawValue()) == Undefined
  {
  }

  /** With the spelling corrected, every kind is recovered from its raw value. */
  lemma RawValueFixedRoundTrip(t: ArgumentType)
    ensures FromValue(t.RawValueFixed()) == t
  {
  }

  /** Only the exact spelling counts: a case variant is not recognised. */
  lemma FromValueCaseSensitive()
    ensures FromValue("--Folder") == Undefined
    ensures FromValue("--VERBOSE") == Undefined
    ensures FromValue("folder") == Undefined
  {
  }
}
