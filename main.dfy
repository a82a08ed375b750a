/**
 * The program's top level: validate the parsed command line, answer help
 * and version requests, run the pre-checks on the folder and the mention,
 * then check every PNG file under the folder and turn the verdict into an
 * exit code.
 */
module Main {

  import opened ConsoleArgumentTypes
  import opened ConsoleArgumentsParser
  import opened MetadataExplorer

  /** Why the program exits: one case per `exit` call, named after the message printed before it. */
  datatype ExitReason =
    | BadCommandLine
    | UsageShown
    | VersionShown
    | FolderUndefined
    | FolderNotFound
    | MentionUndefined
    | SomeFileLacksMention
    | AllFilesHaveMention
  {
    /** The status passed to `exit` at that point. */
    function Status(): (status: int)
      ensures status == -1 <==> this in {BadCommandLine, FolderUndefined, FolderNotFound, MentionUndefined}
      ensures status == 0 <==> this in {UsageShown, VersionShown}
      ensures status == 1 <==> this == SomeFileLacksMention
      ensures status == 2 <==> this == AllFilesHaveMention
    {
      match this
      case BadCommandLine | FolderUndefined | FolderNotFound | MentionUndefined => -1
      case UsageShown | VersionShown => 0
      case SomeFileLacksMention => 1
      case AllFilesHaveMention => 2
    }
  }

  /**
   * How the program ends: an `exit`, or a trap on indexing the first folder
   * or mention entry of a list that has none.
   */
  datatype Outcome = Exit(reason: ExitReason) | IndexOutOfRange

  /** The file name filter the program hands to the folder crawler. */
  const ResourcesFilter: string := "png|PNG"

  /**
   * The top-level script. `existing` stands for the paths the file manager
   * reports as existing, `crawl` for the folder crawler (folder and filter to
   * the paths it finds), and `disk` for what reading and decoding each path
   * gives. `verbose` is the final value of the global verbose flag.
   */
  method Run(parameters: seq<Argument>, existing: set<string>, crawl: (string, string) -> seq<string>, disk: Disk)
    returns (outcome: Outcome, verbose: bool)
    // A malformed command line exits with -1 before anything else is looked at.
    ensures !AreWellDefined(parameters) ==> outcome == Exit(BadCommandLine) && !verbose
    // Help and version exit with 0 before the verbose flag or any pre-check.
    ensures AreWellDefined(parameters) && (IsForHelp(parameters) || IsForVersion(parameters))
      ==> outcome == Exit(if IsForHelp(parameters) then UsageShown else VersionShown) && !verbose
    // Past that dispatch, verbose is set exactly when one entry is verbose.
    ensures AreWellDefined(parameters) && !IsForHelp(parameters) && !IsForVersion(parameters)
      ==> verbose == IsVerboseDefined(parameters)
    // The first folder and first mention are looked up unguarded.
    ensures outcome == IndexOutOfRange <==>
      AreWellDefined(parameters) && !IsForHelp(parameters) && !IsForVersion(parameters)
      && (Filter(parameters, FolderToProcess) == [] || Filter(parameters, LineToFind) == [])
    // Otherwise the pre-checks run in order, then the check of the PNG files decides 1 or 2.
    ensures AreWellDefined(parameters) && !IsForHelp(parameters) && !IsForVersion(parameters)
      && Filter(parameters, FolderToProcess) != [] && Filter(parameters, LineToFind) != []
      ==> var folder, mention := Filter(parameters, FolderToProcess)[0].1, Filter(parameters, LineToFind)[0].1;
          outcome == (if folder == "" then Exit(FolderUndefined)
                      else if folder !in existing then Exit(FolderNotFound)
                      else if mention == "" then Exit(MentionUndefined)
                      else if AllSuitable(disk, crawl(folder, ResourcesFilter), mention) then Exit(AllFilesHaveMention)
                      else Exit(SomeFileLacksMention))
  {
    verbose := false;
    if !AreWellDefined(parameters) {
      return Exit(BadCommandLine), verbose;
    }
    if IsForHelp(parameters) {
      return Exit(UsageShown), verbose;
    }
    if IsForVersion(parameters) {
      return Exit(VersionShown), verbose;
    }
    if IsVerboseDefined(parameters) {
      verbose := true;
    }
    var folders := Filter(parameters, FolderToProcess);
    if |folders| == 0 {
      return IndexOutOfRange, verbose;
    }
    var folderToProcess := folders[0].1;
    var mentions := Filter(parameters, LineToFind);
    if |mentions| == 0 {
      return IndexOutOfRange, verbose;
    }
    var mentionToFind := mentions[0].1;
    if folderToProcess == "" {
      return Exit(FolderUndefined), verbose;
    }
    if folderToProcess !in existing {
      return Exit(FolderNotFound), verbose;
    }
    if mentionToFind == "" {
      return Exit(MentionUndefined), verbose;
    }
    var areAllResourcesSuitable := LookAtFiles(disk, crawl(folderToProcess, ResourcesFilter), mentionToFind);
    if !areAllResourcesSuitable {
      return Exit(SomeFileLacksMention), verbose;
    }
    return Exit(AllFilesHaveMention), verbose;
  }

  // ---------------------------------------------------------------------------
  // Runs on concrete command lines
  // ---------------------------------------------------------------------------

  /**
   * Verbose, help and version together pass validation, are neither a help
   * nor a version request, and reach the unguarded lookup of the folder.
   */
  method TrapOnVerboseHelpVersion(existing: set<string>, crawl: (string, string) -> seq<string>, disk: Disk)
    returns (outcome: Outcome, verbose: bool)
    ensures outcome == IndexOutOfRange && verbose
  {
    ThreeOptionsAdmitMissingFolder("");
    outcome, verbose := Run([(Verbose, ""), (Help, ""), (Version, "")], existing, crawl, disk);
  }

  /**
   * With the corrected validator in place of the original, no accepted
   * command line reaches the unguarded lookups.
   */
  method FixedValidatorNeverTraps(parameters: seq<Argument>, existing: set<string>,
                                  crawl: (string, string) -> seq<string>, disk: Disk)
    returns (outcome: Outcome)
    requires AreWellDefinedFixed(parameters)
    ensures outcome != IndexOutOfRange
  {
    var verbose;
    outcome, verbose := Run(parameters, existing, crawl, disk);
  }

  /** An empty folder and an empty mention together report the folder, which is checked first. */
  method EmptyFolderReportedFirst(existing: set<string>, crawl: (string, string) -> seq<string>, disk: Disk)
    returns (outcome: Outcome)
    ensures outcome == Exit(FolderUndefined) && outcome.reason.Status() == -1
  {
    var parameters := [(LineToFind, ""), (FolderToProcess, "")];
    assert parameters[1] in Filter(parameters, FolderToProcess);
    assert parameters[0] in Filter(parameters, LineToFind);
    var verbose;
    outcome, verbose := Run(parameters, existing, crawl, disk);
  }

  /**
   * A folder holding one image with the mention in its IPTC group and one
   * image without properties: the batch fails and the program exits with 1.
   */
  method OneFileWithoutMetadataFails() returns (outcome: Outcome)
    ensures outcome == Exit(SomeFileLacksMention) && outcome.reason.Status() == 1
  {
    var mention := "© Orange 2019";
    var parameters := [(FolderToProcess, "assets"), (LineToFind, mention)];
    var disk := map[
      "assets/a.png" := Properties(map[IptcGroup := Group(map[CopyrightNoticeField := Text(mention)])]),
      "assets/b.png" := NoProperties
    ];
    var crawl := (folder: string, filter: string) => if folder == "assets" then ["assets/a.png", "assets/b.png"] else [];
    assert parameters[0] in Filter(parameters, FolderToProcess);
    assert parameters[1] in Filter(parameters, LineToFind);
    OneUnsuitableFails(disk, ["assets/a.png", "assets/b.png"], mention, 1);
    AccumulateIsAll(true, disk, ["assets/a.png", "assets/b.png"], mention);
    var verbose;
    outcome, verbose := Run(parameters, {"assets"}, crawl, disk);
  }

  /** A folder whose only image has the mention in its PNG group: the program exits with 2. */
  method SingleMatchingFilePasses() returns (outcome: Outcome)
    ensures outcome == Exit(AllFilesHaveMention) && outcome.reason.Status() == 2
  {
    var mention := "© Orange 2019";
    var parameters := [(LineToFind, mention), (FolderToProcess, "assets"), (Verbose, "")];
    var disk := map["assets/a.png" := Properties(map[PngGroup := Group(map[CopyrightField := Text(mention)])])];
    var crawl := (folder: string, filter: string) => if folder == "assets" then ["assets/a.png"] else [];
    FilterCountOfThree(parameters, FolderToProcess);
    FilterCountOfThree(parameters, LineToFind);
    FilterCountOfThree(parameters, Verbose);
    FilterFirstIsFirstOccurrence(parameters, FolderToProcess, 1);
    FilterFirstIsFirstOccurrence(parameters, LineToFind, 0);
    SuitableIff(disk, "assets/a.png", mention);
    var verbose;
    outcome, verbose := Run(parameters, {"assets"}, crawl, disk);
  }
}
