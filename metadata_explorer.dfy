/**
 * Reading the metadata of image files and deciding whether each carries the
 * expected legal mention. Reading a file and decoding its image properties
 * are foreign calls; their outcome for every path is an input (a Disk).
 */
module MetadataExplorer {

  import opened Wrappers

  /** A value stored in a metadata dictionary: text, or any other object (a number, an array, a nested dictionary). */
  datatype Value = Text(text: string) | NonText

  /** An entry of the decoded image properties: a named group (a nested dictionary) or a plain value. */
  datatype Property = Group(fields: map<string, Value>) | Plain(value: Value)

  /** The decoded image properties, keyed by group name such as "{TIFF}". */
  type Metadata = map<string, Property>

  /**
   * What becomes of a file whose bytes could be read: the image decoder
   * refuses them, finds no properties dictionary, or yields one.
   */
  datatype ImageData = Undecodable | NoProperties | Properties(metadata: Metadata)

  /** The files the program can read; a path absent here cannot be read. */
  type Disk = map<string, ImageData>

  const TiffGroup: string := "{TIFF}"
  const IptcGroup: string := "{IPTC}"
  const PngGroup: string := "{PNG}"
  const CopyrightField: string := "Copyright"
  const CopyrightNoticeField: string := "CopyrightNotice"

  // ---------------------------------------------------------------------------
  // Reference definition: a static table of the places a mention may sit
  // ---------------------------------------------------------------------------

  /**
   * A place where the legal mention may be stored: a group, a field of it,
   * and whether every field of the group must be text for the group to be
   * consulted at all.
   */
  datatype MentionSource = MentionSource(group: string, field: string, wholeGroupText: bool)

  const MentionSources: seq<MentionSource> := [
    MentionSource(TiffGroup, CopyrightField, true),
    MentionSource(IptcGroup, CopyrightNoticeField, true),
    MentionSource(PngGroup, CopyrightField, false)
  ]

  predicate AllText(fields: map<string, Value>)
  {
    forall k :: k in fields ==> fields[k].Text?
  }

  /** The source holds exactly `detail`, and its group is shaped as the lookup needs. */
  predicate Holds(metadata: Metadata, source: MentionSource, detail: string)
  {
    && source.group in metadata
    && metadata[source.group].Group?
    && source.field in metadata[source.group].fields
    && metadata[source.group].fields[source.field] == Text(detail)
    && (source.wholeGroupText ==> AllText(metadata[source.group].fields))
  }

  /** A file is suitable when it is readable, decodable, has properties and some source holds the detail. */
  predicate Suitable(disk: Disk, path: string, detail: string)
  {
    && path in disk
    && disk[path].Properties?
    && exists i :: 0 <= i < |MentionSources| && Holds(disk[path].metadata, MentionSources[i], detail)
  }

  // ---------------------------------------------------------------------------
  // The lookups as the program writes them
  // ---------------------------------------------------------------------------

  /** `metadata[key]`: the entry under a group name, if any. */
  function Lookup(metadata: Metadata, key: string): (r: Option<Property>)
    ensures r.Some? <==> key in metadata
  {
    if key in metadata then Some(metadata[key]) else None
  }

  /**
   * `as? [String : String]`: succeeds only on a group whose every value is
   * text, and then gives the same keys with their texts.
   */
  function AsStringDictionary(entry: Option<Property>): (r: Option<map<string, string>>)
    ensures r.Some? <==> entry.Some? && entry.value.Group? && AllText(entry.value.fields)
    ensures r.Some? ==> r.value.Keys == entry.value.fields.Keys
    ensures r.Some? ==> forall k :: k in r.value ==> entry.value.fields[k] == Text(r.value[k])
  {
    match entry
    case Some(Group(fields)) =>
      if AllText(fields) then Some(map k | k in fields :: fields[k].text) else None
    case _ => None
  }

  /** `as? [String : Any]`: succeeds on any group, whatever its values. */
  function AsDictionary(entry: Option<Property>): (r: Option<map<string, Value>>)
    ensures r.Some? <==> entry.Some? && entry.value.Group?
    ensures r.Some? ==> r.value == entry.value.fields
  {
    match entry
    case Some(Group(fields)) => Some(fields)
    case _ => None
  }

  /** `processTIFF`: the "Copyright" text of a TIFF group, or nil. */
  function ProcessTiff(bundle: Option<map<string, string>>): (r: Option<string>)
    ensures r.Some? <==> bundle.Some? && CopyrightField in bundle.value
  {
    match bundle
    case None => None
    case Some(data) => if CopyrightField in data then Some(data[CopyrightField]) else None
  }

  /** `processIPTC`: the "CopyrightNotice" text of an IPTC group, or nil. */
  function ProcessIptc(bundle: Option<map<string, string>>): (r: Option<string>)
    ensures r.Some? <==> bundle.Some? && CopyrightNoticeField in bundle.value
  {
    match bundle
    case None => None
    case Some(data) => if CopyrightNoticeField in data then Some(data[CopyrightNoticeField]) else None
  }

  /** `processPNG`: the "Copyright" entry of a PNG group when it is text, or nil. */
  function ProcessPng(bundle: Option<map<string, Value>>): (r: Option<string>)
    ensures r.Some? <==> bundle.Some? && CopyrightField in bundle.value && bundle.value[CopyrightField].Text?
  {
    match bundle
    case None => None
    case Some(data) =>
      if CopyrightField in data && data[CopyrightField].Text? then Some(data[CopyrightField].text) else None
  }

  /** The TIFF lookup yields the detail exactly when the TIFF row of the table holds it. */
  lemma TiffLookupMatchesTable(metadata: Metadata, detail: string)
    ensures ProcessTiff(AsStringDictionary(Lookup(metadata, TiffGroup))) == Some(detail)
        <==> Holds(metadata, MentionSources[0], detail)
  {
  }

  /** The IPTC lookup yields the detail exactly when the IPTC row of the table holds it. */
  lemma IptcLookupMatchesTable(metadata: Metadata, detail: string)
    ensures ProcessIptc(AsStringDictionary(Lookup(metadata, IptcGroup))) == Some(detail)
        <==> Holds(metadata, MentionSources[1], detail)
  {
  }

  /** The PNG lookup yields the detail exactly when the PNG row of the table holds it. */
  lemma PngLookupMatchesTable(metadata: Metadata, detail: string)
    ensures ProcessPng(AsDictionary(Lookup(metadata, PngGroup))) == Some(detail)
        <==> Holds(metadata, MentionSources[2], detail)
  {
  }

  // ---------------------------------------------------------------------------
  // The checks
  // ---------------------------------------------------------------------------

  /**
   * `look(at path:for:)`: reads and decodes the file, then consults the TIFF,
   * IPTC and PNG groups in turn; any one holding the detail makes the file
   * suitable, and a later mismatch does not undo it.
   */
  method LookAtFile(disk: Disk, path: string, detail: string) returns (areDetailsDefined: bool)
    ensures areDetailsDefined == Suitable(disk, path, detail)
  {
    if path !in disk {
      return false;
    }
    if disk[path].Undecodable? || disk[path].NoProperties? {
      return false;
    }
    var metadata := disk[path].metadata;
    TiffLookupMatchesTable(metadata, detail);
    IptcLookupMatchesTable(metadata, detail);
    PngLookupMatchesTable(metadata, detail);
    areDetailsDefined := false;
    if ProcessTiff(AsStringDictionary(Lookup(metadata, TiffGroup))) == Some(detail) {
      areDetailsDefined := true;
    }
    if ProcessIptc(AsStringDictionary(Lookup(metadata, IptcGroup))) == Some(detail) {
      areDetailsDefined := true;
    }
    if ProcessPng(AsDictionary(Lookup(metadata, PngGroup))) == Some(detail) {
      areDetailsDefined := true;
    }
  }

  /** The running AND of the program's loop, folded over the files in order. */
  function Accumulate(acc: bool, disk: Disk, files: seq<string>, detail: string): bool
  {
    if files == [] then acc
    else Accumulate(acc && Suitable(disk, files[0], detail), disk, files[1..], detail)
  }

  /** Every file of the batch is suitable. */
  predicate AllSuitable(disk: Disk, files: seq<string>, detail: string)
  {
    forall i :: 0 <= i < |files| ==> Suitable(disk, files[i], detail)
  }

  /**
   * `look(at files:for:)`: checks every file in order, without stopping at
   * the first failure, and keeps the AND of the results.
   */
  method LookAtFiles(disk: Disk, files: seq<string>, detail: string) returns (allFilesAreSuitable: bool)
    ensures allFilesAreSuitable <==> AllSuitable(disk, files, detail)
    ensures allFilesAreSuitable == Accumulate(true, disk, files, detail)
  {
    allFilesAreSuitable := true;
    for i := 0 to |files|
      invariant allFilesAreSuitable <==> AllSuitable(disk, files[..i], detail)
    {
      var isFileSuitable := LookAtFile(disk, files[i], detail);
      allFilesAreSuitable := allFilesAreSuitable && isFileSuitable;
      assert files[..i + 1] == files[..i] + [files[i]];
    }
    assert files[..|files|] == files;
    AccumulateIsAll(true, disk, files, detail);
  }

  // ---------------------------------------------------------------------------
  // Properties of the batch
  // ---------------------------------------------------------------------------

  /** The fold is the starting value AND every file being suitable. */
  lemma {:induction false} AccumulateIsAll(acc: bool, disk: Disk, files: seq<string>, detail: string)
    ensures Accumulate(acc, disk, files, detail) <==> acc && AllSuitable(disk, files, detail)
  {
    if files != [] {
      AccumulateIsAll(acc && Suitable(disk, files[0], detail), disk, files[1..], detail);
      assert forall i :: 1 <= i < |files| ==> files[i] == files[1..][i - 1];
    }
  }

  /** Once the accumulator is false, no later file can set it back to true. */
  lemma FalseAccumulatorStaysFalse(disk: Disk, files: seq<string>, detail: string)
    ensures !Accumulate(false, disk, files, detail)
  {
    AccumulateIsAll(false, disk, files, detail);
  }

  /** An empty batch passes without any file being checked. */
  lemma EmptyBatchPasses(disk: Disk, detail: string)
    ensures Accumulate(true, disk, [], detail)
    ensures AllSuitable(disk, [], detail)
  {
  }

  /** One unsuitable file, wherever it sits in the list, makes the batch fail. */
  lemma {:induction false} OneUnsuitableFails(disk: Disk, files: seq<string>, detail: string, k: nat)
    requires k < |files| && !Suitable(disk, files[k], detail)
    ensures !Accumulate(true, disk, files, detail)
  {
    AccumulateIsAll(true, disk, files, detail);
  }

  // ---------------------------------------------------------------------------
  // Properties of one file
  // ---------------------------------------------------------------------------

  /**
   * A file is suitable exactly when at least one of TIFF "Copyright", IPTC
   * "CopyrightNotice" or PNG "Copyright" is present as text equal to the
   * detail (TIFF and IPTC only when their whole group is text); which one
   * matched makes no difference.
   */
  lemma SuitableIff(disk: Disk, path: string, detail: string)
    requires path in disk && disk[path].Properties?
    ensures var m := disk[path].metadata;
      Suitable(disk, path, detail) <==>
        || (TiffGroup in m && m[TiffGroup].Group? && AllText(m[TiffGroup].fields)
            && CopyrightField in m[TiffGroup].fields && m[TiffGroup].fields[CopyrightField] == Text(detail))
        || (IptcGroup in m && m[IptcGroup].Group? && AllText(m[IptcGroup].fields)
            && CopyrightNoticeField in m[IptcGroup].fields && m[IptcGroup].fields[CopyrightNoticeField] == Text(detail))
        || (PngGroup in m && m[PngGroup].Group?
            && CopyrightField in m[PngGroup].fields && m[PngGroup].fields[CopyrightField] == Text(detail))
  {
    var m := disk[path].metadata;
    if Holds(m, MentionSources[0], detail) || Holds(m, MentionSources[1], detail) || Holds(m, MentionSources[2], detail) {
    } else {
      assert forall i :: 0 <= i < |MentionSources| ==> !Holds(m, MentionSources[i], detail) by {
        forall i | 0 <= i < |MentionSources| ensures !Holds(m, MentionSources[i], detail) {
          assert i == 0 || i == 1 || i == 2;
        }
      }
    }
  }

  /** An unreadable file, an undecodable one, or one without properties is never suitable. */
  lemma UnreadableFilesUnsuitable(disk: Disk, path: string, detail: string)
    requires path !in disk || disk[path] == Undecodable || disk[path] == NoProperties
    ensures !Suitable(disk, path, detail)
  {
  }

  /** A missing group, or a group lacking the field, gives nil, which no detail equals, not even "". */
  lemma MissingFieldGivesNil(metadata: Metadata)
    requires TiffGroup !in metadata || (metadata[TiffGroup].Group? && CopyrightField !in metadata[TiffGroup].fields)
    requires IptcGroup !in metadata || (metadata[IptcGroup].Group? && CopyrightNoticeField !in metadata[IptcGroup].fields)
    requires PngGroup !in metadata || (metadata[PngGroup].Group? && CopyrightField !in metadata[PngGroup].fields)
    ensures ProcessTiff(AsStringDictionary(Lookup(metadata, TiffGroup))) == None
    ensures ProcessIptc(AsStringDictionary(Lookup(metadata, IptcGroup))) == None
    ensures ProcessPng(AsDictionary(Lookup(metadata, PngGroup))) == None
    ensures !Suitable(map["image.png" := Properties(metadata)], "image.png", "")
  {
  }

  /**
   * One non-text entry anywhere in the TIFF group hides its copyright, even
   * one equal to the detail; the PNG group only needs its own "Copyright" to
   * be text.
   */
  lemma NonTextEntryHidesTiffGroup(detail: string, other: string)
    requires other != CopyrightField
    ensures var fields := map[CopyrightField := Text(detail), other := NonText];
      && ProcessTiff(AsStringDictionary(Some(Group(fields)))) == None
      && !Suitable(map["image.png" := Properties(map[TiffGroup := Group(fields)])], "image.png", detail)
      && ProcessPng(AsDictionary(Some(Group(fields)))) == Some(detail)
      && Suitable(map["image.png" := Properties(map[PngGroup := Group(fields)])], "image.png", detail)
  {
    var fields := map[CopyrightField := Text(detail), other := NonText];
    assert !AllText(fields) by {
      assert other in fields && !fields[other].Text?;
    }
    SuitableIff(map["image.png" := Properties(map[TiffGroup := Group(fields)])], "image.png", detail);
    SuitableIff(map["image.png" := Properties(map[PngGroup := Group(fields)])], "image.png", detail);
  }

  /**
   * Matching compares the stored text and the detail character by character:
   * a source that holds one detail holds no other sequence of characters, so
   * a substring or a case variant of the stored text does not match.
   */
  lemma MatchIsExact(metadata: Metadata, source: MentionSource, detail: string, other: string)
    requires Holds(metadata, source, detail) && other != detail
    ensures !Holds(metadata, source, other)
  {
  }

  /** The worked example: a stored "2019 Corp" does not satisfy the expected "© 2019 Corp". */
  lemma SubstringDoesNotMatch()
    ensures !Suitable(map["a.png" := Properties(map[IptcGroup := Group(map[CopyrightNoticeField := Text("2019 Corp")])])],
                      "a.png", "© 2019 Corp")
  {
  }
}
