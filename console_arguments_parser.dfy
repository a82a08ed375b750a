/**
 * Validation of the parsed command line: a list of (kind, value) pairs, one
 * per option given, in the order they were typed. Every predicate here looks
 * only at the kinds and at the length of the list.
 */
module ConsoleArgumentsParser {

  import opened ConsoleArgumentTypes

  /** One parsed option: its kind and the word that followed it (possibly empty). */
  type Argument = (ArgumentType, string)

  /** Swift's `params.filter { $0.0 == kind }`: the entries of that kind, in order. */
  function Filter(params: seq<Argument>, kind: ArgumentType): (r: seq<Argument>)
    ensures |r| <= |params|
    ensures forall e :: e in r ==> e.0 == kind && e in params
    ensures forall i :: 0 <= i < |params| && params[i].0 == kind ==> params[i] in r
  {
    if params == [] then []
    else if params[0].0 == kind then [params[0]] + Filter(params[1..], kind)
    else Filter(params[1..], kind)
  }

  /** `isForHelp`: the single option `--help`, which validation accepts and which is no version request. */
  predicate IsForHelp(params: seq<Argument>)
    ensures IsForHelp(params) ==> AreWellDefined(params) && !IsForVersion(params)
  {
    |params| == 1 && params[0].0 == Help
  }

  /** `isForVersion`: the single option `--version`, which validation accepts. */
  predicate IsForVersion(params: seq<Argument>)
    ensures IsForVersion(params) ==> AreWellDefined(params)
  {
    |params| == 1 && params[0].0 == Version
  }

  /** `isVerboseDefined`: the filtered list of verbose entries has exactly one element. */
  predicate IsVerboseDefined(params: seq<Argument>)
  {
    |Filter(params, Verbose)| == 1
  }

  /** Position i holds the kind and no other position does. */
  predicate OnlyAt(params: seq<Argument>, kind: ArgumentType, i: int)
  {
    0 <= i < |params| && params[i].0 == kind
    && forall j :: 0 <= j < |params| && j != i ==> params[j].0 != kind
  }

  /**
   * `areWellDefined`: help alone, version alone, folder and mention in either
   * order, or any three options of which exactly one is verbose. The last
   * branch is marked FIXME in the source: it does not look at the other two.
   * Only lists of one to three options pass, and an accepted pair always
   * holds a folder and a mention.
   */
  predicate AreWellDefined(params: seq<Argument>)
    ensures AreWellDefined(params) ==> 1 <= |params| <= 3
    ensures AreWellDefined(params) && |params| == 2 ==>
      Filter(params, FolderToProcess) != [] && Filter(params, LineToFind) != []
  {
    (|params| == 1 && params[0].0 == Help)
    || (|params| == 1 && params[0].0 == Version)
    || (|params| == 2 && (
          (params[0].0 == FolderToProcess && params[1].0 == LineToFind)
          || (params[0].0 == LineToFind && params[1].0 == FolderToProcess)))
    || (|params| == 3 && IsVerboseDefined(params))
  }

  /**
   * The validator the three-option branch evidently intended: the verbose flag
   * together with exactly one folder and exactly one mention. It only removes
   * lists the original accepts, and every list it accepts that is neither a
   * help nor a version request holds a folder and a mention.
   */
  predicate AreWellDefinedFixed(params: seq<Argument>)
    ensures AreWellDefinedFixed(params) ==> AreWellDefined(params)
    ensures AreWellDefinedFixed(params) && !IsForHelp(params) && !IsForVersion(params) ==>
      Filter(params, FolderToProcess) != [] && Filter(params, LineToFind) != []
  {
    (|params| == 1 && params[0].0 == Help)
    || (|params| == 1 && params[0].0 == Version)
    || (|params| == 2 && (
          (params[0].0 == FolderToProcess && params[1].0 == LineToFind)
          || (params[0].0 == LineToFind && params[1].0 == FolderToProcess)))
    || (|params| == 3 && IsVerboseDefined(params)
        && |Filter(params, FolderToProcess)| == 1 && |Filter(params, LineToFind)| == 1)
  }

  // ---------------------------------------------------------------------------
  // Properties of Filter
  // ---------------------------------------------------------------------------

  /** Nothing is filtered out of a list with no entry of the kind, and nothing is kept. */
  lemma FilterEmptyIff(params: seq<Argument>, kind: ArgumentType)
    ensures Filter(params, kind) == [] <==> forall i :: 0 <= i < |params| ==> params[i].0 != kind
  {
  }

  /** The first entry kept by Filter is the first occurrence of the kind in the list. */
  lemma {:induction false} FilterFirstIsFirstOccurrence(params: seq<Argument>, kind: ArgumentType, i: nat)
    requires i < |params| && params[i].0 == kind
    requires forall j :: 0 <= j < i ==> params[j].0 != kind
    ensures Filter(params, kind) != [] && Filter(params, kind)[0] == params[i]
  {
    if i > 0 {
      FilterFirstIsFirstOccurrence(params[1..], kind, i - 1);
    }
  }

  /** Two entries of the same kind at different positions are both kept. */
  lemma {:induction false} FilterKeepsBoth(params: seq<Argument>, kind: ArgumentType, i: nat, j: nat)
    requires i < j < |params| && params[i].0 == kind && params[j].0 == kind
    ensures |Filter(params, kind)| >= 2
  {
    if i == 0 {
      assert params[j] == params[1..][j - 1];
      assert params[1..][j - 1] in Filter(params[1..], kind);
    } else {
      FilterKeepsBoth(params[1..], kind, i - 1, j - 1);
    }
  }

  /** The kinds of a list, position by position. */
  function Kinds(params: seq<Argument>): (kinds: seq<ArgumentType>)
    ensures |kinds| == |params| && forall i :: 0 <= i < |params| ==> kinds[i] == params[i].0
  {
    seq(|params|, i requires 0 <= i < |params| => params[i].0)
  }

  /** Filter keeps as many entries as the list has entries of the kind. */
  lemma {:induction false} FilterCountIsOccurrences(params: seq<Argument>, kind: ArgumentType)
    ensures |Filter(params, kind)| == multiset(Kinds(params))[kind]
  {
    if params != [] {
      FilterCountIsOccurrences(params[1..], kind);
      assert Kinds(params) == [params[0].0] + Kinds(params[1..]);
    }
  }

  /** A list with exactly one entry of the kind, at position i, keeps exactly one entry. */
  lemma {:induction false} ExactlyOneKept(params: seq<Argument>, kind: ArgumentType, i: nat)
    requires OnlyAt(params, kind, i)
    ensures |Filter(params, kind)| == 1
  {
    if i == 0 {
      FilterEmptyIff(params[1..], kind);
    } else {
      assert params[0].0 != kind;
      assert OnlyAt(params[1..], kind, i - 1);
      ExactlyOneKept(params[1..], kind, i - 1);
    }
  }

  /** Filter keeps exactly one entry when exactly one position holds the kind. */
  lemma FilterCountOneIff(params: seq<Argument>, kind: ArgumentType)
    ensures |Filter(params, kind)| == 1 <==> exists i :: OnlyAt(params, kind, i)
  {
    if |Filter(params, kind)| == 1 {
      FilterEmptyIff(params, kind);
      var i :| 0 <= i < |params| && params[i].0 == kind;
      forall j | 0 <= j < |params| && j != i
        ensures params[j].0 != kind
      {
        if params[j].0 == kind {
          if i < j { FilterKeepsBoth(params, kind, i, j); } else { FilterKeepsBoth(params, kind, j, i); }
        }
      }
      assert OnlyAt(params, kind, i);
    }
    if exists i :: OnlyAt(params, kind, i) {
      var i :| OnlyAt(params, kind, i);
      ExactlyOneKept(params, kind, i);
    }
  }

  /** On a three-option list, Filter keeps one entry per position holding the kind. */
  lemma FilterCountOfThree(params: seq<Argument>, kind: ArgumentType)
    requires |params| == 3
    ensures |Filter(params, kind)| ==
      (if params[0].0 == kind then 1 else 0) + (if params[1].0 == kind then 1 else 0)
      + (if params[2].0 == kind then 1 else 0)
  {
    var tail1, tail2 := params[1..], params[2..];
    assert tail1[1..] == tail2 && tail2[1..] == [];
    assert Filter(tail2[1..], kind) == [];
    assert |Filter(tail2, kind)| == if params[2].0 == kind then 1 else 0;
    assert |Filter(tail1, kind)| == (if params[1].0 == kind then 1 else 0) + |Filter(tail2, kind)|;
  }

  /** How many entries Filter keeps depends on the kinds only, never on the values. */
  lemma {:induction false} FilterCountIgnoresValues(p: seq<Argument>, q: seq<Argument>, kind: ArgumentType)
    requires |p| == |q| && forall i :: 0 <= i < |p| ==> p[i].0 == q[i].0
    ensures |Filter(p, kind)| == |Filter(q, kind)|
  {
    if p != [] {
      FilterCountIgnoresValues(p[1..], q[1..], kind);
    }
  }

  // ---------------------------------------------------------------------------
  // Properties of the validators
  // ---------------------------------------------------------------------------

  /** A two-option list is accepted exactly when it is a folder and a mention, in either order. */
  lemma TwoOptionsIff(params: seq<Argument>)
    requires |params| == 2
    ensures AreWellDefined(params) <==>
      ((params[0].0, params[1].0) == (FolderToProcess, LineToFind)
       || (params[0].0, params[1].0) == (LineToFind, FolderToProcess))
  {
  }

  /** In particular, help together with verbose is rejected. */
  lemma HelpWithVerboseRejected(v: string, w: string)
    ensures !AreWellDefined([(Help, v), (Verbose, w)])
  {
  }

  /** Any three options with exactly one verbose among them are accepted, whatever the other two are. */
  lemma ThreeOptionsWithOneVerboseAccepted(params: seq<Argument>)
    requires |params| == 3
    requires (if params[0].0 == Verbose then 1 else 0) + (if params[1].0 == Verbose then 1 else 0)
      + (if params[2].0 == Verbose then 1 else 0) == 1
    ensures AreWellDefined(params)
  {
    FilterCountOfThree(params, Verbose);
  }

  /** Verbose is defined exactly when one position, and no other, holds a verbose entry. */
  lemma IsVerboseDefinedIff(params: seq<Argument>)
    ensures IsVerboseDefined(params) <==> exists i :: OnlyAt(params, Verbose, i)
  {
    FilterCountOneIff(params, Verbose);
  }

  /** In particular a second verbose entry turns verbose off. */
  lemma {:induction false} TwoVerboseNotDefined(params: seq<Argument>, i: nat, j: nat)
    requires i < j < |params| && params[i].0 == Verbose && params[j].0 == Verbose
    ensures !IsVerboseDefined(params)
  {
    FilterKeepsBoth(params, Verbose, i, j);
  }

  /** The value half of each pair is never inspected by any of the predicates. */
  lemma PredicatesIgnoreValues(p: seq<Argument>, q: seq<Argument>)
    requires |p| == |q| && forall i :: 0 <= i < |p| ==> p[i].0 == q[i].0
    ensures AreWellDefined(p) == AreWellDefined(q)
    ensures IsForHelp(p) == IsForHelp(q)
    ensures IsForVersion(p) == IsForVersion(q)
    ensures IsVerboseDefined(p) == IsVerboseDefined(q)
  {
    FilterCountIgnoresValues(p, q, Verbose);
  }

  /**
   * The three-option branch accepts a list with neither folder nor mention:
   * verbose, help and version together pass validation but are not a help or
   * version request.
   */
  lemma ThreeOptionsAdmitMissingFolder(v: string)
    ensures var params := [(Verbose, v), (Help, v), (Version, v)];
      AreWellDefined(params) && !IsForHelp(params) && !IsForVersion(params)
      && Filter(params, FolderToProcess) == [] && Filter(params, LineToFind) == []
  {
    var params := [(Verbose, v), (Help, v), (Version, v)];
    FilterCountOfThree(params, Verbose);
    FilterEmptyIff(params, FolderToProcess);
    FilterEmptyIff(params, LineToFind);
  }

  /** The corrected validator still accepts folder, mention and verbose in any order. */
  lemma FixedAcceptsVerboseRun(params: seq<Argument>)
    requires |params| == 3 && {params[0].0, params[1].0, params[2].0} == {FolderToProcess, LineToFind, Verbose}
    ensures AreWellDefinedFixed(params)
  {
    FilterCountOfThree(params, Verbose);
    FilterCountOfThree(params, FolderToProcess);
    FilterCountOfThree(params, LineToFind);
  }
}
