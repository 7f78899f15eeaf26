/**
  Helpers of the `langflow` command line: the worker count, the pre-release
  letter, the upgrade command and the styled notice text, the free-port
  search, and how `langflow migration` picks its one operation and decides
  to offer a backup first.
 */
module Cli {
  import opened Results
  import opened Strings

  // ---------------------------------------------------------------------
  // get_number_of_workers

  /**
    `get_number_of_workers(workers)`: None or -1 asks for two workers per CPU
    plus one; any other value is used as given.
   */
  function NumberOfWorkers(workers: Option<int>, cpuCount: nat): (r: int)
    ensures workers == None || workers == Some(-1) ==> r == 2 * cpuCount + 1
    ensures workers.Some? && workers.value != -1 ==> r == workers.value
  {
    if workers == None || workers == Some(-1) then cpuCount * 2 + 1 else workers.value
  }

  /** The default is never the -1 that asks for it, so asking again changes nothing. */
  lemma NumberOfWorkersSettles(workers: Option<int>, cpuCount: nat)
    ensures NumberOfWorkers(workers, cpuCount) != -1
    ensures NumberOfWorkers(Some(NumberOfWorkers(workers, cpuCount)), cpuCount) == NumberOfWorkers(workers, cpuCount)
  {
  }

  // ---------------------------------------------------------------------
  // get_letter_from_version

  /** `get_letter_from_version(version)`: "a", "b" or "rc" by substring, in that order. */
  function LetterFromVersion(version: string): (r: Option<string>)
    ensures r.Some? ==> Contains(version, r.value)
  {
    if Contains(version, "a") then Some("a")
    else if Contains(version, "b") then Some("b")
    else if Contains(version, "rc") then Some("rc")
    else None
  }

  /**
    The letter is the first of "a", "b", "rc" the version contains, and there
    is none exactly when it contains none of them.
   */
  lemma LetterPrecedence(version: string)
    ensures LetterFromVersion(version) == Some("a") <==> Contains(version, "a")
    ensures LetterFromVersion(version) == Some("b") <==> !Contains(version, "a") && Contains(version, "b")
    ensures LetterFromVersion(version) == Some("rc") <==>
              !Contains(version, "a") && !Contains(version, "b") && Contains(version, "rc")
    ensures LetterFromVersion(version) == None <==>
              !Contains(version, "a") && !Contains(version, "b") && !Contains(version, "rc")
  {
  }

  /** The test is on substrings: a beta whose local part holds an "a" reads as an alpha. */
  lemma LetterIsSubstringTest()
    ensures LetterFromVersion("1.0.0b1+local") == Some("a")
  {
    var v := "1.0.0b1+local";
    assert v[11..][..1] == "a";
    assert StartsWith(v[11..], "a");
    assert Contains(v[10..], "a");
    assert Contains(v[9..], "a");
    assert Contains(v[8..], "a");
    assert Contains(v[7..], "a");
    assert Contains(v[6..], "a");
    assert Contains(v[5..], "a");
    assert Contains(v[4..], "a");
    assert Contains(v[3..], "a");
    assert Contains(v[2..], "a");
    assert Contains(v[1..], "a");
  }

  // ---------------------------------------------------------------------
  // generate_pip_command

  const BaseCommand := "pip install"

  /** The flags after the package names: always "-U", and "--pre" for a pre-release. */
  function UpgradeFlags(isPreRelease: bool): string {
    if isPreRelease then "-U --pre" else "-U"
  }

  /** `generate_pip_command(package_names, is_pre_release)` */
  function PipCommand(packageNames: seq<string>, isPreRelease: bool): string {
    BaseCommand + " " + Join(packageNames, " ") + " " + UpgradeFlags(isPreRelease)
  }

  /** The words of the joined package names: no names still leave one empty word between the spaces. */
  function NameWords(packageNames: seq<string>): (r: seq<string>)
    ensures |r| >= 1
  {
    if packageNames == [] then [""] else packageNames
  }

  /** The flags split into "-U" and, for a pre-release, "--pre". */
  lemma UpgradeFlagWords(isPreRelease: bool)
    ensures Split(UpgradeFlags(isPreRelease), " ") == if isPreRelease then ["-U", "--pre"] else ["-U"]
  {
    SplitWithout("-U", ' ');
    if isPreRelease {
      SplitWithout("--pre", ' ');
      assert UpgradeFlags(true) == "-U" + [' '] + "--pre";
      SplitAtSeparator("-U", ' ', "--pre");
    }
  }

  /**
    Split at spaces, the command is "pip", "install", each package name,
    "-U", and "--pre" exactly for a pre-release, provided no name holds a
    space.
   */
  lemma PipCommandWords(packageNames: seq<string>, isPreRelease: bool)
    requires forall i :: 0 <= i < |packageNames| ==> ' ' !in packageNames[i]
    ensures Split(PipCommand(packageNames, isPreRelease), " ") ==
            ["pip", "install"] + NameWords(packageNames) + (if isPreRelease then ["-U", "--pre"] else ["-U"])
  {
    var flags := UpgradeFlags(isPreRelease);
    var words := NameWords(packageNames);
    assert Join(words, " ") == Join(packageNames, " ");
    UpgradeFlagWords(isPreRelease);
    assert BaseCommand == "pip" + [' '] + "install";
    CommandWords("pip", "install", words, flags, ' ');
  }

  /** Two leading words, the joined words and a tail, all separated by `c`, split back into their words. */
  lemma CommandWords(first: string, second: string, words: seq<string>, tail: string, c: char)
    requires c !in first && c !in second && |words| >= 1
    requires forall i :: 0 <= i < |words| ==> c !in words[i]
    ensures Split(first + [c] + second + [c] + Join(words, [c]) + [c] + tail, [c]) ==
            [first, second] + words + Split(tail, [c])
  {
    var joined := Join(words, [c]) + [c] + tail;
    SplitJoinThen(words, c, tail);
    SplitAtSeparator(second, c, joined);
    SplitAtSeparator(first, c, second + [c] + joined);
    assert first + [c] + second + [c] + Join(words, [c]) + [c] + tail == first + [c] + (second + [c] + joined);
  }

  // ---------------------------------------------------------------------
  // stylize_text

  /** The Rich colour of the notice: one for pre-releases, another for releases. */
  function NoticeColor(isPrerelease: bool): string {
    if isPrerelease then "#42a7f5" else "#6e42f5"
  }

  /** `to_style` wrapped in Rich markup of the notice colour. */
  function Styled(toStyle: string, isPrerelease: bool): string {
    "[" + NoticeColor(isPrerelease) + "]" + toStyle + "[/]"
  }

  /** `stylize_text(text, to_style, is_prerelease=...)` */
  function StylizeText(text: string, toStyle: string, isPrerelease: bool): string {
    Replace(text, toStyle, Styled(toStyle, isPrerelease))
  }

  /**
    Every occurrence of a non-empty `to_style` is wrapped: the text is its
    pieces between occurrences, joined by the styled form.
   */
  lemma StylizeWrapsEach(text: string, toStyle: string, isPrerelease: bool)
    requires toStyle != ""
    ensures StylizeText(text, toStyle, isPrerelease) == Join(Split(text, toStyle), Styled(toStyle, isPrerelease))
    ensures Join(Split(text, toStyle), toStyle) == text
  {
    ReplaceIsJoinOfSplit(text, toStyle, Styled(toStyle, isPrerelease));
    JoinSplit(text, toStyle);
  }

  /** Text without `to_style` is left as it is. */
  lemma StylizeAbsent(text: string, toStyle: string, isPrerelease: bool)
    requires toStyle != "" && !Contains(text, toStyle)
    ensures StylizeText(text, toStyle, isPrerelease) == text
  {
    ReplaceAbsent(text, toStyle, Styled(toStyle, isPrerelease));
  }

  /** Styling the styled word alone gives its markup. */
  lemma StylizeWhole(toStyle: string, isPrerelease: bool)
    requires toStyle != ""
    ensures StylizeText(toStyle, toStyle, isPrerelease) == Styled(toStyle, isPrerelease)
  {
    assert StartsWith(toStyle, toStyle);
    assert toStyle[|toStyle|..] == [];
    assert Replace([], toStyle, Styled(toStyle, isPrerelease)) == [];
    assert Styled(toStyle, isPrerelease) + [] == Styled(toStyle, isPrerelease);
  }

  // ---------------------------------------------------------------------
  // get_free_port

  const MaxPort := 65535

  /** What `socket.connect_ex` raises for a port outside 0..65535. */
  const PortRangeError := "connect_ex(): port must be 0-65535."

  /**
    `get_free_port(port)`: the first port from `port` upwards that `inUse`
    (`is_port_in_use`) reports free. Probing a port outside 0..65535 raises,
    so a search that runs past 65535 fails.
   */
  method GetFreePort(port: int, inUse: int -> bool) returns (r: Result<int, string>)
    ensures r.Ok? ==> port <= r.value <= MaxPort && !inUse(r.value)
    ensures r.Ok? ==> forall p :: port <= p < r.value ==> inUse(p)
    ensures r.Err? ==> r.error == PortRangeError
    ensures r.Err? <==> port < 0 || forall p :: port <= p <= MaxPort ==> inUse(p)
  {
    if port < 0 || port > MaxPort {
      return Err(PortRangeError);
    }
    var p := port;
    while true
      invariant port <= p <= MaxPort + 1
      invariant forall q :: port <= q < p ==> inUse(q)
      decreases MaxPort + 1 - p
    {
      if p > MaxPort {
        return Err(PortRangeError);
      }
      if !inUse(p) {
        return Ok(p);
      }
      p := p + 1;
    }
  }

  // ---------------------------------------------------------------------
  // migration

  datatype Operation = Test | Fix | Backup | Upgrade | Downgrade

  /** The command-line flags of `langflow migration`. */
  datatype MigrationFlags = MigrationFlags(
    test: bool, fix: bool, backup: bool,
    /** `--upgrade REVISION`, None when not given. */
    upgrade: Option<string>,
    /** `--downgrade REVISION`, None when not given. */
    downgrade: Option<string>,
    force: bool)

  /** `bool(revision)`: a revision option counts when given and not empty. */
  predicate Given(revision: Option<string>) {
    revision.Some? && revision.value != ""
  }

  /** Whether the flags ask for `op`. */
  predicate Asked(flags: MigrationFlags, op: Operation) {
    match op
    case Test => flags.test
    case Fix => flags.fix
    case Backup => flags.backup
    case Upgrade => Given(flags.upgrade)
    case Downgrade => Given(flags.downgrade)
  }

  const AllOperations: seq<Operation> := [Test, Fix, Backup, Upgrade, Downgrade]

  /** The operations taken from `ops` that the flags ask for, in order. */
  function Filtered(flags: MigrationFlags, ops: seq<Operation>): (r: seq<Operation>)
    ensures |r| <= |ops|
    ensures forall op :: op in r <==> op in ops && Asked(flags, op)
  {
    if ops == [] then []
    else (if Asked(flags, ops[0]) then [ops[0]] else []) + Filtered(flags, ops[1..])
  }

  /** `requested_ops`: the operations asked for, in the order test, fix, backup, upgrade, downgrade. */
  function RequestedOps(flags: MigrationFlags): seq<Operation> {
    Filtered(flags, AllOperations)
  }

  /** The operation to run, or the exit code when more than one is asked for. */
  function SelectOperation(flags: MigrationFlags): Result<Operation, int> {
    SelectFrom(RequestedOps(flags))
  }

  /** Test when nothing is requested, the one operation requested, or exit code 1. */
  function SelectFrom(requested: seq<Operation>): Result<Operation, int> {
    if requested == [] then Ok(Test)
    else if |requested| > 1 then Err(1)
    else Ok(requested[0])
  }

  predicate Distinct(ops: seq<Operation>) {
    forall i, j :: 0 <= i < j < |ops| ==> ops[i] != ops[j]
  }

  /** `requested_ops` holds each operation at most once. */
  lemma {:induction false} FilteredDistinct(flags: MigrationFlags, ops: seq<Operation>)
    requires Distinct(ops)
    ensures Distinct(Filtered(flags, ops))
    decreases |ops|
  {
    if ops != [] {
      var rest := Filtered(flags, ops[1..]);
      forall i, j | 0 <= i < j < |ops[1..]|
        ensures ops[1..][i] != ops[1..][j]
      {
        assert ops[1..][i] == ops[i + 1] && ops[1..][j] == ops[j + 1];
      }
      assert Distinct(ops[1..]);
      FilteredDistinct(flags, ops[1..]);
      assert ops[0] !in ops[1..] by {
        forall k | 0 <= k < |ops[1..]|
          ensures ops[1..][k] != ops[0]
        {
          assert ops[1..][k] == ops[k + 1];
        }
      }
      var r := Filtered(flags, ops);
      if Asked(flags, ops[0]) {
        assert r == [ops[0]] + rest;
        forall i, j | 0 <= i < j < |r|
          ensures r[i] != r[j]
        {
          assert r[j] == rest[j - 1] && rest[j - 1] in rest;
          if i > 0 {
            assert r[i] == rest[i - 1];
            assert rest[i - 1] != rest[j - 1];
          }
        }
      } else {
        assert r == rest;
      }
    }
  }

  /** Every operation is one of the five. */
  lemma AllOperationsComplete(op: Operation)
    ensures op in AllOperations
  {
    match op
    case Test => assert AllOperations[0] == op;
    case Fix => assert AllOperations[1] == op;
    case Backup => assert AllOperations[2] == op;
    case Upgrade => assert AllOperations[3] == op;
    case Downgrade => assert AllOperations[4] == op;
  }

  /**
    With no operation asked for, "test" runs; with exactly one, that one
    runs; with more, the command exits with code 1.
   */
  lemma SelectExactlyOne(flags: MigrationFlags)
    ensures SelectOperation(flags).Err? <==> exists a, b :: a != b && Asked(flags, a) && Asked(flags, b)
    ensures SelectOperation(flags).Err? ==> SelectOperation(flags).error == 1
    ensures (forall op :: !Asked(flags, op)) ==> SelectOperation(flags) == Ok(Test)
    ensures forall op :: Asked(flags, op) && (forall other :: Asked(flags, other) ==> other == op) ==>
              SelectOperation(flags) == Ok(op)
  {
    RequestedExactly(flags);
    SelectChoice(RequestedOps(flags), flags);
  }

  /** `requested_ops` lists each operation asked for, once. */
  lemma RequestedExactly(flags: MigrationFlags)
    ensures Distinct(RequestedOps(flags))
    ensures forall op :: op in RequestedOps(flags) <==> Asked(flags, op)
  {
    FilteredDistinct(flags, AllOperations);
    forall op | Asked(flags, op)
      ensures op in RequestedOps(flags)
    {
      AllOperationsComplete(op);
    }
  }

  /** Selecting from a list holding each asked-for operation once. */
  lemma SelectChoice(requested: seq<Operation>, flags: MigrationFlags)
    requires Distinct(requested)
    requires forall op :: op in requested <==> Asked(flags, op)
    ensures SelectFrom(requested).Err? <==> exists a, b :: a != b && Asked(flags, a) && Asked(flags, b)
    ensures SelectFrom(requested).Err? ==> SelectFrom(requested).error == 1
    ensures (forall op :: !Asked(flags, op)) ==> SelectFrom(requested) == Ok(Test)
    ensures forall op :: Asked(flags, op) && (forall other :: Asked(flags, other) ==> other == op) ==>
              SelectFrom(requested) == Ok(op)
  {
    if |requested| > 1 {
      assert requested[0] != requested[1];
      assert requested[0] in requested && requested[1] in requested;
    }
    if exists a, b :: a != b && Asked(flags, a) && Asked(flags, b) {
      var a, b :| a != b && Asked(flags, a) && Asked(flags, b);
      assert a in requested && b in requested;
    }
    if |requested| >= 1 {
      assert requested[0] in requested;
    }
  }

  /** The operations that change the database. */
  predicate Destructive(op: Operation) {
    op == Fix || op == Upgrade || op == Downgrade
  }

  /** Whether `migration` offers a backup before running `op`. */
  predicate OffersBackup(force: bool, op: Operation, databaseUrl: string) {
    !force && Destructive(op) && StartsWith(databaseUrl, "sqlite")
  }

  /** How the selection and the backup offer end. */
  datatype Start = Exit(code: int) | Abort | Run(op: Operation, backedUp: bool)

  /**
    The start of `migration`: the operation, the backup offer with the two
    confirmations' answers, and whether the database was backed up first.
   */
  function MigrationStart(flags: MigrationFlags, databaseUrl: string, wantsBackup: bool, proceedWithout: bool): Start {
    match SelectOperation(flags)
    case Err(code) => Exit(code)
    case Ok(op) =>
      if OffersBackup(flags.force, op, databaseUrl) then
        if wantsBackup then Run(op, true)
        else if proceedWithout then Run(op, false)
        else Abort
      else Run(op, false)
  }

  /**
    A backup happens, or the command is aborted, only after the offer: not
    forced, a destructive operation, and an SQLite database. Declining both
    prompts aborts.
   */
  lemma BackupOnlyWhenOffered(flags: MigrationFlags, databaseUrl: string, wantsBackup: bool, proceedWithout: bool)
    requires SelectOperation(flags).Ok?
    ensures var start := MigrationStart(flags, databaseUrl, wantsBackup, proceedWithout);
            var op := SelectOperation(flags).value;
            (start == Run(op, true) <==> OffersBackup(flags.force, op, databaseUrl) && wantsBackup) &&
            (start == Abort <==> OffersBackup(flags.force, op, databaseUrl) && !wantsBackup && !proceedWithout) &&
            (start == Run(op, false) <==> !OffersBackup(flags.force, op, databaseUrl) || (!wantsBackup && proceedWithout))
  {
  }

  /** `--force`, the test and backup operations, and databases other than SQLite never see the offer. */
  lemma NoOfferCases(flags: MigrationFlags, databaseUrl: string, wantsBackup: bool, proceedWithout: bool)
    requires flags.force || SelectOperation(flags) == Ok(Test) || SelectOperation(flags) == Ok(Backup) ||
             !StartsWith(databaseUrl, "sqlite")
    ensures SelectOperation(flags).Ok? ==>
              MigrationStart(flags, databaseUrl, wantsBackup, proceedWithout) == Run(SelectOperation(flags).value, false)
  {
  }
}
