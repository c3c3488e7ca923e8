/**
 * The pure core of lib/branch_io_cli/commands/report_command.rb: the xcodebuild
 * command line, the requirement and version extractors, the version fallback chain
 * and the report header. What the command reads (the configuration, files, the
 * CocoaPods lock file, a property list, the output of `xcodebuild -version`) is given
 * as input.
 */
module Report {
  import opened Outcomes
  import opened Text

  // ---------------------------------------------------------------------------
  // The xcodebuild command line

  /** The report configuration's settings that base_xcodebuild_cmd reads; None is Ruby's nil. */
  datatype Options = Options(
    scheme: Option<string>,
    workspacePath: Option<string>,
    xcodeprojPath: Option<string>,
    target: Option<string>,
    configuration: Option<string>)

  /** The options base_xcodebuild_cmd may pass, in the order it appends them. */
  datatype Flag = Scheme | Workspace | Project | Target | Configuration

  /** The text put between the command so far and the option's value. */
  function FlagText(f: Flag): string {
    match f
    case Scheme => " -scheme "
    case Workspace => " -workspace "
    case Project => " -project "
    case Target => " -target "
    case Configuration => " -configuration "
  }

  /** The position of a flag in the order base_xcodebuild_cmd appends them. */
  function Rank(f: Flag): (k: nat)
    ensures k < FlagCount && FlagAt(k) == f
  {
    match f
    case Scheme => 0
    case Workspace => 1
    case Project => 2
    case Target => 3
    case Configuration => 4
  }

  const FlagCount: nat := 5

  function FlagAt(k: nat): Flag
    requires k < FlagCount
  {
    if k == 0 then Scheme
    else if k == 1 then Workspace
    else if k == 2 then Project
    else if k == 3 then Target
    else Configuration
  }

  datatype Arg = Arg(flag: Flag, value: string)

  const XcodebuildBase: string := "xcodebuild -sdk iphonesimulator"

  /** The value passed for a flag, if any: the project path only when there is no workspace path. */
  function Setting(o: Options, f: Flag): Option<string> {
    match f
    case Scheme => o.scheme
    case Workspace => o.workspacePath
    case Project => if o.workspacePath.None? then o.xcodeprojPath else None
    case Target => o.target
    case Configuration => o.configuration
  }

  function Given(f: Flag, v: Option<string>): seq<Arg> {
    if v.Some? then [Arg(f, v.value)] else []
  }

  /** The options for the first `k` flags, in order, each one when it has a value. */
  function ArgsUpTo(o: Options, k: nat): seq<Arg>
    requires k <= FlagCount
  {
    if k == 0 then []
    else ArgsUpTo(o, k - 1) + Given(FlagAt(k - 1), Setting(o, FlagAt(k - 1)))
  }

  lemma {:induction false} ArgsUpToSpec(o: Options, k: nat)
    requires k <= FlagCount
    ensures forall f, v :: Arg(f, v) in ArgsUpTo(o, k) <==> Rank(f) < k && Setting(o, f) == Some(v)
    ensures forall i, j :: 0 <= i < j < |ArgsUpTo(o, k)| ==> Rank(ArgsUpTo(o, k)[i].flag) < Rank(ArgsUpTo(o, k)[j].flag)
  {
    if k > 0 {
      ArgsUpToSpec(o, k - 1);
      var args := ArgsUpTo(o, k - 1);
      assert forall a | a in args :: Rank(a.flag) < k - 1 by {
        forall a | a in args ensures Rank(a.flag) < k - 1 {
          assert Arg(a.flag, a.value) in args;
        }
      }
    }
  }

  /**
   * The options of the command: each one exactly when it is set (the project only
   * without a workspace), in the fixed order scheme, workspace, project, target,
   * configuration; so a workspace and a project are never both passed.
   */
  function XcodebuildArgs(o: Options): (args: seq<Arg>)
    ensures forall f, v :: Arg(f, v) in args <==> Setting(o, f) == Some(v)
    ensures forall i, j :: 0 <= i < j < |args| ==> Rank(args[i].flag) < Rank(args[j].flag)
    ensures forall w, p :: !(Arg(Workspace, w) in args && Arg(Project, p) in args)
    ensures forall p :: Arg(Project, p) in args <==> o.xcodeprojPath == Some(p) && o.workspacePath.None?
  {
    ArgsUpToSpec(o, FlagCount);
    ArgsUpTo(o, FlagCount)
  }

  /**
   * The command line with the options `args` appended in turn to the simulator SDK
   * command, each as `"#{cmd} -scheme #{scheme}"` does it: no quoting of the value.
   */
  function Command(args: seq<Arg>): (cmd: string)
    ensures |cmd| >= |XcodebuildBase| && cmd[..|XcodebuildBase|] == XcodebuildBase
  {
    if args == [] then XcodebuildBase
    else
      var a := args[|args| - 1];
      Command(args[..|args| - 1]) + FlagText(a.flag) + a.value
  }

  /**
   * One `cmd = "#{cmd} -scheme #{scheme}" if scheme` line of base_xcodebuild_cmd, for
   * the k-th flag: the command so far gains that flag and its value exactly when the
   * flag has a value (the project path only when there is no workspace path).
   */
  method AppendFlag(o: Options, k: nat, cmd: string) returns (r: string)
    requires k < FlagCount && cmd == Command(ArgsUpTo(o, k))
    ensures r == Command(ArgsUpTo(o, k + 1))
  {
    Appended(o, k);
    r := cmd;
    var value := Setting(o, FlagAt(k));
    if value.Some? {
      r := r + FlagText(FlagAt(k)) + value.value;
    }
  }

  /**
   * base_xcodebuild_cmd: start from the simulator SDK command and append the scheme,
   * workspace, project, target and configuration options in turn.
   */
  method BaseXcodebuildCmd(o: Options) returns (cmd: string)
    ensures cmd == Command(XcodebuildArgs(o))
  {
    cmd := "xcodebuild -sdk iphonesimulator";
    cmd := AppendFlag(o, 0, cmd);
    cmd := AppendFlag(o, 1, cmd);
    cmd := AppendFlag(o, 2, cmd);
    cmd := AppendFlag(o, 3, cmd);
    cmd := AppendFlag(o, 4, cmd);
  }

  /** One step of base_xcodebuild_cmd appends the next flag and its value when the flag has one. */
  lemma Appended(o: Options, k: nat)
    requires k < FlagCount
    ensures Command(ArgsUpTo(o, k + 1)) ==
      if Setting(o, FlagAt(k)).Some? then Command(ArgsUpTo(o, k)) + FlagText(FlagAt(k)) + Setting(o, FlagAt(k)).value
      else Command(ArgsUpTo(o, k))
  {
    var args := ArgsUpTo(o, k);
    if Setting(o, FlagAt(k)).Some? {
      var a := Arg(FlagAt(k), Setting(o, FlagAt(k)).value);
      assert (args + [a])[..|args|] == args;
    } else {
      assert args + [] == args;
    }
  }

  // ---------------------------------------------------------------------------
  // Scanning text the way the report's regular expressions do

  /** End of the run of `\s` characters starting at `i`: what a greedy `\s*` consumes. */
  function SpaceRun(t: string, i: nat): (j: nat)
    requires i <= |t|
    ensures i <= j <= |t|
    decreases |t| - i
  {
    if i == |t| || !IsRegexSpace(t[i]) then i else SpaceRun(t, i + 1)
  }

  /** The run is all white space and stops at the first other character. */
  lemma {:induction false} SpaceRunSpec(t: string, i: nat)
    requires i <= |t|
    ensures forall k :: i <= k < SpaceRun(t, i) ==> IsRegexSpace(t[k])
    ensures SpaceRun(t, i) < |t| ==> !IsRegexSpace(t[SpaceRun(t, i)])
    decreases |t| - i
  {
    if i < |t| && IsRegexSpace(t[i]) {
      SpaceRunSpec(t, i + 1);
    }
  }

  /** End of the run of digits starting at `i`: what a greedy `\d+` consumes. */
  function DigitRun(t: string, i: nat): (j: nat)
    requires i <= |t|
    ensures i <= j <= |t|
    decreases |t| - i
  {
    if i == |t| || !IsDigit(t[i]) then i else DigitRun(t, i + 1)
  }

  /** The run is all digits and stops at the first other character. */
  lemma {:induction false} DigitRunSpec(t: string, i: nat)
    requires i <= |t|
    ensures forall k :: i <= k < DigitRun(t, i) ==> IsDigit(t[k])
    ensures DigitRun(t, i) < |t| ==> !IsDigit(t[DigitRun(t, i)])
    decreases |t| - i
  {
    if i < |t| && IsDigit(t[i]) {
      DigitRunSpec(t, i + 1);
    }
  }

  /** The first newline at or after `i`: where a lazy `.*?\n` (`.` matching newlines under /m) stops. */
  function NextNewline(t: string, i: nat): (r: Option<nat>)
    requires i <= |t|
    ensures r.Some? ==> i <= r.value < |t| && t[r.value] == '\n' && forall k :: i <= k < r.value ==> t[k] != '\n'
    ensures r.None? ==> forall k :: i <= k < |t| ==> t[k] != '\n'
    decreases |t| - i
  {
    if i == |t| then None else if t[i] == '\n' then Some(i) else NextNewline(t, i + 1)
  }

  predicate AllDigits(s: string) {
    forall k :: 0 <= k < |s| ==> IsDigit(s[k])
  }

  /** `v` is three non-empty digit runs with dots at `a` and `b` between them. */
  predicate VersionShape(v: string, a: nat, b: nat) {
    0 < a && a + 1 < b && b + 1 < |v| && v[a] == '.' && v[b] == '.'
    && AllDigits(v[..a]) && AllDigits(v[a + 1..b]) && AllDigits(v[b + 1..])
  }

  /** `\d+\.\d+\.\d+`, the version the report's patterns capture. */
  predicate IsVersion(v: string) {
    exists a: nat, b: nat | a < b < |v| :: VersionShape(v, a, b)
  }

  /**
   * `(\d+\.\d+\.\d+)"` at `q`: the index of the closing quote. Each greedy `\d+`
   * cannot give characters back, since a digit is never a dot or a quote.
   */
  function VersionAt(t: string, q: nat): (e: Option<nat>)
    requires q <= |t|
    ensures e.Some? ==> q < e.value < |t| && t[e.value] == '"'
  {
    var d1 := DigitRun(t, q);
    if d1 == q || d1 == |t| || t[d1] != '.' then None
    else
      var d2 := DigitRun(t, d1 + 1);
      if d2 == d1 + 1 || d2 == |t| || t[d2] != '.' then None
      else
        var d3 := DigitRun(t, d2 + 1);
        if d3 == d2 + 1 || d3 == |t| || t[d3] != '"' then None
        else Some(d3)
  }

  /** What VersionAt reads before the closing quote is a version. */
  lemma VersionAtIsVersion(t: string, q: nat)
    requires q <= |t| && VersionAt(t, q).Some?
    ensures IsVersion(t[q..VersionAt(t, q).value])
  {
    var d1 := DigitRun(t, q);
    var d2 := DigitRun(t, d1 + 1);
    var d3 := DigitRun(t, d2 + 1);
    DigitRunSpec(t, q);
    DigitRunSpec(t, d1 + 1);
    DigitRunSpec(t, d2 + 1);
    var v := t[q..d3];
    DigitsWithin(t, q, d3, q, d1);
    DigitsWithin(t, q, d3, d1 + 1, d2);
    DigitsWithin(t, q, d3, d2 + 1, d3);
    assert v[..d1 - q] == v[0..d1 - q] && v[d2 - q + 1..] == v[d2 - q + 1..d3 - q];
    assert VersionShape(v, d1 - q, d2 - q);
  }

  /** Digits between `lo` and `hi` stay digits in a slice of the text that holds them. */
  lemma DigitsWithin(t: string, q: nat, e: nat, lo: nat, hi: nat)
    requires q <= lo <= hi <= e <= |t| && forall k :: lo <= k < hi ==> IsDigit(t[k])
    ensures AllDigits(t[q..e][lo - q..hi - q])
  {
    var u := t[q..e][lo - q..hi - q];
    forall k | 0 <= k < |u|
      ensures IsDigit(u[k])
    {
      assert u[k] == t[lo + k];
    }
  }

  /** A greedy digit run stops exactly at the end of the digits. */
  lemma DigitRunIs(t: string, i: nat, j: nat)
    requires i <= j <= |t| && AllDigits(t[i..j]) && (j < |t| ==> !IsDigit(t[j]))
    ensures DigitRun(t, i) == j
  {
    var d := DigitRun(t, i);
    DigitRunSpec(t, i);
  }

  /** VersionAt reads back exactly a version followed by a quote. */
  lemma VersionAtReadsVersion(t: string, q: nat, v: string)
    requires IsVersion(v) && LiteralAt(t, q, v) && q + |v| < |t| && t[q + |v|] == '"'
    ensures VersionAt(t, q) == Some(q + |v|)
  {
    var a: nat, b: nat :| a < b < |v| && VersionShape(v, a, b);
    assert AllDigits(t[q..q + a]) by {
      assert t[q..q + a] == v[..a];
    }
    DigitRunIs(t, q, q + a);
    assert AllDigits(t[q + a + 1..q + b]) by {
      assert t[q + a + 1..q + b] == v[a + 1..b];
    }
    DigitRunIs(t, q + a + 1, q + b);
    assert AllDigits(t[q + b + 1..q + |v|]) by {
      assert t[q + b + 1..q + |v|] == v[b + 1..];
    }
    DigitRunIs(t, q + b + 1, q + |v|);
  }

  /** A version written at `q` and closed by a quote is read back as itself. */
  lemma VersionRead(t: string, q: nat, v: string)
    requires IsVersion(v) && LiteralAt(t, q, v) && q + |v| < |t| && t[q + |v|] == '"'
    ensures VersionAt(t, q) == Some(q + |v|) && t[q..q + |v|] == v
  {
    VersionAtReadsVersion(t, q, v);
    LiteralIsStartsAt(t, q, v);
  }

  // ---------------------------------------------------------------------------
  // The four regular expressions of the report, one match attempt at a time

  const CurrentRepo: string := "ios-branch-deep-linking"
  const LegacyRepo: string := "iOS-Deferred-Deep-Linking-SDK"
  const Owner: string := "BranchMetrics/"

  /** `(ios-branch-deep-linking|iOS-Deferred-Deep-Linking-SDK)` at `p`: the end of the name. */
  function RepoAt(t: string, p: nat): (e: Option<nat>)
    requires p <= |t|
    ensures e.Some? ==> e.value <= |t| && (LiteralAt(t, p, CurrentRepo) || LiteralAt(t, p, LegacyRepo))
    ensures e.None? <==> !LiteralAt(t, p, CurrentRepo) && !LiteralAt(t, p, LegacyRepo)
  {
    if LiteralAt(t, p, CurrentRepo) then Some(p + |CurrentRepo|)
    else if LiteralAt(t, p, LegacyRepo) then Some(p + |LegacyRepo|)
    else None
  }

  /**
   * The lazy `[^\n]+?BranchMetrics/(…)` of the Cartfile pattern, having consumed up to
   * `p`: the end of the repository name at the first place on this line where
   * `BranchMetrics/` and a repository name follow.
   */
  function RepoOnLine(t: string, p: nat): (e: Option<nat>)
    requires 1 <= p
    ensures e.Some? ==> exists m :: p <= m && m + |Owner| <= |t| && LiteralAt(t, m, Owner) && RepoAt(t, m + |Owner|) == e
    decreases |t| + 1 - p
  {
    if p > |t| || t[p - 1] == '\n' then None
    else if LiteralAt(t, p, Owner) && RepoAt(t, p + |Owner|).Some? then RepoAt(t, p + |Owner|)
    else RepoOnLine(t, p + 1)
  }

  /** Where a match starts and ends, and the text the caller reads from it. */
  datatype Hit = Hit(start: nat, end: nat, group: string)

  /** The patterns of report_command.rb, all under Ruby's /m, where `.` also matches a newline. */
  datatype Pattern =
    | PodfileRequirement    // /\n?\s*pod\s+("Branch"|'Branch').*?\n/m
    | CartfileRequirement   // %r{\n?[^\n]+?BranchMetrics/(ios-branch-deep-linking|iOS-Deferred-Deep-Linking-SDK.*?).*?\n}m
    | ResolvedVersion       // %r{(ios-branch-deep-linking|iOS-Deferred-Deep-Linking-SDK)/?" "(\d+\.\d+\.\d+)"}m
    | BncVersion            // /BNC_SDK_VERSION\s+=\s+@"(\d+\.\d+\.\d+)"/m

  /**
   * The Podfile pattern tried at `i`: `\n?\s*` takes the whole run of white space (a
   * shorter run would leave white space where `pod` must be), `\s+` likewise, and the
   * lazy `.*?\n` ends at the first newline after the quoted name. The group is the
   * whole match, `matches[0]`.
   */
  function PodfileRequirementAt(t: string, i: nat): (h: Option<Hit>)
    requires i <= |t|
    ensures h.Some? ==> h.value.start == i < h.value.end <= |t| && h.value.group == t[i..h.value.end]
  {
    var j := SpaceRun(t, i);
    if !LiteralAt(t, j, "pod") then None
    else
      var k := SpaceRun(t, j + 3);
      if k == j + 3 || !(LiteralAt(t, k, "\"Branch\"") || LiteralAt(t, k, "'Branch'")) then None
      else
        match NextNewline(t, k + 8)
        case None => None
        case Some(nl) => Some(Hit(i, nl + 1, t[i..nl + 1]))
  }

  /**
   * The Cartfile pattern tried at `i`: an optional newline, then at least one character
   * of the same line before `BranchMetrics/` and a repository name, then everything up
   * to the first newline after the name. The group is the whole match.
   */
  function CartfileRequirementAt(t: string, i: nat): (h: Option<Hit>)
    requires i <= |t|
    ensures h.Some? ==> h.value.start == i < h.value.end <= |t| && h.value.group == t[i..h.value.end]
  {
    var lineStart := if i < |t| && t[i] == '\n' then i + 1 else i;
    match RepoOnLine(t, lineStart + 1)
    case None => None
    case Some(e) =>
      match NextNewline(t, e)
      case None => None
      case Some(nl) => Some(Hit(i, nl + 1, t[i..nl + 1]))
  }

  /**
   * The Cartfile.resolved pattern tried at `i`: a repository name, an optional slash,
   * `" "`, then the version and its closing quote. The group is the version, `matches[2]`.
   */
  function ResolvedVersionAt(t: string, i: nat): (h: Option<Hit>)
    requires i <= |t|
    ensures h.Some? ==> h.value.start == i < h.value.end <= |t|
  {
    match RepoAt(t, i)
    case None => None
    case Some(e) =>
      var e' := if e < |t| && t[e] == '/' then e + 1 else e;
      if !LiteralAt(t, e', "\" \"") then None
      else
        match VersionAt(t, e' + 3)
        case None => None
        case Some(c) => Some(Hit(i, c + 1, t[e' + 3..c]))
  }

  /**
   * The BNCConfig.m pattern tried at `i`: `BNC_SDK_VERSION`, white space, `=`, white
   * space, `@"`, then the version and its closing quote. The group is the version,
   * `matches[1]`.
   */
  function BncVersionAt(t: string, i: nat): (h: Option<Hit>)
    requires i <= |t|
    ensures h.Some? ==> h.value.start == i < h.value.end <= |t|
  {
    if !LiteralAt(t, i, "BNC_SDK_VERSION") then None
    else
      var s1 := SpaceRun(t, i + 15);
      if s1 == i + 15 || s1 == |t| || t[s1] != '=' then None
      else
        var s2 := SpaceRun(t, s1 + 1);
        if s2 == s1 + 1 || !LiteralAt(t, s2, "@\"") then None
        else
          match VersionAt(t, s2 + 2)
          case None => None
          case Some(c) => Some(Hit(i, c + 1, t[s2 + 2..c]))
  }

  function MatchAt(pat: Pattern, t: string, i: nat): (h: Option<Hit>)
    requires i <= |t|
    ensures h.Some? ==> h.value.start == i < h.value.end <= |t|
  {
    match pat
    case PodfileRequirement => PodfileRequirementAt(t, i)
    case CartfileRequirement => CartfileRequirementAt(t, i)
    case ResolvedVersion => ResolvedVersionAt(t, i)
    case BncVersion => BncVersionAt(t, i)
  }

  /** The leftmost position from `i` to `n` where `found` holds. */
  function Leftmost(found: nat -> bool, n: nat, i: nat): (p: Option<nat>)
    ensures p.Some? ==> i <= p.value <= n && found(p.value)
    decreases n + 1 - i
  {
    if i > n then None
    else if found(i) then Some(i)
    else Leftmost(found, n, i + 1)
  }

  /** The leftmost position is the first: `found` fails everywhere the scan passed over. */
  lemma {:induction false} LeftmostSkips(found: nat -> bool, n: nat, i: nat)
    ensures Leftmost(found, n, i).Some? ==> forall q :: i <= q < Leftmost(found, n, i).value ==> !found(q)
    ensures Leftmost(found, n, i).None? ==> forall q :: i <= q <= n ==> !found(q)
    decreases n + 1 - i
  {
    if i <= n && !found(i) {
      LeftmostSkips(found, n, i + 1);
    }
  }

  /** Whether `pat` matches `t` at a position. */
  function Matches(pat: Pattern, t: string): nat -> bool {
    (q: nat) => q <= |t| && MatchAt(pat, t, q).Some?
  }

  /** `Regexp#match` from `i` on: the match at the leftmost position where one exists. */
  function Search(pat: Pattern, t: string, i: nat): (h: Option<Hit>)
    ensures h.Some? ==> i <= h.value.start <= |t| && MatchAt(pat, t, h.value.start) == h
  {
    match Leftmost(Matches(pat, t), |t|, i)
    case None => None
    case Some(p) => MatchAt(pat, t, p)
  }

  /** The search passes over no position where the pattern matches. */
  lemma SearchSkips(pat: Pattern, t: string, i: nat)
    ensures Search(pat, t, i).Some? ==> forall q :: i <= q < Search(pat, t, i).value.start ==> MatchAt(pat, t, q).None?
    ensures Search(pat, t, i).None? ==> forall q :: i <= q <= |t| ==> MatchAt(pat, t, q).None?
  {
    LeftmostSkips(Matches(pat, t), |t|, i);
    forall q | i <= q <= |t| && !Matches(pat, t)(q)
      ensures MatchAt(pat, t, q).None?
    {
    }
  }

  /** `pat.match(t)`. */
  function FirstMatch(pat: Pattern, t: string): Option<Hit> {
    Search(pat, t, 0)
  }

  // ---------------------------------------------------------------------------
  // Requirements and versions

  /** What `Pod::Lockfile` yields that the report reads. */
  datatype Lockfile = Lockfile(cocoapodsVersion: string, branchVersion: Option<string>)

  /**
   * What the report command reads, read beforehand. Each Option is None when the
   * command would not read it: no Podfile or Cartfile path configured, no lock or
   * resolved file beside it, no Branch.framework with an Info.plist carrying a
   * CFBundleVersion, no BNCConfig.m in the project. None also stands for a Podfile,
   * Cartfile or BNCConfig.m that is referenced but cannot be read, where the Ruby
   * raises instead; this model has no error for those reads.
   */
  datatype Sources = Sources(
    xcodebuildVersion: string,
    podfile: Option<string>,
    podfileLock: Option<Lockfile>,
    cartfile: Option<string>,
    cartfileResolved: Option<string>,
    frameworkBundleVersion: Option<string>,
    bncConfigM: Option<string>)

  /** requirement_from_podfile: the first Podfile line that declares the Branch pod, stripped. */
  function RequirementFromPodfile(podfile: Option<string>): Option<string> {
    if podfile.None? then None
    else
      match FirstMatch(PodfileRequirement, podfile.value)
      case None => None
      case Some(h) => Some(Strip(h.group))
  }

  /** requirement_from_cartfile: the first Cartfile line that names a Branch repository, stripped. */
  function RequirementFromCartfile(cartfile: Option<string>): Option<string> {
    if cartfile.None? then None
    else
      match FirstMatch(CartfileRequirement, cartfile.value)
      case None => None
      case Some(h) => Some(Strip(h.group))
  }

  const PodfileLockTag: string := " [Podfile.lock]"
  const CartfileResolvedTag: string := " [Cartfile.resolved]"
  const FrameworkTag: string := " [Branch.framework/Info.plist]"
  const BncConfigTag: string := " [BNCConfig.m]"

  /** version_from_podfile_lock: the Branch version the lock file records, tagged with its source. */
  function VersionFromPodfileLock(s: Sources): (r: Option<string>)
    ensures r.Some? <==> s.podfileLock.Some? && s.podfileLock.value.branchVersion.Some?
    ensures r.Some? ==> r.value == s.podfileLock.value.branchVersion.value + PodfileLockTag
  {
    if s.podfileLock.None? then None
    else
      match s.podfileLock.value.branchVersion
      case None => None
      case Some(v) => Some(v + PodfileLockTag)
  }

  /** version_from_cartfile_resolved: the version pinned for a Branch repository, tagged. */
  function VersionFromCartfileResolved(s: Sources): (r: Option<string>)
    ensures r.Some? <==> s.cartfileResolved.Some? && exists i :: 0 <= i <= |s.cartfileResolved.value| && ResolvedVersionAt(s.cartfileResolved.value, i).Some?
  {
    if s.cartfileResolved.None? then None
    else
      match FirstMatch(ResolvedVersion, s.cartfileResolved.value)
      case None =>
        SearchSkips(ResolvedVersion, s.cartfileResolved.value, 0);
        assert forall i :: 0 <= i <= |s.cartfileResolved.value| ==> MatchAt(ResolvedVersion, s.cartfileResolved.value, i) == ResolvedVersionAt(s.cartfileResolved.value, i);
        None
      case Some(h) => Some(h.group + CartfileResolvedTag)
  }

  /** version_from_branch_framework: the framework's CFBundleVersion, tagged. */
  function VersionFromBranchFramework(s: Sources): (r: Option<string>)
    ensures r.Some? <==> s.frameworkBundleVersion.Some?
    ensures r.Some? ==> r.value == s.frameworkBundleVersion.value + FrameworkTag
  {
    match s.frameworkBundleVersion
    case None => None
    case Some(v) => Some(v + FrameworkTag)
  }

  /** version_from_bnc_config_m: the version BNCConfig.m assigns to BNC_SDK_VERSION, tagged. */
  function VersionFromBncConfigM(s: Sources): (r: Option<string>)
    ensures r.Some? <==> s.bncConfigM.Some? && exists i :: 0 <= i <= |s.bncConfigM.value| && BncVersionAt(s.bncConfigM.value, i).Some?
  {
    if s.bncConfigM.None? then None
    else
      match FirstMatch(BncVersion, s.bncConfigM.value)
      case None =>
        SearchSkips(BncVersion, s.bncConfigM.value, 0);
        assert forall i :: 0 <= i <= |s.bncConfigM.value| ==> MatchAt(BncVersion, s.bncConfigM.value, i) == BncVersionAt(s.bncConfigM.value, i);
        None
      case Some(h) => Some(h.group + BncConfigTag)
  }

  /** The version sources in the order branch_version consults them. */
  function VersionCandidates(s: Sources): seq<Option<string>> {
    [VersionFromPodfileLock(s), VersionFromCartfileResolved(s), VersionFromBranchFramework(s), VersionFromBncConfigM(s)]
  }

  /** Ruby's `a || b || …` over optional values: the first one that is not nil. */
  function FirstSome(xs: seq<Option<string>>): (r: Option<string>)
    ensures r.None? <==> forall k :: 0 <= k < |xs| ==> xs[k].None?
    ensures r.Some? ==> exists k :: 0 <= k < |xs| && xs[k] == r && forall j :: 0 <= j < k ==> xs[j].None?
  {
    if xs == [] then None
    else if xs[0].Some? then xs[0]
    else
      var r := FirstSome(xs[1..]);
      assert forall k :: 1 <= k < |xs| ==> xs[k] == xs[1..][k - 1];
      if r.Some? then
        ghost var k :| 0 <= k < |xs[1..]| && xs[1..][k] == r && forall j :: 0 <= j < k ==> xs[1..][j].None?;
        assert xs[k + 1] == r;
        r
      else r
  }

  /** branch_version: the first version found, trying the sources in their fixed order. */
  function BranchVersion(s: Sources): Option<string> {
    FirstSome(VersionCandidates(s))
  }

  // ---------------------------------------------------------------------------
  // What the extractors promise

  /** The pieces of one match of the Podfile pattern. */
  lemma PodfileHitParts(t: string, i: nat) returns (j: nat, k: nat, nl: nat, quote: string)
    requires i <= |t| && PodfileRequirementAt(t, i).Some?
    ensures i <= j && j + 3 < k && k + 8 <= nl < |t|
    ensures forall q :: i <= q < j ==> IsRegexSpace(t[q])
    ensures LiteralAt(t, j, "pod") && LiteralAt(t, k, quote) && (quote == "\"Branch\"" || quote == "'Branch'")
    ensures PodfileRequirementAt(t, i).value.group == t[i..nl + 1]
  {
    j := SpaceRun(t, i);
    k := SpaceRun(t, j + 3);
    SpaceRunSpec(t, i);
    nl := NextNewline(t, k + 8).value;
    quote := if LiteralAt(t, k, "\"Branch\"") then "\"Branch\"" else "'Branch'";
  }

  /** `pod` and the quoted pod name neither start nor end with white space. */
  lemma PodNeedles(quote: string)
    requires quote == "\"Branch\"" || quote == "'Branch'"
    ensures !IsStripSpace("pod"[0]) && !IsStripSpace("pod"[2])
    ensures quote != [] && !IsStripSpace(quote[0]) && !IsStripSpace(quote[|quote| - 1])
  {
  }

  /** The same pieces, as positions in the matched text itself. */
  lemma PodfileGroupParts(t: string, i: nat) returns (j: nat, k: nat, quote: string)
    requires i <= |t| && PodfileRequirementAt(t, i).Some?
    ensures var g := PodfileRequirementAt(t, i).value.group;
      j <= |g| && (forall q :: 0 <= q < j ==> IsStripSpace(g[q])) && LiteralAt(g, j, "pod") && LiteralAt(g, k, quote)
    ensures quote == "\"Branch\"" || quote == "'Branch'"
  {
    var j', k', nl, quote' := PodfileHitParts(t, i);
    var g := t[i..nl + 1];
    LiteralShift(t, i, nl + 1, k', quote');
    LiteralShift(t, i, nl + 1, j', "pod");
    SpaceShift(t, i, nl + 1, j');
    j, k, quote := j' - i, k' - i, quote';
  }

  /** What one match of the Podfile pattern leaves once stripped. */
  lemma PodfileHitShape(t: string, i: nat)
    requires i <= |t| && PodfileRequirementAt(t, i).Some?
    ensures var r := Strip(PodfileRequirementAt(t, i).value.group);
      LiteralAt(r, 0, "pod") && (Contains(r, "\"Branch\"") || Contains(r, "'Branch'"))
  {
    var j, k, quote := PodfileGroupParts(t, i);
    var g := PodfileRequirementAt(t, i).value.group;
    PodNeedles(quote);
    StripKeeps(g, k, quote);
    StripKeeps(g, j, "pod");
  }

  /**
   * A requirement read from a Podfile starts with `pod` and names the Branch pod in
   * quotes; there is one exactly when the pattern matches somewhere in the Podfile.
   */
  lemma PodfileRequirementShape(t: string)
    ensures RequirementFromPodfile(Some(t)).Some? <==> exists i :: 0 <= i <= |t| && PodfileRequirementAt(t, i).Some?
    ensures RequirementFromPodfile(Some(t)).Some? ==>
      var r := RequirementFromPodfile(Some(t)).value;
      LiteralAt(r, 0, "pod") && (Contains(r, "\"Branch\"") || Contains(r, "'Branch'"))
  {
    var h := FirstMatch(PodfileRequirement, t);
    if h.Some? {
      assert MatchAt(PodfileRequirement, t, h.value.start) == PodfileRequirementAt(t, h.value.start);
      PodfileHitShape(t, h.value.start);
    } else {
      SearchSkips(PodfileRequirement, t, 0);
      forall i | 0 <= i <= |t|
        ensures PodfileRequirementAt(t, i).None?
      {
        assert MatchAt(PodfileRequirement, t, i) == PodfileRequirementAt(t, i);
      }
    }
  }

  /**
   * The Podfile pattern needs a newline after the Branch pod's name, so a Podfile with
   * no newline at all (a single `pod 'Branch'` line without one, say) yields no requirement.
   */
  lemma PodfileRequirementNeedsNewline(t: string)
    requires forall k :: 0 <= k < |t| ==> t[k] != '\n'
    ensures RequirementFromPodfile(Some(t)).None?
  {
    var h := FirstMatch(PodfileRequirement, t);
    if h.Some? {
      assert false;
    }
  }

  /** The repository name `RepoAt` recognised. */
  lemma RepoNamed(t: string, p: nat) returns (name: string)
    requires p <= |t| && RepoAt(t, p).Some?
    ensures (name == CurrentRepo || name == LegacyRepo) && LiteralAt(t, p, name)
    ensures RepoAt(t, p) == Some(p + |name|)
  {
    name := if LiteralAt(t, p, CurrentRepo) then CurrentRepo else LegacyRepo;
  }

  /** `BranchMetrics/` followed by a repository name. */
  lemma OwnerRepoAt(t: string, m: nat) returns (name: string)
    requires m + |Owner| <= |t| && LiteralAt(t, m, Owner) && RepoAt(t, m + |Owner|).Some?
    ensures (name == CurrentRepo || name == LegacyRepo) && LiteralAt(t, m, Owner + name)
    ensures RepoAt(t, m + |Owner|) == Some(m + |Owner| + |name|)
  {
    name := RepoNamed(t, m + |Owner|);
    LiteralConcat(t, m, Owner, name);
  }

  /** Where the repository name found on the line starts, and which name it is. */
  lemma RepoOnLineParts(t: string, p: nat) returns (m: nat, name: string)
    requires 1 <= p && RepoOnLine(t, p).Some?
    ensures p <= m && (name == CurrentRepo || name == LegacyRepo) && LiteralAt(t, m, Owner + name)
    ensures RepoOnLine(t, p) == Some(m + |Owner| + |name|)
  {
    m :| p <= m && m + |Owner| <= |t| && LiteralAt(t, m, Owner) && RepoAt(t, m + |Owner|) == RepoOnLine(t, p);
    name := OwnerRepoAt(t, m);
  }

  /** Where the repository name of a Cartfile match ends, and the newline that ends the match. */
  lemma CartfileHitEnds(t: string, i: nat) returns (e: nat, nl: nat)
    requires i <= |t| && CartfileRequirementAt(t, i).Some?
    ensures var lineStart := if i < |t| && t[i] == '\n' then i + 1 else i;
      RepoOnLine(t, lineStart + 1) == Some(e)
    ensures e <= nl < |t| && CartfileRequirementAt(t, i).value.group == t[i..nl + 1]
  {
    var lineStart := if i < |t| && t[i] == '\n' then i + 1 else i;
    var r := RepoOnLine(t, lineStart + 1);
    assert r.Some?;
    e := r.value;
    assert e <= |t|;
    var n := NextNewline(t, e);
    assert n.Some?;
    nl := n.value;
  }

  /** The pieces of one match of the Cartfile pattern. */
  lemma CartfileHitParts(t: string, i: nat) returns (m: nat, e: nat, nl: nat, name: string)
    requires i <= |t| && CartfileRequirementAt(t, i).Some?
    ensures i < m && m + |Owner| + |name| == e <= nl < |t|
    ensures LiteralAt(t, m, Owner + name) && (name == CurrentRepo || name == LegacyRepo)
    ensures CartfileRequirementAt(t, i).value.group == t[i..nl + 1]
  {
    var lineStart := if i < |t| && t[i] == '\n' then i + 1 else i;
    e, nl := CartfileHitEnds(t, i);
    m, name := RepoOnLineParts(t, lineStart + 1);
  }

  /** `BranchMetrics/` and a repository name neither start nor end with white space. */
  lemma NeedleEnds(name: string)
    requires name == CurrentRepo || name == LegacyRepo
    ensures var p := Owner + name; p != [] && !IsStripSpace(p[0]) && !IsStripSpace(p[|p| - 1])
  {
    assert (Owner + name)[0] == 'B';
    assert (Owner + name)[|Owner + name| - 1] == name[|name| - 1];
  }

  /** What one match of the Cartfile pattern leaves once stripped. */
  lemma CartfileHitShape(t: string, i: nat)
    requires i <= |t| && CartfileRequirementAt(t, i).Some?
    ensures var r := Strip(CartfileRequirementAt(t, i).value.group);
      Contains(r, Owner + CurrentRepo) || Contains(r, Owner + LegacyRepo)
  {
    var m, e, nl, name := CartfileHitParts(t, i);
    LiteralShift(t, i, nl + 1, m, Owner + name);
    NeedleEnds(name);
    StripKeeps(t[i..nl + 1], m - i, Owner + name);
  }

  /**
   * A requirement read from a Cartfile contains `BranchMetrics/` followed by one of the
   * two repository names; there is one exactly when the pattern matches somewhere.
   */
  lemma CartfileRequirementShape(t: string)
    ensures RequirementFromCartfile(Some(t)).Some? <==> exists i :: 0 <= i <= |t| && CartfileRequirementAt(t, i).Some?
    ensures RequirementFromCartfile(Some(t)).Some? ==>
      var r := RequirementFromCartfile(Some(t)).value;
      Contains(r, Owner + CurrentRepo) || Contains(r, Owner + LegacyRepo)
  {
    var h := FirstMatch(CartfileRequirement, t);
    if h.Some? {
      assert MatchAt(CartfileRequirement, t, h.value.start) == CartfileRequirementAt(t, h.value.start);
      CartfileHitShape(t, h.value.start);
    } else {
      SearchSkips(CartfileRequirement, t, 0);
      forall i | 0 <= i <= |t|
        ensures CartfileRequirementAt(t, i).None?
      {
        assert MatchAt(CartfileRequirement, t, i) == CartfileRequirementAt(t, i);
      }
    }
  }
  /** The search finds the first position where the pattern matches. */
  lemma SearchFinds(pat: Pattern, t: string, i: nat, p: nat)
    requires i <= p <= |t| && MatchAt(pat, t, p).Some?
    requires forall k :: i <= k < p ==> MatchAt(pat, t, k).None?
    ensures Search(pat, t, i) == MatchAt(pat, t, p)
  {
    SearchSkips(pat, t, i);
    var h := Search(pat, t, i);
    assert h.Some?;
    assert h.value.start == p;
  }

  /** A repository name at `p` is recognised with its full length. */
  lemma RepoAtName(t: string, p: nat, repo: string)
    requires (repo == CurrentRepo || repo == LegacyRepo) && LiteralAt(t, p, repo)
    ensures RepoAt(t, p) == Some(p + |repo|)
  {
    if repo == LegacyRepo && LiteralAt(t, p, CurrentRepo) {
      CharOf(t, p, CurrentRepo, 1);
      CharOf(t, p, LegacyRepo, 1);
    }
  }

  /**
   * One entry of Cartfile.resolved at `p`: a repository name, an optional slash,
   * `" "`, a version and its closing quote, as in
   * `github "BranchMetrics/ios-branch-deep-linking" "0.25.0"`.
   */
  predicate ResolvedEntryAt(t: string, p: nat, repo: string, slash: string, v: string) {
    (repo == CurrentRepo || repo == LegacyRepo) && (slash == "" || slash == "/") && IsVersion(v)
    && LiteralAt(t, p, repo) && LiteralAt(t, p + |repo|, slash)
    && LiteralAt(t, p + |repo| + |slash|, "\" \"") && LiteralAt(t, p + |repo| + |slash| + 3, v)
    && p + |repo| + |slash| + 3 + |v| < |t| && t[p + |repo| + |slash| + 3 + |v|] == '"'
  }

  lemma ResolvedVersionAtSome(t: string, i: nat, e: nat, c: nat)
    requires i <= |t| && RepoAt(t, i) == Some(e)
    requires var e' := if e < |t| && t[e] == '/' then e + 1 else e;
      LiteralAt(t, e', "\" \"") && VersionAt(t, e' + 3) == Some(c)
    ensures var e' := if e < |t| && t[e] == '/' then e + 1 else e;
      ResolvedVersionAt(t, i) == Some(Hit(i, c + 1, t[e' + 3..c]))
  {
  }

  /** The repository name and optional slash of an entry, as the pattern sees them. */
  lemma ResolvedEntryHead(t: string, p: nat, repo: string, slash: string, v: string) returns (e: nat, e': nat)
    requires ResolvedEntryAt(t, p, repo, slash, v)
    ensures e == p + |repo| && e' == e + |slash| && RepoAt(t, p) == Some(e)
    ensures e' == (if e < |t| && t[e] == '/' then e + 1 else e) && LiteralAt(t, e', "\" \"")
  {
    RepoAtName(t, p, repo);
    e := p + |repo|;
    e' := e + |slash|;
    CharOf(t, e', "\" \"", 0);
    if slash == "/" {
      CharOf(t, e, slash, 0);
    }
  }

  /** The Cartfile.resolved pattern reads the version of an entry that starts at `p`. */
  lemma ResolvedEntryMatches(t: string, p: nat, repo: string, slash: string, v: string)
    requires ResolvedEntryAt(t, p, repo, slash, v)
    ensures ResolvedVersionAt(t, p) == Some(Hit(p, p + |repo| + |slash| + 3 + |v| + 1, v))
  {
    var e, e' := ResolvedEntryHead(t, p, repo, slash, v);
    VersionRead(t, e' + 3, v);
    ResolvedVersionAtSome(t, p, e, e' + 3 + |v|);
  }

  /** No Branch repository name starts before `p`. */
  predicate NoRepoBefore(t: string, p: nat) {
    forall k :: 0 <= k < p ==> !LiteralAt(t, k, CurrentRepo) && !LiteralAt(t, k, LegacyRepo)
  }

  /**
   * version_from_cartfile_resolved reports the version of the first entry naming a
   * Branch repository, in either spelling, with or without the trailing slash.
   */
  lemma ResolvedEntryVersion(s: Sources, p: nat, repo: string, slash: string, v: string)
    requires s.cartfileResolved.Some? && ResolvedEntryAt(s.cartfileResolved.value, p, repo, slash, v)
    requires NoRepoBefore(s.cartfileResolved.value, p)
    ensures VersionFromCartfileResolved(s) == Some(v + CartfileResolvedTag)
  {
    var t := s.cartfileResolved.value;
    ResolvedEntryMatches(t, p, repo, slash, v);
    forall k | 0 <= k < p
      ensures MatchAt(ResolvedVersion, t, k).None?
    {
      assert RepoAt(t, k).None?;
    }
    SearchFinds(ResolvedVersion, t, 0, p);
  }

  /** The two ways a Cartfile.resolved line names the Branch repository before its name. */
  const GithubLead: string := "github \"BranchMetrics/"
  const GitLead: string := "git \"https://github.com/BranchMetrics/"

  /** In either lead, an `i` is never followed by `o` or `O`, and the lead does not end in `i`. */
  lemma LeadLetters(lead: string)
    requires lead == GithubLead || lead == GitLead
    ensures lead != [] && lead[|lead| - 1] != 'i'
    ensures forall k :: 0 <= k < |lead| - 1 && lead[k] == 'i' ==> lead[k + 1] != 'o' && lead[k + 1] != 'O'
  {
  }

  /** Neither lead contains the start of a Branch repository name. */
  lemma LeadHasNoRepo(t: string, lead: string)
    requires (lead == GithubLead || lead == GitLead) && |lead| <= |t| && t[..|lead|] == lead
    ensures NoRepoBefore(t, |lead|)
  {
    LeadLetters(lead);
    forall k | 0 <= k < |lead|
      ensures !LiteralAt(t, k, CurrentRepo) && !LiteralAt(t, k, LegacyRepo)
    {
      assert t[k] == lead[k];
      if k + 1 < |lead| {
        assert t[k + 1] == lead[k + 1];
      }
      if LiteralAt(t, k, CurrentRepo) {
        CharOf(t, k, CurrentRepo, 0);
        CharOf(t, k, CurrentRepo, 1);
      }
      if LiteralAt(t, k, LegacyRepo) {
        CharOf(t, k, LegacyRepo, 0);
        CharOf(t, k, LegacyRepo, 1);
      }
    }
  }

  /**
   * A Cartfile.resolved that starts with a Branch entry in any of its eight spellings
   * (`github "BranchMetrics/…` or `git "https://github.com/BranchMetrics/…`, either
   * repository name, with or without a trailing slash) yields that entry's version.
   */
  lemma ResolvedLineVersion(s: Sources, lead: string, repo: string, slash: string, v: string)
    requires lead == GithubLead || lead == GitLead
    requires s.cartfileResolved.Some? && |lead| <= |s.cartfileResolved.value| && s.cartfileResolved.value[..|lead|] == lead
    requires ResolvedEntryAt(s.cartfileResolved.value, |lead|, repo, slash, v)
    ensures VersionFromCartfileResolved(s) == Some(v + CartfileResolvedTag)
  {
    LeadHasNoRepo(s.cartfileResolved.value, lead);
    ResolvedEntryVersion(s, |lead|, repo, slash, v);
  }


  lemma SpaceRunIs(t: string, i: nat, j: nat)
    requires i <= j <= |t| && (forall k :: i <= k < j ==> IsRegexSpace(t[k])) && (j < |t| ==> !IsRegexSpace(t[j]))
    ensures SpaceRun(t, i) == j
  {
    SpaceRunSpec(t, i);
  }

  /**
   * The assignment in BNCConfig.m at `p`: `BNC_SDK_VERSION`, white space ending at `s1`,
   * `=`, white space ending at `s2`, then `@"`, a version and its closing quote.
   */
  predicate BncEntryAt(t: string, p: nat, s1: nat, s2: nat, v: string) {
    LiteralAt(t, p, "BNC_SDK_VERSION") && p + 15 < s1 && s1 + 1 < s2 <= |t| && IsVersion(v)
    && (forall k :: p + 15 <= k < s1 ==> IsRegexSpace(t[k])) && s1 < |t| && t[s1] == '='
    && (forall k :: s1 + 1 <= k < s2 ==> IsRegexSpace(t[k])) && LiteralAt(t, s2, "@\"")
    && LiteralAt(t, s2 + 2, v) && s2 + 2 + |v| < |t| && t[s2 + 2 + |v|] == '"'
  }

  lemma BncVersionAtSome(t: string, i: nat, s1: nat, s2: nat, c: nat)
    requires LiteralAt(t, i, "BNC_SDK_VERSION") && SpaceRun(t, i + 15) == s1 && s1 != i + 15 && s1 < |t| && t[s1] == '='
    requires SpaceRun(t, s1 + 1) == s2 && s2 != s1 + 1 && LiteralAt(t, s2, "@\"") && VersionAt(t, s2 + 2) == Some(c)
    ensures BncVersionAt(t, i) == Some(Hit(i, c + 1, t[s2 + 2..c]))
  {
  }

  /** The white space around `=` in an assignment, as the pattern sees it. */
  lemma BncEntryHead(t: string, p: nat, s1: nat, s2: nat, v: string)
    requires BncEntryAt(t, p, s1, s2, v)
    ensures SpaceRun(t, p + 15) == s1 && SpaceRun(t, s1 + 1) == s2
  {
    SpaceRunIs(t, p + 15, s1);
    CharOf(t, s2, "@\"", 0);
    SpaceRunIs(t, s1 + 1, s2);
  }

  /** The BNCConfig.m pattern reads the version of an assignment that starts at `p`. */
  lemma BncEntryMatches(t: string, p: nat, s1: nat, s2: nat, v: string)
    requires BncEntryAt(t, p, s1, s2, v)
    ensures BncVersionAt(t, p) == Some(Hit(p, s2 + 2 + |v| + 1, v))
  {
    BncEntryHead(t, p, s1, s2, v);
    VersionRead(t, s2 + 2, v);
    BncVersionAtSome(t, p, s1, s2, s2 + 2 + |v|);
  }

  /**
   * version_from_bnc_config_m reports the version assigned to BNC_SDK_VERSION at its
   * first mention in BNCConfig.m.
   */
  lemma BncEntryVersion(s: Sources, p: nat, s1: nat, s2: nat, v: string)
    requires s.bncConfigM.Some? && BncEntryAt(s.bncConfigM.value, p, s1, s2, v)
    requires forall k :: 0 <= k < p ==> !LiteralAt(s.bncConfigM.value, k, "BNC_SDK_VERSION")
    ensures VersionFromBncConfigM(s) == Some(v + BncConfigTag)
  {
    var t := s.bncConfigM.value;
    BncEntryMatches(t, p, s1, s2, v);
    SearchFinds(BncVersion, t, 0, p);
  }
  /** The Cartfile.resolved pattern captures a version. */
  lemma ResolvedGroupIsVersion(t: string, i: nat)
    requires i <= |t| && ResolvedVersionAt(t, i).Some?
    ensures IsVersion(ResolvedVersionAt(t, i).value.group)
  {
    var e := RepoAt(t, i).value;
    var e' := if e < |t| && t[e] == '/' then e + 1 else e;
    VersionAtIsVersion(t, e' + 3);
  }

  /** The BNCConfig.m pattern captures a version. */
  lemma BncGroupIsVersion(t: string, i: nat)
    requires i <= |t| && BncVersionAt(t, i).Some?
    ensures IsVersion(BncVersionAt(t, i).value.group)
  {
    var s1 := SpaceRun(t, i + 15);
    var s2 := SpaceRun(t, s1 + 1);
    VersionAtIsVersion(t, s2 + 2);
  }

  /** A version read from Cartfile.resolved is a dotted triple of numbers, tagged. */
  lemma CartfileResolvedVersionShape(s: Sources)
    requires VersionFromCartfileResolved(s).Some?
    ensures exists v :: IsVersion(v) && VersionFromCartfileResolved(s).value == v + CartfileResolvedTag
  {
    var t := s.cartfileResolved.value;
    var h := FirstMatch(ResolvedVersion, t).value;
    ResolvedGroupIsVersion(t, h.start);
    assert VersionFromCartfileResolved(s).value == h.group + CartfileResolvedTag;
  }

  /** A version read from BNCConfig.m is a dotted triple of numbers, tagged. */
  lemma BncConfigVersionShape(s: Sources)
    requires VersionFromBncConfigM(s).Some?
    ensures exists v :: IsVersion(v) && VersionFromBncConfigM(s).value == v + BncConfigTag
  {
    var t := s.bncConfigM.value;
    var h := FirstMatch(BncVersion, t).value;
    BncGroupIsVersion(t, h.start);
    assert VersionFromBncConfigM(s).value == h.group + BncConfigTag;
  }

  // ---------------------------------------------------------------------------
  // branch_version

  /** `a || b || c || d` on four optional values. */
  lemma FirstSomeOfFour(a: Option<string>, b: Option<string>, c: Option<string>, d: Option<string>)
    ensures FirstSome([a, b, c, d]) == if a.Some? then a else if b.Some? then b else if c.Some? then c else d
  {
    assert FirstSome([d]) == d by {
      assert [d][1..] == [];
    }
    assert FirstSome([c, d]) == if c.Some? then c else d by {
      assert [c, d][1..] == [d];
    }
    assert FirstSome([b, c, d]) == if b.Some? then b else FirstSome([c, d]) by {
      assert [b, c, d][1..] == [c, d];
    }
    assert [a, b, c, d][1..] == [b, c, d];
  }

  /** branch_version is Ruby's `||` chain: each source is consulted only when those before it found nothing. */
  lemma BranchVersionChain(s: Sources)
    ensures BranchVersion(s) ==
      if VersionFromPodfileLock(s).Some? then VersionFromPodfileLock(s)
      else if VersionFromCartfileResolved(s).Some? then VersionFromCartfileResolved(s)
      else if VersionFromBranchFramework(s).Some? then VersionFromBranchFramework(s)
      else VersionFromBncConfigM(s)
  {
    FirstSomeOfFour(VersionFromPodfileLock(s), VersionFromCartfileResolved(s), VersionFromBranchFramework(s), VersionFromBncConfigM(s));
  }

  // ---------------------------------------------------------------------------
  // The report header

  /** The parts report_header may add after the output of `xcodebuild -version`, in the order it adds them. */
  datatype Section =
    | CocoaPods(cocoapodsVersion: string)
    | FromPodfile(podRequirement: string)
    | FromCartfile(cartRequirement: string)
    | BranchSdk(sdkVersion: string)

  function SectionText(sec: Section): string {
    match sec
    case CocoaPods(v) => "\nUsing CocoaPods v. " + v + "\n"
    case FromPodfile(r) => "\nFrom Podfile:\n" + r + "\n"
    case FromCartfile(r) => "\nFrom Cartfile:\n" + r + "\n"
    case BranchSdk(v) => "\nBranch SDK v. " + v + "\n"
  }

  function SectionRank(sec: Section): nat {
    match sec
    case CocoaPods(_) => 0
    case FromPodfile(_) => 1
    case FromCartfile(_) => 2
    case BranchSdk(_) => 3
  }

  /** The sections one after the other. */
  function Render(secs: seq<Section>): string {
    if secs == [] then []
    else Render(secs[..|secs| - 1]) + SectionText(secs[|secs| - 1])
  }

  /** The sections of the header: each one when what it shows was found. */
  function HeaderSections(cocoapods: Option<string>, pod: Option<string>, cart: Option<string>, version: Option<string>): seq<Section> {
    (if cocoapods.Some? then [CocoaPods(cocoapods.value)] else [])
    + (if pod.Some? then [FromPodfile(pod.value)] else [])
    + (if cart.Some? then [FromCartfile(cart.value)] else [])
    + (if version.Some? then [BranchSdk(version.value)] else [])
  }

  /** The CocoaPods version the lock file records, when there is a lock file. */
  function CocoapodsVersion(s: Sources): Option<string> {
    if s.podfileLock.Some? then Some(s.podfileLock.value.cocoapodsVersion) else None
  }

  const NotFound: string := "Branch SDK not found.\n"

  /**
   * The header built from what was read: the Xcode version followed by the sections;
   * without a Branch SDK version, only the not-found line, whatever was gathered before.
   */
  function HeaderOf(xcodebuildVersion: string, cocoapods: Option<string>, podfileRequirement: Option<string>,
                    cartfileRequirement: Option<string>, version: Option<string>): string {
    if version.None? then NotFound
    else xcodebuildVersion + Render(HeaderSections(cocoapods, podfileRequirement, cartfileRequirement, version))
  }

  /** The header of a project: the header built from what its sources yield. */
  function Header(s: Sources): string {
    HeaderOf(s.xcodebuildVersion, CocoapodsVersion(s), RequirementFromPodfile(s.podfile),
             RequirementFromCartfile(s.cartfile), BranchVersion(s))
  }

  /** Section ranks strictly increase along `secs`, all of them below `n`. */
  predicate RankedBelow(secs: seq<Section>, n: nat) {
    && (forall i, j :: 0 <= i < j < |secs| ==> SectionRank(secs[i]) < SectionRank(secs[j]))
    && (forall i :: 0 <= i < |secs| ==> SectionRank(secs[i]) < n)
  }

  /** Appending a section of rank `n` to sections ranked below `n` keeps the ranks increasing. */
  lemma AppendRanked(secs: seq<Section>, n: nat, more: seq<Section>)
    requires RankedBelow(secs, n) && (more == [] || (|more| == 1 && SectionRank(more[0]) == n))
    ensures RankedBelow(secs + more, n + 1)
  {
    var all := secs + more;
    forall i, j | 0 <= i < j < |all|
      ensures SectionRank(all[i]) < SectionRank(all[j])
    {
      if j < |secs| {
        assert all[i] == secs[i] && all[j] == secs[j];
      } else {
        assert all[i] == secs[i];
      }
    }
  }

  /** The sections come in the fixed order CocoaPods, Podfile, Cartfile, SDK version, each at most once. */
  lemma HeaderSectionsOrdered(cocoapods: Option<string>, pod: Option<string>, cart: Option<string>, version: Option<string>)
    ensures var secs := HeaderSections(cocoapods, pod, cart, version);
      forall i, j :: 0 <= i < j < |secs| ==> SectionRank(secs[i]) < SectionRank(secs[j])
  {
    var a: seq<Section> := if cocoapods.Some? then [CocoaPods(cocoapods.value)] else [];
    var b: seq<Section> := if pod.Some? then [FromPodfile(pod.value)] else [];
    var c: seq<Section> := if cart.Some? then [FromCartfile(cart.value)] else [];
    var d: seq<Section> := if version.Some? then [BranchSdk(version.value)] else [];
    assert RankedBelow(a, 1) by {
      if cocoapods.Some? {
        assert |a| == 1 && SectionRank(a[0]) == 0;
      }
    }
    assert RankedBelow(a + b, 2) by {
      AppendRanked(a, 1, b);
    }
    assert RankedBelow(a + b + c, 3) by {
      AppendRanked(a + b, 2, c);
    }
    assert RankedBelow(a + b + c + d, 4) by {
      AppendRanked(a + b + c, 3, d);
    }
    assert HeaderSections(cocoapods, pod, cart, version) == a + b + c + d;
  }

  /** Each section is in the header exactly when what it shows was found. */
  lemma HeaderSectionsPresent(cocoapods: Option<string>, pod: Option<string>, cart: Option<string>, version: Option<string>)
    ensures var secs := HeaderSections(cocoapods, pod, cart, version);
      && (forall v :: CocoaPods(v) in secs <==> cocoapods == Some(v))
      && (forall r :: FromPodfile(r) in secs <==> pod == Some(r))
      && (forall r :: FromCartfile(r) in secs <==> cart == Some(r))
      && (forall v :: BranchSdk(v) in secs <==> version == Some(v))
  {
    var a: seq<Section> := if cocoapods.Some? then [CocoaPods(cocoapods.value)] else [];
    var b: seq<Section> := if pod.Some? then [FromPodfile(pod.value)] else [];
    var c: seq<Section> := if cart.Some? then [FromCartfile(cart.value)] else [];
    var d: seq<Section> := if version.Some? then [BranchSdk(version.value)] else [];
    var secs := a + b + c + d;
    assert HeaderSections(cocoapods, pod, cart, version) == secs;
    forall v ensures CocoaPods(v) in secs <==> cocoapods == Some(v) {
      InPieces(a, b, c, d, CocoaPods(v));
    }
    forall r ensures FromPodfile(r) in secs <==> pod == Some(r) {
      InPieces(a, b, c, d, FromPodfile(r));
    }
    forall r ensures FromCartfile(r) in secs <==> cart == Some(r) {
      InPieces(a, b, c, d, FromCartfile(r));
    }
    forall v ensures BranchSdk(v) in secs <==> version == Some(v) {
      InPieces(a, b, c, d, BranchSdk(v));
    }
  }

  /** Membership in four pieces put together. */
  lemma InPieces(a: seq<Section>, b: seq<Section>, c: seq<Section>, d: seq<Section>, x: Section)
    ensures x in a + b + c + d <==> x in a || x in b || x in c || x in d
  {
  }

  /** A header that names a Branch SDK version is never the not-found line. */
  lemma NotNotFound(p: string, v: string)
    ensures p + SectionText(BranchSdk(v)) != NotFound
  {
    var h := p + SectionText(BranchSdk(v));
    assert h[|p|] == '\n';
    assert forall k :: 0 <= k < |NotFound| - 1 ==> NotFound[k] != '\n';
  }

  /**
   * With a Branch SDK version, the header is the Xcode version, then the other
   * sections, then the SDK version section last.
   */
  lemma HeaderEndsWithVersion(xcodebuildVersion: string, cocoapods: Option<string>, podfileRequirement: Option<string>,
                              cartfileRequirement: Option<string>, v: string) returns (middle: string)
    ensures HeaderOf(xcodebuildVersion, cocoapods, podfileRequirement, cartfileRequirement, Some(v))
      == xcodebuildVersion + middle + SectionText(BranchSdk(v))
  {
    middle := RenderEndsWithVersion(cocoapods, podfileRequirement, cartfileRequirement, v);
    var text := SectionText(BranchSdk(v));
    assert xcodebuildVersion + (middle + text) == xcodebuildVersion + middle + text;
  }

  /** The rendered sections end with the SDK version section when there is one. */
  lemma RenderEndsWithVersion(cocoapods: Option<string>, pod: Option<string>, cart: Option<string>, v: string)
    returns (middle: string)
    ensures Render(HeaderSections(cocoapods, pod, cart, Some(v))) == middle + SectionText(BranchSdk(v))
  {
    var secs := HeaderSections(cocoapods, pod, cart, Some(v));
    assert secs[|secs| - 1] == BranchSdk(v);
    middle := Render(secs[..|secs| - 1]);
  }

  /** "Branch SDK not found." replaces the whole header exactly when no source yields a version. */
  lemma HeaderNotFound(xcodebuildVersion: string, cocoapods: Option<string>, podfileRequirement: Option<string>,
                       cartfileRequirement: Option<string>, version: Option<string>)
    ensures HeaderOf(xcodebuildVersion, cocoapods, podfileRequirement, cartfileRequirement, version) == NotFound
      <==> version.None?
  {
    if version.Some? {
      var middle := HeaderEndsWithVersion(xcodebuildVersion, cocoapods, podfileRequirement, cartfileRequirement, version.value);
      NotNotFound(xcodebuildVersion + middle, version.value);
    }
  }

  /** Adding one section to the header text adds its text at the end. */
  lemma RenderAppend(secs: seq<Section>, sec: Section)
    ensures Render(secs + [sec]) == Render(secs) + SectionText(sec)
  {
    assert (secs + [sec])[..|secs|] == secs;
  }

  /** Appending a section's text, written as Ruby's interpolation `a#{x}b`, renders one more section. */
  lemma Appending(prefix: string, header: string, secs: seq<Section>, sec: Section, a: string, x: string, b: string)
    requires header == prefix + Render(secs) && SectionText(sec) == a + x + b
    ensures header + a + x + b == prefix + Render(secs + [sec])
  {
    RenderAppend(secs, sec);
    Regroup(prefix, Render(secs), a, x, b);
  }

  /** The gathered header followed by the SDK version line is the header with that version. */
  lemma VersionAppended(xcodebuildVersion: string, header: string, cocoapods: Option<string>,
                        podfileRequirement: Option<string>, cartfileRequirement: Option<string>, v: string)
    requires header == xcodebuildVersion + Render(HeaderSections(cocoapods, podfileRequirement, cartfileRequirement, None))
    ensures header + "\nBranch SDK v. " + v + "\n"
      == HeaderOf(xcodebuildVersion, cocoapods, podfileRequirement, cartfileRequirement, Some(v))
  {
    var secs := HeaderSections(cocoapods, podfileRequirement, cartfileRequirement, None);
    Appending(xcodebuildVersion, header, secs, BranchSdk(v), "\nBranch SDK v. ", v, "\n");
    assert secs + [BranchSdk(v)] == HeaderSections(cocoapods, podfileRequirement, cartfileRequirement, Some(v));
  }

  /** Concatenation regrouped. */
  lemma Regroup(p: string, r: string, a: string, x: string, b: string)
    ensures p + r + a + x + b == p + (r + (a + x + b))
  {
  }

  /**
   * The first part of report_header: the output of `xcodebuild -version`, then the
   * CocoaPods version, the Podfile requirement and the Cartfile requirement, each when
   * it is found.
   */
  method GatherHeader(xcodebuildVersion: string, cocoapods: Option<string>,
                      podfileRequirement: Option<string>, cartfileRequirement: Option<string>)
    returns (header: string)
    ensures header == xcodebuildVersion + Render(HeaderSections(cocoapods, podfileRequirement, cartfileRequirement, None))
  {
    header := xcodebuildVersion;
    ghost var lock: seq<Section> := [];
    if cocoapods.Some? {
      var v := cocoapods.value;
      lock := [CocoaPods(v)];
      assert header + "\nUsing CocoaPods v. " + v + "\n" == xcodebuildVersion + Render(lock) by {
        Appending(xcodebuildVersion, header, [], CocoaPods(v), "\nUsing CocoaPods v. ", v, "\n");
        assert [] + lock == lock;
      }
      header := header + "\nUsing CocoaPods v. " + v + "\n";
    }

    ghost var pod: seq<Section> := [];
    if podfileRequirement.Some? {
      var r := podfileRequirement.value;
      pod := [FromPodfile(r)];
      assert header + "\nFrom Podfile:\n" + r + "\n" == xcodebuildVersion + Render(lock + pod) by {
        Appending(xcodebuildVersion, header, lock, FromPodfile(r), "\nFrom Podfile:\n", r, "\n");
      }
      header := header + "\nFrom Podfile:\n" + r + "\n";
    } else {
      assert lock + pod == lock;
    }

    ghost var cart: seq<Section> := [];
    if cartfileRequirement.Some? {
      var r := cartfileRequirement.value;
      cart := [FromCartfile(r)];
      assert header + "\nFrom Cartfile:\n" + r + "\n" == xcodebuildVersion + Render(lock + pod + cart) by {
        Appending(xcodebuildVersion, header, lock + pod, FromCartfile(r), "\nFrom Cartfile:\n", r, "\n");
      }
      header := header + "\nFrom Cartfile:\n" + r + "\n";
    } else {
      assert lock + pod + cart == lock + pod;
    }
    assert lock + pod + cart + [] == lock + pod + cart;
  }

  /**
   * report_header: the gathered header gains the SDK version section when a version is
   * found, and is replaced by the not-found line when none is.
   */
  method ReportHeader(s: Sources) returns (header: string)
    ensures header == Header(s)
  {
    var cocoapods := if s.podfileLock.Some? then Some(s.podfileLock.value.cocoapodsVersion) else None;
    var podfileRequirement := RequirementFromPodfile(s.podfile);
    var cartfileRequirement := RequirementFromCartfile(s.cartfile);
    var version := BranchVersion(s);
    header := AssembleHeader(s.xcodebuildVersion, cocoapods, podfileRequirement, cartfileRequirement, version);
  }

  /** The body of report_header once every source is read: gather the sections, then the version or the not-found line. */
  method AssembleHeader(xcodebuildVersion: string, cocoapods: Option<string>, podfileRequirement: Option<string>,
                        cartfileRequirement: Option<string>, version: Option<string>) returns (header: string)
    ensures header == HeaderOf(xcodebuildVersion, cocoapods, podfileRequirement, cartfileRequirement, version)
  {
    header := GatherHeader(xcodebuildVersion, cocoapods, podfileRequirement, cartfileRequirement);
    if version.Some? {
      var v := version.value;
      VersionAppended(xcodebuildVersion, header, cocoapods, podfileRequirement, cartfileRequirement, v);
      header := header + "\nBranch SDK v. " + v + "\n";
    } else {
      header := "Branch SDK not found.\n";
    }
  }
}
