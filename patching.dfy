/**
 * The pure side of the Branch source-patching engine (lib/branch_io_cli/helper/patch_helper.rb):
 * the text probes, the patch catalog, the anchored rewrite, and the rules that pick one
 * named patch variant per family from the current text of a file.
 */
module Patching {
  import opened Outcomes
  import opened Text

  type Path = string

  /** The two languages an iOS source file can be written in. */
  datatype Lang = Swift | Objc

  /**
   * The regular-expression probes the engine runs against a file's text. Their
   * semantics (a Ruby regex engine) is not modelled: an `Env` decides them.
   */
  datatype Probe =
    | MentionsBranch                            // initSession or `import Branch`, case-insensitive (Swift)
    | ImportsBranch                             // `#import <Branch/Branch.h>` or `@import Branch;` (Objective-C)
    | HasImport                                 // any #import, #include or @import line
    | HasIncludeGuard                           // `#ifndef X` followed by `#define X`
    | SwiftLaunchMethod                         // `didFinishLaunching ... {` on one line
    | OpenUrlWithOptions(lang: Lang)            // application:openURL:options:
    | OpenUrlWithSourceApplication(lang: Lang)  // application:openURL:sourceApplication:annotation:
    | ContinueUserActivity(lang: Lang)          // application:continueUserActivity:restorationHandler:
    | DidBecomeActive(lang: Lang)               // didBecomeActive(with:) / didBecomeActiveWithConversation:
    | PodfileTargetBlock(target: string)        // `target "T" do` in a Podfile
    | CartfileHasBranch                         // `git ... Branch` in a Cartfile

  /** A half-open range [start, end) of a text. */
  datatype Span = Span(start: nat, end: nat)

  /** The first match of an anchor pattern: the whole match and its first capture group. */
  datatype Match = Match(whole: Span, group: Span)

  /** The anchors located in a file: a catalog patch's own, or the two Podfile anchors. */
  datatype Pattern =
    | Anchor(name: string)           // the regexp of the catalog patch `name`
    | PodTargetBlock(target: string) // `\n(\s*)target\s+(["'])T\2\s+do.*?\n`
    | PodTargetLine(target: string)  // `^(\s*)target\s+["']T`

  /** How a patch places its text relative to the anchor match. */
  datatype Mode = Append | Prepend | Replace

  /**
   * What a template is rendered with. Three patches are applied with the caller's
   * binding, through which the template sees whether to use the conditional test key.
   */
  datatype Binding = Unbound | Bound(conditionalTestKey: bool)

  /**
   * The collaborators the engine calls but whose code is not part of this model:
   * the regex probes, the anchor search of the patch gem, and the catalog's
   * insertion modes and rendered templates.
   */
  datatype Env = Env(
    matches: (Probe, seq<char>) -> bool,
    find: (Pattern, seq<char>) -> Option<Match>,
    mode: string -> Mode,
    template: (string, Binding) -> seq<char>)

  predicate InText(m: Match, n: nat) {
    m.whole.start <= m.group.start <= m.group.end <= m.whole.end <= n
  }

  /** Every anchor match the environment reports lies inside the searched text. */
  ghost predicate EnvOk(env: Env) {
    forall p: Pattern, t: seq<char> :: env.find(p, t).Some? ==> InText(env.find(p, t).value, |t|)
  }

  /** The names of the patch definitions shipped with the tool. */
  const Catalog: set<string> := {
    "swift_import", "objc_import", "objc_import_include_guard", "objc_import_at_end",
    "did_finish_launching_swift", "did_finish_launching_new_swift",
    "did_finish_launching_objc", "did_finish_launching_new_objc",
    "continue_user_activity_swift", "continue_user_activity_new_swift",
    "continue_user_activity_objc", "continue_user_activity_new_objc",
    "open_url_swift", "open_url_source_application_swift", "open_url_new_swift",
    "open_url_objc", "open_url_source_annotation_objc", "open_url_new_objc",
    "messages_did_become_active_swift", "messages_did_become_active_new_swift",
    "messages_did_become_active_objc", "messages_did_become_active_new_objc",
    "cartfile"
  }

  // ---------------------------------------------------------------------------
  // The anchored rewrite

  /** Insert (or, for Replace, substitute) `ins` at the anchor span `s` of `t`. */
  function Splice(t: seq<char>, s: Span, mode: Mode, ins: seq<char>): (r: seq<char>)
    requires s.start <= s.end <= |t|
    ensures |r| == |t| + |ins| - (if mode == Replace then s.end - s.start else 0)
  {
    match mode
    case Append => t[..s.end] + ins + t[s.end..]
    case Prepend => t[..s.start] + ins + t[s.start..]
    case Replace => t[..s.start] + ins + t[s.end..]
  }

  /** Where the inserted text begins in the spliced result. */
  function InsertedAt(s: Span, mode: Mode): nat {
    if mode == Append then s.end else s.start
  }

  /** Where the anchor text stands in the result of an insertion of `n` characters. */
  function AnchorAt(s: Span, mode: Mode, n: nat): nat {
    if mode == Prepend then s.start + n else s.start
  }

  /** Cut `n` characters out of `r` at index `at`. */
  function Excise(r: seq<char>, at: nat, n: nat): seq<char>
    requires at + n <= |r|
  {
    r[..at] + r[at + n..]
  }

  /**
   * An insertion puts `ins` at its place, keeps the anchor text verbatim (shifted
   * past `ins` for Prepend), and removing `ins` again gives back the original.
   */
  lemma SpliceInsertion(t: seq<char>, s: Span, mode: Mode, ins: seq<char>)
    requires s.start <= s.end <= |t| && mode != Replace
    ensures var r := Splice(t, s, mode, ins);
      var at, a := InsertedAt(s, mode), AnchorAt(s, mode, |ins|);
      && at + |ins| <= |r| && r[at..at + |ins|] == ins
      && a + (s.end - s.start) <= |r| && r[a..a + (s.end - s.start)] == t[s.start..s.end]
      && Excise(r, at, |ins|) == t
  {
    var r := Splice(t, s, mode, ins);
    var at := InsertedAt(s, mode);
    assert r[..at] == t[..at];
    assert r[at + |ins|..] == t[at..];
    assert t == t[..at] + t[at..];
  }

  /** A replacement keeps everything before and after the anchor span. */
  lemma SpliceReplacement(t: seq<char>, s: Span, ins: seq<char>)
    requires s.start <= s.end <= |t|
    ensures var r := Splice(t, s, Replace, ins);
      && r[..s.start] == t[..s.start]
      && r[s.start..s.start + |ins|] == ins
      && r[s.start + |ins|..] == t[s.end..]
  {
  }

  /**
   * `patch(name).apply`: locate the catalog patch's anchor and splice its rendered
   * template there; when the anchor is not found the text is left as it was.
   */
  function ApplyPatch(env: Env, name: string, binding: Binding, t: seq<char>): (r: seq<char>)
    requires EnvOk(env) && name in Catalog
    ensures env.find(Anchor(name), t).None? ==> r == t
    ensures env.find(Anchor(name), t).Some? && env.mode(name) != Replace ==>
      |r| == |t| + |env.template(name, binding)| &&
      Excise(r, InsertedAt(env.find(Anchor(name), t).value.whole, env.mode(name)), |env.template(name, binding)|) == t
    ensures env.find(Anchor(name), t).Some? && env.mode(name) != Replace ==>
      var s, ins := env.find(Anchor(name), t).value.whole, env.template(name, binding);
      var at, a := InsertedAt(s, env.mode(name)), AnchorAt(s, env.mode(name), |ins|);
      && at + |ins| <= |r| && r[at..at + |ins|] == ins
      && a + (s.end - s.start) <= |r| && r[a..a + (s.end - s.start)] == t[s.start..s.end]
    ensures env.find(Anchor(name), t).Some? && env.mode(name) == Replace ==>
      var s, ins := env.find(Anchor(name), t).value.whole, env.template(name, binding);
      && s.start + |ins| <= |r|
      && r[..s.start] == t[..s.start] && r[s.start..s.start + |ins|] == ins && r[s.start + |ins|..] == t[s.end..]
  {
    match env.find(Anchor(name), t)
    case None => t
    case Some(m) =>
      var mode, ins := env.mode(name), env.template(name, binding);
      if mode == Replace then SpliceReplacement(t, m.whole, ins); Splice(t, m.whole, mode, ins)
      else SpliceInsertion(t, m.whole, mode, ins); Splice(t, m.whole, mode, ins)
  }

  // ---------------------------------------------------------------------------
  // Variant selection, one rule per patch family

  /** Where a Branch import goes in the bridging header. */
  datatype ImportVariant = AmongImports | InsideIncludeGuard | AtEnd

  /** The bridging header's import goes among other imports, else inside the include guard, else at the end. */
  function SelectImport(env: Env, t: seq<char>): (v: ImportVariant)
    ensures v == AmongImports <==> env.matches(HasImport, t)
    ensures v == InsideIncludeGuard <==> !env.matches(HasImport, t) && env.matches(HasIncludeGuard, t)
    ensures v == AtEnd <==> !env.matches(HasImport, t) && !env.matches(HasIncludeGuard, t)
  {
    if env.matches(HasImport, t) then AmongImports
    else if env.matches(HasIncludeGuard, t) then InsideIncludeGuard
    else AtEnd
  }

  function ImportPatchName(v: ImportVariant): (name: string)
    ensures name in Catalog
  {
    match v
    case AmongImports => "objc_import"
    case InsideIncludeGuard => "objc_import_include_guard"
    case AtEnd => "objc_import_at_end"
  }

  /** The families whose patch depends on whether a delegate method is already there. */
  datatype Family = Launch | ContinueActivity | OpenUrl | BecomeActive

  /**
   * Patch the method that is there (for openURL: the options signature), patch the
   * deprecated sourceApplication signature (openURL only), or add a new method.
   */
  datatype MethodVariant = Existing | Legacy | New

  /** The application:didFinishLaunchingWithOptions: probe; literal for Objective-C. */
  predicate HasLaunchMethod(env: Env, lang: Lang, t: seq<char>) {
    match lang
    case Swift => env.matches(SwiftLaunchMethod, t)
    case Objc => Contains(t, "didFinishLaunchingWithOptions")
  }

  function SelectLaunch(env: Env, lang: Lang, t: seq<char>): (v: MethodVariant)
    ensures v != Legacy
    ensures v == New <==> !HasLaunchMethod(env, lang, t)
  {
    if HasLaunchMethod(env, lang, t) then Existing else New
  }

  function SelectContinueActivity(env: Env, lang: Lang, t: seq<char>): (v: MethodVariant)
    ensures v != Legacy
    ensures v == New <==> !env.matches(ContinueUserActivity(lang), t)
  {
    if env.matches(ContinueUserActivity(lang), t) then Existing else New
  }

  /** The options signature wins over the sourceApplication one, which wins over a new method. */
  function SelectOpenUrl(env: Env, lang: Lang, t: seq<char>): (v: MethodVariant)
    ensures v == Existing <==> env.matches(OpenUrlWithOptions(lang), t)
    ensures v == Legacy <==>
      !env.matches(OpenUrlWithOptions(lang), t) && env.matches(OpenUrlWithSourceApplication(lang), t)
    ensures v == New <==>
      !env.matches(OpenUrlWithOptions(lang), t) && !env.matches(OpenUrlWithSourceApplication(lang), t)
  {
    if env.matches(OpenUrlWithOptions(lang), t) then Existing
    else if env.matches(OpenUrlWithSourceApplication(lang), t) then Legacy
    else New
  }

  function SelectBecomeActive(env: Env, lang: Lang, t: seq<char>): (v: MethodVariant)
    ensures v != Legacy
    ensures v == New <==> !env.matches(DidBecomeActive(lang), t)
  {
    if env.matches(DidBecomeActive(lang), t) then Existing else New
  }

  function LangSuffix(lang: Lang): string {
    match lang
    case Swift => "swift"
    case Objc => "objc"
  }

  /** The messages view controller's patch name is composed from pieces. */
  function MessagesPatchName(isNew: bool, lang: Lang): (name: string)
    ensures name in Catalog
  {
    MessagesPatchNameInCatalog(isNew, lang);
    "messages_did_become_active_" + (if isNew then "new_" else "") + LangSuffix(lang)
  }

  lemma MessagesPatchNameInCatalog(isNew: bool, lang: Lang)
    ensures "messages_did_become_active_" + (if isNew then "new_" else "") + LangSuffix(lang) in Catalog
  {
    var name := "messages_did_become_active_" + (if isNew then "new_" else "") + LangSuffix(lang);
    match (isNew, lang)
    case (true, Swift) => assert name == "messages_did_become_active_new_swift";
    case (true, Objc) => assert name == "messages_did_become_active_new_objc";
    case (false, Swift) => assert name == "messages_did_become_active_swift";
    case (false, Objc) => assert name == "messages_did_become_active_objc";
  }

  /** Recover the pieces of a messages patch name: the inverse of `MessagesPatchName`. */
  function ParseMessagesPatchName(name: string): Option<(bool, Lang)> {
    var prefix := "messages_did_become_active_";
    if |name| < |prefix| || name[..|prefix|] != prefix then None
    else
      var rest := name[|prefix|..];
      if rest == "swift" then Some((false, Swift))
      else if rest == "objc" then Some((false, Objc))
      else if rest == "new_swift" then Some((true, Swift))
      else if rest == "new_objc" then Some((true, Objc))
      else None
  }

  /** Composing and parsing a messages patch name are inverse to each other. */
  lemma MessagesPatchNameRoundTrip(isNew: bool, lang: Lang, name: string)
    ensures ParseMessagesPatchName(MessagesPatchName(isNew, lang)) == Some((isNew, lang))
    ensures ParseMessagesPatchName(name) == Some((isNew, lang)) ==> name == MessagesPatchName(isNew, lang)
  {
    var prefix := "messages_did_become_active_";
    var composed := MessagesPatchName(isNew, lang);
    assert composed[..|prefix|] == prefix;
    assert composed[|prefix|..] == (if isNew then "new_" else "") + LangSuffix(lang);
    if ParseMessagesPatchName(name) == Some((isNew, lang)) {
      assert name == name[..|prefix|] + name[|prefix|..];
    }
  }

  /** The catalog name of a method family's variant. */
  function MethodPatchName(family: Family, lang: Lang, v: MethodVariant): (name: string)
    requires v == Legacy ==> family == OpenUrl
    ensures name in Catalog
  {
    match (family, lang, v)
    case (Launch, Swift, Existing) => "did_finish_launching_swift"
    case (Launch, Swift, _) => "did_finish_launching_new_swift"
    case (Launch, Objc, Existing) => "did_finish_launching_objc"
    case (Launch, Objc, _) => "did_finish_launching_new_objc"
    case (ContinueActivity, Swift, Existing) => "continue_user_activity_swift"
    case (ContinueActivity, Swift, _) => "continue_user_activity_new_swift"
    case (ContinueActivity, Objc, Existing) => "continue_user_activity_objc"
    case (ContinueActivity, Objc, _) => "continue_user_activity_new_objc"
    case (OpenUrl, Swift, Existing) => "open_url_swift"
    case (OpenUrl, Swift, Legacy) => "open_url_source_application_swift"
    case (OpenUrl, Swift, New) => "open_url_new_swift"
    case (OpenUrl, Objc, Existing) => "open_url_objc"
    case (OpenUrl, Objc, Legacy) => "open_url_source_annotation_objc"
    case (OpenUrl, Objc, New) => "open_url_new_objc"
    case (BecomeActive, _, _) => MessagesPatchName(v == New, lang)
  }

  /** The variant a method family picks for the current text. */
  function SelectMethod(env: Env, family: Family, lang: Lang, t: seq<char>): (v: MethodVariant)
    ensures v == Legacy ==> family == OpenUrl
  {
    match family
    case Launch => SelectLaunch(env, lang, t)
    case ContinueActivity => SelectContinueActivity(env, lang, t)
    case OpenUrl => SelectOpenUrl(env, lang, t)
    case BecomeActive => SelectBecomeActive(env, lang, t)
  }

  // ---------------------------------------------------------------------------
  // Steps and pipelines

  /** One patch application whose name may depend on the text it is applied to. */
  datatype Step = SwiftImport | ObjcImport | BridgingImport | Method(family: Family, lang: Lang)

  /** The catalog patch a step applies to `t`: the orchestrator only asks for names that exist. */
  function StepPatch(env: Env, step: Step, t: seq<char>): (name: string)
    ensures name in Catalog
  {
    match step
    case SwiftImport => "swift_import"
    case ObjcImport => "objc_import"
    case BridgingImport => ImportPatchName(SelectImport(env, t))
    case Method(f, lang) => MethodPatchName(f, lang, SelectMethod(env, f, lang, t))
  }

  /** Launch and messages patches are rendered with the caller's binding; the rest without. */
  function StepBinding(step: Step, conditionalTestKey: bool): Binding {
    match step
    case Method(Launch, _) => Bound(conditionalTestKey)
    case Method(BecomeActive, _) => Bound(conditionalTestKey)
    case _ => Unbound
  }

  function RunStep(env: Env, conditionalTestKey: bool, step: Step, t: seq<char>): seq<char>
    requires EnvOk(env)
  {
    ApplyPatch(env, StepPatch(env, step, t), StepBinding(step, conditionalTestKey), t)
  }

  /** Apply the steps in order, each one probing the text the previous ones left. */
  function RunSteps(env: Env, conditionalTestKey: bool, steps: seq<Step>, t: seq<char>): seq<char>
    requires EnvOk(env)
  {
    if steps == [] then t
    else RunSteps(env, conditionalTestKey, steps[1..], RunStep(env, conditionalTestKey, steps[0], t))
  }

  /** Running two pipelines one after the other is running their concatenation. */
  lemma {:induction false} RunStepsConcat(env: Env, key: bool, a: seq<Step>, b: seq<Step>, t: seq<char>)
    requires EnvOk(env)
    ensures RunSteps(env, key, a + b, t) == RunSteps(env, key, b, RunSteps(env, key, a, t))
  {
    if a == [] {
      assert a + b == b;
    } else {
      assert (a + b)[1..] == a[1..] + b;
      RunStepsConcat(env, key, a[1..], b, RunStep(env, key, a[0], t));
    }
  }

  /**
   * The app delegate pipeline: the import (for Swift only when no bridging header is
   * required), then the launch, continue-activity and open-url patches in that order.
   */
  function AppDelegateSteps(lang: Lang, bridgingHeaderRequired: bool): (steps: seq<Step>)
    ensures |steps| >= 3
    ensures steps[|steps| - 3..] == [Method(Launch, lang), Method(ContinueActivity, lang), Method(OpenUrl, lang)]
    ensures |steps| == 4 <==> lang == Objc || !bridgingHeaderRequired
    ensures |steps| == 4 ==> steps[0] == (if lang == Swift then SwiftImport else ObjcImport)
  {
    match lang
    case Swift =>
      (if bridgingHeaderRequired then [] else [SwiftImport])
      + [Method(Launch, Swift), Method(ContinueActivity, Swift), Method(OpenUrl, Swift)]
    case Objc => [ObjcImport, Method(Launch, Objc), Method(ContinueActivity, Objc), Method(OpenUrl, Objc)]
  }

  /** The messages view controller pipeline: the import, then the didBecomeActive patch. */
  function MessagesSteps(lang: Lang, bridgingHeaderRequired: bool): (steps: seq<Step>)
    ensures |steps| >= 1 && steps[|steps| - 1] == Method(BecomeActive, lang)
    ensures |steps| == 2 <==> lang == Objc || !bridgingHeaderRequired
    ensures |steps| == 2 ==> steps[0] == (if lang == Swift then SwiftImport else ObjcImport)
  {
    match lang
    case Swift => (if bridgingHeaderRequired then [] else [SwiftImport]) + [Method(BecomeActive, Swift)]
    case Objc => [ObjcImport, Method(BecomeActive, Objc)]
  }

  /** In the app delegate pipeline only the launch patch is rendered with the test-key binding. */
  lemma AppDelegateBindings(lang: Lang, br: bool, key: bool)
    ensures var steps := AppDelegateSteps(lang, br);
      forall i :: 0 <= i < |steps| ==>
        StepBinding(steps[i], key) == if steps[i] == Method(Launch, lang) then Bound(key) else Unbound
  {
  }

  /** In the messages pipeline only the didBecomeActive patch is rendered with the test-key binding. */
  lemma MessagesBindings(lang: Lang, br: bool, key: bool)
    ensures var steps := MessagesSteps(lang, br);
      forall i :: 0 <= i < |steps| ==>
        StepBinding(steps[i], key) == if steps[i] == Method(BecomeActive, lang) then Bound(key) else Unbound
  {
  }

  /**
   * The test key reaches a file only through the patches rendered with a binding: a
   * pipeline without them gives the same text whatever the key.
   */
  lemma {:induction false} UnboundStepsIgnoreKey(env: Env, k1: bool, k2: bool, steps: seq<Step>, t: seq<char>)
    requires EnvOk(env)
    requires forall i :: 0 <= i < |steps| ==> StepBinding(steps[i], k1) == Unbound
    ensures RunSteps(env, k1, steps, t) == RunSteps(env, k2, steps, t)
  {
    if steps != [] {
      assert StepBinding(steps[0], k1) == Unbound;
      assert forall i :: 0 <= i < |steps[1..]| ==> steps[1..][i] == steps[i + 1];
      UnboundStepsIgnoreKey(env, k1, k2, steps[1..], RunStep(env, k1, steps[0], t));
    }
  }

  /** Each variant of a method family has a patch of its own. */
  lemma MethodPatchNameDistinct(family: Family, lang: Lang, v: MethodVariant, w: MethodVariant)
    requires (v == Legacy ==> family == OpenUrl) && (w == Legacy ==> family == OpenUrl)
    ensures v != w ==> MethodPatchName(family, lang, v) != MethodPatchName(family, lang, w)
  {
    if v != w && family == BecomeActive {
      var n, m := MessagesPatchName(v == New, lang), MessagesPatchName(w == New, lang);
      MessagesPatchNameRoundTrip(v == New, lang, n);
      MessagesPatchNameRoundTrip(w == New, lang, m);
    }
  }

  /** The probe whose match means a file already has Branch in it. */
  function IntegratedProbe(lang: Lang): Probe {
    match lang
    case Swift => MentionsBranch
    case Objc => ImportsBranch
  }

  /** A messages view controller path ending in `.swift` is Swift; any other is Objective-C. */
  function LangOfPath(p: Path): (lang: Lang)
    ensures lang == Swift <==> EndsWith(p, ".swift")
  {
    if EndsWith(p, ".swift") then Swift else Objc
  }

  // ---------------------------------------------------------------------------
  // Podfile entries

  /** The dependency names that already bring in Branch: `Branch`, `Branch-SDK`, or a subspec of either. */
  predicate IsBranchPod(name: string) {
    || name == "Branch" || name == "Branch-SDK"
    || (|name| >= 7 && name[..7] == "Branch/")
    || (|name| >= 11 && name[..11] == "Branch-SDK/")
  }

  /** `name` is `base`, alone or followed by a `/subspec`. */
  predicate PodNameShape(name: string, base: string, sub: string) {
    (base == "Branch" || base == "Branch-SDK") && (name == base || name == base + "/" + sub)
  }

  /** `IsBranchPod` is the pattern `(Branch|Branch-SDK)(/.*)?` over a whole dependency name. */
  lemma IsBranchPodPattern(name: string)
    ensures IsBranchPod(name) <==> exists base, sub :: PodNameShape(name, base, sub)
  {
    forall base, sub | PodNameShape(name, base, sub) ensures IsBranchPod(name) {
      if name != base {
        assert name[..|base| + 1] == base + "/";
      }
    }
    if IsBranchPod(name) {
      var base, sub: string;
      if name == "Branch" || name == "Branch-SDK" {
        base, sub := name, "";
      } else if |name| >= 7 && name[..7] == "Branch/" {
        base, sub := "Branch", name[7..];
        assert name == base + "/" + sub;
      } else {
        base, sub := "Branch-SDK", name[11..];
        assert name == base + "/" + sub;
      }
      assert PodNameShape(name, base, sub);
    }
  }

  /** The line added to a Podfile: the captured indent, two more spaces inside a `do` block, and the pod. */
  function PodLine(indent: seq<char>, inBlock: bool): (line: seq<char>)
    ensures |line| > |indent| && line[..|indent|] == indent
  {
    indent + (if inBlock then "  " else "") + "pod \"Branch\"\n"
  }

  /**
   * Add the Branch pod for `target`: appended after the `target ... do` line when the
   * target has a block, prepended before the `target` line otherwise, with the
   * indent captured from the anchor; unchanged when the anchor is not found.
   */
  function AddPod(env: Env, target: string, inBlock: bool, t: seq<char>): (r: seq<char>)
    requires EnvOk(env)
    ensures var p := if inBlock then PodTargetBlock(target) else PodTargetLine(target);
      match env.find(p, t)
      case None => r == t
      case Some(m) =>
        var line := PodLine(t[m.group.start..m.group.end], inBlock);
        var at := if inBlock then m.whole.end else m.whole.start;
        r == t[..at] + line + t[at..]
  {
    var p := if inBlock then PodTargetBlock(target) else PodTargetLine(target);
    match env.find(p, t)
    case None => t
    case Some(m) =>
      Splice(t, m.whole, if inBlock then Append else Prepend, PodLine(t[m.group.start..m.group.end], inBlock))
  }
}
