/**
 * The imperative side of lib/branch_io_cli/helper/patch_helper.rb: the steps that read a
 * file, check whether Branch is already there, rewrite it and record its path.
 *
 * Each operation is first given as a function from the old state (file texts and the
 * change list) to a `Run`, and then as a method of `PatchHelper` that updates the
 * state in place and is proved to agree with that function.
 */
module Integration {
  import opened Outcomes
  import opened Text
  import opened Patching

  /** The settings the engine reads from the tool's configuration object. */
  datatype Config = Config(
    keys: map<string, string>,                // Branch keys, e.g. live and test
    setting: Option<string>,                  // a build setting to read the key from
    hasMultipleInfoPlists: bool,
    patchSource: bool,
    bridgingHeaderPath: Option<Path>,
    bridgingHeaderRequired: bool,
    appDelegateSwiftPath: Option<Path>,
    appDelegateObjcPath: Option<Path>,
    messagesViewControllerPath: Option<Path>,
    targetName: string,
    podfilePath: Path,
    podfileTargets: map<string, seq<string>>) // Podfile target definitions: target name to dependency names

  /**
   * The launch and messages templates branch on the build configuration at run time
   * when there is more than one key, no setting to read it from, and a single Info.plist.
   */
  function UseConditionalTestKey(cfg: Config): (b: bool)
    ensures b ==> |cfg.keys| >= 2 && cfg.setting.None?
    ensures b <==> |cfg.keys| > 1 && cfg.setting == None && !cfg.hasMultipleInfoPlists
  {
    |cfg.keys| > 1 && cfg.setting.None? && !cfg.hasMultipleInfoPlists
  }

  /** What stops an operation: `exit(-1)`, a file that cannot be read, a target missing from the Podfile. */
  datatype Failure = Aborted | Unreadable(path: Path) | TargetNotInPodfile(target: string)

  type Files = map<Path, seq<char>>

  /** The result of an operation, with the file texts and the change list it leaves. */
  datatype Run = Run(outcome: Result<bool, Failure>, files: Files, changes: seq<Path>)

  /**
   * Patch one file: unreadable is an error; a file that already has Branch is left alone
   * and the answer is false; otherwise the steps run in order on its text and its path
   * is recorded once.
   */
  function PatchFile(env: Env, key: bool, p: Path, guard: Probe, steps: seq<Step>, files: Files, changes: seq<Path>): (r: Run)
    requires EnvOk(env)
    ensures r.files.Keys == files.Keys
    ensures forall q :: q in files && q != p ==> r.files[q] == files[q]
    ensures r.outcome.Err? <==> p !in files
    ensures r.outcome.Err? ==> r.outcome.error == Unreadable(p)
    ensures r.outcome == Ok(true) <==> p in files && !env.matches(guard, files[p])
    ensures r.outcome == Ok(true) ==>
      r.changes == changes + [p] && r.files[p] == RunSteps(env, key, steps, files[p])
    ensures r.outcome != Ok(true) ==> r.files == files && r.changes == changes
  {
    if p !in files then Run(Err(Unreadable(p)), files, changes)
    else if env.matches(guard, files[p]) then Run(Ok(false), files, changes)
    else Run(Ok(true), files[p := RunSteps(env, key, steps, files[p])], changes + [p])
  }

  /** The file a stage of patch_source may write and record, when it is set. */
  predicate Touches(r: Run, files: Files, changes: seq<Path>, p: Option<Path>) {
    && r.files.Keys == files.Keys
    && (forall q :: q in files && Some(q) != p ==> r.files[q] == files[q])
    && (r.outcome == Ok(true) ==> p.Some? && r.changes == changes + [p.value])
    && (r.outcome != Ok(true) ==> r.files == files && r.changes == changes)
  }

  /** patch_bridging_header: without a bridging header the tool exits. */
  function BridgingHeaderRun(env: Env, cfg: Config, files: Files, changes: seq<Path>): (r: Run)
    requires EnvOk(env)
    ensures Touches(r, files, changes, cfg.bridgingHeaderPath)
    ensures cfg.bridgingHeaderPath.None? ==> r.outcome == Err(Aborted)
    ensures r.outcome.Err? <==> cfg.bridgingHeaderPath.None? || cfg.bridgingHeaderPath.value !in files
    ensures r.outcome == Ok(true) ==>
      var p := cfg.bridgingHeaderPath.value;
      r.files[p] == ApplyPatch(env, ImportPatchName(SelectImport(env, files[p])), Unbound, files[p])
    ensures r.outcome.Ok? ==> cfg.bridgingHeaderPath.Some? && cfg.bridgingHeaderPath.value in files
    ensures r.outcome == Ok(true) <==>
      cfg.bridgingHeaderPath.Some? && cfg.bridgingHeaderPath.value in files &&
      !env.matches(ImportsBranch, files[cfg.bridgingHeaderPath.value])
    ensures (r.outcome.Ok? &&
      PipelineIntegrates(env, UseConditionalTestKey(cfg), files, cfg.bridgingHeaderPath, ImportsBranch, [BridgingImport])) ==>
      FileIntegrated(env, r.files, cfg.bridgingHeaderPath, ImportsBranch)
  {
    match cfg.bridgingHeaderPath
    case None => Run(Err(Aborted), files, changes)
    case Some(p) =>
      assert p in files ==>
        RunSteps(env, UseConditionalTestKey(cfg), [BridgingImport], files[p]) ==
        RunStep(env, UseConditionalTestKey(cfg), BridgingImport, files[p]) by {
        assert [BridgingImport][1..] == [];
      }
      PatchFile(env, UseConditionalTestKey(cfg), p, ImportsBranch, [BridgingImport], files, changes)
  }

  function AppDelegatePath(cfg: Config, lang: Lang): Option<Path> {
    match lang
    case Swift => cfg.appDelegateSwiftPath
    case Objc => cfg.appDelegateObjcPath
  }

  /** patch_app_delegate_swift / patch_app_delegate_objc. */
  function AppDelegateRun(env: Env, cfg: Config, lang: Lang, files: Files, changes: seq<Path>): (r: Run)
    requires EnvOk(env)
    ensures Touches(r, files, changes, AppDelegatePath(cfg, lang))
    ensures !cfg.patchSource || AppDelegatePath(cfg, lang).None? ==> r == Run(Ok(false), files, changes)
    ensures r.outcome.Ok? && cfg.patchSource && AppDelegatePath(cfg, lang).Some? ==>
      AppDelegatePath(cfg, lang).value in files
    ensures r.outcome.Err? <==>
      cfg.patchSource && AppDelegatePath(cfg, lang).Some? && AppDelegatePath(cfg, lang).value !in files
    ensures r.outcome == Ok(true) ==>
      var p := AppDelegatePath(cfg, lang).value;
      r.files[p] == RunSteps(env, UseConditionalTestKey(cfg), AppDelegateSteps(lang, cfg.bridgingHeaderRequired), files[p])
    ensures r.outcome == Ok(true) <==>
      cfg.patchSource && AppDelegatePath(cfg, lang).Some? && AppDelegatePath(cfg, lang).value in files &&
      !env.matches(IntegratedProbe(lang), files[AppDelegatePath(cfg, lang).value])
    ensures (r.outcome.Ok? && cfg.patchSource &&
      PipelineIntegrates(env, UseConditionalTestKey(cfg), files, AppDelegatePath(cfg, lang),
                         IntegratedProbe(lang), AppDelegateSteps(lang, cfg.bridgingHeaderRequired))) ==>
      FileIntegrated(env, r.files, AppDelegatePath(cfg, lang), IntegratedProbe(lang))
  {
    if !cfg.patchSource then Run(Ok(false), files, changes)
    else match AppDelegatePath(cfg, lang)
      case None => Run(Ok(false), files, changes)
      case Some(p) =>
        PatchFile(env, UseConditionalTestKey(cfg), p, IntegratedProbe(lang),
                  AppDelegateSteps(lang, cfg.bridgingHeaderRequired), files, changes)
  }

  function MessagesProbe(cfg: Config): Probe
    requires cfg.messagesViewControllerPath.Some?
  {
    IntegratedProbe(LangOfPath(cfg.messagesViewControllerPath.value))
  }

  function MessagesPipeline(cfg: Config): seq<Step>
    requires cfg.messagesViewControllerPath.Some?
  {
    MessagesSteps(LangOfPath(cfg.messagesViewControllerPath.value), cfg.bridgingHeaderRequired)
  }

  /** patch_messages_view_controller: the language comes from the file extension. */
  function MessagesRun(env: Env, cfg: Config, files: Files, changes: seq<Path>): (r: Run)
    requires EnvOk(env)
    ensures Touches(r, files, changes, cfg.messagesViewControllerPath)
    ensures cfg.messagesViewControllerPath.None? ==> r == Run(Ok(false), files, changes)
    ensures r.outcome.Ok? && cfg.messagesViewControllerPath.Some? ==> cfg.messagesViewControllerPath.value in files
    ensures r.outcome.Err? <==> cfg.messagesViewControllerPath.Some? && cfg.messagesViewControllerPath.value !in files
    ensures r.outcome == Ok(true) ==>
      var p := cfg.messagesViewControllerPath.value;
      r.files[p] == RunSteps(env, UseConditionalTestKey(cfg), MessagesPipeline(cfg), files[p])
    ensures r.outcome == Ok(true) <==>
      cfg.messagesViewControllerPath.Some? && cfg.messagesViewControllerPath.value in files &&
      !env.matches(MessagesProbe(cfg), files[cfg.messagesViewControllerPath.value])
    ensures (r.outcome.Ok? && cfg.messagesViewControllerPath.Some? &&
      PipelineIntegrates(env, UseConditionalTestKey(cfg), files, cfg.messagesViewControllerPath,
                         MessagesProbe(cfg), MessagesPipeline(cfg))) ==>
      FileIntegrated(env, r.files, cfg.messagesViewControllerPath, MessagesProbe(cfg))
  {
    match cfg.messagesViewControllerPath
    case None => Run(Ok(false), files, changes)
    case Some(p) =>
      PatchFile(env, UseConditionalTestKey(cfg), p, MessagesProbe(cfg), MessagesPipeline(cfg), files, changes)
  }

  /**
   * `patch_app_delegate_swift || patch_app_delegate_objc`: the Objective-C delegate is
   * tried only when the Swift one answers false, so at most one of them is written and
   * recorded.
   */
  function AppDelegatesRun(env: Env, cfg: Config, files: Files, changes: seq<Path>): (r: Run)
    requires EnvOk(env)
    ensures Touches(r, files, changes, cfg.appDelegateSwiftPath) || Touches(r, files, changes, cfg.appDelegateObjcPath)
    ensures AppDelegateRun(env, cfg, Swift, files, changes).outcome == Ok(true) ==>
      Touches(r, files, changes, cfg.appDelegateSwiftPath) && r.outcome == Ok(true)
  {
    var r := AppDelegateRun(env, cfg, Swift, files, changes);
    if r.outcome.Err? || r.outcome.value then r
    else AppDelegateRun(env, cfg, Objc, r.files, r.changes)
  }

  /**
   * patch_source: the bridging header when one is required, then the app delegates,
   * then the messages view controller. An error stops the sequence; the answer is the
   * last step's.
   */
  function SourceRun(env: Env, cfg: Config, files: Files, changes: seq<Path>): (r: Run)
    requires EnvOk(env)
  {
    var r1 := if cfg.bridgingHeaderRequired then BridgingHeaderRun(env, cfg, files, changes)
              else Run(Ok(false), files, changes);
    if r1.outcome.Err? then r1
    else
      var r3 := AppDelegatesRun(env, cfg, r1.files, r1.changes);
      if r3.outcome.Err? then r3
      else MessagesRun(env, cfg, r3.files, r3.changes)
  }

  predicate Apart(a: Option<Path>, b: Option<Path>) {
    a.Some? && b.Some? ==> a.value != b.value
  }

  /** The bridging header, the two app delegates and the messages view controller are different files. */
  predicate DistinctPaths(cfg: Config) {
    && Apart(cfg.bridgingHeaderPath, cfg.appDelegateSwiftPath)
    && Apart(cfg.bridgingHeaderPath, cfg.appDelegateObjcPath)
    && Apart(cfg.bridgingHeaderPath, cfg.messagesViewControllerPath)
    && Apart(cfg.appDelegateSwiftPath, cfg.appDelegateObjcPath)
    && Apart(cfg.appDelegateSwiftPath, cfg.messagesViewControllerPath)
    && Apart(cfg.appDelegateObjcPath, cfg.messagesViewControllerPath)
  }

  /** A file that is not configured, or is there and already has Branch. */
  predicate FileIntegrated(env: Env, files: Files, p: Option<Path>, guard: Probe) {
    p.None? || (p.value in files && env.matches(guard, files[p.value]))
  }

  /** Every file patch_source would look at already has Branch. */
  predicate Integrated(env: Env, cfg: Config, files: Files) {
    && (cfg.bridgingHeaderRequired ==>
          cfg.bridgingHeaderPath.Some? && FileIntegrated(env, files, cfg.bridgingHeaderPath, ImportsBranch))
    && (cfg.patchSource ==>
          && FileIntegrated(env, files, cfg.appDelegateSwiftPath, MentionsBranch)
          && FileIntegrated(env, files, cfg.appDelegateObjcPath, ImportsBranch))
    && (cfg.messagesViewControllerPath.Some? ==>
          FileIntegrated(env, files, cfg.messagesViewControllerPath, MessagesProbe(cfg)))
  }

  /** On a project where Branch is everywhere already, patch_source writes nothing, records nothing and answers false. */
  lemma IntegratedSourceRunIsNoOp(env: Env, cfg: Config, files: Files, changes: seq<Path>)
    requires EnvOk(env) && Integrated(env, cfg, files)
    ensures SourceRun(env, cfg, files, changes) == Run(Ok(false), files, changes)
  {
  }

  /**
   * The assumption about the templates under which a second run is a no-op: a
   * pipeline run on a file of the project leaves Branch in it. (The templates and the
   * anchors are not part of this model, so this is stated, not proved.)
   */
  predicate PipelineIntegrates(env: Env, key: bool, files: Files, p: Option<Path>, guard: Probe, steps: seq<Step>)
    requires EnvOk(env)
  {
    p.Some? && p.value in files && !env.matches(guard, files[p.value]) ==>
      env.matches(guard, RunSteps(env, key, steps, files[p.value]))
  }

  predicate TemplatesIntegrate(env: Env, cfg: Config, files: Files)
    requires EnvOk(env)
  {
    var key, br := UseConditionalTestKey(cfg), cfg.bridgingHeaderRequired;
    && PipelineIntegrates(env, key, files, cfg.bridgingHeaderPath, ImportsBranch, [BridgingImport])
    && PipelineIntegrates(env, key, files, cfg.appDelegateSwiftPath, MentionsBranch, AppDelegateSteps(Swift, br))
    && PipelineIntegrates(env, key, files, cfg.appDelegateObjcPath, ImportsBranch, AppDelegateSteps(Objc, br))
    && (cfg.messagesViewControllerPath.Some? ==>
          PipelineIntegrates(env, key, files, cfg.messagesViewControllerPath, MessagesProbe(cfg), MessagesPipeline(cfg)))
  }

  /** A stage that leaves `p` alone keeps whether `p` has Branch and whether a pipeline would put it there. */
  lemma StageKeeps(env: Env, key: bool, r: Run, files: Files, changes: seq<Path>, touched: Option<Path>,
                   p: Option<Path>, guard: Probe, steps: seq<Step>)
    requires EnvOk(env) && Touches(r, files, changes, touched) && Apart(touched, p)
    ensures FileIntegrated(env, files, p, guard) <==> FileIntegrated(env, r.files, p, guard)
    ensures PipelineIntegrates(env, key, files, p, guard, steps) <==> PipelineIntegrates(env, key, r.files, p, guard, steps)
  {
  }

  /** The bridging header stage: the header has Branch afterwards and the templates still hold. */
  lemma BridgingStageIntegrates(env: Env, cfg: Config, files: Files, changes: seq<Path>)
    requires EnvOk(env) && DistinctPaths(cfg) && TemplatesIntegrate(env, cfg, files)
    ensures var br := cfg.bridgingHeaderRequired;
      var r1 := if br then BridgingHeaderRun(env, cfg, files, changes) else Run(Ok(false), files, changes);
      r1.outcome.Ok? ==>
        && TemplatesIntegrate(env, cfg, r1.files)
        && (br ==> cfg.bridgingHeaderPath.Some? && FileIntegrated(env, r1.files, cfg.bridgingHeaderPath, ImportsBranch))
  {
    var key, br := UseConditionalTestKey(cfg), cfg.bridgingHeaderRequired;
    var sw, oc, mv := cfg.appDelegateSwiftPath, cfg.appDelegateObjcPath, cfg.messagesViewControllerPath;
    var r1 := if br then BridgingHeaderRun(env, cfg, files, changes) else Run(Ok(false), files, changes);
    if r1.outcome.Err? || !br { return; }
    StageKeeps(env, key, r1, files, changes, cfg.bridgingHeaderPath, sw, MentionsBranch, AppDelegateSteps(Swift, br));
    StageKeeps(env, key, r1, files, changes, cfg.bridgingHeaderPath, oc, ImportsBranch, AppDelegateSteps(Objc, br));
    if mv.Some? {
      StageKeeps(env, key, r1, files, changes, cfg.bridgingHeaderPath, mv, MessagesProbe(cfg), MessagesPipeline(cfg));
    }
  }

  /**
   * The app delegate stage, with at most one app delegate set: the delegates have
   * Branch afterwards, the bridging header keeps it and the templates still hold.
   */
  lemma AppDelegatesStageIntegrates(env: Env, cfg: Config, files: Files, changes: seq<Path>)
    requires EnvOk(env) && DistinctPaths(cfg) && TemplatesIntegrate(env, cfg, files)
    requires cfg.appDelegateSwiftPath.None? || cfg.appDelegateObjcPath.None?
    ensures var r3 := AppDelegatesRun(env, cfg, files, changes);
      r3.outcome.Ok? ==>
        && TemplatesIntegrate(env, cfg, r3.files)
        && (cfg.patchSource ==>
              FileIntegrated(env, r3.files, cfg.appDelegateSwiftPath, MentionsBranch) &&
              FileIntegrated(env, r3.files, cfg.appDelegateObjcPath, ImportsBranch))
        && (FileIntegrated(env, files, cfg.bridgingHeaderPath, ImportsBranch) ==>
              FileIntegrated(env, r3.files, cfg.bridgingHeaderPath, ImportsBranch))
  {
    var key, br := UseConditionalTestKey(cfg), cfg.bridgingHeaderRequired;
    var bh, sw, oc, mv := cfg.bridgingHeaderPath, cfg.appDelegateSwiftPath, cfg.appDelegateObjcPath, cfg.messagesViewControllerPath;
    var r2 := AppDelegateRun(env, cfg, Swift, files, changes);
    if r2.outcome.Err? { return; }
    StageKeeps(env, key, r2, files, changes, sw, bh, ImportsBranch, [BridgingImport]);
    StageKeeps(env, key, r2, files, changes, sw, oc, ImportsBranch, AppDelegateSteps(Objc, br));
    if mv.Some? { StageKeeps(env, key, r2, files, changes, sw, mv, MessagesProbe(cfg), MessagesPipeline(cfg)); }
    if r2.outcome.value { return; }
    var r3 := AppDelegateRun(env, cfg, Objc, r2.files, r2.changes);
    if r3.outcome.Err? { return; }
    StageKeeps(env, key, r3, r2.files, r2.changes, oc, bh, ImportsBranch, [BridgingImport]);
    StageKeeps(env, key, r3, r2.files, r2.changes, oc, sw, MentionsBranch, AppDelegateSteps(Swift, br));
    if mv.Some? { StageKeeps(env, key, r3, r2.files, r2.changes, oc, mv, MessagesProbe(cfg), MessagesPipeline(cfg)); }
  }

  /** The messages stage: the view controller has Branch afterwards and the other files keep it. */
  lemma MessagesStageIntegrates(env: Env, cfg: Config, files: Files, changes: seq<Path>)
    requires EnvOk(env) && DistinctPaths(cfg) && TemplatesIntegrate(env, cfg, files)
    ensures var r := MessagesRun(env, cfg, files, changes);
      r.outcome.Ok? ==>
        && (cfg.messagesViewControllerPath.Some? ==>
              FileIntegrated(env, r.files, cfg.messagesViewControllerPath, MessagesProbe(cfg)))
        && (FileIntegrated(env, files, cfg.bridgingHeaderPath, ImportsBranch) ==>
              FileIntegrated(env, r.files, cfg.bridgingHeaderPath, ImportsBranch))
        && (FileIntegrated(env, files, cfg.appDelegateSwiftPath, MentionsBranch) ==>
              FileIntegrated(env, r.files, cfg.appDelegateSwiftPath, MentionsBranch))
        && (FileIntegrated(env, files, cfg.appDelegateObjcPath, ImportsBranch) ==>
              FileIntegrated(env, r.files, cfg.appDelegateObjcPath, ImportsBranch))
  {
    var key, br := UseConditionalTestKey(cfg), cfg.bridgingHeaderRequired;
    var bh, sw, oc, mv := cfg.bridgingHeaderPath, cfg.appDelegateSwiftPath, cfg.appDelegateObjcPath, cfg.messagesViewControllerPath;
    var r := MessagesRun(env, cfg, files, changes);
    if r.outcome.Err? { return; }
    StageKeeps(env, key, r, files, changes, mv, bh, ImportsBranch, [BridgingImport]);
    StageKeeps(env, key, r, files, changes, mv, sw, MentionsBranch, AppDelegateSteps(Swift, br));
    StageKeeps(env, key, r, files, changes, mv, oc, ImportsBranch, AppDelegateSteps(Objc, br));
  }

  /**
   * After a successful patch_source, every file it looks at has Branch, provided the
   * templates put it there, the files are distinct and at most one app delegate is set.
   */
  lemma SourceRunIntegrates(env: Env, cfg: Config, files: Files, changes: seq<Path>)
    requires EnvOk(env) && DistinctPaths(cfg) && TemplatesIntegrate(env, cfg, files)
    requires cfg.appDelegateSwiftPath.None? || cfg.appDelegateObjcPath.None?
    ensures var r := SourceRun(env, cfg, files, changes);
      r.outcome.Ok? ==> Integrated(env, cfg, r.files)
  {
    var br := cfg.bridgingHeaderRequired;
    var r1 := if br then BridgingHeaderRun(env, cfg, files, changes) else Run(Ok(false), files, changes);
    BridgingStageIntegrates(env, cfg, files, changes);
    if r1.outcome.Err? { return; }
    var r3 := AppDelegatesRun(env, cfg, r1.files, r1.changes);
    AppDelegatesStageIntegrates(env, cfg, r1.files, r1.changes);
    if r3.outcome.Err? { return; }
    MessagesStageIntegrates(env, cfg, r3.files, r3.changes);
  }

  /** Re-running patch_source on what it produced writes nothing and records nothing. */
  lemma SourceRunIdempotent(env: Env, cfg: Config, files: Files, changes: seq<Path>)
    requires EnvOk(env) && DistinctPaths(cfg) && TemplatesIntegrate(env, cfg, files)
    requires cfg.appDelegateSwiftPath.None? || cfg.appDelegateObjcPath.None?
    ensures var r := SourceRun(env, cfg, files, changes);
      r.outcome.Ok? ==> SourceRun(env, cfg, r.files, r.changes) == Run(Ok(false), r.files, r.changes)
  {
    var r := SourceRun(env, cfg, files, changes);
    SourceRunIntegrates(env, cfg, files, changes);
    if r.outcome.Ok? {
      IntegratedSourceRunIsNoOp(env, cfg, r.files, r.changes);
    }
  }

  /** A run only appends to the change list, keeps the set of files, and writes only files it records. */
  predicate Records(r: Run, files: Files, changes: seq<Path>) {
    && r.files.Keys == files.Keys
    && changes <= r.changes
    && (forall q :: q in files && q !in r.changes[|changes|..] ==> r.files[q] == files[q])
  }

  lemma TouchesRecords(r: Run, files: Files, changes: seq<Path>, p: Option<Path>)
    requires Touches(r, files, changes, p)
    ensures Records(r, files, changes) && |r.changes| <= |changes| + 1
  {
    if r.outcome == Ok(true) {
      assert r.changes[|changes|..] == [p.value];
    }
  }

  lemma {:induction false} RecordsCompose(a: Run, b: Run, files: Files, changes: seq<Path>)
    requires Records(a, files, changes) && Records(b, a.files, a.changes)
    ensures Records(b, files, changes)
  {
    assert b.changes[|changes|..] == a.changes[|changes|..] + b.changes[|a.changes|..];
  }

  /**
   * What patch_source records: it only appends, at most one entry per stage, and every
   * file it writes is recorded.
   */
  lemma SourceRunRecords(env: Env, cfg: Config, files: Files, changes: seq<Path>)
    requires EnvOk(env)
    ensures var r := SourceRun(env, cfg, files, changes);
      Records(r, files, changes) && |r.changes| <= |changes| + 3
  {
    var br := cfg.bridgingHeaderRequired;
    var r1 := if br then BridgingHeaderRun(env, cfg, files, changes) else Run(Ok(false), files, changes);
    TouchesRecords(r1, files, changes, if br then cfg.bridgingHeaderPath else None);
    if r1.outcome.Err? { return; }
    var r3 := AppDelegatesRun(env, cfg, r1.files, r1.changes);
    if Touches(r3, r1.files, r1.changes, cfg.appDelegateSwiftPath) {
      TouchesRecords(r3, r1.files, r1.changes, cfg.appDelegateSwiftPath);
    } else {
      TouchesRecords(r3, r1.files, r1.changes, cfg.appDelegateObjcPath);
    }
    RecordsCompose(r1, r3, files, changes);
    if r3.outcome.Err? { return; }
    var r4 := MessagesRun(env, cfg, r3.files, r3.changes);
    TouchesRecords(r4, r3.files, r3.changes, cfg.messagesViewControllerPath);
    RecordsCompose(r3, r4, files, changes);
  }

  /** A bridging header that patch_source patches is the first file it records. */
  lemma SourceRunRecordsBridgingHeaderFirst(env: Env, cfg: Config, files: Files, changes: seq<Path>)
    requires EnvOk(env) && cfg.bridgingHeaderRequired && cfg.bridgingHeaderPath.Some?
    requires cfg.bridgingHeaderPath.value in files && !env.matches(ImportsBranch, files[cfg.bridgingHeaderPath.value])
    ensures var r := SourceRun(env, cfg, files, changes);
      |r.changes| > |changes| && r.changes[|changes|] == cfg.bridgingHeaderPath.value
  {
    var r1 := BridgingHeaderRun(env, cfg, files, changes);
    var r3 := AppDelegatesRun(env, cfg, r1.files, r1.changes);
    var r4 := if r3.outcome.Err? then r3 else MessagesRun(env, cfg, r3.files, r3.changes);
    assert r4 == SourceRun(env, cfg, files, changes);
    assert r1.changes <= r4.changes by {
      assert r1.changes <= r3.changes;
      if r4 != r3 { assert Touches(r4, r3.files, r3.changes, cfg.messagesViewControllerPath); }
    }
    assert r4.changes[|changes|] == r1.changes[|changes|];
  }

  /** When patch_source answers true, the last file it recorded is the messages view controller. */
  lemma SourceRunTrueRecordsMessagesLast(env: Env, cfg: Config, files: Files, changes: seq<Path>)
    requires EnvOk(env)
    ensures var r := SourceRun(env, cfg, files, changes);
      r.outcome == Ok(true) ==>
        cfg.messagesViewControllerPath.Some? && |r.changes| > 0 && r.changes[|r.changes| - 1] == cfg.messagesViewControllerPath.value
  {
  }

  lemma DropPrefix<T>(c: seq<T>, x: seq<T>)
    ensures (c + x)[|c|..] == x
  {
  }

  /** The app delegate stage records nothing, the Swift delegate, or the Objective-C one. */
  lemma AppDelegatesRunRecordsOne(env: Env, cfg: Config, files: Files, changes: seq<Path>)
    requires EnvOk(env) && cfg.appDelegateSwiftPath.Some? && cfg.appDelegateObjcPath.Some?
    requires cfg.appDelegateSwiftPath.value != cfg.appDelegateObjcPath.value
    ensures var r := AppDelegatesRun(env, cfg, files, changes);
      var s, o := cfg.appDelegateSwiftPath.value, cfg.appDelegateObjcPath.value;
      && r.files.Keys == files.Keys
      && (r.changes == changes || r.changes == changes + [s] || r.changes == changes + [o])
      && (r.changes == changes + [s] ==> forall q :: q in files && q != s ==> r.files[q] == files[q])
      && (r.changes == changes + [o] ==> forall q :: q in files && q != o ==> r.files[q] == files[q])
  {
    var r := AppDelegatesRun(env, cfg, files, changes);
    if |r.changes| == |changes| + 1 {
      assert r.changes[|changes|] == (changes + [r.changes[|changes|]])[|changes|];
    }
  }

  lemma SegmentsExclude(changes: seq<Path>, a1: seq<Path>, a3: seq<Path>, a4: seq<Path>, all: seq<Path>, s: Path, o: Path)
    requires all == changes + a1 + a3 + a4
    requires s !in a1 && o !in a1 && s !in a4 && o !in a4 && (a3 == [] || a3 == [s] || a3 == [o]) && s != o
    ensures changes <= all
    ensures var added := all[|changes|..];
      !(s in added && o in added) && (s in added ==> a3 == [s])
  {
    assert all == changes + (a1 + a3 + a4);
    DropPrefix(changes, a1 + a3 + a4);
  }

  /** A stage that touches neither app delegate appends no app delegate and leaves the Objective-C one alone. */
  lemma StageAppends(r: Run, files: Files, changes: seq<Path>, touched: Option<Path>, s: Path, o: Path) returns (added: seq<Path>)
    requires Touches(r, files, changes, touched) && Apart(touched, Some(s)) && Apart(touched, Some(o))
    ensures r.changes == changes + added && s !in added && o !in added
    ensures o in files ==> o in r.files && r.files[o] == files[o]
  {
    added := if r.outcome == Ok(true) then [touched.value] else [];
  }

  /** What the app delegate stage appends to the change list, as a segment. */
  lemma AppDelegatesAppend(env: Env, cfg: Config, files: Files, changes: seq<Path>) returns (added: seq<Path>)
    requires EnvOk(env) && cfg.appDelegateSwiftPath.Some? && cfg.appDelegateObjcPath.Some?
    requires cfg.appDelegateSwiftPath.value != cfg.appDelegateObjcPath.value
    ensures var r := AppDelegatesRun(env, cfg, files, changes);
      var s, o := cfg.appDelegateSwiftPath.value, cfg.appDelegateObjcPath.value;
      && r.changes == changes + added && (added == [] || added == [s] || added == [o])
      && (added == [s] && o in files ==> r.files[o] == files[o])
  {
    var r := AppDelegatesRun(env, cfg, files, changes);
    var s, o := cfg.appDelegateSwiftPath.value, cfg.appDelegateObjcPath.value;
    AppDelegatesRunRecordsOne(env, cfg, files, changes);
    added := if r.changes == changes then [] else if r.changes == changes + [s] then [s] else [o];
  }

  /**
   * The change list of patch_source as three segments: the bridging header stage's,
   * the app delegate stage's and the messages stage's.
   */
  lemma SourceRunSegments(env: Env, cfg: Config, files: Files, changes: seq<Path>)
    returns (a1: seq<Path>, a3: seq<Path>, a4: seq<Path>)
    requires EnvOk(env) && DistinctPaths(cfg)
    requires cfg.appDelegateSwiftPath.Some? && cfg.appDelegateObjcPath.Some?
    ensures var r := SourceRun(env, cfg, files, changes);
      var s, o := cfg.appDelegateSwiftPath.value, cfg.appDelegateObjcPath.value;
      && r.changes == changes + a1 + a3 + a4
      && s !in a1 && o !in a1 && s !in a4 && o !in a4 && (a3 == [] || a3 == [s] || a3 == [o])
      && (a3 == [s] && o in files ==> r.files[o] == files[o])
  {
    var s, o := cfg.appDelegateSwiftPath.value, cfg.appDelegateObjcPath.value;
    var br := cfg.bridgingHeaderRequired;
    var r1 := if br then BridgingHeaderRun(env, cfg, files, changes) else Run(Ok(false), files, changes);
    a1 := StageAppends(r1, files, changes, if br then cfg.bridgingHeaderPath else None, s, o);
    if r1.outcome.Err? {
      a3, a4 := [], [];
      return;
    }
    var r3 := AppDelegatesRun(env, cfg, r1.files, r1.changes);
    a3 := AppDelegatesAppend(env, cfg, r1.files, r1.changes);
    if r3.outcome.Err? {
      a4 := [];
      return;
    }
    var r4 := MessagesRun(env, cfg, r3.files, r3.changes);
    assert r4 == SourceRun(env, cfg, files, changes);
    a4 := StageAppends(r4, r3.files, r3.changes, cfg.messagesViewControllerPath, s, o);
  }

  /**
   * Of two configured app delegates patch_source records at most one, and when the
   * Swift one is recorded the Objective-C one is left as it was.
   */
  lemma SourceRunPatchesOneAppDelegate(env: Env, cfg: Config, files: Files, changes: seq<Path>)
    requires EnvOk(env) && DistinctPaths(cfg)
    requires cfg.appDelegateSwiftPath.Some? && cfg.appDelegateObjcPath.Some?
    ensures var r := SourceRun(env, cfg, files, changes);
      var s, o := cfg.appDelegateSwiftPath.value, cfg.appDelegateObjcPath.value;
      && changes <= r.changes
      && !(s in r.changes[|changes|..] && o in r.changes[|changes|..])
      && (s in r.changes[|changes|..] && o in files ==> r.files[o] == files[o])
  {
    var s, o := cfg.appDelegateSwiftPath.value, cfg.appDelegateObjcPath.value;
    var a1, a3, a4 := SourceRunSegments(env, cfg, files, changes);
    SegmentsExclude(changes, a1, a3, a4, SourceRun(env, cfg, files, changes).changes, s, o);
  }

  /**
   * A first run on a project with both app delegates unpatched: it patches the Swift one
   * and leaves the Objective-C one without Branch.
   */
  lemma FirstRunPatchesSwiftOnly(env: Env, cfg: Config, files: Files, changes: seq<Path>)
    requires EnvOk(env) && DistinctPaths(cfg) && TemplatesIntegrate(env, cfg, files) && cfg.patchSource
    requires cfg.appDelegateSwiftPath.Some? && cfg.appDelegateObjcPath.Some?
    requires cfg.appDelegateSwiftPath.value in files && !env.matches(MentionsBranch, files[cfg.appDelegateSwiftPath.value])
    requires cfg.appDelegateObjcPath.value in files && !env.matches(ImportsBranch, files[cfg.appDelegateObjcPath.value])
    ensures var r := SourceRun(env, cfg, files, changes);
      r.outcome.Ok? ==>
        && (cfg.bridgingHeaderRequired ==>
              cfg.bridgingHeaderPath.Some? && FileIntegrated(env, r.files, cfg.bridgingHeaderPath, ImportsBranch))
        && FileIntegrated(env, r.files, cfg.appDelegateSwiftPath, MentionsBranch)
        && cfg.appDelegateObjcPath.value in r.files && !env.matches(ImportsBranch, r.files[cfg.appDelegateObjcPath.value])
  {
    var key, br := UseConditionalTestKey(cfg), cfg.bridgingHeaderRequired;
    var bh, sw, oc, mv := cfg.bridgingHeaderPath, cfg.appDelegateSwiftPath, cfg.appDelegateObjcPath, cfg.messagesViewControllerPath;
    var swSteps, ocSteps := AppDelegateSteps(Swift, br), AppDelegateSteps(Objc, br);
    var r1 := if br then BridgingHeaderRun(env, cfg, files, changes) else Run(Ok(false), files, changes);
    BridgingStageIntegrates(env, cfg, files, changes);
    if r1.outcome.Err? { return; }
    var t1: Option<Path> := if br then bh else None;
    assert Touches(r1, files, changes, t1);
    StageKeeps(env, key, r1, files, changes, t1, sw, MentionsBranch, swSteps);
    StageKeeps(env, key, r1, files, changes, t1, oc, ImportsBranch, ocSteps);
    var r2 := AppDelegateRun(env, cfg, Swift, r1.files, r1.changes);
    assert r2.outcome == Ok(true);
    StageKeeps(env, key, r2, r1.files, r1.changes, sw, bh, ImportsBranch, [BridgingImport]);
    StageKeeps(env, key, r2, r1.files, r1.changes, sw, oc, ImportsBranch, ocSteps);
    var r := MessagesRun(env, cfg, r2.files, r2.changes);
    assert r == SourceRun(env, cfg, files, changes);
    if r.outcome.Err? { return; }
    StageKeeps(env, key, r, r2.files, r2.changes, mv, bh, ImportsBranch, [BridgingImport]);
    StageKeeps(env, key, r, r2.files, r2.changes, mv, sw, MentionsBranch, swSteps);
    StageKeeps(env, key, r, r2.files, r2.changes, mv, oc, ImportsBranch, ocSteps);
  }

  /**
   * A run on a project whose bridging header (when required) and Swift app delegate have
   * Branch but whose Objective-C app delegate has not records the Objective-C delegate.
   */
  lemma RunReachesObjcAppDelegate(env: Env, cfg: Config, files: Files, changes: seq<Path>)
    requires EnvOk(env) && cfg.patchSource
    requires cfg.bridgingHeaderRequired ==>
      cfg.bridgingHeaderPath.Some? && FileIntegrated(env, files, cfg.bridgingHeaderPath, ImportsBranch)
    requires FileIntegrated(env, files, cfg.appDelegateSwiftPath, MentionsBranch)
    requires cfg.appDelegateObjcPath.Some? && cfg.appDelegateObjcPath.value in files
    requires !env.matches(ImportsBranch, files[cfg.appDelegateObjcPath.value])
    ensures var again := SourceRun(env, cfg, files, changes);
      |again.changes| > |changes| && cfg.appDelegateObjcPath.value in again.changes[|changes|..]
  {
    var oc := cfg.appDelegateObjcPath.value;
    var q1 := if cfg.bridgingHeaderRequired then BridgingHeaderRun(env, cfg, files, changes) else Run(Ok(false), files, changes);
    assert q1 == Run(Ok(false), files, changes);
    var q2 := AppDelegateRun(env, cfg, Swift, q1.files, q1.changes);
    assert q2 == Run(Ok(false), files, changes);
    var q3 := AppDelegateRun(env, cfg, Objc, q2.files, q2.changes);
    assert q3.outcome == Ok(true) && q3.changes == changes + [oc];
    var again := SourceRun(env, cfg, files, changes);
    assert again == MessagesRun(env, cfg, q3.files, q3.changes);
    assert q3.changes <= again.changes;
    assert again.changes[|changes|] == oc;
  }

  /**
   * When both app delegates are configured, the first run patches the Swift one and a
   * second run, finding Branch there, goes on to patch the Objective-C one: patch_source
   * is not idempotent on such a project.
   */
  lemma SecondRunReachesObjcAppDelegate(env: Env, cfg: Config, files: Files, changes: seq<Path>)
    requires EnvOk(env) && DistinctPaths(cfg) && TemplatesIntegrate(env, cfg, files) && cfg.patchSource
    requires cfg.appDelegateSwiftPath.Some? && cfg.appDelegateObjcPath.Some?
    requires cfg.appDelegateSwiftPath.value in files && !env.matches(MentionsBranch, files[cfg.appDelegateSwiftPath.value])
    requires cfg.appDelegateObjcPath.value in files && !env.matches(ImportsBranch, files[cfg.appDelegateObjcPath.value])
    ensures var r := SourceRun(env, cfg, files, changes);
      r.outcome.Ok? ==>
        var again := SourceRun(env, cfg, r.files, r.changes);
        |again.changes| > |r.changes| && cfg.appDelegateObjcPath.value in again.changes[|r.changes|..]
  {
    var r := SourceRun(env, cfg, files, changes);
    FirstRunPatchesSwiftOnly(env, cfg, files, changes);
    if r.outcome.Ok? {
      RunReachesObjcAppDelegate(env, cfg, r.files, r.changes);
    }
  }

  /** The app delegate stage neither records nor writes a path apart from both delegates. */
  lemma AppDelegatesLeaveAlone(env: Env, cfg: Config, files: Files, changes: seq<Path>, q: Path) returns (added: seq<Path>)
    requires EnvOk(env) && Apart(cfg.appDelegateSwiftPath, Some(q)) && Apart(cfg.appDelegateObjcPath, Some(q))
    ensures var r := AppDelegatesRun(env, cfg, files, changes);
      && r.changes == changes + added && q !in added
      && (q in files ==> q in r.files && r.files[q] == files[q])
  {
    var r := AppDelegatesRun(env, cfg, files, changes);
    if Touches(r, files, changes, cfg.appDelegateSwiftPath) {
      added := StageAppends(r, files, changes, cfg.appDelegateSwiftPath, q, q);
    } else {
      added := StageAppends(r, files, changes, cfg.appDelegateObjcPath, q, q);
    }
  }

  /** What patch_source appends without a required bridging header, as a segment without the header. */
  lemma HeaderStaysOut(env: Env, cfg: Config, files: Files, changes: seq<Path>) returns (added: seq<Path>)
    requires EnvOk(env) && DistinctPaths(cfg) && !cfg.bridgingHeaderRequired && cfg.bridgingHeaderPath.Some?
    ensures var r, bh := SourceRun(env, cfg, files, changes), cfg.bridgingHeaderPath.value;
      && r.changes == changes + added && bh !in added
      && (bh in files ==> bh in r.files && r.files[bh] == files[bh])
  {
    var bh := cfg.bridgingHeaderPath.value;
    var r3 := AppDelegatesRun(env, cfg, files, changes);
    var a3 := AppDelegatesLeaveAlone(env, cfg, files, changes, bh);
    if r3.outcome.Err? {
      added := a3;
      return;
    }
    var r4 := MessagesRun(env, cfg, r3.files, r3.changes);
    var a4 := StageAppends(r4, r3.files, r3.changes, cfg.messagesViewControllerPath, bh, bh);
    added := a3 + a4;
  }

  /** patch_source writes and records the bridging header only when one is required. */
  lemma BridgingHeaderOnlyWhenRequired(env: Env, cfg: Config, files: Files, changes: seq<Path>)
    requires EnvOk(env) && DistinctPaths(cfg) && !cfg.bridgingHeaderRequired && cfg.bridgingHeaderPath.Some?
    ensures var r, bh := SourceRun(env, cfg, files, changes), cfg.bridgingHeaderPath.value;
      && changes <= r.changes && bh !in r.changes[|changes|..]
      && (bh in files ==> bh in r.files && r.files[bh] == files[bh])
  {
    var added := HeaderStaysOut(env, cfg, files, changes);
    DropPrefix(changes, added);
  }

  /**
   * The messages view controller's language follows its extension: a `.swift` path is
   * guarded by the Swift probe and gets a `*_swift` patch, any other path the
   * Objective-C import probe and an `*_objc` patch.
   */
  lemma MessagesLanguage(env: Env, cfg: Config, t: seq<char>)
    requires cfg.messagesViewControllerPath.Some?
    ensures var swift := EndsWith(cfg.messagesViewControllerPath.value, ".swift");
      var lang := if swift then Swift else Objc;
      var steps := MessagesPipeline(cfg);
      && MessagesProbe(cfg) == (if swift then MentionsBranch else ImportsBranch)
      && steps[|steps| - 1] == Method(BecomeActive, lang)
      && ParseMessagesPatchName(StepPatch(env, steps[|steps| - 1], t)) == Some((!env.matches(DidBecomeActive(lang), t), lang))
  {
    var lang := LangOfPath(cfg.messagesViewControllerPath.value);
    var isNew := !env.matches(DidBecomeActive(lang), t);
    MessagesPatchNameRoundTrip(isNew, lang, MessagesPatchName(isNew, lang));
  }

  /** patch_source exits before touching anything when a bridging header is required and there is none. */
  lemma SourceRunAbortsWithoutBridgingHeader(env: Env, cfg: Config, files: Files, changes: seq<Path>)
    requires EnvOk(env) && cfg.bridgingHeaderRequired && cfg.bridgingHeaderPath.None?
    ensures SourceRun(env, cfg, files, changes) == Run(Err(Aborted), files, changes)
  {
  }

  // ---------------------------------------------------------------------------
  // Dependency manifests

  /** A Podfile target already depends on Branch, or on one of its subspecs. */
  predicate HasBranchPod(deps: seq<string>) {
    exists i :: 0 <= i < |deps| && IsBranchPod(deps[i])
  }

  /**
   * patch_podfile: an error when the Podfile does not define the target; false and no
   * write when the target already has a Branch pod; otherwise the pod is added inside
   * the target's `do` block or before its `target` line. Nothing is recorded.
   */
  function PodfileRun(env: Env, cfg: Config, podfilePath: Path, files: Files, changes: seq<Path>): (r: Run)
    requires EnvOk(env)
    ensures r.changes == changes && r.files.Keys == files.Keys
    ensures forall q :: q in files && q != podfilePath ==> r.files[q] == files[q]
    ensures r.outcome.Err? <==>
      cfg.targetName !in cfg.podfileTargets ||
      (!HasBranchPod(cfg.podfileTargets[cfg.targetName]) && (cfg.podfilePath !in files || podfilePath !in files))
    ensures cfg.targetName !in cfg.podfileTargets ==>
      r == Run(Err(TargetNotInPodfile(cfg.targetName)), files, changes)
    ensures cfg.targetName in cfg.podfileTargets && HasBranchPod(cfg.podfileTargets[cfg.targetName]) ==>
      r == Run(Ok(false), files, changes)
    ensures r.outcome == Ok(true) <==>
      cfg.targetName in cfg.podfileTargets && !HasBranchPod(cfg.podfileTargets[cfg.targetName]) &&
      cfg.podfilePath in files && podfilePath in files
    ensures r.outcome == Ok(true) ==>
      r.files[podfilePath] == AddPod(env, cfg.targetName,
        env.matches(PodfileTargetBlock(cfg.targetName), files[cfg.podfilePath]), files[podfilePath])
  {
    if cfg.targetName !in cfg.podfileTargets then Run(Err(TargetNotInPodfile(cfg.targetName)), files, changes)
    else if HasBranchPod(cfg.podfileTargets[cfg.targetName]) then Run(Ok(false), files, changes)
    else if cfg.podfilePath !in files then Run(Err(Unreadable(cfg.podfilePath)), files, changes)
    else if podfilePath !in files then Run(Err(Unreadable(podfilePath)), files, changes)
    else
      var inBlock := env.matches(PodfileTargetBlock(cfg.targetName), files[cfg.podfilePath]);
      Run(Ok(true), files[podfilePath := AddPod(env, cfg.targetName, inBlock, files[podfilePath])], changes)
  }

  /**
   * A Podfile whose target has a `do` block gets the pod on the line after the block's
   * header, indented two spaces past the captured indent, and nothing else changes.
   */
  lemma PodfileAddsPodInsideBlock(env: Env, cfg: Config, podfilePath: Path, files: Files, changes: seq<Path>)
    requires EnvOk(env) && cfg.podfilePath == podfilePath
    requires cfg.targetName in cfg.podfileTargets && !HasBranchPod(cfg.podfileTargets[cfg.targetName])
    requires podfilePath in files && env.matches(PodfileTargetBlock(cfg.targetName), files[podfilePath])
    requires env.find(PodTargetBlock(cfg.targetName), files[podfilePath]).Some?
    ensures var t, m := files[podfilePath], env.find(PodTargetBlock(cfg.targetName), files[podfilePath]).value;
      var r := PodfileRun(env, cfg, podfilePath, files, changes);
      && r.outcome == Ok(true)
      && r.files[podfilePath] == t[..m.whole.end] + t[m.group.start..m.group.end] + "  pod \"Branch\"\n" + t[m.whole.end..]
      && r.files[podfilePath][m.whole.start..m.whole.end] == t[m.whole.start..m.whole.end]
  {
    var t, m := files[podfilePath], env.find(PodTargetBlock(cfg.targetName), files[podfilePath]).value;
    var line := PodLine(t[m.group.start..m.group.end], true);
    assert line == t[m.group.start..m.group.end] + "  pod \"Branch\"\n";
    var out := t[..m.whole.end] + line + t[m.whole.end..];
    assert out[m.whole.start..m.whole.end] == t[..m.whole.end][m.whole.start..m.whole.end];
  }

  /**
   * patch_cartfile: false and no write when the Cartfile already names Branch; otherwise
   * the catalog's cartfile patch is applied. Nothing is recorded.
   */
  function CartfileRun(env: Env, cartfilePath: Path, files: Files, changes: seq<Path>): (r: Run)
    requires EnvOk(env)
    ensures r.changes == changes && r.files.Keys == files.Keys
    ensures forall q :: q in files && q != cartfilePath ==> r.files[q] == files[q]
    ensures cartfilePath !in files ==> r.outcome == Err(Unreadable(cartfilePath))
    ensures r.outcome.Err? <==> cartfilePath !in files
    ensures r.outcome == Ok(false) <==> cartfilePath in files && env.matches(CartfileHasBranch, files[cartfilePath])
    ensures r.outcome != Ok(true) ==> r.files == files
    ensures r.outcome == Ok(true) ==>
      r.files[cartfilePath] == ApplyPatch(env, "cartfile", Unbound, files[cartfilePath])
  {
    if cartfilePath !in files then Run(Err(Unreadable(cartfilePath)), files, changes)
    else if env.matches(CartfileHasBranch, files[cartfilePath]) then Run(Ok(false), files, changes)
    else Run(Ok(true), files[cartfilePath := ApplyPatch(env, "cartfile", Unbound, files[cartfilePath])], changes)
  }
}
