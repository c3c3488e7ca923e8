/**
 * The patch helper of lib/branch_io_cli/helper/patch_helper.rb as an object: the file
 * texts of the project and the change list it appends to are fields, and each method
 * updates them in place. Every method is proved to leave exactly the state, and give
 * exactly the answer, that the corresponding function of `Integration` computes from
 * the old state; the properties of those functions (what is recorded, in which order,
 * when a second run writes nothing) therefore hold of the methods too.
 */
module Helper {
  import opened Outcomes
  import opened Text
  import opened Patching
  import opened Integration

  /** Writing a file twice leaves only the second text. */
  lemma UpdateTwice(m: Files, k: Path, a: seq<char>, b: seq<char>)
    ensures m[k := a][k := b] == m[k := b]
  {
  }

  /** A one-step pipeline is that step. */
  lemma RunOneStep(env: Env, key: bool, a: Step, t: seq<char>)
    requires EnvOk(env)
    ensures RunSteps(env, key, [a], t) == RunStep(env, key, a, t)
  {
    assert RunSteps(env, key, [a], t) == RunSteps(env, key, [], RunStep(env, key, a, t));
  }

  /** A three-step pipeline is its steps one after the other. */
  lemma RunThreeSteps(env: Env, key: bool, a: Step, b: Step, c: Step, t: seq<char>)
    requires EnvOk(env)
    ensures RunSteps(env, key, [a, b, c], t) == RunStep(env, key, c, RunStep(env, key, b, RunStep(env, key, a, t)))
  {
    var ta := RunStep(env, key, a, t);
    assert RunSteps(env, key, [a, b, c], t) == RunSteps(env, key, [b, c], ta);
    assert RunSteps(env, key, [b, c], ta) == RunSteps(env, key, [c], RunStep(env, key, b, ta));
    RunOneStep(env, key, c, RunStep(env, key, b, ta));
  }

  class PatchHelper {
    /** The regular-expression probes, the anchor search and the patch catalog's templates. */
    const env: Env
    /** The tool's configuration, read but never changed by the helper. */
    const config: Config
    /** The project's files, by path. */
    var files: Files
    /** The paths recorded with `add_change`, oldest first. */
    var changes: seq<Path>

    ghost predicate Valid() {
      EnvOk(env)
    }

    constructor (env: Env, config: Config, files: Files)
      requires EnvOk(env)
      ensures Valid()
      ensures this.env == env && this.config == config && this.files == files && changes == []
    {
      this.env := env;
      this.config := config;
      this.files := files;
      changes := [];
    }

    /** add_change: record a path as modified. */
    method AddChange(p: Path)
      modifies this`changes
      ensures changes == old(changes) + [p]
    {
      changes := changes + [p];
    }

    /** `patch(name).apply path`: one catalog patch, applied to the file at `p`. */
    method Apply(p: Path, name: string, binding: Binding)
      requires Valid() && p in files && name in Catalog
      modifies this`files
      ensures files == old(files)[p := ApplyPatch(env, name, binding, old(files)[p])]
    {
      files := files[p := ApplyPatch(env, name, binding, files[p])];
    }

    /** `patch(:swift_import).apply path` / `patch(:objc_import).apply path`: an import patch whose name does not depend on the text. */
    method ApplyImport(step: Step, p: Path)
      requires Valid() && p in files && (step == SwiftImport || step == ObjcImport)
      modifies this`files
      ensures files == old(files)[p := RunStep(env, UseConditionalTestKey(config), step, old(files)[p])]
    {
      Apply(p, StepPatch(env, step, files[p]), Unbound);
    }

    /** patch_did_finish_launching_method_swift / _objc. */
    method PatchDidFinishLaunchingMethod(lang: Lang, p: Path)
      requires Valid() && p in files
      modifies this`files
      ensures files == old(files)[p := RunStep(env, UseConditionalTestKey(config), Method(Launch, lang), old(files)[p])]
    {
      var text := files[p];
      var isNewMethod := !HasLaunchMethod(env, lang, text);
      var patchName := MethodPatchName(Launch, lang, if isNewMethod then New else Existing);
      Apply(p, patchName, Bound(UseConditionalTestKey(config)));
    }

    /** patch_continue_user_activity_method_swift / _objc. */
    method PatchContinueUserActivityMethod(lang: Lang, p: Path)
      requires Valid() && p in files
      modifies this`files
      ensures files == old(files)[p := RunStep(env, UseConditionalTestKey(config), Method(ContinueActivity, lang), old(files)[p])]
    {
      var text := files[p];
      var patchName;
      if env.matches(ContinueUserActivity(lang), text) {
        patchName := MethodPatchName(ContinueActivity, lang, Existing);
      } else {
        patchName := MethodPatchName(ContinueActivity, lang, New);
      }
      Apply(p, patchName, Unbound);
    }

    /** patch_open_url_method_swift / _objc: the options signature, else the sourceApplication one, else a new method. */
    method PatchOpenUrlMethod(lang: Lang, p: Path)
      requires Valid() && p in files
      modifies this`files
      ensures files == old(files)[p := RunStep(env, UseConditionalTestKey(config), Method(OpenUrl, lang), old(files)[p])]
    {
      var text := files[p];
      var patchName;
      if env.matches(OpenUrlWithOptions(lang), text) {
        patchName := MethodPatchName(OpenUrl, lang, Existing);
      } else if env.matches(OpenUrlWithSourceApplication(lang), text) {
        patchName := MethodPatchName(OpenUrl, lang, Legacy);
      } else {
        patchName := MethodPatchName(OpenUrl, lang, New);
      }
      Apply(p, patchName, Unbound);
    }

    /** patch_bridging_header. */
    method PatchBridgingHeader() returns (r: Result<bool, Failure>)
      requires Valid()
      modifies this`files, this`changes
      ensures Run(r, files, changes) == BridgingHeaderRun(env, config, old(files), old(changes))
    {
      if config.bridgingHeaderPath.None? {
        return Err(Aborted);
      }
      var path := config.bridgingHeaderPath.value;
      if path !in files {
        return Err(Unreadable(path));
      }
      if env.matches(ImportsBranch, files[path]) {
        return Ok(false);
      }
      ghost var f0, before := files, files[path];
      var variant := SelectImport(env, files[path]);
      Apply(path, ImportPatchName(variant), Unbound);
      RunOneStep(env, UseConditionalTestKey(config), BridgingImport, before);
      assert files == f0[path := RunSteps(env, UseConditionalTestKey(config), [BridgingImport], before)];
      AddChange(path);
      return Ok(true);
    }

    /** patch_app_delegate_swift. */
    method PatchAppDelegateSwift() returns (r: Result<bool, Failure>)
      requires Valid()
      modifies this`files, this`changes
      ensures Run(r, files, changes) == AppDelegateRun(env, config, Swift, old(files), old(changes))
    {
      if !config.patchSource || config.appDelegateSwiftPath.None? {
        return Ok(false);
      }
      var path := config.appDelegateSwiftPath.value;
      if path !in files {
        return Err(Unreadable(path));
      }
      if env.matches(MentionsBranch, files[path]) {
        return Ok(false);
      }
      PatchAppDelegateFile(Swift, path);
      return Ok(true);
    }

    /** patch_app_delegate_objc. */
    method PatchAppDelegateObjc() returns (r: Result<bool, Failure>)
      requires Valid()
      modifies this`files, this`changes
      ensures Run(r, files, changes) == AppDelegateRun(env, config, Objc, old(files), old(changes))
    {
      if !config.patchSource || config.appDelegateObjcPath.None? {
        return Ok(false);
      }
      var path := config.appDelegateObjcPath.value;
      if path !in files {
        return Err(Unreadable(path));
      }
      if env.matches(ImportsBranch, files[path]) {
        return Ok(false);
      }
      PatchAppDelegateFile(Objc, path);
      return Ok(true);
    }

    /**
     * The part patch_app_delegate_swift and patch_app_delegate_objc share once Branch is
     * found missing: the import (Swift: only without a bridging header), the three
     * method patches in order, and the change record.
     */
    method PatchAppDelegateFile(lang: Lang, path: Path)
      requires Valid() && path in files
      modifies this`files, this`changes
      ensures files == old(files)[path := RunSteps(env, UseConditionalTestKey(config),
                                                   AppDelegateSteps(lang, config.bridgingHeaderRequired), old(files)[path])]
      ensures changes == old(changes) + [path]
    {
      var key := UseConditionalTestKey(config);
      ghost var f0, before := files, files[path];
      PatchAppDelegateImport(lang, path);
      ghost var imported := files[path];
      PatchDelegateMethods(lang, path);
      MethodsTail(key, lang, config.bridgingHeaderRequired, before, imported);
      UpdateTwice(f0, path, imported, files[path]);
      AddChange(path);
    }

    /** The app delegate's import: always for Objective-C, for Swift only without a bridging header. */
    method PatchAppDelegateImport(lang: Lang, path: Path)
      requires Valid() && path in files
      modifies this`files
      ensures var steps := AppDelegateSteps(lang, config.bridgingHeaderRequired);
        files == old(files)[path := if |steps| == 4 then RunStep(env, UseConditionalTestKey(config), steps[0], old(files)[path])
                                    else old(files)[path]]
    {
      if lang == Objc {
        ApplyImport(ObjcImport, path);
      } else if !config.bridgingHeaderRequired {
        ApplyImport(SwiftImport, path);
      } else {
        assert files == old(files)[path := files[path]];
      }
    }

    /** The launch, continue-activity and open-url patches, each probing the text the previous one left. */
    method PatchDelegateMethods(lang: Lang, path: Path)
      requires Valid() && path in files
      modifies this`files
      ensures files == old(files)[path :=
        RunStep(env, UseConditionalTestKey(config), Method(OpenUrl, lang),
          RunStep(env, UseConditionalTestKey(config), Method(ContinueActivity, lang),
            RunStep(env, UseConditionalTestKey(config), Method(Launch, lang), old(files)[path])))]
    {
      PatchDidFinishLaunchingMethod(lang, path);
      PatchContinueUserActivityMethod(lang, path);
      PatchOpenUrlMethod(lang, path);
    }

    /** The app delegate pipeline is its import step, if any, followed by the three method steps. */
    lemma MethodsTail(key: bool, lang: Lang, br: bool, before: seq<char>, imported: seq<char>)
      requires Valid()
      requires imported == (if |AppDelegateSteps(lang, br)| == 4 then RunStep(env, key, AppDelegateSteps(lang, br)[0], before) else before)
      ensures RunSteps(env, key, AppDelegateSteps(lang, br), before) ==
        RunStep(env, key, Method(OpenUrl, lang),
          RunStep(env, key, Method(ContinueActivity, lang),
            RunStep(env, key, Method(Launch, lang), imported)))
    {
      var steps := AppDelegateSteps(lang, br);
      var tail := [Method(Launch, lang), Method(ContinueActivity, lang), Method(OpenUrl, lang)];
      var head := steps[..|steps| - 3];
      assert steps == head + tail;
      RunStepsConcat(env, key, head, tail, before);
      if |steps| == 4 {
        assert head == [steps[0]];
        RunOneStep(env, key, steps[0], before);
      } else {
        assert head == [];
      }
      RunThreeSteps(env, key, tail[0], tail[1], tail[2], imported);
    }

    /** patch_messages_view_controller: a `.swift` path is patched as Swift, any other as Objective-C. */
    method PatchMessagesViewController() returns (r: Result<bool, Failure>)
      requires Valid()
      modifies this`files, this`changes
      ensures Run(r, files, changes) == MessagesRun(env, config, old(files), old(changes))
    {
      if config.messagesViewControllerPath.None? {
        return Ok(false);
      }
      var path := config.messagesViewControllerPath.value;
      if path !in files {
        return Err(Unreadable(path));
      }
      if EndsWith(path, ".swift") {
        if env.matches(MentionsBranch, files[path]) {
          return Ok(false);
        }
        PatchMessagesFile(Swift, path);
      } else {
        if env.matches(ImportsBranch, files[path]) {
          return Ok(false);
        }
        PatchMessagesFile(Objc, path);
      }
      return Ok(true);
    }

    /**
     * The rest of patch_messages_view_controller once Branch is found missing: the
     * import, then the didBecomeActive patch whose name is put together from whether the
     * method is there and the language, then the change record.
     */
    method PatchMessagesFile(lang: Lang, path: Path)
      requires Valid() && path in files
      modifies this`files, this`changes
      ensures files == old(files)[path := RunSteps(env, UseConditionalTestKey(config),
                                                   MessagesSteps(lang, config.bridgingHeaderRequired), old(files)[path])]
      ensures changes == old(changes) + [path]
    {
      var key := UseConditionalTestKey(config);
      ghost var f0, before := files, files[path];
      if lang == Objc {
        ApplyImport(ObjcImport, path);
      } else if !config.bridgingHeaderRequired {
        ApplyImport(SwiftImport, path);
      }
      ghost var imported := files[path];
      assert files == f0[path := imported];
      PatchDidBecomeActive(lang, path);
      MessagesTail(key, lang, config.bridgingHeaderRequired, before, imported);
      UpdateTwice(f0, path, imported, files[path]);
      AddChange(path);
    }

    /**
     * The didBecomeActive patch, its name put together from whether the method is
     * already there and the language.
     */
    method PatchDidBecomeActive(lang: Lang, path: Path)
      requires Valid() && path in files
      modifies this`files
      ensures files == old(files)[path := RunStep(env, UseConditionalTestKey(config), Method(BecomeActive, lang), old(files)[path])]
    {
      var isNewMethod := !env.matches(DidBecomeActive(lang), files[path]);
      var patchName := "messages_did_become_active_" + (if isNewMethod then "new_" else "") + LangSuffix(lang);
      MessagesPatchNameInCatalog(isNewMethod, lang);
      Apply(path, patchName, Bound(UseConditionalTestKey(config)));
    }

    /** The messages pipeline is its import step, if any, followed by the didBecomeActive step. */
    lemma MessagesTail(key: bool, lang: Lang, br: bool, before: seq<char>, imported: seq<char>)
      requires Valid()
      requires imported == (if |MessagesSteps(lang, br)| == 2 then RunStep(env, key, MessagesSteps(lang, br)[0], before) else before)
      ensures RunSteps(env, key, MessagesSteps(lang, br), before) == RunStep(env, key, Method(BecomeActive, lang), imported)
    {
      var steps := MessagesSteps(lang, br);
      var head := steps[..|steps| - 1];
      assert steps == head + [Method(BecomeActive, lang)];
      RunStepsConcat(env, key, head, [Method(BecomeActive, lang)], before);
      if |steps| == 2 {
        assert head == [steps[0]];
        RunOneStep(env, key, steps[0], before);
      } else {
        assert head == [];
      }
      RunOneStep(env, key, Method(BecomeActive, lang), imported);
    }

    /**
     * patch_source: the bridging header when one is required, then the Swift app
     * delegate or else the Objective-C one, then the messages view controller.
     */
    method PatchSource() returns (r: Result<bool, Failure>)
      requires Valid()
      modifies this`files, this`changes
      ensures Run(r, files, changes) == SourceRun(env, config, old(files), old(changes))
    {
      if config.bridgingHeaderRequired {
        r := PatchBridgingHeader();
        if r.Err? {
          return;
        }
      }
      r := PatchAppDelegateSwift();
      if r.Err? {
        return;
      }
      if !r.value {
        r := PatchAppDelegateObjc();
        if r.Err? {
          return;
        }
      }
      r := PatchMessagesViewController();
    }

    /** patch_podfile: the target is looked up, then the text of `config.podfilePath` decides where `podfilePath` gets the pod. */
    method PatchPodfile(podfilePath: Path) returns (r: Result<bool, Failure>)
      requires Valid()
      modifies this`files
      ensures Run(r, files, changes) == PodfileRun(env, config, podfilePath, old(files), changes)
    {
      var target := config.targetName;
      if target !in config.podfileTargets {
        return Err(TargetNotInPodfile(target));
      }
      if HasBranchPod(config.podfileTargets[target]) {
        return Ok(false);
      }
      if config.podfilePath !in files {
        return Err(Unreadable(config.podfilePath));
      }
      var inBlock := env.matches(PodfileTargetBlock(target), files[config.podfilePath]);
      if podfilePath !in files {
        return Err(Unreadable(podfilePath));
      }
      files := files[podfilePath := AddPod(env, target, inBlock, files[podfilePath])];
      return Ok(true);
    }

    /** patch_cartfile. */
    method PatchCartfile(cartfilePath: Path) returns (r: Result<bool, Failure>)
      requires Valid()
      modifies this`files
      ensures Run(r, files, changes) == CartfileRun(env, cartfilePath, old(files), changes)
    {
      if cartfilePath !in files {
        return Err(Unreadable(cartfilePath));
      }
      if env.matches(CartfileHasBranch, files[cartfilePath]) {
        return Ok(false);
      }
      Apply(cartfilePath, "cartfile", Unbound);
      return Ok(true);
    }
  }
}
