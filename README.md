# branch_io_cli: source patching and the report header, in Dafny

This project models two parts of the `branch_io_cli` Ruby gem, the command-line tool
that integrates the Branch SDK into an iOS project.

- **`Helper::PatchHelper`** (`lib/branch_io_cli/helper/patch_helper.rb`) edits the
  project's sources:
  - it adds the Branch import to the bridging header;
  - it adds the import and the delegate-method patches to the Swift or the
    Objective-C app delegate;
  - it patches the iMessage view controller;
  - it adds the Branch pod to a Podfile target, and the Branch entry to a Cartfile;
  - it records each file it patches with `add_change`.
- **The report command's helpers** (`lib/branch_io_cli/commands/report_command.rb`):
  - they build the `xcodebuild` command line;
  - they pull the Branch requirement out of the Podfile and the Cartfile;
  - they find the SDK version in `Podfile.lock`, `Cartfile.resolved`, the framework's
    `Info.plist` or `BNCConfig.m`;
  - they assemble the report header.

## Files

- `text.dfy`: the `Outcomes` module (`Option` and `Result`) and the `Text` module
  (character classes, literal matching, Ruby's `String#strip`).
- `patching.dfy`: the `Patching` module.
  - The anchored rewrite that `pattern_patch` performs: locate an anchor, then insert
    or substitute the rendered template.
  - The patch catalog's names.
  - The rules that choose a patch variant from the file's text.
  - The ordered patch pipelines for each kind of file.
  - The Podfile line that `patch_podfile` adds.
- `integration.dfy`: the `Integration` module.
  - Each `patch_*` operation as a function from the file map and the change list to a
    `Run`: outcome, new files, new change list.
  - Lemmas about `patch_source`: what it records, in what order, when it aborts, and
    when a second run writes nothing.
- `helper.dfy`: the `Helper` module.
  - The class `PatchHelper` holds the file map and the change list as mutable fields.
  - Each Ruby method is a Dafny method that updates them in place.
  - Each method is proved to leave exactly the state that the matching `Integration`
    function computes.
- `report.dfy`: the `Report` module.
  - `base_xcodebuild_cmd` as a method building the command step by step.
  - The four regular expressions of the report, as concrete matchers.
  - `Regexp#match` as a leftmost search.
  - The version extractors and the `||` chain of `branch_version`.
  - `report_header` as a method that appends its sections one by one.

Everything outside these two files becomes an input:
- The file system is a map from path to text.
- The configuration is a `Config` or an `Options` value.
- The outputs of `Pod::Lockfile`, `Pod::Podfile`, `CFPropertyList` and
  `xcodebuild -version` are fields of `Sources` and `Config`.
- The probes of `patch_helper.rb` and the patch templates belong to an `Env`.

## Model

| member | source | states |
|---|---|---|
| Helper.PatchHelper.AddChange | lib/branch_io_cli/helper/patch_helper.rb:22-24 | The path is appended to the change list and nothing else changes. |
| Patching.ApplyPatch | lib/branch_io_cli/helper/patch_helper.rb:58-64 | `patch(name).apply` leaves the text unchanged when the anchor is not found. An appending or prepending patch puts the rendered template at its place (after or before the anchor) and keeps the anchor text verbatim. The result is longer by exactly the template, and cutting the template out gives back the original. A replacing patch keeps everything before and after the anchor, with the template in between. |
| Patching.SpliceInsertion | lib/branch_io_cli/helper/patch_helper.rb:240-253 | An append or prepend puts the inserted text at its place and keeps the anchor text verbatim, shifted past the insertion for prepend. Excising the insertion restores the original. |
| Patching.SelectImport | lib/branch_io_cli/helper/patch_helper.rb:56-65 | The bridging-header import goes among existing imports when there are any. Failing that, it goes inside the include guard when there is one; otherwise, at the end. Each case holds if and only if its condition does. |
| Integration.BridgingHeaderRun | lib/branch_io_cli/helper/patch_helper.rb:37-67 | The run is an error exactly when no header is configured (`Aborted`) or the file is missing. A header that already imports Branch is left alone and the answer is false. Otherwise the header becomes the result of the import patch that `SelectImport` chose, and it is recorded once. Only the header can change, and with templates that add the import it has Branch afterwards. |
| Helper.PatchHelper.PatchBridgingHeader | lib/branch_io_cli/helper/patch_helper.rb:37-67 | The new files, change list and answer are those that `BridgingHeaderRun` gives for the old state. |
| Patching.AppDelegateSteps | lib/branch_io_cli/helper/patch_helper.rb:78-105 | The app delegate pipeline ends with the launch, continue-activity and open-url patches, in that order. It starts with an import exactly for Objective-C, or for Swift when no bridging header is required, and the import matches the language. |
| Integration.PatchFile | lib/branch_io_cli/helper/patch_helper.rb:73-87 | A missing file is an error. A file already showing Branch is left alone and the answer is false. Otherwise the pipeline runs on its text, the path is recorded once and the answer is true. No other file changes. |
| Integration.AppDelegateRun | lib/branch_io_cli/helper/patch_helper.rb:69-109 | When source patching is off or the delegate path is unset, nothing changes and the answer is false. The run is an error exactly when the configured delegate is missing. The answer is true exactly when the delegate exists and does not already show Branch. Then the delegate becomes the app delegate pipeline's result, rendered with `UseConditionalTestKey`, and only that file is written and recorded. |
| Helper.PatchHelper.PatchAppDelegateSwift | lib/branch_io_cli/helper/patch_helper.rb:69-88 | The new state and answer are `AppDelegateRun` for Swift on the old state. |
| Helper.PatchHelper.PatchAppDelegateObjc | lib/branch_io_cli/helper/patch_helper.rb:90-109 | The new state and answer are `AppDelegateRun` for Objective-C on the old state. |
| Helper.PatchHelper.PatchAppDelegateFile | lib/branch_io_cli/helper/patch_helper.rb:76-87 | Patching a delegate file writes the app delegate pipeline's result to it and records it; nothing else changes. |
| Helper.PatchHelper.PatchAppDelegateImport | lib/branch_io_cli/helper/patch_helper.rb:78-80 | The import step runs when the pipeline has one; otherwise the file is kept. |
| Helper.PatchHelper.ApplyImport | lib/branch_io_cli/helper/patch_helper.rb:79 | Applying the Swift or Objective-C import patch is that pipeline step on the file. |
| Helper.PatchHelper.PatchDelegateMethods | lib/branch_io_cli/helper/patch_helper.rb:82-84 | The three delegate-method steps run in order on the file. |
| Patching.SelectLaunch | lib/branch_io_cli/helper/patch_helper.rb:111-133 | The new-method patch is chosen exactly when the file has no didFinishLaunching method. The deprecated variant is never chosen. |
| Helper.PatchHelper.PatchDidFinishLaunchingMethod | lib/branch_io_cli/helper/patch_helper.rb:111-133 | The file becomes the launch step's result, rendered with the test-key binding; nothing else changes. |
| Patching.SelectOpenUrl | lib/branch_io_cli/helper/patch_helper.rb:135-150 | The options signature wins over the sourceApplication signature, which wins over a new method. Each choice holds if and only if its probes say so. The same rule applies to Objective-C at lines 163-178. |
| Helper.PatchHelper.PatchOpenUrlMethod | lib/branch_io_cli/helper/patch_helper.rb:135-150 | The file becomes the open-url step's result for either language; nothing else changes. |
| Patching.SelectContinueActivity | lib/branch_io_cli/helper/patch_helper.rb:152-161 | The new-method patch is chosen exactly when no continueUserActivity method is present. The same rule applies to Objective-C at lines 180-189. |
| Helper.PatchHelper.PatchContinueUserActivityMethod | lib/branch_io_cli/helper/patch_helper.rb:152-161 | The file becomes the continue-activity step's result for either language; nothing else changes. |
| Integration.MessagesLanguage | lib/branch_io_cli/helper/patch_helper.rb:195-213 | The language of the messages view controller follows its extension (`LangOfPath`). A `.swift` path is guarded by the Swift probe and ends with the Swift didBecomeActive step, whose patch name parses back to `swift` with `new_` exactly when the method is missing. Any other path uses the Objective-C import probe and an `objc` name. |
| Patching.MessagesSteps | lib/branch_io_cli/helper/patch_helper.rb:201-213 | The messages pipeline ends with the didBecomeActive patch. It starts with the language's import exactly for Objective-C, or for Swift without a bridging header. |
| Patching.SelectBecomeActive | lib/branch_io_cli/helper/patch_helper.rb:205-213 | The new-method patch is chosen exactly when no didBecomeActive method is present. |
| Patching.MessagesPatchNameRoundTrip | lib/branch_io_cli/helper/patch_helper.rb:194-213 | The composed patch name `messages_did_become_active_[new_]swift|objc` parses back to its pieces, and only that name parses to them. |
| Integration.MessagesRun | lib/branch_io_cli/helper/patch_helper.rb:191-222 | With no path, nothing changes and the answer is false. The run is an error exactly when the configured file is missing. The answer is true exactly when the file exists and lacks Branch for its language. Then the file becomes the messages pipeline's result (import, then didBecomeActive), and only it is written and recorded. With templates that add Branch, it has Branch afterwards. |
| Helper.PatchHelper.PatchMessagesViewController | lib/branch_io_cli/helper/patch_helper.rb:191-222 | The new state and answer are `MessagesRun` on the old state. |
| Helper.PatchHelper.PatchMessagesFile | lib/branch_io_cli/helper/patch_helper.rb:201-221 | The messages pipeline's result is written to the file and the file is recorded. |
| Helper.PatchHelper.PatchDidBecomeActive | lib/branch_io_cli/helper/patch_helper.rb:205-218 | The file becomes the didBecomeActive step's result, with the test-key binding. |
| Patching.AppDelegateBindings | lib/branch_io_cli/helper/patch_helper.rb:111-133 | In the app delegate pipeline (`StepBinding`), only the launch patch is rendered with `binding: binding`, carrying `use_conditional_test_key?`. Every other step is rendered without it. |
| Patching.MessagesBindings | lib/branch_io_cli/helper/patch_helper.rb:201-218 | In the messages pipeline, only the didBecomeActive patch is rendered with the test-key binding; the import is rendered without it. |
| Patching.UnboundStepsIgnoreKey | lib/branch_io_cli/helper/patch_helper.rb:26-28 | `use_conditional_test_key?` reaches a file only through the patches rendered with a binding: a pipeline without them gives the same text for either value of the key. |
| Patching.MethodPatchNameDistinct | lib/branch_io_cli/helper/patch_helper.rb:111-189 | Within one method family and language, different variants choose different catalog patches (`MethodPatchName`). |
| Patching.RunStepsConcat | lib/branch_io_cli/helper/patch_helper.rb:78-84 | Running two pipelines one after the other is the same as running their concatenation. |
| Integration.AppDelegatesRun | lib/branch_io_cli/helper/patch_helper.rb:276 | `swift \|\| objc` touches at most one of the two delegates. When the Swift one is patched, the run stops there with answer true. |
| Integration.AppDelegatesRunRecordsOne | lib/branch_io_cli/helper/patch_helper.rb:276 | With two distinct delegate paths, the stage records nothing, the Swift delegate or the Objective-C delegate. |
| Helper.PatchHelper.PatchSource | lib/branch_io_cli/helper/patch_helper.rb:271-278 | The new state and answer are `SourceRun` on the old state. |
| Integration.SourceRunRecords | lib/branch_io_cli/helper/patch_helper.rb:271-278 | patch_source (`SourceRun`) only appends to the change list, at most three entries. It keeps the set of files and writes only files that it records. |
| Integration.SourceRunRecordsBridgingHeaderFirst | lib/branch_io_cli/helper/patch_helper.rb:275 | When the required bridging header is patched, it is the first path recorded. |
| Integration.SourceRunTrueRecordsMessagesLast | lib/branch_io_cli/helper/patch_helper.rb:277 | When patch_source answers true, the last path recorded is the messages view controller. |
| Integration.SourceRunPatchesOneAppDelegate | lib/branch_io_cli/helper/patch_helper.rb:271-278 | Of two configured delegates, at most one is recorded. When the Swift one is recorded, the Objective-C one is left as it was. |
| Integration.BridgingHeaderOnlyWhenRequired | lib/branch_io_cli/helper/patch_helper.rb:275 | When no bridging header is required, patch_source neither records the configured header nor changes its text. |
| Integration.SourceRunAbortsWithoutBridgingHeader | lib/branch_io_cli/helper/patch_helper.rb:37-42 | When a bridging header is required and none is configured, patch_source aborts before writing or recording anything. |
| Integration.IntegratedSourceRunIsNoOp | lib/branch_io_cli/helper/patch_helper.rb:271-278 | On a project where every file that patch_source inspects already shows Branch, it writes nothing, records nothing and answers false. |
| Integration.BridgingStageIntegrates | lib/branch_io_cli/helper/patch_helper.rb:275 | After the bridging-header stage the header shows Branch, and the other files and the template assumption are unaffected. |
| Integration.AppDelegatesStageIntegrates | lib/branch_io_cli/helper/patch_helper.rb:276 | With at most one delegate set, the delegate shows Branch after the stage, and the header keeps its Branch. |
| Integration.MessagesStageIntegrates | lib/branch_io_cli/helper/patch_helper.rb:277 | After the messages stage the view controller shows Branch, and the other files keep theirs. |
| Integration.SourceRunIntegrates | lib/branch_io_cli/helper/patch_helper.rb:271-278 | A successful patch_source leaves every file it inspects showing Branch, given distinct paths, at most one delegate and templates that add Branch. |
| Integration.SourceRunIdempotent | lib/branch_io_cli/helper/patch_helper.rb:271-278 | Under the same conditions, running patch_source again on its own output writes nothing, records nothing and answers false. |
| Integration.FirstRunPatchesSwiftOnly | lib/branch_io_cli/helper/patch_helper.rb:276 | With both delegates configured and unpatched, a first run patches the Swift delegate and leaves the Objective-C one without Branch. |
| Integration.SecondRunReachesObjcAppDelegate | lib/branch_io_cli/helper/patch_helper.rb:276 | With both delegates configured, a second run patches and records the Objective-C delegate, so patch_source is not idempotent there. |
| Patching.IsBranchPodPattern | lib/branch_io_cli/helper/patch_helper.rb:229 | A dependency counts as Branch exactly when its name is `Branch` or `Branch-SDK`, alone or followed by a `/` and a subspec, as `^(Branch\|Branch-SDK)(/.*)?$` says. |
| Patching.PodLine | lib/branch_io_cli/helper/patch_helper.rb:240-251 | The added Podfile line starts with the indent that the anchor captured. |
| Patching.AddPod | lib/branch_io_cli/helper/patch_helper.rb:238-253 | With a `do` block, the pod line (indent plus two spaces) is inserted right after the block's header. Without one, the pod line goes right before the `target` line. When the anchor is not found, the Podfile is unchanged. |
| Integration.PodfileRun | lib/branch_io_cli/helper/patch_helper.rb:224-256 | A target missing from the Podfile is an error. A target that already has a Branch pod gives false and no write. Otherwise the run is an error exactly when the Podfile to read or the one to patch is missing, and in every other case the pod is added and the answer is true. Only the Podfile may change, and nothing is recorded. |
| Integration.PodfileAddsPodInsideBlock | lib/branch_io_cli/helper/patch_helper.rb:238-244 | For a target with a `do` block, the Podfile gains exactly one line after the block header: the captured indent, two spaces and `pod "Branch"`. |
| Helper.PatchHelper.PatchPodfile | lib/branch_io_cli/helper/patch_helper.rb:224-256 | The new state and answer are `PodfileRun` on the old state. |
| Integration.CartfileRun | lib/branch_io_cli/helper/patch_helper.rb:258-269 | The run is an error exactly when the Cartfile is missing. The answer is false, with no write, exactly when it already names Branch. Otherwise the cartfile patch is applied and the answer is true. Nothing is recorded. |
| Helper.PatchHelper.PatchCartfile | lib/branch_io_cli/helper/patch_helper.rb:258-269 | The new state and answer are `CartfileRun` on the old state. |
| Report.XcodebuildArgs | lib/branch_io_cli/commands/report_command.rb:42-50 | Each option is passed exactly when it is set, and the project only without a workspace. The options come in the order scheme, workspace, project, target, configuration, and a workspace and a project are never both passed. |
| Report.ArgsUpToSpec | lib/branch_io_cli/commands/report_command.rb:43-48 | After the first k lines, the command holds exactly the set options among the first k flags, in flag order. |
| Report.Command | lib/branch_io_cli/commands/report_command.rb:43-49 | Every command starts with `xcodebuild -sdk iphonesimulator`. |
| Report.AppendFlag | lib/branch_io_cli/commands/report_command.rb:44-48 | One conditional line turns the command for the first k flags into the command for the first k+1. |
| Report.BaseXcodebuildCmd | lib/branch_io_cli/commands/report_command.rb:42-50 | The command built step by step is the command of `XcodebuildArgs`. |
| Report.SearchSkips | lib/branch_io_cli/commands/report_command.rb:62 | `Regexp#match` returns the leftmost match: no position before the one found matches. When nothing is found, no position matches. |
| Report.PodfileRequirementShape | lib/branch_io_cli/commands/report_command.rb:59-64 | A Podfile requirement (`RequirementFromPodfile`) exists exactly when the pattern matches somewhere. Once stripped, it starts with `pod` and contains `"Branch"` or `'Branch'`. |
| Report.PodfileRequirementNeedsNewline | lib/branch_io_cli/commands/report_command.rb:62 | A Podfile with no newline yields no requirement, because the pattern needs one after the pod name. |
| Report.CartfileRequirementShape | lib/branch_io_cli/commands/report_command.rb:66-71 | A Cartfile requirement (`RequirementFromCartfile`) exists exactly when the pattern matches somewhere. Once stripped, it contains `BranchMetrics/` followed by one of the two repository names. |
| Report.VersionFromPodfileLock | lib/branch_io_cli/commands/report_command.rb:73-79 | There is a version exactly when a lock file exists and records a Branch version; the result is that version tagged ` [Podfile.lock]`. |
| Report.VersionFromCartfileResolved | lib/branch_io_cli/commands/report_command.rb:81-98 | There is a version exactly when the Cartfile.resolved pattern matches at some position. |
| Report.ResolvedEntryVersion | lib/branch_io_cli/commands/report_command.rb:94-97 | The version reported is that of the first entry naming a Branch repository, with or without the trailing slash, tagged ` [Cartfile.resolved]`. |
| Report.ResolvedLineVersion | lib/branch_io_cli/commands/report_command.rb:85-97 | A Cartfile.resolved that begins with a Branch entry, in any of the eight `git`/`github` spellings listed in the comment, yields that entry's pinned version. Entries further down are covered by `ResolvedEntryVersion`. |
| Report.CartfileResolvedVersionShape | lib/branch_io_cli/commands/report_command.rb:94-97 | A version from Cartfile.resolved is a dotted triple of digit runs followed by the tag. |
| Report.VersionFromBranchFramework | lib/branch_io_cli/commands/report_command.rb:100-113 | There is a version exactly when the framework's Info.plist has a CFBundleVersion; the result is that value tagged ` [Branch.framework/Info.plist]`. |
| Report.VersionFromBncConfigM | lib/branch_io_cli/commands/report_command.rb:115-124 | There is a version exactly when the BNCConfig.m pattern matches at some position. |
| Report.BncEntryVersion | lib/branch_io_cli/commands/report_command.rb:120-123 | The version reported is the one assigned at the first mention of `BNC_SDK_VERSION`, tagged ` [BNCConfig.m]`. |
| Report.BncConfigVersionShape | lib/branch_io_cli/commands/report_command.rb:120-123 | A version from BNCConfig.m is a dotted triple of digit runs followed by the tag. |
| Report.FirstSome | lib/branch_io_cli/commands/report_command.rb:52-57 | Ruby's `\|\|` over optional values is nil exactly when all of them are, and is otherwise the first one that is not nil. |
| Report.BranchVersionChain | lib/branch_io_cli/commands/report_command.rb:52-57 | branch_version (`BranchVersion`) consults Podfile.lock, Cartfile.resolved, the framework and BNCConfig.m in that order, each only when the earlier ones found nothing. |
| Report.GatherHeader | lib/branch_io_cli/commands/report_command.rb:127-138 | The header built line by line is the xcodebuild version followed by the rendered CocoaPods, Podfile and Cartfile sections that were found. |
| Report.AssembleHeader | lib/branch_io_cli/commands/report_command.rb:126-147 | With a version, the SDK line is appended to the gathered header. Without one, the header becomes the not-found line. |
| Report.ReportHeader | lib/branch_io_cli/commands/report_command.rb:126-148 | The header returned is the header of the project's sources. |
| Report.HeaderSectionsOrdered | lib/branch_io_cli/commands/report_command.rb:129-142 | The sections appear in the fixed order CocoaPods, Podfile, Cartfile, SDK version, each at most once. |
| Report.HeaderSectionsPresent | lib/branch_io_cli/commands/report_command.rb:129-142 | Each section is present exactly when what it shows was found. |
| Report.HeaderNotFound | lib/branch_io_cli/commands/report_command.rb:140-145 | The header is `Branch SDK not found.` exactly when no source yields a version. |
| Report.HeaderEndsWithVersion | lib/branch_io_cli/commands/report_command.rb:140-142 | With a version, the header is the xcodebuild version, then the other sections, and ends with the SDK version line. |

## Left out

- Regular-expression probes of `patch_helper.rb` (`swift_file_includes_branch?`, the
  Branch-import test, the delegate-method tests, `git.+Branch`): these are opaque
  predicates of `Env`, not matchers. Ruby's regex engine is not modelled. The one
  literal probe, `didFinishLaunchingWithOptions`, and the `.swift$` test are concrete.
- Anchors and templates of the patch catalog (the YAML and ERB files under
  `assets/patches`): these are not part of this model. An anchor search is `Env.find`,
  and a rendered template is `Env.template(name, binding)`. Only the ERB binding's
  `use_conditional_test_key?` is passed. A rendered template cannot refer to the
  anchor's capture groups, so catalog templates are assumed not to use captures. The
  two Podfile patches that do use one (`\1` at lines 242 and 249) are written out by
  hand in `Patching.PodLine` and `Patching.AddPod`.
- `say` output, and the `Patching …` messages: no output is modelled.
- `exit(-1)` without a bridging header: modelled as the error `Aborted`.
- Failing `File.read` in `patch_helper.rb`: modelled as the error `Unreadable(path)`. A
  Ruby exception that propagates there is treated the same way. The report's reads are
  not: see the `Report.RequirementFromPodfile` and `Report.VersionFromBncConfigM` lines.
- `patch_bridging_header` answers true: in Ruby it returns whatever
  `helper.add_change` returns, which callers only use as a truthy value.
- Swift and Objective-C pairs of methods: each pair is a single Dafny member taking a
  `Lang`. The pairs differ in their probes and patch names, and in one more way: the
  Swift import is skipped when a bridging header is required (lines 78-80 and 201-203,
  against 101 and 210). `AppDelegateSteps` and `MessagesSteps` carry that difference.
- `project` / `xcodeproj` arguments of the `patch_app_delegate_*` and `patch_source`
  methods: these are unused in the Ruby bodies, so they are left out.
- `Pod::Podfile#target_definitions`, `Pod::Lockfile`, `CFPropertyList`, the Xcode
  project's file lists and the output of `` `xcodebuild -version` ``: these are inputs
  (`Config.podfileTargets`, `Sources`), not parsed here.
- `File.exist?` tests in the report (lines 74, 82 and 105): a missing lock file,
  Cartfile.resolved or Info.plist is a `None` source.
- Report.RequirementFromPodfile and Report.RequirementFromCartfile: these read the
  Podfile and Cartfile without an existence test (lines 60-61 and 67-68), so Ruby raises
  when the path is set but the file is missing. The model has no error for this case:
  `Sources.podfile` and `Sources.cartfile` are `None` both when the path is unset and
  when the file cannot be read, and the requirement is then nil.
- Report.VersionFromBncConfigM: Ruby reads BNCConfig.m with `File.read` and no existence
  test (line 119), so it raises when the project references the file but the file is
  missing. The model has no error for this case: `Sources.bncConfigM` is `None` both
  when the project has no BNCConfig.m and when the file cannot be read, and the version
  is then nil, so `branch_version` falls through to `Branch SDK not found.`.
- Shell escaping in `base_xcodebuild_cmd`: none is done, in the Ruby or here.
- The `run!` of the report command and the report file it writes: these are not part
  of this model. Neither is `command/report_command.rb` nor
  `configuration/report_configuration.rb`, the newer command classes.
- Integration.SourceRunIdempotent: this holds only under `TemplatesIntegrate` (the
  templates and anchors put Branch into each file they patch), distinct paths and at
  most one app delegate path. The templates are not modelled, and with both delegates
  set a second run does write: see `Integration.SecondRunReachesObjcAppDelegate`.
- Report.PodfileRequirementShape: this states what a requirement contains, not the
  exact text between the Branch pod and the end of its line.
- Report.CartfileRequirementShape: likewise, it states what a Cartfile requirement
  contains, not its exact text.
- Report.ReportHeader: this is split into `GatherHeader` and `AssembleHeader`, so that
  what the sources yield is computed before the header is put together. The Ruby
  evaluates the same expressions in the same order.
