# ECR reconcilers, modelled in Dafny

This project models the two Lambda reconcilers of the cloudkommand ECR extension:

- **`repo/lambda_function.py`** keeps an Amazon ECR repository in line with its component definition. It reads the repository's name, tags, tag mutability, scan-on-push flag and KMS key. It then compares the definition with the previous one (`compare_defs`) and inspects the live repository (`get_repository`). From that it enqueues `create_repository`, `update_image_tag_mutability`, `add_tags`, `remove_tags` or `delete_repository`.
- **`image/lambda_function.py`** builds and pushes a Docker image through two nested CodeBuild reconcilers. It selects the work: a rollback restore from the previous image artifact, a build, or a delete. It checks the definition fingerprint and the source archive's ETag. It sets up the CodeBuild project (environment, the login, build, tag and push commands, user overrides) and starts the build. Finally it records the image's URI, digest, console link and artifact.

Both reconcilers keep their output in the extension library's global handler `eh`. Every handler function is wrapped with `@ext`. A wrapped handler runs only when its op is in `eh.ops` at the moment the fixed call sequence in `lambda_handler` reaches it. The model shows this as follows:

- `Handler.Context` is the contents of `eh`. `Handler.ExtensionHandler` is a class with those fields. It has one method per `eh` call the reconcilers make.
- Each source handler is a pure step function on `Context`, for example `Repo.GetRepositoryStep` or `Image.SetupStep`. Beside it is an imperative method, for example `Repo.GetRepository` or `Image.SetupCodebuildProject`. That method drives an `ExtensionHandler` through the same calls and ensures `eh.Current() == Step(old(eh.Current()), ...)`.
- `trace` records which handlers ran. `Handler.Filter` is the trace that a fixed call sequence produces when it is gated on an op table. The trace lemmas prove that each reconciler's trace is the filter of its call sequence by the final op table.
- A raised exception reaches the top-level `except`. This is modelled by `Handler.Crash`: an "Unexpected Error" log and a declared return at progress 0.
- The answers of the AWS calls are one `Cloud` input value per invocation: `describe_repositories`, `list_tags_for_resource`, `create_repository`, `head_object`, `describe_images` and the nested reconcilers' props. The MD5-of-JSON fingerprint is a function parameter `fingerprint: Dict -> string`.
- A Python dict is `Json.Dict`, an insertion-ordered sequence of pairs. `Json.ToMap` is its dictionary view.

Two behaviours of the code are modelled as written and proved:

- **The scan-on-push update never runs.** `get_repository` enqueues `update_scan_on_push` (repo/lambda_function.py:146-147), but the handler is gated on `update_image_scanning_configuration` (repo/lambda_function.py:197). So no invocation changes the scan-on-push flag of an existing repository (`Repo.ScanningNeverRuns`).
- **An unchanged archive still builds.** When the archive's ETag equals the initial one, `compare_etags` calls `wrap_up_not_deploying` (image/lambda_function.py:153-155). That copies the previous outputs and declares success. But `lambda_handler` enqueued `setup_codebuild_project` before the checks ran (image/lambda_function.py:87-88). So the build and `get_final_props` run all the same (`ImageFacts.UpsertAlwaysBuilds`). When `describe_images` finds the digest, the image's URI, digest, tags, console link and artifact overwrite the copied ones. Otherwise `get_final_props` declares a common error at progress 90, and the copied outputs stay. This holds under the model's two assumptions about the extension library (see "## Left out"): a declared return does not stop later handlers, and an op is not removed from `eh.ops` when its handler runs. The handler's name `wrap_up_not_deploying` and its success declaration at image/lambda_function.py:353-358 suggest that a skip was meant.

Modules:

| module | file | contents |
|---|---|---|
| `Json` | json.dfy | JSON values, dicts as ordered pairs, `pop`, `update`, `remove_none_attributes`, integer formatting |
| `Text` | text.dfy | `str.split` and its properties |
| `Handler` | handler.dfy | `eh` as a class and as a value, the `@ext` gate (`Filter`), the top-level `except` |
| `Tags` | tags.dfy | `format_tags` / `unformat_tags` and the tag difference of `get_repository` |
| `Repo` | repo.dfy | the repository reconciler: config, `repo_def`, every handler, `lambda_handler`, their lemmas |
| `Image` | image.dfy | the image reconciler: config, op selection, every handler, URIs and links, `lambda_handler` |
| `ImageFacts` | image_facts.dfy | properties of the image reconciler across handlers and whole invocations |

## Model

| member | source | states |
|---|---|---|
| Handler.Crash | repo/lambda_function.py:89-94 | the top-level `except` adds one "Unexpected Error" log and declares progress 0 with the exception text as error code; nothing else changes |
| Handler.ExtensionHandler.constructor | repo/lambda_function.py:16 | a fresh handler holds no props, links, state, artifacts, ops, return, logs, requests, invocations or trace |
| Handler.ExtensionHandler.AddOp | repo/lambda_function.py:55 | `eh.add_op` sets the op's payload, the last payload winning, and changes nothing else |
| Handler.ExtensionHandler.AddOps | image/lambda_function.py:68-69 | adding several ops is a map union into the op table |
| Handler.ExtensionHandler.AddProps | repo/lambda_function.py:135-140 | `eh.add_props` is a dict update of the props only |
| Handler.ExtensionHandler.AddLinks | repo/lambda_function.py:108 | `eh.add_links` is a dict update of the links only |
| Handler.ExtensionHandler.AddState | image/lambda_function.py:118 | `eh.add_state` is a dict update of the state only |
| Handler.ExtensionHandler.AddArtifacts | image/lambda_function.py:297-303 | `eh.add_artifacts` is a dict update of the artifacts only |
| Handler.ExtensionHandler.AddLog | repo/lambda_function.py:110 | `eh.add_log` appends one log entry |
| Handler.ExtensionHandler.Declare | repo/lambda_function.py:93 | a declared return replaces any earlier one |
| Handler.ExtensionHandler.Send | repo/lambda_function.py:175-176 | a mutating registry call is appended to the request log |
| Handler.ExtensionHandler.Invoke | image/lambda_function.py:241-246 | `eh.invoke_extension` records the child invocation and stores the child's props under its key |
| Handler.ExtensionHandler.Fail | repo/lambda_function.py:89-94 | the handler's state after the `except` is `Crash` of the state before it |
| Handler.ExtensionHandler.Enter | repo/lambda_function.py:96 | entering a gated handler appends its name to the trace |
| Handler.Filter | repo/lambda_function.py:78-85 | the trace of a gated call sequence holds only handlers of the sequence whose op is enqueued |
| Handler.FilterHas | repo/lambda_function.py:78-85 | a handler of the sequence whose op is enqueued appears in the trace |
| Handler.FilterPrefix | repo/lambda_function.py:78-85 | the trace of a prefix of the sequence is a prefix of the trace |
| Handler.FilterTwice | repo/lambda_function.py:62-78 | under the model's assumption that an op stays enqueued after its handler ran, a handler called twice in a row runs twice when enqueued |
| Handler.FilterNone | repo/lambda_function.py:51-52 | with no op enqueued no handler runs |
| Handler.FilterSame | repo/lambda_function.py:78-85 | two op tables that agree on the sequence's handlers give the same trace |
| Handler.GatedStep | repo/lambda_function.py:79-85 | a gated handler that enqueues only later handlers keeps the trace equal to the filter by the final op table |
| Handler.GatedAt | repo/lambda_function.py:79-85 | the same, stated for a step function that satisfies the gate predicate |
| Handler.FilterKeepsOrder | repo/lambda_function.py:78-85 | handlers that occur once run in the order of the call sequence |
| Handler.FilterDrop | repo/lambda_function.py:78-85 | later handlers whose ops are absent add nothing to the trace |
| Json.ToMapKeys | repo/lambda_function.py:156-157 | a dict's keys are exactly the keys of its pairs |
| Json.ToMapAt | repo/lambda_function.py:153 | with distinct keys, each pair's value is the dict's value for its key |
| Json.ReplaceToMap | image/lambda_function.py:219 | assigning an existing key replaces its value in the dict view |
| Json.PopToMap | repo/lambda_function.py:101-102 | `pop(k, None)` removes exactly `k` from the dict |
| Json.PopIdempotent | image/lambda_function.py:128 | popping the same key twice is popping it once |
| Json.PopReplace | image/lambda_function.py:128 | popping a key forgets a value reassigned to it |
| Json.PopSet | image/lambda_function.py:128 | popping a key forgets whatever was set under it |
| Json.UpdateToMap | image/lambda_function.py:239 | `dict.update` gives the right-biased union of the two dicts |
| Json.Set | image/lambda_function.py:219 | `d[k] = v`: the dict maps `k` to `v` and nothing else changes; a new key is appended |
| Json.RemoveNone | repo/lambda_function.py:64-76 | `remove_none_attributes` keeps exactly the pairs whose value is not None |
| Json.RemoveNoneDistinct | repo/lambda_function.py:64-76 | removing the None pairs keeps keys distinct |
| Json.GetPair | repo/lambda_function.py:128 | a key of a distinct-key dict reads back its pair's value |
| Json.GetMissing | image/lambda_function.py:205-206 | a key that no pair carries is absent |
| Json.GetRemoveNone | repo/lambda_function.py:64-76 | after `remove_none_attributes` a key reads back its value, or is absent when the value was None |
| Json.AtoiItoa | image/lambda_function.py:219 | the decimal text of an index reads back as that index |
| Json.ItoaInjective | image/lambda_function.py:219 | distinct indexes give distinct decimal texts |
| Text.Split | image/lambda_function.py:367-369 | `str.split` returns at least one field |
| Text.JoinSplit | image/lambda_function.py:367-369 | joining the fields of a split with the separator gives back the string, so a split loses nothing (the source never joins; `Join` only states this) |
| Text.SplitFieldsFree | image/lambda_function.py:367-369 | no field of a split contains the separator |
| Text.SplitNoSep | image/lambda_function.py:369 | a string without the separator splits into itself |
| Text.SplitAt | image/lambda_function.py:369 | a separator-free head followed by the separator is the split's first field |
| Text.SplitLength | image/lambda_function.py:367-369 | a split has one more field than the string has separators |
| Text.SplitFirst | image/lambda_function.py:369 | a separator-free prefix stays at the head of the first field |
| Text.SplitFieldsWithin | image/lambda_function.py:369 | every character of a field occurs in the string |
| Text.SecondField | image/lambda_function.py:369 | a string with exactly one separator splits into its two sides |
| Tags.FormatTags | repo/lambda_function.py:293-294 | the intended `format_tags`: one `{"Key", "Value"}` object per tag, in order |
| Tags.UnformatTags | repo/lambda_function.py:296-297 | `unformat_tags`; stated by `UnformatTagsMap` and `UnformatFormat` |
| Tags.FormatTagsAsWritten | image/lambda_function.py:360-361 | `format_tags` as written, iterating the keys; stated by `FormatTagsAsWrittenOutcome` and `FormatTagsCounterexample` |
| Tags.UnformatTagsMap | repo/lambda_function.py:296-297 | `unformat_tags` gives a dict with distinct keys, exactly the list's keys, each mapped to the value of the last tag with that key |
| Tags.UnformatFormat | repo/lambda_function.py:293-297 | `unformat_tags(format_tags(d)) == d` for the intended `format_tags` |
| Tags.FormatTagsAsWrittenOutcome | repo/lambda_function.py:293-294 | iterating a dict unpacks each key as a pair: an empty dict gives `[]`, a non-two-character key raises |
| Tags.FormatTagsCounterexample | image/lambda_function.py:360-361 | on `{"env": "prod"}` the code as written raises "too many values to unpack" while the intended version gives one tag |
| Tags.RemovedKeysExactly | repo/lambda_function.py:156 | `remove_tags` lists exactly the current keys the wanted tags lack; when the current keys are distinct, none is listed twice |
| Tags.AddedTagsExactly | repo/lambda_function.py:157 | `add_tags` holds exactly the wanted tags whose key is not current, with the wanted values |
| Tags.SharedKeyUntouched | repo/lambda_function.py:155-157 | a key in both the current and the wanted tags is neither added nor removed, even when its value differs |
| Tags.EqualTagsNoDelta | repo/lambda_function.py:155 | equal tag dicts give no additions and no removals |
| Tags.StrList | repo/lambda_function.py:159 | the removed keys become a JSON list of strings of the same length and order |
| Tags.StrsStrList | repo/lambda_function.py:286 | reading that list back gives the keys |
| Tags.AddedTagsMap | repo/lambda_function.py:157 | the added tags' dict view is the wanted dict restricted to the new keys |
| Tags.TagDeltaConverges | repo/lambda_function.py:155-161 | applying the additions and removals to the current keys gives the wanted keys |
| Repo.ParseChangeableTags | repo/lambda_function.py:41-43 | `changeable_tags` defaults to "MUTABLE"; any value other than "MUTABLE" or "IMMUTABLE" raises |
| Repo.ParseScanOnPush | repo/lambda_function.py:45-47 | `scan_on_push` defaults to False when missing or falsy; a truthy value passes exactly when it is True or 1 (Python's `1 == True`) and is kept as given; anything else raises with its value in the message |
| Repo.ParseConfig | repo/lambda_function.py:33-49 | the config raises exactly when one of the two checks raises, with the same message; otherwise it holds the name (or the safe name), registry, tags, trust and KMS key |
| Repo.TagJsons | repo/lambda_function.py:67 | the formatted tag list agrees with the tags element by element |
| Repo.RepoDefPairsDistinct | repo/lambda_function.py:64-76 | `repo_def`'s literal has distinct keys |
| Repo.RepoDefEncryption | repo/lambda_function.py:72-75 | `encryptionConfiguration` is present exactly when a KMS key is given, and is then of type "KMS" |
| Repo.RepoDefOptional | repo/lambda_function.py:64-67 | `tags` is present exactly when there are tags; `registryId` is the configured registry |
| Repo.RepoDefSettings | repo/lambda_function.py:66-71 | the definition carries the name, the tag mutability and the scan-on-push flag |
| Repo.RepoDef | repo/lambda_function.py:64-76 | `repo_def` after `remove_none_attributes`; its shape is stated by `RepoDefEncryption`, `RepoDefOptional` and `RepoDefSettings` |
| Repo.InitialOps | repo/lambda_function.py:51-60 | pass-back and unknown ops enqueue nothing; upsert enqueues `compare_defs` under full trust, else `get_repository`; delete enqueues `delete_repository` with the name |
| Repo.SameDefinitionIgnoresTrust | repo/lambda_function.py:101-104 | two definitions are the same exactly when they agree outside `trust_level` |
| Repo.SameDefinition | repo/lambda_function.py:101-104 | the comparison of `compare_defs`; stated by `SameDefinitionIgnoresTrust` and `SecondCompareAgrees` |
| Repo.CompareDefsStep | repo/lambda_function.py:96-110 | `compare_defs` enqueues `get_repository` exactly when it runs on a changed definition, and sends no request |
| Repo.AfterCompareDefs | repo/lambda_function.py:101-102 | after `compare_defs` ran, both definitions have lost `trust_level` and nothing else |
| Repo.SecondCompareAgrees | repo/lambda_function.py:96-110 | the second `compare_defs` call reaches the same verdict as the first |
| Repo.DescribedProps | repo/lambda_function.py:135-140 | a found repository gives exactly the props arn, name, uri and registry_id |
| Repo.DescribeFailure | repo/lambda_function.py:166-170 | a failed describe enqueues `create_repository` exactly on RepositoryNotFoundException and leaves every other op alone |
| Repo.Described | repo/lambda_function.py:132-147 | a found repository adds the description's props and exactly the attribute ops; it logs "Found Repository Project", then the KMS warning exactly when the repository is KMS-encrypted and the definition asks for no encryption; nothing else changes |
| Repo.AttributeOps | repo/lambda_function.py:144-147 | the mutability op is enqueued exactly when the mutability differs, `update_scan_on_push` exactly when the flag differs |
| Repo.TagDiff | repo/lambda_function.py:149-161 | the tag step adds only tag ops, or `create_repository` on a missing repository |
| Repo.TagDiffOps | repo/lambda_function.py:153-161 | `add_tags` / `remove_tags` are enqueued exactly when their delta is non-empty, with the delta as payload |
| Repo.Inspect | repo/lambda_function.py:125-170 | describing the repository never removes an op, adds only the inspection ops and no request |
| Repo.InspectKeeps | repo/lambda_function.py:125-170 | every op other than the inspection ops is left as it was |
| Repo.InspectArn | repo/lambda_function.py:135-161 | whenever a tag op is enqueued the arn prop is recorded |
| Repo.GetRepositoryStep | repo/lambda_function.py:112-170 | `get_repository` is gated and enqueues only later handlers |
| Repo.RenameStep | repo/lambda_function.py:115-122 | a changed name enqueues `delete_repository` of the previous name and registry; otherwise no op changes |
| Repo.CreateStep | repo/lambda_function.py:172-195 | `create_repository` sends `repo_def` once when enqueued and records the new repository's props on success |
| Repo.ScanningStep | repo/lambda_function.py:197-219 | the scanning handler is gated and changes no op, prop or link; when it runs it appends exactly the `put_image_scanning_configuration` request, and a failure is the common error at 30 |
| Repo.MutabilityStep | repo/lambda_function.py:221-240 | the mutability handler is gated and changes no op, prop or link; when it runs it appends exactly the `put_image_tag_mutability` request, and a failure is the common error at 35 |
| Repo.AddTagsStep | repo/lambda_function.py:264-277 | `add_tags` is gated and changes no op, prop or link; when it runs it appends exactly the `tag_resource` request for the arn and the payload's tags, and a failure is the common error at 50 |
| Repo.RemoveTagsStep | repo/lambda_function.py:279-291 | `remove_tags` is gated and changes no op, prop or link; when it runs it appends exactly the `untag_resource` request for the arn and the payload's keys, and a failure is the common error at 65 |
| Repo.DeleteStep | repo/lambda_function.py:242-262 | `delete_repository` sends one delete when enqueued; a failure other than not-found is a common error at the payload's progress |
| Repo.CompareDefs | repo/lambda_function.py:96-110 | the handler's state after `compare_defs` is `CompareDefsStep`'s; the two definitions come back popped |
| Repo.ReportFailure | repo/lambda_function.py:166-170 | the state after a failed describe is `DescribeFailure`'s |
| Repo.Found | repo/lambda_function.py:132-147 | the state after a found repository is `Described`'s |
| Repo.DiffTags | repo/lambda_function.py:149-161 | the state after the tag comparison is `TagDiff`'s |
| Repo.GetRepository | repo/lambda_function.py:112-170 | the state after `get_repository` is `GetRepositoryStep`'s |
| Repo.Describe | repo/lambda_function.py:125-170 | the state after the `try` block is `Inspect`'s |
| Repo.CreateRepository | repo/lambda_function.py:172-195 | the state after `create_repository` is `CreateStep`'s |
| Repo.UpdateImageScanningConfiguration | repo/lambda_function.py:197-219 | the state after the scanning handler is `ScanningStep`'s |
| Repo.UpdateImageTagMutability | repo/lambda_function.py:221-240 | the state after the mutability handler is `MutabilityStep`'s |
| Repo.AddTags | repo/lambda_function.py:264-277 | the state after `add_tags` is `AddTagsStep`'s |
| Repo.RemoveTags | repo/lambda_function.py:279-291 | the state after `remove_tags` is `RemoveTagsStep`'s |
| Repo.DeleteRepository | repo/lambda_function.py:242-262 | the state after `delete_repository` is `DeleteStep`'s |
| Repo.LambdaHandler | repo/lambda_function.py:20-94 | the invocation's final handler state is `Reconcile` of the event and the cloud |
| Repo.Reconcile | repo/lambda_function.py:28-94 | `lambda_handler`; its whole-invocation properties are `ReconcileOrder`, `ReconcileTrace`, `FullTrustUnchanged`, `DeleteOnly` and `ReconcileInvalid` |
| Repo.SelectOps | repo/lambda_function.py:51-60 | op selection leaves a fresh handler holding exactly `InitialOps` |
| Repo.Prepare | repo/lambda_function.py:62-78 | the first `compare_defs` call gives `Prelude`'s state |
| Repo.Provide | repo/lambda_function.py:79-82 | the inspection and setup handlers give `Provision`'s state |
| Repo.Conclude | repo/lambda_function.py:83-85 | the tag and delete handlers give `Finish`'s state |
| Repo.PreludeTrace | repo/lambda_function.py:51-62 | after selection and the first comparison the trace is the filtered prefix and only the three selectable ops exist |
| Repo.EnqueuesComeLater | repo/lambda_function.py:79-85 | every op `get_repository` enqueues names a handler called after it |
| Repo.GetRepositoryTrace | repo/lambda_function.py:79 | `get_repository` extends the filtered trace by its own position |
| Repo.ProvisionTrace | repo/lambda_function.py:79-82 | the inspection and setup handlers extend the filtered trace |
| Repo.SetupTrace | repo/lambda_function.py:80-82 | creation, scanning and mutability extend the filtered trace |
| Repo.SetupGated | repo/lambda_function.py:80-82 | the same, for any three gated steps |
| Repo.FinishTrace | repo/lambda_function.py:83-85 | the tag and delete handlers complete the filtered trace and change no op or prop |
| Repo.RunTrace | repo/lambda_function.py:62-85 | a run's trace is the call sequence filtered by its final op table, and only the reconciler's ops are ever enqueued |
| Repo.ReconcileTrace | repo/lambda_function.py:20-94 | the same for a whole invocation, including the ones that raise |
| Repo.OrderUnique | repo/lambda_function.py:79-85 | every handler after the two comparisons is called once |
| Repo.GetBeforeCreate | repo/lambda_function.py:79-80 | `get_repository` runs before `create_repository` when both run |
| Repo.AddTagsBeforeRemoveTags | repo/lambda_function.py:83-84 | `add_tags` runs before `remove_tags` when both run |
| Repo.DeleteRunsLast | repo/lambda_function.py:85 | `delete_repository` is the last handler to run |
| Repo.ReconcileOrder | repo/lambda_function.py:78-85 | in every invocation get precedes create, add precedes remove, and delete is last |
| Repo.PreludeInspects | repo/lambda_function.py:53-62 | an upsert that will inspect has `get_repository` enqueued after the first comparison |
| Repo.PreludeUnchanged | repo/lambda_function.py:104-110 | a full-trust upsert of an unchanged definition copies the previous links and props and enqueues nothing more |
| Repo.PreludeDelete | repo/lambda_function.py:59-60 | a delete enqueues only `delete_repository` of the configured name |
| Repo.InspectMissing | repo/lambda_function.py:163-168 | a missing repository, either not found or listed empty, enqueues `create_repository` and nothing else |
| Repo.InspectFound | repo/lambda_function.py:132-147 | a found repository records its props, does not enqueue creation and enqueues each attribute op exactly when that attribute differs |
| Repo.InspectTags | repo/lambda_function.py:149-161 | a found repository enqueues the tag ops exactly for a non-empty delta of the wanted tags against the listed ones |
| Repo.GetRepositoryRename | repo/lambda_function.py:115-122 | `get_repository` enqueues the old repository's delete exactly when the previous name differs |
| Repo.AfterGetRepository | repo/lambda_function.py:79-85 | the handlers after `get_repository` keep its ops and props |
| Repo.DeleteProgressByIntent | repo/lambda_function.py:259-262 | a rename's delete reports progress 80, a plain delete progress 10 |
| Repo.DeleteIntentFields | repo/lambda_function.py:60 | the delete intent names the configured repository and no registry |
| Repo.RemoveNoneMiddle | repo/lambda_function.py:248-252 | `remove_none_attributes` drops a None value between two kept ones |
| Repo.DeleteIntentRequest | repo/lambda_function.py:248-252 | a plain delete sends the repository name with `force` set and no registry |
| Repo.NoOpNoWork | repo/lambda_function.py:51-52 | a pass-back or unknown op leaves the handler empty: no op, request, prop or log |
| Repo.ReconcileInvalid | repo/lambda_function.py:41-47 | an invalid mutability or scan flag crashes with the check's message before any handler runs |
| Repo.ProvisionIdle | repo/lambda_function.py:79-82 | with none of their ops enqueued the inspection and setup handlers change nothing |
| Repo.FinishDeleteOnly | repo/lambda_function.py:83-85 | without tag ops only the delete handler can act |
| Repo.FullTrustUnchanged | repo/lambda_function.py:96-110 | a full-trust upsert of an unchanged definition sends no request and restores the previous props and links |
| Repo.OnlyCompareDefs | repo/lambda_function.py:79-85 | with only `compare_defs` enqueued the later handlers change nothing |
| Repo.RunOps | repo/lambda_function.py:79-85 | the later handlers keep every op the comparisons left |
| Repo.UpsertTraceShape | repo/lambda_function.py:53-79 | an inspecting upsert runs `get_repository`; it runs `compare_defs`, twice and first, exactly under full trust |
| Repo.UpsertTraceFull | repo/lambda_function.py:62-78 | under the model's assumption that an op stays enqueued after its handler ran, with `compare_defs` enqueued the trace starts with it twice |
| Repo.UpsertReadsRepository | repo/lambda_function.py:53-79 | every inspecting upsert runs `get_repository`, preceded by two comparisons exactly under full trust |
| Repo.RunInspects | repo/lambda_function.py:79-80 | an inspecting upsert's state after `get_repository` is the rename step and the inspection |
| Repo.RenamedPrelude | repo/lambda_function.py:115-122 | on a fresh upsert, the rename step enqueues delete exactly on a changed name |
| Repo.RanIffEnqueued | repo/lambda_function.py:79-85 | a handler of the sequence ran exactly when its op ended up enqueued |
| Repo.CreateShape | repo/lambda_function.py:163-183 | a missing repository is created with only the created repository's props; no mutability or tag handler runs |
| Repo.MissingRepositoryCreated | repo/lambda_function.py:163-183 | an inspecting upsert of a missing repository runs `create_repository` and sends `repo_def` |
| Repo.FoundShape | repo/lambda_function.py:132-147 | a found repository is not created; its mutability update runs exactly when its mutability differs |
| Repo.FoundRepositoryUpdated | repo/lambda_function.py:132-147 | an inspecting upsert of a found repository records its props and runs the mutability update exactly on a difference |
| Repo.TagsShape | repo/lambda_function.py:158-161 | the tag handlers run exactly for a non-empty delta, with the delta as payload |
| Repo.FoundRepositoryTags | repo/lambda_function.py:149-161 | an inspecting upsert of a found repository runs `add_tags` / `remove_tags` exactly for a non-empty delta |
| Repo.FinishDeleteFails | repo/lambda_function.py:258-262 | a failed delete ends with a common error at the payload's progress |
| Repo.RenameShape | repo/lambda_function.py:115-122 | the old repository's delete runs exactly on a rename, with its payload |
| Repo.RenameDeletesOld | repo/lambda_function.py:242-256 | an inspecting upsert with a changed name deletes the previous repository by its previous name and registry |
| Repo.RenameDeleteFails | repo/lambda_function.py:258-262 | a failed delete of the previous repository ends with a common error at progress 80 |
| Repo.DeleteOnly | repo/lambda_function.py:242-262 | a delete runs only `delete_repository` and sends exactly the forced delete of the name |
| Repo.DeleteIntentHandled | repo/lambda_function.py:242-262 | every delete invocation sends exactly that one request |
| Repo.ScanningNeverRuns | repo/lambda_function.py:146-147 | the scanning handler never runs: the op `get_repository` enqueues is not the one it is gated on |
| Repo.ArnShape | repo/lambda_function.py:135-161 | tag ops are enqueued only after the arn prop is recorded |
| Repo.TagOpsHaveArn | repo/lambda_function.py:264-281 | whenever a tag handler runs, the arn prop it reads exists |
| Repo.ArnAfterPrelude | repo/lambda_function.py:79-85 | the same after the inspection and setup handlers |
| Image.DockerTags | image/lambda_function.py:54 | a non-empty list of tags is kept; otherwise the tags are `["latest"]` |
| Image.ParseConfig | image/lambda_function.py:43-62 | trust defaults to "code" and is "zero" on rollback; the repository name, tags, overrides and login flag are read from the definition |
| Image.NameChecked | image/lambda_function.py:49-52 | a missing repository name logs an error and declares a permanent error at progress 0 |
| Image.BuildOps | image/lambda_function.py:87-90 | a build enqueues `setup_codebuild_project`, plus `compare_defs` under full or code trust |
| Image.S3Etag | image/lambda_function.py:112-121 | `get_s3_etag` stores the ETag in the state, or declares a retry error on a missing archive |
| Image.CompareDefsStep | image/lambda_function.py:123-140 | `compare_defs` records the fingerprint and enqueues `compare_etags` exactly when it equals the previous one |
| Image.WrapUp | image/lambda_function.py:353-358 | `wrap_up_not_deploying` carries the previous props, links, state and artifacts forward and declares success at 100 |
| Image.CompareEtagsStep | image/lambda_function.py:142-159 | `compare_etags` enqueues the setup only on a changed ETag |
| Image.LoadInitialPropsStep | image/lambda_function.py:161-175 | `load_initial_props` records the initial ETag, and the fingerprint unless one is recorded |
| Image.TagCommands | image/lambda_function.py:221 | one `docker tag` command per tag, in order |
| Image.PushCommands | image/lambda_function.py:222 | one `docker push` command per tag, in order |
| Image.TagVars | image/lambda_function.py:219 | one `IMAGE_TAG_i` variable per tag, in order |
| Image.SetupStep | image/lambda_function.py:177-249 | the setup either declares the missing-secrets error or invokes the project reconciler, then enqueues the build on upsert |
| Image.BaseEnvKeys | image/lambda_function.py:180-184 | the base variables have distinct names |
| Image.TagVarNotBase | image/lambda_function.py:219 | no tag variable has a base variable's name |
| Image.TagVarInjective | image/lambda_function.py:219 | distinct indexes give distinct tag variables |
| Image.TagVarFresh | image/lambda_function.py:219 | each loop iteration assigns a variable not yet present |
| Image.EnvTags | image/lambda_function.py:219 | the environment gives each tag variable its tag |
| Image.RunBuildStep | image/lambda_function.py:251-269 | `run_codebuild_build` invokes the build reconciler for the project name, or raises when the name is missing |
| Image.FinalPropsStep | image/lambda_function.py:272-306 | `get_final_props` records the image's URI, digest and tags, the console link `gen_ecr_artifact_link` builds from them as written, and the `image` artifact; or it reports the `ClientError` at progress 90 |
| Image.PropsFromArtifactStep | image/lambda_function.py:308-337 | `get_props_from_artifact` reads the repository with the source's split, then records the restored image with its link and artifact, reports a `ClientError` at progress 90, or raises (a URI without '/', an untagged image) |
| Image.FinalLinkOk | image/lambda_function.py:366-370 | the link of a built image's URI never raises |
| Image.FinalUriFields | image/lambda_function.py:367-369 | a built URI has at least four dot fields and two slash fields |
| Image.FinalUriDots | image/lambda_function.py:367-368 | the registry host part gives at least four dot fields |
| Image.FinalUriSlashes | image/lambda_function.py:369 | the host separator gives at least two slash fields |
| Image.FinalUriDotFields | image/lambda_function.py:367-368 | with plain parts, dot field 0 is the account and field 3 the region |
| Image.HostDots | image/lambda_function.py:367-368 | the host's dot fields are the account, "dkr", "ecr" and the region |
| Image.FinalUriSlashFields | image/lambda_function.py:369 | with plain parts, slash field 1 is the repository path |
| Image.HostNoSlash | image/lambda_function.py:285 | the host has no slash |
| Image.HostThenPath | image/lambda_function.py:285 | the URI is the host, a slash and the path |
| Image.RepoPartDigest | image/lambda_function.py:369 | as written, the repository part of `repo@alg:hex` is `repo@alg`, not `repo` |
| Image.RepoPartStrips | image/lambda_function.py:369 | the corrected repository part of `repo@digest` is `repo` |
| Image.RepoPartTag | image/lambda_function.py:369 | on a tag URI the corrected and the as-written repository parts agree |
| Image.FinalLinkFields | image/lambda_function.py:366-370 | as written, the link of a built image whose digest is `alg:hex` names the repository `name@alg`, which is not the name the image was built in |
| Image.RollbackNamesRepository | image/lambda_function.py:74-75 | as written, a rollback to a built image whose digest is `alg:hex` reads back the repository `name@alg` |
| Image.UriRepo | image/lambda_function.py:74-75 | `uri.split("/")[1].split(":")[0]` as written: it succeeds exactly on a string holding '/', raises `IndexError` (or the attribute error of a non-string) otherwise, and the part holds no '/' or ':' |
| Image.UriRepoIntended | image/lambda_function.py:74-75 | the corrected split: the same successes and errors, a part without '@', equal to the as-written part whenever that has no '@' |
| Image.GenLink | image/lambda_function.py:366-370 | `gen_ecr_artifact_link` succeeds exactly on a string with at least three '.' and a '/', and is then the console link of dot field 0 (account), dot field 3 (region), the as-written repository part and the digest; otherwise it raises |
| Image.GenLinkIntended | image/lambda_function.py:366-370 | the corrected link: the same successes and errors, naming the repository part without its `@digest` |
| Image.FinalLinkParts | image/lambda_function.py:285-294 | with separator-free parts, the link of a built image names its account, region and digest, and as repository the part of `name@digest` before the first ':' |
| Image.FinalLinkIntendedFields | image/lambda_function.py:285-294 | the corrected link of a built image names its account, region, repository name and digest |
| Image.FinalUriRepo | image/lambda_function.py:74-75 | as written, the repository read back from a built image's URI is the part of `name@digest` before the first ':' |
| Image.RollbackNamesRepositoryIntended | image/lambda_function.py:74-75 | with the corrected split, a rollback reads back the repository the image was built in |
| Image.ConsoleLink | image/lambda_function.py:370 | the console URL format; its fields are stated by `GenLink` and `FinalLinkParts` |
| Image.FinalUri | image/lambda_function.py:285 | the image URI `{account}.dkr.ecr.{region}.amazonaws.com/{repo}@{digest}`; its fields are stated by `FinalUriDotFields` and `FinalUriSlashFields` |
| Image.SelectUpsert | image/lambda_function.py:67-91 | the upsert branch of the op selection; its outcomes are stated by `ImageFacts.UpsertSelectsBuild`, `RollbackSelectsRestore`, `RollbackImageMissing` and `RollbackNotObject` |
| Image.Select | image/lambda_function.py:49-93 | the op selection; its outcomes are stated by `ImageFacts.UpsertOps`, `DeleteSelectsSetup`, `OtherSelectsNothing` and `NameRequired` |
| Image.ProjectDef | image/lambda_function.py:180-239 | the project definition; its contents are stated by `ImageFacts.ProjectEnvTags`, `ProjectEnvBase`, `BuildCommandsShape`, `LoginCommands` and `ProjectOverrides` |
| Image.ProjectName | image/lambda_function.py:256-258 | `eh.props["Codebuild Project"]["name"]` or its `KeyError`; stated by `ImageFacts.BuildProjectName` and `RunBuildInvokes` |
| Image.Reconcile | image/lambda_function.py:28-110 | `lambda_handler`; its whole-invocation properties are `ImageFacts.UpsertAlwaysBuilds`, `RollbackRestores`, `DeleteRunsSetupOnly`, `PassBackNothingRuns` and `Image.ReconcileTrace` |
| Image.SelectOps | image/lambda_function.py:43-93 | the state after op selection is `Select`'s |
| Image.SelectUpsertOps | image/lambda_function.py:67-91 | the state after the upsert branch is `SelectUpsert`'s |
| Image.GetS3Etag | image/lambda_function.py:112-121 | the state after `get_s3_etag` is `S3Etag`'s |
| Image.CompareDefs | image/lambda_function.py:123-140 | the state after `compare_defs` is `CompareDefsStep`'s; the definition comes back popped |
| Image.WrapUpNotDeploying | image/lambda_function.py:353-358 | the state after the wrap-up is `WrapUp`'s |
| Image.CompareEtags | image/lambda_function.py:142-159 | the state after `compare_etags` is `CompareEtagsStep`'s |
| Image.LoadInitialProps | image/lambda_function.py:161-175 | the state after `load_initial_props` is `LoadInitialPropsStep`'s |
| Image.SetupCodebuildProject | image/lambda_function.py:177-249 | the state after the setup is `SetupStep`'s |
| Image.BuildProjectDef | image/lambda_function.py:180-239 | the project definition the loop builds is `ProjectDef` |
| Image.SetNew | image/lambda_function.py:219 | assigning a fresh key appends one pair |
| Image.TagEach | image/lambda_function.py:217-225 | the loop leaves the environment with one variable per tag and the commands of `Flags`, `TagCommands` and `PushCommands` |
| Image.EnvSnoc | image/lambda_function.py:219 | one iteration extends the environment by the next tag variable |
| Image.FlagsSnoc | image/lambda_function.py:220 | one iteration extends the build flags by the next `-t` flag |
| Image.TagStepSnoc | image/lambda_function.py:219 | one more tag adds one tag variable |
| Image.RunCodebuildBuild | image/lambda_function.py:251-269 | the state after `run_codebuild_build` is `RunBuildStep`'s |
| Image.GetFinalProps | image/lambda_function.py:272-306 | the state after `get_final_props` is `FinalPropsStep`'s |
| Image.GetPropsFromArtifact | image/lambda_function.py:308-337 | the state after `get_props_from_artifact` is `PropsFromArtifactStep`'s |
| Image.LambdaHandler | image/lambda_function.py:28-110 | the invocation's final handler state is `Reconcile` of the event, the cloud and the fingerprint |
| Image.AddSelectionOp | image/lambda_function.py:68-69 | adding a selection op keeps the trace and the other ops |
| Image.LaterOpsDistinct | image/lambda_function.py:95-101 | the handlers of the call sequence have distinct ops |
| Image.BuildOpsShape | image/lambda_function.py:87-90 | the build ops are the setup plus `compare_defs` under checked trust |
| Image.UpsertShape | image/lambda_function.py:67-90 | an upsert's ops are the two initial ones plus a restore or the build ops |
| Image.SelectShape | image/lambda_function.py:65-93 | every selection leaves no trace and only selectable ops |
| Image.NotEnqueued | image/lambda_function.py:95-101 | a handler whose op is absent leaves the state alone |
| Image.CheckOrder | image/lambda_function.py:95-97 | the fingerprint handlers extend the filtered trace |
| Image.CheckOps | image/lambda_function.py:95-97 | the fingerprint handlers add only `compare_etags` and the setup |
| Image.CheckTrace | image/lambda_function.py:95-97 | after the fingerprint handlers the trace is the filtered prefix |
| Image.BuildOrder | image/lambda_function.py:98-99 | the setup and build handlers extend the filtered trace |
| Image.BuildThrew | image/lambda_function.py:99 | a raised build leaves the trace of the handlers before it |
| Image.NoConclusion | image/lambda_function.py:100-101 | with neither final op enqueued, the last two handlers change nothing |
| Image.BuildTrace | image/lambda_function.py:98-99 | after the setup and build the trace is the filtered prefix |
| Image.ConcludeShape | image/lambda_function.py:100-101 | the final handlers add no op |
| Image.ConcludeTrace | image/lambda_function.py:100-101 | the final handlers complete the filtered trace |
| Image.AfterBuildTrace | image/lambda_function.py:99-110 | after the build the trace stays the filter of the call sequence, also when an exception occurs |
| Image.RunTrace | image/lambda_function.py:95-110 | a run's trace is the call sequence filtered by its final op table |
| Image.ReconcileTrace | image/lambda_function.py:28-110 | the same for a whole invocation |
| Image.CheckRequiredNeverRuns | image/lambda_function.py:95-101 | `check_required_attributes` is enqueued but never runs: the call sequence does not call it |
| Image.TraceWithinOrder | image/lambda_function.py:95-101 | only handlers of the call sequence appear in the trace |
| ImageFacts.UpsertSelectsBuild | image/lambda_function.py:87-90 | an upsert without rollback selects the build ops |
| ImageFacts.RollbackSelectsRestore | image/lambda_function.py:73-81 | a rollback whose image exists selects the restore and skips the build |
| ImageFacts.RollbackImageMissing | image/lambda_function.py:82-90 | a rollback whose image is missing logs "Missing Rollback Image" and builds |
| ImageFacts.RollbackNotObject | image/lambda_function.py:73-74 | a rollback artifact that is not an object raises |
| ImageFacts.RollbackNeverChecks | image/lambda_function.py:45-47 | a rollback's zero trust never checks fingerprints |
| ImageFacts.TrustDefault | image/lambda_function.py:43 | without rollback the trust is the definition's, or "code" |
| ImageFacts.UpsertOps | image/lambda_function.py:67-91 | an upsert's ops are the two initial ones and either the restore or the build ops |
| ImageFacts.AddSelectionNames | image/lambda_function.py:68-90 | the selectable op names are distinct |
| ImageFacts.DeleteSelectsSetup | image/lambda_function.py:92-93 | a delete selects only the setup |
| ImageFacts.OtherSelectsNothing | image/lambda_function.py:65-66 | a pass-back or unknown op selects nothing |
| ImageFacts.NameRequired | image/lambda_function.py:49-52 | a missing repository name declares the permanent error |
| ImageFacts.CompareDefsRecords | image/lambda_function.py:123-140 | `compare_defs` records the fingerprint of the definition without `trust_level`, and enqueues `compare_etags` exactly when it matches |
| ImageFacts.DefHashIgnoresTrust | image/lambda_function.py:128-132 | the fingerprint does not depend on `trust_level` |
| ImageFacts.CompareEtagsUnchanged | image/lambda_function.py:150-155 | an unchanged ETag carries the previous outputs forward and declares success without enqueuing |
| ImageFacts.CompareEtagsEnqueues | image/lambda_function.py:150-159 | the setup is enqueued exactly for a non-empty ETag other than the initial one |
| ImageFacts.CompareEtagsNoArchive | image/lambda_function.py:112-121 | a missing archive is a retry error and enqueues nothing |
| ImageFacts.LoadInitialRecords | image/lambda_function.py:161-175 | the initial ETag is recorded when present; the fingerprint is kept if recorded, else computed |
| ImageFacts.CompareEtagsKeepsHash | image/lambda_function.py:150-155 | `compare_etags` keeps a recorded fingerprint |
| ImageFacts.LoadInitialKeepsHash | image/lambda_function.py:167-175 | `load_initial_props` keeps or computes the same fingerprint |
| ImageFacts.FingerprintRecorded | image/lambda_function.py:123-175 | after the fingerprint handlers the props hold the definition's fingerprint, whichever handlers ran |
| ImageFacts.ProjectEnvTags | image/lambda_function.py:214-219 | the project environment has distinct names and gives each tag variable its tag |
| ImageFacts.ProjectEnvBase | image/lambda_function.py:180-206 | the environment gives region, account and repository, and the Dockerhub secrets exactly when logging in |
| ImageFacts.NoCredentialVars | image/lambda_function.py:203-206 | without a login the environment has no Dockerhub variables |
| ImageFacts.BuildCommandsShape | image/lambda_function.py:191-225 | two echoes, the `docker build` with its flags, then one `docker tag` per tag |
| ImageFacts.FlagsInOrder | image/lambda_function.py:218-220 | each tag's `-t` flag occurs in the build command in tag order |
| ImageFacts.PrefixAppend | image/lambda_function.py:220 | a prefix stays a prefix when more flags are appended |
| ImageFacts.LoginCommands | image/lambda_function.py:186-222 | the pre-build and post-build commands, with the Dockerhub login and `docker logout` exactly when logging in |
| ImageFacts.CommandsDiffer | image/lambda_function.py:196-212 | the post-build echoes are not the logout |
| ImageFacts.PushIsNotLogout | image/lambda_function.py:212-222 | no push command is the logout |
| ImageFacts.ProjectOverrides | image/lambda_function.py:227-239 | the project definition is the defaults overridden by the user's keys |
| ImageFacts.SetupSecretsMissing | image/lambda_function.py:203-210 | a login without secrets declares a permanent error and invokes nothing |
| ImageFacts.SetupInvokes | image/lambda_function.py:241-249 | otherwise the setup invokes the project reconciler at 25-30 and enqueues the build exactly on upsert |
| ImageFacts.BuildProjectName | image/lambda_function.py:256-260 | the build definition has the project's name unless overridden |
| ImageFacts.RunBuildInvokes | image/lambda_function.py:251-269 | the build raises exactly when the project has no name; otherwise it invokes the build reconciler at 30-45 and enqueues `get_final_props` |
| ImageFacts.SetupThenBuild | image/lambda_function.py:241-269 | after the setup on upsert the build raises exactly when the project reconciler gave no name |
| ImageFacts.SecretsMissingNoBuild | image/lambda_function.py:207-210 | missing secrets leave the permanent error, invoke nothing, do not enqueue `run_codebuild_build` and leave `get_final_props` as it was |
| ImageFacts.RecordedImage | image/lambda_function.py:287-303 | the recorded uri, digest, tags, link and artifact |
| ImageFacts.FinalPropsRecords | image/lambda_function.py:272-303 | `get_final_props` records uri, digest and tags and the image artifact and keeps the declared return |
| ImageFacts.FinalPropsLink | image/lambda_function.py:293-295 | the recorded link is the console link of the account, region and digest, with the repository `name@alg` the source's split gives for a digest `alg:hex` |
| ImageFacts.FinalPropsFails | image/lambda_function.py:305-306 | a failed describe is a common error at 90 |
| ImageFacts.FinalPropsReports | image/lambda_function.py:272-306 | an enqueued `get_final_props` records the image's uri, digest, tags, link and artifact on a found digest, and declares the common error at 90 otherwise |
| ImageFacts.ImageArtifactFields | image/lambda_function.py:297-303 | the artifact has the location and the digest |
| ImageFacts.RollbackFindsBuiltImage | image/lambda_function.py:73-90 | when the registry refuses repository names holding '@', a rollback to the artifact a build recorded logs "Missing Rollback Image" and enqueues the build ops, with the repository name `name@alg` |
| ImageFacts.RestoreRecords | image/lambda_function.py:308-334 | the restore records the image as the build does |
| ImageFacts.RestoreMatchesBuild | image/lambda_function.py:285-334 | when the registry has the image under the name the source reads back, the restore declares the same uri, digest, link and artifact as the build that made the image |
| ImageFacts.RestoreFails | image/lambda_function.py:336-337 | a failed restore reports its error |
| ImageFacts.FinalPropsRecordsLink | image/lambda_function.py:283-303 | `get_final_props` records the built URI and digest, the link of that URI and the artifact naming both |
| ImageFacts.RestoreSameRecord | image/lambda_function.py:318-334 | restoring a recorded URI and digest, whose image the registry has, records the same uri, digest, link and artifact |
| ImageFacts.RestoreUntagged | image/lambda_function.py:318-322 | an untagged image has no `imageTags`; the `KeyError` is no `ClientError`, so it leaves the handler before anything is recorded |
| ImageFacts.FinishedKeeps | image/lambda_function.py:103-110 | finishing keeps the trace, ops and invocations |
| ImageFacts.CheckSkips | image/lambda_function.py:95-97 | without fingerprint ops the checks only load the initial props |
| ImageFacts.CheckKeeps | image/lambda_function.py:95-97 | the checks keep the trace prefix and the invocations |
| ImageFacts.SetupDistinct | image/lambda_function.py:95-101 | the setup op differs from the other handlers' ops |
| ImageFacts.RestoreConclusion | image/lambda_function.py:100-101 | a restore run ends with `get_props_from_artifact` only |
| ImageFacts.RestoreRun | image/lambda_function.py:95-101 | a restore run's trace is the initial load and the restore |
| ImageFacts.RollbackRestores | image/lambda_function.py:67-101 | a rollback to an existing image runs only the initial load and the restore, and invokes nothing |
| ImageFacts.DeleteSetup | image/lambda_function.py:241-249 | a delete's setup invokes the project reconciler once, or nothing when secrets are missing |
| ImageFacts.SetupOnlyConclusion | image/lambda_function.py:100-101 | with only the setup enqueued nothing runs after it |
| ImageFacts.DeleteRun | image/lambda_function.py:95-101 | a delete run's trace is the setup alone |
| ImageFacts.DeleteRunsSetupOnly | image/lambda_function.py:92-101 | a delete runs only the setup and invokes the project reconciler at most once |
| ImageFacts.NothingRun | image/lambda_function.py:95-101 | with no ops the run changes nothing |
| ImageFacts.PassBackNothingRuns | image/lambda_function.py:65-103 | a pass-back or unknown op runs no handler and invokes nothing |
| ImageFacts.LaterOpsNotChecks | image/lambda_function.py:95-101 | the build and final ops differ from the check ops |
| ImageFacts.UpsertCheck | image/lambda_function.py:95-97 | the checks keep the setup enqueued |
| ImageFacts.EndsWithBuild | image/lambda_function.py:98-100 | a trace ending in setup, build and final props ends with those three |
| ImageFacts.UpsertBuild | image/lambda_function.py:98-99 | the setup and build run and invoke both reconcilers |
| ImageFacts.BuildConclusion | image/lambda_function.py:100-101 | after a build only `get_final_props` runs, and it reports the image or the failure |
| ImageFacts.UpsertRun | image/lambda_function.py:95-101 | an upsert run ends with setup, build and final props, invokes both reconcilers and reports the image or the failure |
| ImageFacts.UpsertSelection | image/lambda_function.py:67-90 | an upsert without rollback selects the setup and no restore |
| ImageFacts.UpsertAlwaysBuilds | image/lambda_function.py:87-101 | every upsert without rollback ends with setup, build and `get_final_props` and invokes both reconcilers, whatever the fingerprint checks found; on a found digest the image's uri, digest, tags, link and artifact replace the copied outputs, and otherwise the return is the common error at 90 |

## Left out

- AWS and I/O: `boto3` calls, `account_context`, `lambda_env` and the nested reconcilers' answers are inputs in `Cloud`. Their side effects beyond the recorded request, invocation and props are not modelled.
- The extension library: `ext`, `eh.finish`, `capture_event` and `handle_common_errors` are not part of this model. The op gate is modelled as "a handler runs exactly when its op is enqueued when it is reached". `handle_common_errors` is a `CommonError` return that keeps the code, the progress and the list of permanent error codes; how the library classifies a code against the list is not modelled.
- Two assumptions about the `@ext` wrapper, whose code is not part of this model. First, a declared return (`declare_return`, `perm_error`, `retry_error`) does not stop later handlers: each is still gated only by its op. Second, an op stays in `eh.ops` after its handler ran, so the repository reconciler's `compare_defs`, called twice, runs twice (`Repo.UpsertTraceFull`). If the wrapper skipped handlers after a declared return, or removed an op once handled, `ImageFacts.UpsertAlwaysBuilds` and the twice-run comparison would not hold.
- The fingerprint: `hashlib.md5` over `json.dumps(..., sort_keys=True)` is the parameter `fingerprint`. Only that it ignores `trust_level` is proved.
- Logs: only the title and the error flag are kept. Log details, `print` and `traceback` are left out.
- Image.ParseConfig: a truthy `docker_tags` that is not a list is read as its default. Override definitions that are not objects are read as empty.
- Repo.ParseConfig: `component_safe_name` is an input (`safeName`), and `tags` that are not an object are read as empty.
- Repo.CompareDefs and Image.CompareDefs: Python's in-place `pop` on the event's dicts is modelled as the popped dicts being returned. The event is not aliased.
- Repo.SameDefinition: dict equality is on the top level. A nested value is compared as an ordered structure, whereas Python compares nested dicts without regard to order.
- A missing `component_def` and a `prev_state` of None are not modelled. Both reconcilers then raise on the first `.get`. The model's event always carries a definition and a previous state.
- Image.FinalPropsStep: an empty `imageDetails` list raises an `IndexError`. The model's `describe_images` answer always carries a digest.
- S3Etag: `head_object` is modelled as giving an ETag or `NoSuchKey`. Any other `ClientError` (access denied, or a missing key reported as a plain 404) is not caught by `get_s3_etag` and would reach the top-level `except`; that path is not modelled.
- Which repository names `describe_images` accepts is an input (`Cloud.images`). `ImageFacts.RollbackFindsBuiltImage` assumes the registry refuses names holding '@', as ECR's naming rules suggest.
- Messages of Python type errors are schematic, for example `'int' object has no attribute 'get'`. Only whether a crash happens, and where, is exact.
- ImageFacts.CompareEtagsEnqueues and ImageFacts.CompareEtagsNoArchive require that no ETag was read earlier in the invocation (`zip_etag` not in the state). The invocation starts with an empty state, so this holds when `compare_etags` runs.
- The previous image artifact is read from `##artifacts##` for a rollback and from `artifacts` for the wrap-up, as the code does. Whether the library fills both keys is not part of this model.
- ImageFacts.LoginCommands: the positions of the pre-build and post-build commands are proved. Which secret the Dockerhub login reads is not.
- Repo: `update_image_scanning_configuration` is modelled, but it can never run. Its op is never enqueued (`Repo.ScanningNeverRuns`). No corrected version is modelled, because the intended payload of the op is not evident from the code.
- `check_required_attributes` is modelled only as an op that is enqueued and never called (`Image.CheckRequiredNeverRuns`). Its body is not modelled.

## Findings

| source | as written | input that shows it | evidently intended | confidence | as-written member | corrected member |
|---|---|---|---|---|---|---|
| repo/lambda_function.py:293-294 and image/lambda_function.py:360-361 | `for k,v in tags_dict` iterates the dict's keys and unpacks each key as a pair | `tags = {"env": "prod"}` raises "too many values to unpack (expected 2)"; a key of two characters is split into a one-character key and value | iterate `tags_dict.items()`, giving one Key/Value object per tag that unformats back to the dict; the rest of the model (`repo_def`, `add_tags`) uses this version, since as written every tag dict with a key that is not two characters long raises | not executed | Tags.FormatTagsCounterexample | Tags.UnformatFormat |
| image/lambda_function.py:75,310,369 | `uri.split("/")[1].split(":")[0]` keeps everything before the first colon | the built URI `acct.dkr.ecr.r.amazonaws.com/repo@sha256:ab` gives the repository `repo@sha256`: the console link names `repo@sha256`, and a rollback asks the registry about `repo@sha256`, logs the image as missing and rebuilds | strip the `@digest` suffix too, giving `repo`, so that the link names the repository and a rollback finds the image; the handlers keep the code's split, and the intended `Image.UriRepoIntended` and `Image.GenLinkIntended` are proved beside it | not executed | Image.RollbackNamesRepository | Image.RollbackNamesRepositoryIntended |
