# ZenMake configuration core, modelled in Dafny

ZenMake is a build tool layered over waf. This project models two parts of it.

**The build-configuration validator** (`Validator` in
`src/zenmake/zm/buildconf/validator.py`) checks a user's `buildconf` tree
against a scheme. The scheme has:
- simple types: `bool`, `int`, `str`, `func`;
- containers: `list`, `list-of-strs`, `dict`;
- the `vars-in-dict` kind;
- unions given as a list of type names;
- `allowed` value lists, which may be computed by a callable;
- wildcard keys (`AnyAmountStrsKey`).

`validate` deep-copies the scheme and installs the declared build types as
the `allowed` list of `buildtypes.default`. It validates the whole
configuration and re-wraps the message of any configuration error under an
`Error in the file ...:` header.

**The waf wrappers** are:
- the wrapped `execute` of the build-context commands (`zm/wafwrappers.py`). It decides whether to run `configure` first, handles a project whose lock file is not in the top directory, and guards against endless re-entry.
- the methods that `src/zenmake/zm/waf/build.py` adds to waf's `BuildContext`. These load the per-task environments from the cache of tasks, print the build step, and check the variant.

`toList` and `unfoldPath` (`zm/utils.py`) are modelled with the validator, which uses `toList`.

## Module layout

- `pyvalues.dfy` (`PyValues`): the Python values a configuration holds, and `Option`/`Result`.
- `utils.dfy` (`Utils`): `toList`, with `str.split` written out, and `unfoldPath`, with the `os.path` functions as parameters.
- `scheme.dfy` (`Scheme`): scheme nodes and their attributes.
  - Nodes live in a `Store` and are referred to by index, because the validator rewrites some of them in place.
  - `Evolves` is the one change validation makes to a store.
- `validator.dfy` (`Validator`): the type handlers and `_validate`.
  - Each handler is a function from the value and the store to an `Outcome` (passed, or the raised error's kind and message) and the new store.
  - Python exceptions outside the `ZenMakeConfError` family (a `KeyError` on a missing scheme attribute, an unknown type name) are the `Uncaught` kind.
- `validation.dfy` (`ConfValidation`): the loops of `_validateUsualItems`, of the scheme partition in `_validate`, and of `validate`.
  - Each loop is a method proved equal to the function that specifies it.
  - The same file holds the scheme copy (a class whose `SetAttr` writes a node in place), the message re-wrapping and the entry point.
- `validator_facts.dfy` (`ValidatorFacts`): what the validator guarantees, stated over all inputs.
- `wafwrappers.dfy` (`WafWrappers`): the checks and decisions of `zm/wafwrappers.py`.
  - Each decision is specified as a function of the process-wide state (`Globals`).
  - `WafProcess` is that state as an object. Its methods follow the source step by step.
- `build.dfy` (`WafBuild`): waf's `ConfigSet` as the class `Env` (a table with a parent chain), and `BuildContext` with the fields ZenMake adds.

## Behaviour worth knowing

- `_handleNoLockInTop` (`zm/wafwrappers.py:61-67`), with autoconfig off and no lock environment, raises for `build` only and lets every other command through without running it (`WafWrappers.NoAutoconfigWithoutLock`).
- `_loadTasks` (`src/zenmake/zm/waf/build.py:37-43`) tolerates a missing tasks cache only for `clean`; `uninstall` is fatal like any other command.
- With autoconfig off (`zm/wafwrappers.py:114-117`) the run-directory mismatch is not looked at. Only `_handleNoLockInTop` runs.

## Model

| member | source | states |
|---|---|---|
| `PyValues.FindKey` | src/zenmake/zm/buildconf/validator.py:294 | `conf.get(key)` finds the first entry with that key, and only when one exists |
| `Utils.Word` | zm/utils.py:43-44 | the leading word of a string holds no whitespace and ends at whitespace or at the end |
| `Utils.Split` | zm/utils.py:43-44 | `str.split()` yields only non-empty tokens without whitespace |
| `Utils.SplitKeepsCharacters` | zm/utils.py:43-44 | the tokens of `str.split()`, concatenated, are exactly the non-space characters of the string, in order |
| `Utils.SplitJoinSpaced` | zm/utils.py:43-44 | splitting tokens joined by single spaces gives the tokens back (`'a1 a2 b1 b2'` gives the four words) |
| `Utils.ToList` | zm/utils.py:38-45 | a string becomes the list whose items are, in order, the tokens of `str.split()` on it, each a non-empty run without whitespace; any other value is returned unchanged |
| `Utils.ToListIdempotent` | zm/utils.py:38-45 | `toList(toList(x)) == toList(x)` for every value |
| `Utils.UnfoldPath` | zm/utils.py:47-61 | `None` and `''` come back unchanged; a relative path is joined onto `cwd` before expansion; an absolute path is expanded as it is |
| `Utils.UnfoldAbsoluteIgnoresCwd` | zm/utils.py:55-56 | an absolute path unfolds the same whatever the `cwd` |
| `Scheme.ParseTypeName` | src/zenmake/zm/buildconf/validator.py:28-38 | a recognised handler name is parsed to the type that prints back as the same name |
| `Scheme.ParseTypeNameOf` | src/zenmake/zm/buildconf/validator.py:28-38 | every handler type is recognised from its own name |
| `Scheme.GetAttrValue` | src/zenmake/zm/buildconf/validator.py:53-62 | the attribute under its own name wins; otherwise `<typename>-<key>` is used; a stored `None` counts as absent |
| `Scheme.Put` | src/zenmake/zm/buildconf/validator.py:265-266 | writing a node in place changes that node only and keeps the store's size |
| `Scheme.EvolvesTransitive` | src/zenmake/zm/buildconf/validator.py:263-272 | the in-place rewrites of scheme nodes compose: a node only ever gets its `type` from its `vars-type` and its `allow-unknown-keys` from `vars-allow-unknown-keys` |
| `Scheme.EvolvesAppend` | src/zenmake/zm/buildconf/validator.py:154-155 | the node copy `_handleList` makes is a new node and leaves the others as they were |
| `Validator.WrapSub` | src/zenmake/zm/buildconf/validator.py:166-169 | a type error from a sub-handler becomes a sub-type error carrying the same message; any other outcome passes through |
| `Validator.GetHandler` | src/zenmake/zm/buildconf/validator.py:28-44 | a list of type names and the name `complex` select the union handler; another name in the handler table selects its own handler; any other name, and any value that is neither a string nor a list, has none (`KeyError`) |
| `Validator.GenFullKey` | src/zenmake/zm/buildconf/validator.py:286-288 | an empty prefix gives the key itself; otherwise prefix, one dot, key |
| `Validator.HandleBool` | src/zenmake/zm/buildconf/validator.py:108-112 | passes exactly for a bool; otherwise a plain type error |
| `Validator.HandleInt` | src/zenmake/zm/buildconf/validator.py:114-118 | passes exactly for an int or a bool (Python's `bool` is an `int`); otherwise a plain type error |
| `Validator.HandleFunc` | src/zenmake/zm/buildconf/validator.py:171-175 | passes exactly for a callable; otherwise a plain type error |
| `Validator.Admits` | src/zenmake/zm/buildconf/validator.py:132 | with no `allowed` every value is admitted; with a list, exactly its members |
| `Validator.HandleStr` | src/zenmake/zm/buildconf/validator.py:120-135 | a non-string is a plain type error; an empty attribute dict accepts any string; otherwise the string passes exactly when `allowed` admits it, and a refused string is a value error |
| `Validator.CheckStrElems` | src/zenmake/zm/buildconf/validator.py:191-197 | passes exactly when every element is a string admitted by `allowed`; on failure the first faulty element decides between type error and value error |
| `Validator.HandleListOfStrs` | src/zenmake/zm/buildconf/validator.py:177-197 | a value that is not a list or tuple is a plain type error; otherwise the element check decides |
| `Validator.Wildcard` | src/zenmake/zm/buildconf/validator.py:308-314 | no wildcard exactly when every scheme key is a name; otherwise the last `AnyAmountStrsKey` in scheme order |
| `Validator.UsualItems` | src/zenmake/zm/buildconf/validator.py:308-314 | the usual items are exactly the named entries of the scheme |
| `Validator.UsualItemsInOrder` | src/zenmake/zm/buildconf/validator.py:308-314 | the usual items are the named entries in scheme order: each sits at a position of the scheme, the positions strictly increase, and every named entry is at one of them |
| `Validator.SortStrs` | src/zenmake/zm/buildconf/validator.py:337 | `sorted(scheme.keys())` is ordered and a permutation of the names |
| `Validator.UnknownKeys` | src/zenmake/zm/buildconf/validator.py:231 | the unknown keys are exactly the mapping's keys not in `keys-list` |
| `Validator.DisplayNames` | src/zenmake/zm/buildconf/validator.py:94-103 | each union member is shown by its display name, in declaration order |
| `Validator.Dispatch` | src/zenmake/zm/buildconf/validator.py:83-85 | calling a handler gives a well-formed outcome and only evolves the scheme store |
| `Validator.Handle` | src/zenmake/zm/buildconf/validator.py:28-38 | each type name runs its own handler; the outcome is well-formed and the store only evolves |
| `Validator.HandleComplex` | src/zenmake/zm/buildconf/validator.py:64-106 | a union gives a well-formed outcome and only evolves the store |
| `Validator.RunCandidate` | src/zenmake/zm/buildconf/validator.py:77-85 | one union member: a name outside the handler table raises `KeyError`; the outcome is well-formed and the store only evolves |
| `Validator.TryCandidates` | src/zenmake/zm/buildconf/validator.py:77-92 | a candidate loop that raises does so with a well-formed error that is not a plain type error (plain type errors move on to the next candidate) |
| `Validator.HandleList` | src/zenmake/zm/buildconf/validator.py:137-169 | a value that is not a list or tuple is a plain type error; a list never fails with a plain type error, so a union does not swallow an element's error |
| `Validator.ListElems` | src/zenmake/zm/buildconf/validator.py:160-169 | the element loop never raises a plain type error |
| `Validator.HandleDict` | src/zenmake/zm/buildconf/validator.py:199-223 | a non-mapping is a plain type error; a mapping never fails with a plain type error |
| `Validator.DictAllowsUnknown` | src/zenmake/zm/buildconf/validator.py:210-214 | a non-empty `disallowed-keys` turns unknown keys off |
| `Validator.Retyped` | src/zenmake/zm/buildconf/validator.py:263-272 | the rewritten node has `type` equal to its `vars-type`, and nothing else changes beyond what `Evolves` permits |
| `Validator.HandleVarsInDict` | src/zenmake/zm/buildconf/validator.py:257-284 | a non-mapping is a plain type error; a mapping never fails with a plain type error |
| `Validator.VarsByList` | src/zenmake/zm/buildconf/validator.py:225-238 | the `bylist` check gives a well-formed outcome and only evolves the store |
| `Validator.ByListElems` | src/zenmake/zm/buildconf/validator.py:240-245 | the loop over `keys-list` gives a well-formed outcome and only evolves the store |
| `Validator.VarsAnyStr` | src/zenmake/zm/buildconf/validator.py:247-255 | the `anystr` check gives a well-formed outcome and only evolves the store |
| `Validator.AnyStrElems` | src/zenmake/zm/buildconf/validator.py:252-255 | the loop over the mapping's items gives a well-formed outcome and only evolves the store |
| `Validator.ValidateMap` | src/zenmake/zm/buildconf/validator.py:305-338 | `_validate` gives a well-formed outcome and only evolves the store |
| `Validator.ValidateUsual` | src/zenmake/zm/buildconf/validator.py:290-303 | the usual-items loop gives a well-formed outcome and only evolves the store; on a pass, `_handledKeys` is exactly the scheme names present in the configuration with a value other than `None`, in scheme order |
| `Validator.ValidateRest` | src/zenmake/zm/buildconf/validator.py:325-338 | the loop over the remaining keys gives a well-formed outcome and only evolves the store |
| `ConfValidation.PartitionScheme` | src/zenmake/zm/buildconf/validator.py:308-314 | the partition loop yields the wildcard and the usual items |
| `ConfValidation.ValidateUsualItems` | src/zenmake/zm/buildconf/validator.py:290-303 | the loop that collects `_handledKeys` computes exactly the usual-items outcome, handled keys and store |
| `ConfValidation.RestPassMeansKnown` | src/zenmake/zm/buildconf/validator.py:325-338 | on a pass, no key is in a non-empty `disallowed-keys`; with no wildcard and unknown keys refused, every key was handled |
| `ConfValidation.CollectBuildTypes` | src/zenmake/zm/buildconf/validator.py:353-361 | the loop collects the top-level build types and then those of every task |
| `ConfValidation.ExtendWithTasks` | src/zenmake/zm/buildconf/validator.py:356-361 | the loop over tasks appends every mapping task's build types, skips non-mapping tasks, and fails as the source raises |
| `ConfValidation.TasksBuildTypesStep` | src/zenmake/zm/buildconf/validator.py:357-361 | one more task extends the collected build types by that task's own |
| `ConfValidation.NoneStaysNone` | src/zenmake/zm/buildconf/validator.py:357-361 | once a task raises, the whole collection raises |
| `ConfValidation.TasksBuildTypesMembers` | src/zenmake/zm/buildconf/validator.py:356-361 | a build type is collected from tasks exactly when some task declares it |
| `ConfValidation.Dedup` | src/zenmake/zm/buildconf/validator.py:364 | `list(set(...))` keeps exactly the same members, each once |
| `ConfValidation.RemoveFirst` | src/zenmake/zm/buildconf/validator.py:365-366 | removing `default` from a duplicate-free list leaves every other member and nothing else |
| `ConfValidation.AllowedDefaults` | src/zenmake/zm/buildconf/validator.py:363-366 | the allowed list is exactly the declared build types other than `default` |
| `ConfValidation.FindNamed` | src/zenmake/zm/buildconf/validator.py:350 | a scheme lookup by name returns an entry of the scheme |
| `ConfValidation.SchemeCopy.constructor` | src/zenmake/zm/buildconf/validator.py:348 | the copy starts with the scheme's nodes |
| `ConfValidation.SchemeCopy.SetAttr` | src/zenmake/zm/buildconf/validator.py:367 | writing one attribute of one node of the copy changes only that |
| `ConfValidation.LineEnd` | src/zenmake/zm/buildconf/validator.py:374 | a line runs up to the first line break and holds none |
| `ConfValidation.SplitLines` | src/zenmake/zm/buildconf/validator.py:374 | `str.splitlines()` yields lines without line breaks |
| `ConfValidation.Indent` | src/zenmake/zm/buildconf/validator.py:374-375 | every line is indented by two spaces |
| `ConfValidation.SplitIndentedTail` | src/zenmake/zm/buildconf/validator.py:372-375 | the header followed by newline-and-indented lines splits back into the header and the indented lines |
| `ConfValidation.RewrapLines` | src/zenmake/zm/buildconf/validator.py:372-375 | the re-wrapped message is the `Error in the file` header followed by each line of the original message indented by two spaces |
| `ConfValidation.Validate` | src/zenmake/zm/buildconf/validator.py:340-376 | `validate` copies the scheme, installs the allowed build types, validates with unknown keys allowed at the top, and re-wraps configuration errors |
| `ConfValidation.InstalledAllowed` | src/zenmake/zm/buildconf/validator.py:350-367 | the installed `allowed` of `buildtypes.default` holds exactly the build types declared at the top or in a task, minus `default`; with none declared the scheme stays as it was |
| `ConfValidation.ValidateKeepsKind` | src/zenmake/zm/buildconf/validator.py:369-376 | `validate` passes exactly when `_validate` does; it keeps the error's kind; a configuration error's message starts with the file header |
| `ValidatorFacts.FlatUnion` | src/zenmake/zm/buildconf/validator.py:77-92 | the special case of `UnionDecides` for members that are all simple types, stated per candidate without the store: a union tries its types in declaration order; it fails over all of them exactly when each gives a plain type error; otherwise the first other outcome decides, passing or raising that very error; the store is untouched |
| `ValidatorFacts.FlatStep` | src/zenmake/zm/buildconf/validator.py:77-92 | one simple candidate: a pass ends the loop, a plain type error moves on to the next candidate, any other error is raised |
| `ValidatorFacts.ListOfStrsStep` | src/zenmake/zm/buildconf/validator.py:77-92 | a `list-of-strs` candidate is checked against the value, split into words when the special order applies, and decides the union unless it gives a plain type error |
| `ValidatorFacts.UnionDecides` | src/zenmake/zm/buildconf/validator.py:77-92 | the candidate loop of any union, with `dict`, `list` and `vars-in-dict` members that may change the store: it is exhausted exactly when every candidate, run in turn on the store the one before left, gives a plain type error; otherwise the first candidate that does not decides it with its own outcome, a sub-type error included, and its own store |
| `ValidatorFacts.ComplexUnion` | src/zenmake/zm/buildconf/validator.py:64-106 | when every candidate gives a plain type error, the union fails with the type error `Value ... is invalid for the param ... It should be ...` naming all declared types; otherwise its result is exactly that of the first candidate that does not, which is never a plain type error |
| `ValidatorFacts.NestedMemberDecides` | src/zenmake/zm/buildconf/validator.py:83-88 | a `dict` or `vars-in-dict` member decides a union for a mapping and a `list` member for a list or tuple: the union returns their result, errors from inside them included, without trying later members |
| `ValidatorFacts.ByListRefusesUnlisted` | src/zenmake/zm/buildconf/validator.py:225-238 | a key outside `keys-list` is refused with a value error before any value is checked; the store is unchanged |
| `ValidatorFacts.VarsInDictRefusesUnlisted` | src/zenmake/zm/buildconf/validator.py:257-284 | through `_handleVarsInDict` that value error comes out unwrapped, and the only change to the store is the node's own rewrite |
| `ValidatorFacts.ByListReadsOnlyListed` | src/zenmake/zm/buildconf/validator.py:240-245 | the `bylist` loop sees the mapping only through the values of the listed keys, an absent key reading as `None`: mappings that agree there get the same result |
| `ValidatorFacts.ByListSkipsAbsent` | src/zenmake/zm/buildconf/validator.py:240-243 | listed keys that are absent or `None` are skipped: when all are, the loop passes and checks nothing |
| `ValidatorFacts.AnyStrRefusesKey` | src/zenmake/zm/buildconf/validator.py:252-255 | the first non-string key the `anystr` loop reaches fails it with the plain type error of `_checkStrKey`, after the earlier items passed |
| `ValidatorFacts.VarsInDictKeyTypeError` | src/zenmake/zm/buildconf/validator.py:247-284 | `_handleVarsInDict` turns that key type error into a sub-type error with the same message |
| `ValidatorFacts.RestStepWithoutWildcard` | src/zenmake/zm/buildconf/validator.py:325-338 | without a wildcard and with unknown keys refused, a handled key outside `disallowed-keys` moves the key loop on, and any other key ends it with a `ConfError` |
| `ValidatorFacts.RestIsNoWildcard` | src/zenmake/zm/buildconf/validator.py:325-338 | that loop checks no value and keeps the store; its outcome is the first refusal among the keys, if any |
| `ValidatorFacts.RestNoWildcardMeans` | src/zenmake/zm/buildconf/validator.py:325-338 | that outcome is a pass exactly when every key is handled and outside `disallowed-keys`; otherwise the first other key is refused |
| `ValidatorFacts.RestWithoutWildcard` | src/zenmake/zm/buildconf/validator.py:325-338 | the loop over the keys passes exactly when every key is handled and outside `disallowed-keys`; otherwise the first other key fails it with `ConfError`: the disallowed-key message when the key is in `disallowed-keys` (tested first, even for a handled key), the unknown-key message otherwise; the store is kept |
| `ValidatorFacts.MapWithoutWildcard` | src/zenmake/zm/buildconf/validator.py:305-338 | `_validate` with no wildcard and unknown keys refused, once the usual items pass: passes exactly when every key is a scheme name set to something other than `None` and outside `disallowed-keys`; otherwise the first other key fails it with `ConfError` |
| `ValidatorFacts.RestRefusesNonStrKey` | src/zenmake/zm/buildconf/validator.py:330-338 | even with a wildcard, a non-string key outside `disallowed-keys` is unknown and refused with `ConfError` when unknown keys are |
| `ValidatorFacts.RestChecksAgainstWildcard` | src/zenmake/zm/buildconf/validator.py:329-333 | a string key that no usual item handled and `disallowed-keys` does not refuse is checked against the wildcard node with its handler under `prefix.key`, whether unknown keys are allowed or not; an error there ends the loop |
| `ValidatorFacts.StrsOrStrSplitsString` | src/zenmake/zm/buildconf/validator.py:71-82 | with `allowed`, the `str`/`list-of-strs` union checks a string as the list of its words; it passes exactly when every word is admitted |
| `ValidatorFacts.StrsOrStrAcceptsEmpty` | src/zenmake/zm/buildconf/validator.py:71-82 | that union accepts the empty string whatever `allowed` holds |
| `ValidatorFacts.ListPassAdmitsAll` | src/zenmake/zm/buildconf/validator.py:160-164 | a list that passes has every element admitted by `allowed` |
| `ValidatorFacts.AnyStrPassMeansStrKeys` | src/zenmake/zm/buildconf/validator.py:252-253 | an `anystr` mapping that passes has only string keys |
| `ValidatorFacts.ByListPassMeansListed` | src/zenmake/zm/buildconf/validator.py:230-238 | a `bylist` mapping that passes has every key in `keys-list` |
| `ValidatorFacts.VarsInDictPassMeans` | src/zenmake/zm/buildconf/validator.py:257-284 | a `vars-in-dict` value that passes is a mapping whose keys respect its `keys-kind` |
| `ValidatorFacts.PresentNamesAreNamed` | src/zenmake/zm/buildconf/validator.py:292-302 | every handled key is a name of the scheme |
| `ValidatorFacts.MapPassMeans` | src/zenmake/zm/buildconf/validator.py:305-338 | a mapping that passes `_validate` has no disallowed key; with no wildcard and unknown keys refused, every key is a string the scheme names |
| `ValidatorFacts.DictDelegates` | src/zenmake/zm/buildconf/validator.py:216-223 | a mapping's `dict` check is `_validate` on its sub-scheme with the node's key policy, its type errors wrapped as sub-type errors |
| `ValidatorFacts.DictPassMeans` | src/zenmake/zm/buildconf/validator.py:199-223 | a value passing the `dict` check is a mapping with no disallowed key; when its node refuses unknown keys and has no wildcard, every key is named by the sub-scheme |
| `ValidatorFacts.RetypedStaysRetyped` | src/zenmake/zm/buildconf/validator.py:264-266 | once a node's `type` is its `vars-type`, later rewrites keep it so |
| `ValidatorFacts.VarsInDictRetypes` | src/zenmake/zm/buildconf/validator.py:263-272 | after `_handleVarsInDict` ran on a node, that node's `type` is its `vars-type` for the rest of the validation run |
| `ValidatorFacts.UsualIgnoresExtraKeys` | src/zenmake/zm/buildconf/validator.py:291-303 | keys that the scheme does not name do not change the usual-items pass |
| `ValidatorFacts.UnknownKeysIgnored` | src/zenmake/zm/buildconf/validator.py:318-319 | with unknown keys allowed and no wildcard, adding keys the scheme does not name does not change the outcome |
| `WafWrappers.LoadLockfileEnv` | zm/wafwrappers.py:48-54 | `None` exactly when loading the lock file raises `EnvironmentError`; otherwise the loaded environment |
| `WafWrappers.AreFilesChanged` | zm/wafwrappers.py:20-35 | the hash loop answers "changed" exactly in these cases: the common file does not load, a monitored file cannot be read, or the left fold of the hash from 0 differs from `monithash` |
| `WafWrappers.FoldReadsOnlyMonitored` | zm/wafwrappers.py:28-35 | only the monitored files' contents take part in the change detection |
| `WafWrappers.FoldSomeIffReadable` | zm/wafwrappers.py:29-33 | the fold completes exactly when every monitored file can be read |
| `WafWrappers.UnchangedMeansRecordedHash` | zm/wafwrappers.py:20-35 | "unchanged" exactly when the common file loads, every monitored file is readable, and the fold equals the recorded hash |
| `WafWrappers.BuildTypesNotConfigured` | zm/wafwrappers.py:37-46 | true exactly when the cache file of some task's variant for the selected build type does not exist |
| `WafWrappers.NoLockInTopCases` | zm/wafwrappers.py:56-73 | with both directories set it answers False and changes nothing; with no lock environment `build` fails as not configured and any other command answers True without change; otherwise it adopts the lock's three directories, re-runs the command once and answers True |
| `WafWrappers.NoLockAddsAtMostOne` | zm/wafwrappers.py:81-84 | the no-lock path followed by the method issues at most one event and keeps those before it |
| `WafWrappers.RecursionGuard` | zm/wafwrappers.py:99-107 | every call increments the counter; the call that takes it above 10 fails with the infinite-recursion error and issues nothing |
| `WafWrappers.ReconfigureDecision` | zm/wafwrappers.py:95-135 | with autoconfig on, the command runs `config_cmd` (or `configure`) then itself exactly when there is no lock environment, the run directory differs, a monitored file changed, or a task variant is not configured |
| `WafWrappers.MethodRunsIffNotHandled` | zm/wafwrappers.py:114-139 | when no reconfiguration happens, the wrapped method runs exactly when `_handleNoLockInTop` answers False, that is when `top_dir` and `out_dir` are both set |
| `WafWrappers.NoAutoconfigWithoutLock` | zm/wafwrappers.py:114-117 | with autoconfig off, no lock file and no directories set, `build` fails as not configured and any other command is skipped |
| `WafWrappers.WafProcess.constructor` | zm/wafwrappers.py:143 | the process starts with the counter at 0 and no command issued |
| `WafWrappers.WafProcess.HandleNoLockInTop` | zm/wafwrappers.py:56-73 | the in-place version changes the directories and the event log as the specification function says |
| `WafWrappers.WafProcess.NoLockThenRun` | zm/wafwrappers.py:83-84 | runs the method exactly when `_handleNoLockInTop` answers False |
| `WafWrappers.WafProcess.ExecuteNoLockInTop` | zm/wafwrappers.py:75-86 | the `execute` of `wrapBldCtxNoLockInTop` loads the lock environment and follows the no-lock path |
| `WafWrappers.WafProcess.RunConfigThenCommand` | zm/wafwrappers.py:95-97 | issues the configure command and then the original command, in that order |
| `WafWrappers.WafProcess.ExecuteAutoConf` | zm/wafwrappers.py:99-139 | the `execute` of `wrapBldCtxAutoConf`: counter first, then the checks in source order, as the decision function says |
| `WafWrappers.EleventhCallRefused` | zm/wafwrappers.py:101-107 | on a fresh process, none of the first ten results is the infinite-recursion error, and the eleventh call fails with it |
| `WafBuild.Env.Root` | src/zenmake/zm/waf/build.py:53 | a fresh `ConfigSet` holds the given table and has no parent |
| `WafBuild.Env.Derive` | src/zenmake/zm/waf/build.py:53-55 | a task env holds its variant's table and has the root env as its parent |
| `WafBuild.Env.Set` | tests/test_waf_assist.py:101-103 | setting a variable changes the env's own table only |
| `WafBuild.ChildReadsThrough` | tests/test_waf_assist.py:99-108 | a child reads its own variables, and reads through to its parent for the others |
| `WafBuild.UpdateParent` | tests/test_waf_assist.py:109-111 | a later update of the parent is visible through a child that does not set the variable itself |
| `WafBuild.Variants` | src/zenmake/zm/waf/build.py:51-52 | the variants are exactly those of the cached tasks |
| `WafBuild.Capitalize` | src/zenmake/zm/waf/build.py:64 | `str.capitalize` keeps the length, raises the first letter and lowers the rest |
| `WafBuild.BuildStepsOnlyForBuildCommands` | src/zenmake/zm/waf/build.py:60-64 | external dependencies are produced, and a step printed, exactly for `build`, `install`, `uninstall` and `clean` |
| `WafBuild.BuildStepNamesCommand` | src/zenmake/zm/waf/build.py:64 | the printed step is the command with a capital first letter followed by `ing` (`Building`, `Cleaning`) |
| `WafBuild.BuildContext.LoadTasks` | src/zenmake/zm/waf/build.py:26-58 | both task fields start empty; a missing cache is a no-op for `clean` and fatal otherwise, with `all_envs` untouched; a present cache sets `zmtasks` and `zmdepconfs` from the record, and for every variant adds a fresh env with the variant's table under the root env; no other key of `all_envs` changes |
| `WafBuild.DeriveTaskEnvs` | src/zenmake/zm/waf/build.py:50-56 | the loop adds one fresh env per variant with its table and the root env as parent, and writes no other key |
| `WafBuild.BuildContext.LoadEnvs` | src/zenmake/zm/waf/build.py:22-24 | waf's own `load_envs` runs first, then `loadTasks` on the envs it loaded: a missing cache is a no-op for `clean` and fails with the missing-build-type message otherwise; a present cache installs one fresh valid env per variant under the loaded root env; the command and variant are kept |
| `WafBuild.BuildContext.ExecuteBuild` | src/zenmake/zm/waf/build.py:60-64 | the step events of the build commands come before waf's own `execute_build`; the command, variant, envs, tasks and dependency configs are kept |
| `WafBuild.BuildContext.ValidateVariant` | src/zenmake/zm/waf/build.py:66-74 | fatal exactly when `variant` is `None`; otherwise the variant unchanged |

## Left out

- The `ZenMakeConfError` hierarchy (`zm.error`) is not part of this model. `ZenMakeConfTypeError` and `ZenMakeConfValueError` are taken to be subclasses of `ZenMakeConfError`, and `ZenMakeConfSubTypeError` a subclass of `ZenMakeConfTypeError`.
- Error messages:
  - The structure is modelled: the header, the two-space indent, the line split of `str.splitlines`.
  - Python's `%r` rendering and `str(allowed)[1:-1]` are approximated by `PyValues.Show`. They are Python-specific.
- The message listing unknown keys of a `bylist` mapping depends on the iteration order of a Python `set`. The model lists them in configuration order.
- `list(set(allowed))` in `validate` has no defined order. The model keeps the first occurrences; only membership is stated.
- `confscheme` (`zm/buildconf/scheme.py`) and `AnyAmountStrsKey` (`zm/buildconf/schemeutils.py`) are not part of this model. The scheme is a parameter.
- Callables in the scheme (`allowed`, `vars` and whole nodes) are pure functions of `(value, fullkey)`. State that a Python callable might keep between calls is not modelled.
- `Validator.HandleComplex`: a union member that is itself `complex` or a list is treated as an unknown type name (`Uncaught`). In Python it would recurse or raise `KeyError`.
- `Validator.Dispatch`, `Validator.HandleComplex`, `Validator.ValidateMap` and the other recursive handlers state in their own contracts only that the outcome is well-formed and the store only evolves. The lemmas of `ValidatorFacts` state the rest for these cases:
  - unions of any members (`UnionDecides`, `ComplexUnion`, `NestedMemberDecides`);
  - what a pass of a `list`, `dict`, `vars-in-dict` or `_validate` check guarantees;
  - the `bylist` refusal of an unlisted key, and which keys the `bylist` loop reads;
  - the `anystr` key type error and its wrapping as a sub-type error;
  - the whole key loop of `_validate` without a wildcard (`RestWithoutWildcard`, `MapWithoutWildcard`);
  - with a wildcard, one key at a time (`RestChecksAgainstWildcard`, `RestRefusesNonStrKey`).
  - An error raised inside a list element or a usual item is stated only as far as those contracts go (well-formed, and not a plain type error where a container wraps it).
- `Validator.TryCandidates`: its own contract states only the raised case; `ValidatorFacts.UnionDecides` states the whole loop.
- `Validator.VarsByList`: its own contract states well-formedness and store evolution; `ValidatorFacts.ByListRefusesUnlisted` and `ValidatorFacts.ByListPassMeansListed` state the refusal and the pass.
- `Validator.ByListElems`: its own contract states well-formedness and store evolution; `ValidatorFacts.ByListReadsOnlyListed` and `ValidatorFacts.ByListSkipsAbsent` state which keys it validates.
- `Validator.VarsByList`: a `keys-list` that is not a list is treated as raising (`Uncaught`). Python's `set(allowedKeys)` and `for key in allowedKeys` accept any iterable: a string would be taken as its characters, a dict as its keys.
- `Validator.VarsAnyStr`: its own contract states well-formedness and store evolution; `ValidatorFacts.VarsInDictKeyTypeError` and `ValidatorFacts.VarsInDictPassMeans` state the key check and the pass.
- `Validator.AnyStrElems`: its own contract states well-formedness and store evolution; `ValidatorFacts.AnyStrRefusesKey` states the per-key check and its error kind.
- `Validator.ValidateMap`: its own contract states well-formedness and store evolution; `ValidatorFacts.MapWithoutWildcard` and `ValidatorFacts.MapPassMeans` state refusals and passes.
- `Validator.ValidateRest`: its own contract states well-formedness and store evolution; `ValidatorFacts.RestWithoutWildcard`, `ValidatorFacts.RestRefusesNonStrKey` and `ValidatorFacts.RestChecksAgainstWildcard` state its branches.
- Python equality is replaced by structural equality of `PyValues.Value`. In Python `1 == True` and `1 == 1.0`, so `key in keys-list`, `set(...) - set(...)`, `key in disallowedKeys` and dictionary lookups may match values the model keeps apart. Configuration keys are strings in practice.
- A `PyMap` is a sequence of entries and may hold the same key twice; a Python dict cannot. Lookups (`PyValues.FindKey`, `PyValues.Get`) take the first entry with the key, and the key loops visit every entry. For mappings with distinct keys this is Python's behaviour.
- A `disallowed-keys` that is truthy but not a list is an `Uncaught` error (`TypeError`) in `Validator.ValidateRest`. Python evaluates `key in disallowedKeys` for any container: a substring test on a string, a key test on a dict. The model states the list case only; `ValidatorFacts.RestWithoutWildcard` and the other key-loop lemmas require a list.
- The in-place rewrite of a `vars-in-dict` node is modelled by threading the store through every handler, not by aliasing Python dicts. `ConfValidation.SchemeCopy` models the deep copy that `validate` writes into.
- `AutoDict(vars(conf))`: the configuration is the mapping of module variables itself. Attribute-style access is not modelled.
- waf internals are not part of this model: loading a `ConfigSet`, `Scripting.run_command`, `Options.lockfile`, the hash `mkHashOfStrings` (waf's `h_list`), `readFile`, `os.path.exists`.
  - Loads are given as their outcome; the hash, the variant naming and the cache-file naming are function parameters.
  - A command run is an event. Re-entry through `run_command` is not modelled: the counter guard is stated for consecutive calls.
- `WafWrappers.LockEnv`: a lock variable that is unset is the empty string. waf would answer `[]`, which is also unequal to any directory and also falsy.
- `log.warn`, `log.info` and `log.printStep` output is left out. The printed step is kept as an event.
- `WafBuild.BuildContext.LoadTasks` requires the root env `all_envs['']` and, for every task, a `taskenvs` entry for its variant. waf's `load_envs` and configure guarantee both; a `KeyError` otherwise is not modelled.
- `asmethod` (`zm/utils.py`) is not part of this model. A wrapped method runs before or after the original as its `callOrigFirst` flag says.
- `mksymlink`, `platform`, `loadPyModule` and `printSysInfo` of `zm/utils.py` are not modelled: they are OS calls.
- `expandvars`, `expanduser`, `abspath`, `normpath`, `isabs` and `join` are parameters of `Utils.UnfoldPath`: they depend on the environment, the home directory and the process working directory.
- `Env.Get` answers `None` where waf's `ConfigSet` answers `[]` for a variable set nowhere on the chain.
- `Validator.Admits`: an `allowed` attribute that is neither a list nor a callable is treated as raising. Python would apply `in` to it as it is, for example as a substring test on a string. The scheme only ever holds lists or callables there.
