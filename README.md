# casaba installer core, modelled in Dafny

This project models three parts of the casaba OpenStack installer.

- **The manifest aggregator** of `casaba/modules/ospluginutils.py`:
  - the `ManifestFiles` accumulator: an ordered list of `(filename, marker)` entries and a `filename -> body` map, grown by `addFile` and `prependFile` and read by `getFiles`;
  - the `appendManifestFile` helper;
  - the `.pp` suffix rule of `getManifestTemplate`;
  - `gethostlist`, which collects the hosts named by the `*_HOST` and `*_HOSTS` entries of the value store.
- **Two prescript step functions** of `casaba/plugins/prescript_000.py`:
  - `deploy_prep`, which normalises the cluster members, the controller hosts and the load-balancer host;
  - `preinstall_and_discover`, which queues the package, directory and `facter -p` command batches and turns facter's output into the `HOST_DETAILS` table.

  The plugin's sequence registration is modelled too.
- **The API plugin** `casaba/plugins/api_001.py`:
  - `create_hieradata`, which fills the shared insertion-ordered hiera options table `API_GLOBAL_OPTIONS` from the value store and rewrites the memcache server entry;
  - the plugin's parameter group and sequence.

The value store (`controller.CONF`) and the options table are Python insertion-ordered dicts. They are modelled as `ODict`: a key list in insertion order plus a map. A `Store` class wraps an `ODict` and updates it in place.

Each configuration value is a `Value`: a string, bool, int, list of strings, or nested table.

The Python exceptions the step functions let escape are modelled as an `Error` value:
- `KeyError` for a missing entry;
- `AttributeError` for a string method on a non-string;
- `TypeError` for `len` or `+` on the wrong type.

The writes made before a raise are kept, as in Python.

Python's `str.split`, `str.strip`, `str.join`, `str.endswith` and `os.path.join` are written out in `PyStr` and `Prescript.PathJoin`. Split and join are proved inverse to each other, and strip is proved idempotent.

How each part is modelled:

- **ManifestFiles** is a class.
  - Its methods are specified against the pure functions `Added` and `Prepended`.
  - `ApplyFileList` and `ApplyText` relate any run of calls to independent reference definitions: the file list is the first-seen files with their first marker, and each body is the fragments in call order.
- **gethostlist** is a loop method (`GetHostList`) specified by the function `HostList`.
- **deploy_prep** is a method on the value store, specified by the function `Prepared`.
- **preinstall_and_discover** is a method on the value store.
  - It drives a `ScriptRunner` queue and is specified by `Batches` and `Discovered`.
  - Facter parsing is a loop method (`ParseLines`, called by `ParseFacter` on the split output) specified by `FacterDetails`: the entries the lines yield, stored in turn. The facter lemmas are stated over those entries, and `EntriesAt` ties each entry to its line.
- **create_hieradata** is a straight-line method, `CreateHieradata`, that assigns key by key.
  - It is specified by a plan, `ApiPlan`: the list of its writes in source order.
  - `RunPlan` runs the plan, stopping at the first step that raises: a failing read, or the processor raising.
  - General lemmas about plans give the frame, the error condition, the effect of each write, and idempotence.

Calls into code that is not part of this model become parameters:
- the runner's stdout, for `facter -p`;
- the run's `uuid4().hex`;
- `is_all_in_one(config)`;
- the processor `processors.change_str_to_list`, as an arbitrary function from a value to a value or an error.

## Model

| member | source | states |
|---|---|---|
| Manifests.ManifestFiles.constructor | casaba/modules/ospluginutils.py:37-39 | a new aggregator has an empty file list and no bodies, and is well formed |
| Manifests.Added | casaba/modules/ospluginutils.py:43-49 | after `addFile(f, m, b)` the body of `f` is the old body (or empty) + newline + `b`; every other file keeps its body and its presence; well-formedness is kept |
| Manifests.Prepended | casaba/modules/ospluginutils.py:51-57 | after `prependFile(f, m, b)` the body of `f` is `b` + newline + the old body (or empty); every other file is untouched; well-formedness is kept |
| Manifests.ManifestFiles.AddFile | casaba/modules/ospluginutils.py:43-49 | the loop over the file list appends `(f, marker)` only when `f` is not listed yet; the new state is `Added` of the old one, and the invariant (distinct file names, listed files = files with a body) is preserved |
| Manifests.ManifestFiles.PrependFile | casaba/modules/ospluginutils.py:51-57 | the same for `prependFile`: the new state is `Prepended` of the old one, and the invariant is preserved |
| Manifests.ManifestFiles.GetFiles | casaba/modules/ospluginutils.py:59-60 | returns a copy equal to the file list, in first-seen order with distinct names, and changes nothing |
| Manifests.AppendManifestFile | casaba/modules/ospluginutils.py:83-84 | is `addFile` with the body and marker arguments swapped, marker defaulting to empty |
| Manifests.TemplateFile | casaba/modules/ospluginutils.py:77-78 | the result ends with `.pp` and starts with the name; it equals the name exactly when the name already ends with `.pp`, and is otherwise three characters longer, so it is the name followed by `.pp` |
| Manifests.TemplateFileIdempotent | casaba/modules/ospluginutils.py:77-78 | normalising twice gives the same name as normalising once |
| Manifests.FirstAdd | casaba/modules/ospluginutils.py:44 | the first add of `a` to a new file gives body `"\n" + a` and lists the file once |
| Manifests.AddTwice | casaba/modules/ospluginutils.py:43-49 | two adds to one file keep the first listing and marker and join the fragments in call order |
| Manifests.PrependTwice | casaba/modules/ospluginutils.py:51-57 | two prepends put the later fragment first and keep the first listing |
| Manifests.ApplyFileList | casaba/modules/ospluginutils.py:43-57 | from an empty aggregator, any run of add/prepend calls lists each file once, in first-seen order, with the marker of its first call; exactly the named files have a body |
| Manifests.ApplyText | casaba/modules/ospluginutils.py:43-57 | from an empty aggregator, each file's body is its fragments in call order: appended after a newline by add, put before a newline by prepend |
| Manifests.AddAddExample | casaba/modules/ospluginutils.py:44 | two adds of `a` and then `b` to a new file list it once and give the body `"\n" + a + "\n" + b` |
| HostList.SuffixesExclusive | casaba/modules/ospluginutils.py:184-188 | no key ends with both `_HOST` and `_HOSTS`, so each entry takes at most one branch |
| HostList.HostPieces | casaba/modules/ospluginutils.py:189-191 | each comma-separated piece is stripped and then cut at its first `/` |
| HostList.Candidates | casaba/modules/ospluginutils.py:184-193 | a host entry whose value is not a string raises AttributeError; any other key offers nothing; no offered host contains `/` |
| HostList.GetHostList | casaba/modules/ospluginutils.py:181-194 | the loop over the store returns `HostList(conf)`; the list has no duplicates, no empty names and no `/` |
| HostList.AddPieces | casaba/modules/ospluginutils.py:188-193 | the inner loop over the pieces of a `_HOSTS` value leaves the list that offering the hosts seen so far and then each stripped, cut piece gives |
| HostList.CollectMembers | casaba/modules/ospluginutils.py:186-193 | a name ends up in the list iff it was already there or was offered and is non-empty |
| HostList.CollectNoDuplicates | casaba/modules/ospluginutils.py:186-193 | offering names never creates a duplicate or an empty entry |
| HostList.CollectOrder | casaba/modules/ospluginutils.py:182-193 | hosts appear in the order of their first offer |
| HostList.HostListShape | casaba/modules/ospluginutils.py:181-194 | the result has no duplicates, no empty strings and no `/` in any element |
| HostList.HostListContents | casaba/modules/ospluginutils.py:181-194 | the result is exactly the non-empty offered names, in first-occurrence order over the store's iteration order |
| HostList.OtherKeysIgnored | casaba/modules/ospluginutils.py:183-188 | setting a key that ends in neither `_HOST` nor `_HOSTS` does not change the result |
| HostList.HostExample | casaba/modules/ospluginutils.py:184-187 | a `_HOST` value is cut at `/` but not stripped: `" db/24"` gives `" db"` |
| HostList.HostsExample | casaba/modules/ospluginutils.py:188-193 | a `_HOSTS` value `"a/24,b"` gives `["a", "b"]` |
| HostList.PlainPiece | casaba/modules/ospluginutils.py:190-191 | stripping does not change a piece that neither starts nor ends with whitespace |
| PyStr.Strip | casaba/modules/ospluginutils.py:190 | `str.strip()`: the result is the slice of the input between its leading and trailing whitespace, and neither starts nor ends with whitespace |
| PyStr.StripIdempotent | casaba/plugins/prescript_000.py:648 | stripping twice is stripping once |
| PyStr.Split | casaba/modules/ospluginutils.py:189 | `str.split(sep)` gives one piece more than there are separators, and no piece contains the separator |
| PyStr.JoinSplit | casaba/plugins/prescript_000.py:651 | joining the split pieces with the separator gives back the string |
| PyStr.SplitJoin | casaba/plugins/prescript_000.py:603 | splitting a join of separator-free pieces gives back the pieces |
| PyStr.FirstPiece | casaba/modules/ospluginutils.py:185 | `split('/')[0]`: the longest prefix without the separator |
| PyStr.FirstPieceIsHead | casaba/modules/ospluginutils.py:185 | the first element of the split equals that prefix |
| PyStr.SplitOnce | casaba/plugins/prescript_000.py:628 | `split('=>', 1)`: None iff the pattern does not occur; otherwise key + pattern + rest is the line and the key holds no occurrence |
| ODicts.ODict.Put | casaba/installer/basedefs.py:75 | assigning into an insertion-ordered dict sets the key and leaves every other key unchanged; an existing key keeps its place, a new key goes last |
| Values.Len | casaba/plugins/api_001.py:162 | `len(v)` is the string or list length, and a TypeError exactly for a bool or an int |
| Values.Store.Set | casaba/plugins/api_001.py:188 | an in-place assignment into the store is `Put` on its dict |
| Registry.CallOrder | casaba/plugins/prescript_000.py:543-551 | a single step's call order is its functions, and every step function occurs in the order |
| Prescript.ScriptRunner.constructor | casaba/plugins/prescript_000.py:594 | a new runner has an empty queue and has executed nothing |
| Prescript.ScriptRunner.Append | casaba/plugins/prescript_000.py:604 | `append` puts the command at the end of the queue |
| Prescript.ScriptRunner.Clear | casaba/plugins/prescript_000.py:609 | `clear` empties the queue and keeps the log of executed batches |
| Prescript.ScriptRunner.Execute | casaba/plugins/prescript_000.py:608 | `execute` logs the current queue as one batch, leaves the queue as it is, and returns the given stdout |
| Prescript.Members | casaba/plugins/prescript_000.py:648 | the cluster member list has one element more than there are commas, and each element is the stripped piece, with no comma |
| Prescript.HostRule | casaba/plugins/prescript_000.py:650-651 | a string controller host becomes its comma-split list, which joins back to the string; any other value is left as it is |
| Prescript.HostRuleIdempotent | casaba/plugins/prescript_000.py:650-651 | applying the controller-host rule twice is applying it once |
| Prescript.DeployPrep | casaba/plugins/prescript_000.py:638-653 | executes the yum-utils line as one batch, and leaves the store and error `Prepared` gives for the old store |
| Prescript.PreparedErrors | casaba/plugins/prescript_000.py:648-653 | succeeds iff the cluster members are a string, the controller host is present and the domain name is a string; otherwise the first failing read's KeyError, AttributeError or TypeError, with the store unchanged when it is the members |
| Prescript.PreparedFrame | casaba/plugins/prescript_000.py:648-653 | no entry other than the members, controller host and LB host changes; existing keys keep their order |
| Prescript.PreparedWrites | casaba/plugins/prescript_000.py:648-653 | on success the members are the stripped pieces, the controller host follows the string rule, and the LB host is `"lb." + domain` |
| Prescript.PreparedTwice | casaba/plugins/prescript_000.py:648 | running it again on its own output raises AttributeError on the members, now a list, and changes nothing |
| Prescript.ControllerCount | casaba/plugins/prescript_000.py:650-651 | after it, a string controller host has length commas + 1, so it counts as three controllers iff it had exactly two commas |
| Prescript.PathJoin | casaba/plugins/prescript_000.py:614 | `os.path.join(a, b)` ends with `b`; it starts with `a` unless `b` is absolute, in which case it is `b` |
| Prescript.HostDirLayout | casaba/plugins/prescript_000.py:614-617 | for a plain run id, the host directory and its subdirectories are `/var/tmp/casaba/<id>`, `…/modules` and `…/resources` |
| Prescript.Deps | casaba/plugins/prescript_000.py:598-601 | the packages start with the Puppet dependencies, and there are more of them exactly on an all-in-one install |
| Prescript.RepoBatch | casaba/plugins/prescript_000.py:603-607 | one `timeout 60 yum install -y` line naming all packages, then one `rpm -q --whatprovides` line per package in order |
| Prescript.YumLineNamesDeps | casaba/plugins/prescript_000.py:603-604 | splitting the yum line after its prefix gives back the package list |
| Prescript.RunRepoBatch | casaba/plugins/prescript_000.py:603-609 | queues the package batch, executes it as one batch and clears the queue |
| Prescript.RunDirBatch | casaba/plugins/prescript_000.py:611-618 | queues the four mkdir lines in order and executes them as one batch |
| Prescript.FacterEntry | casaba/plugins/prescript_000.py:627-633 | a line yields no entry exactly when it has no `=>` |
| Prescript.FacterEntryAt | casaba/plugins/prescript_000.py:628-633 | a line is split at its first `=>` into the stripped key and the stripped value |
| Prescript.ParseFacter | casaba/plugins/prescript_000.py:626 | the output is split at newlines and parsed line by line into the details `FacterDetails` gives |
| Prescript.ParseLines | casaba/plugins/prescript_000.py:626-633 | the loop over the lines leaves the details `FacterDetails` gives: each entry stored in turn, lines without `=>` skipped |
| Prescript.EntriesAt | casaba/plugins/prescript_000.py:626-628 | the entry at position `i` is the one line `i` yields |
| Prescript.EntriesAppend | casaba/plugins/prescript_000.py:626-628 | the entries of two runs of lines are the entries of the first followed by those of the second |
| Prescript.StoreAppend | casaba/plugins/prescript_000.py:633 | storing two runs of entries is storing the first and then the second |
| Prescript.FacterAppend | casaba/plugins/prescript_000.py:626-633 | parsing two runs of lines is parsing the first and then the second |
| Prescript.FacterSkip | casaba/plugins/prescript_000.py:629-631 | a line without `=>` has no effect |
| Prescript.FacterLastWins | casaba/plugins/prescript_000.py:633 | a key takes the value of the last entry that names it |
| Prescript.FacterUntouched | casaba/plugins/prescript_000.py:626-633 | a key no entry names keeps its earlier value |
| Prescript.FacterKeepsOrder | casaba/plugins/prescript_000.py:633 | keys already present keep their positions as the entries are stored |
| Prescript.FirstKeyStays | casaba/plugins/prescript_000.py:619-633 | a key stored before the facter entries stays first, and keeps its value unless an entry names it |
| Prescript.TmpdirFirst | casaba/plugins/prescript_000.py:619 | `tmpdir` is the first key of the details and holds the host directory unless a facter entry names it |
| Prescript.PreinstallAndDiscover | casaba/plugins/prescript_000.py:585-635 | with CONFIG_REPO missing it raises KeyError and executes nothing; otherwise it executes `Batches` (package batch only for a truthy repo, then directories, then facter) and stores `Discovered` at `HOST_DETAILS`, nothing else |
| Prescript.FlattenBatches | casaba/plugins/prescript_000.py:596-625 | the commands executed, in order: the package lines for a truthy repo, the four mkdir lines, `facter -p` |
| Prescript.DepsDistinct | casaba/plugins/prescript_000.py:598-601 | neither package list names a package twice |
| Prescript.RepoLinesDistinct | casaba/plugins/prescript_000.py:603-607 | distinct packages give distinct lines: the yum line differs from every `rpm -q` line, and those differ in their package |
| Prescript.DirLinesDistinct | casaba/plugins/prescript_000.py:611-624 | the directory lines and the facter line are all distinct |
| Prescript.HeadsApart | casaba/plugins/prescript_000.py:603-627 | package lines (starting `t` or `r`) and directory or facter lines (starting `m` or `f`) never coincide, so two distinct batches of each kind concatenate without a repeat |
| Prescript.NoCommandTwice | casaba/plugins/prescript_000.py:596-634 | since the queue is cleared after each executed batch, no command is executed twice |
| Prescript.PrescriptSequenceOrder | casaba/plugins/prescript_000.py:542-551 | the sequence has no conditions and runs `deploy_prep` and then `preinstall_and_discover` |
| Api.CreateHieradata | casaba/plugins/api_001.py:160-191 | the key-by-key assignments leave the store, the options table and the error that `Hieradata` gives for the old state |
| Api.RunCons | casaba/plugins/api_001.py:162-191 | running a plan runs its first write, then the rest unless that write raised |
| Api.CopyOption | casaba/plugins/api_001.py:163 | `options[o] = config[k]`: raises KeyError(k) exactly when `k` is missing, and then the whole plan ends there; otherwise the plan's outcome is that of the remaining writes from the new state; the store is not touched |
| Api.SetOption | casaba/plugins/api_001.py:165 | `options[o] = constant`: the option holds the constant and the plan's outcome is that of the remaining writes |
| Api.RelistEntry | casaba/plugins/api_001.py:188 | `config[k] = change_str_to_list(config[k])`: raises iff `k` is missing (KeyError(k)) or the processor raises on its value (the processor's error), with the store unchanged; otherwise `k` holds the processed value, no other entry changes, the options are not touched, and the plan continues from the new state |
| Api.WriteHaOptions | casaba/plugins/api_001.py:162-169 | the install and members writes in the namespace the controller count selects, and the HA flag; stops at the first missing entry as the plan does |
| Api.WriteAgentOptions | casaba/plugins/api_001.py:171-174 | the ceph monitor hosts and the VPN, FWaaS and LBaaS agent switches, as the plan has them |
| Api.WriteTelemetryOptions | casaba/plugins/api_001.py:175-180 | the horizon, heat, gnocchi and aodh switches and both ceilometer switches, as the plan has them |
| Api.WriteCoreOptions | casaba/plugins/api_001.py:181-184 | the swift, trove, nova and glance switches, as the plan has them |
| Api.WriteStorageOptions | casaba/plugins/api_001.py:185-187 | both cinder switches and the neutron switch, as the plan has them |
| Api.WriteMemcacheAndSystemd | casaba/plugins/api_001.py:188-191 | the memcache rewrite, then the systemd HA switch only when the controller host still has length 3, ending where the plan's last writes end |
| Api.PlanAppend | casaba/plugins/api_001.py:162-191 | running two runs of writes back to back is running the second from where the first stopped, unless the first raised |
| Api.PlanOptionsFrame | casaba/plugins/api_001.py:163-191 | options the plan does not write keep their values; existing keys keep their positions; no key is added when all written options were present |
| Api.PlanConfFrame | casaba/plugins/api_001.py:188 | store entries the plan does not rewrite keep their values, and the store's keys keep their order |
| Api.PlanSucceeds | casaba/plugins/api_001.py:162-191 | with no entry rewritten twice, a plan raises iff an entry it reads is missing or the processor raises on an entry it rewrites; the error is the KeyError of such a missing entry or the processor's error on such an entry |
| Api.PlanWrites | casaba/plugins/api_001.py:163-188 | when options are written once and rewritten entries are not copied, each copied option holds the entry's original value, each fixed option its constant, and each rewritten entry the processed value |
| Api.AppliedEarlier | casaba/plugins/api_001.py:163-188 | a later write's effect, judged after an earlier write, is its effect judged before it unless the earlier write rewrote the entry it reads |
| Api.PlanRerun | casaba/plugins/api_001.py:163-191 | rerunning writes whose values are already in place leaves the options table equal to itself, whether or not the processor raises on the way |
| Api.WrittenPlan | casaba/plugins/api_001.py:162-191 | the options written, in source order, block by block |
| Api.WrittenKeys | casaba/plugins/api_001.py:162-191 | no option is written twice; all are API options; the controller keys and systemd HA are written iff there are three controllers, and the `api::` install and members keys iff not |
| Api.HaOptionsDistinct | casaba/plugins/api_001.py:163-191 | the options of an HA install are all distinct |
| Api.SingleOptionsDistinct | casaba/plugins/api_001.py:166-187 | the options of a single-controller install are all distinct |
| Api.HaOptionsMembers | casaba/plugins/api_001.py:163-191 | the options of an HA install are API options and do not include the `api::` install and members options |
| Api.SingleOptionsMembers | casaba/plugins/api_001.py:166-187 | the options of a single-controller install are API options and include neither the controller options nor systemd HA |
| Api.ReadPlan | casaba/plugins/api_001.py:163-188 | the entries read, in source order |
| Api.RelistedPlan | casaba/plugins/api_001.py:188 | only the memcache servers are rewritten, and they are never copied into an option |
| Api.HaInstall | casaba/plugins/api_001.py:162 | the controller count is known iff the controller host is present and has a length, and the HA branch is taken iff that length (characters, list items or table entries) is three |
| Api.HieradataErrors | casaba/plugins/api_001.py:160-191 | raises iff the controller host is missing or has no length, a read entry is missing, or the processor raises on the memcache servers; the error is KeyError of the missing entry, TypeError of the controller host or the processor's error, with nothing written when the host check fails |
| Api.HieradataFrame | casaba/plugins/api_001.py:162-191 | options outside the API set and every store entry but the memcache servers are untouched; existing option keys keep their positions; the keys of the other install kind, and systemd HA when there are not three controllers, keep their old values |
| Api.HieradataApplied | casaba/plugins/api_001.py:163-191 | on success every write of the plan has taken effect, judged against the store on entry |
| Api.HieradataWrites | casaba/plugins/api_001.py:162-191 | on success the HA flag is the three-controller test; install and members go to the namespace it selects; systemd HA is true with three controllers; both ceilometer switches hold the one setting and both cinder switches the other; the processor returned a value for the memcache servers and the entry holds it |
| Api.HieradataRerun | casaba/plugins/api_001.py:160-191 | running it again on what the first run left leaves the options table exactly as it was and changes no entry but the memcache servers; it raises iff the processor raises on the value the first run stored there, with that error |
| Api.ApiParams | casaba/plugins/api_001.py:36-146 | the group declares PRE_CONDITION False with match True and POST_CONDITION False with match True; its eight parameters name distinct keys; the first six are read by `create_hieradata` and the debug and syslog switches are not |
| Api.ApiSequenceOrder | casaba/plugins/api_001.py:149-155 | the sequence has no conditions and runs `create_hieradata` alone |

## Left out

- `ManifestFiles.writeManifests`, `generateHieraDataDir`, `generateHieraDataFile`, `generate_ssl_cert` and `deliver_ssl_file` in `casaba/modules/ospluginutils.py` are left out. They are filesystem, YAML, OpenSSL and remote-shell I/O.
- The template file read and `%` formatting in `getManifestTemplate` are left out; only the `.pp` suffix rule is modelled.
- `manage_rdo_repo` is left out. It is shell calls and a regular expression, and it uses `re` without importing it.
- Prescript.PreinstallAndDiscover treats the call to `manage_polex_repo` (prescript_000.py:592) as having no effect. The function is not defined in the file, so as written a truthy CONFIG_REPO raises NameError there.
- Prescript.ScriptRunner.Execute does not model a failing command, return codes or the exceptions the runner raises. The runner's source is not part of this model.
- The command runner's stdout for `facter -p`, the run's `uuid4().hex` and `is_all_in_one(config)` are parameters.
- The processor `change_str_to_list` is an arbitrary function from a value to a value or an error, since its source is not part of this model. So nothing is proved about the value it stores, and whether a second `create_hieradata` raises depends only on whether the processor raises on the value the first run stored.
- The controller's `addGroup`/`addSequence`, validators and other processors are left out, because their source is not part of this model. The registration tables are kept as data: the API parameters are kept only by command-line option and key, without prompts, defaults, validators or processors.
- `update_params_usage` documentation generation and the `basedefs.casaba_DOC` reference it receives are left out.
- The import-time side effects of `casaba/installer/basedefs.py` are left out. Its constants (dependency lists, `CASABA_VAR_DIR`) are used as values.
- The prescript `initConfig` parameter table is not part of this model.
- `casaba/installer/exceptions.py`, `casaba/plugins/__example_002.py` and the facter fact `userkeys.rb` are not part of this model.
