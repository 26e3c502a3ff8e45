# bootc-image-builder action — a verified Dafny model

This project models the core of the GitHub action that drives
bootc-image-builder to turn a bootable container image into disk images.
It covers three parts:

- **Command builder** (`command_builder.dfy`). This part turns a build request (`BuildOptions`) into the argv of `podman run`. It grows two argument lists, the podman runtime list and the image builder's list. The fixed entries (`run`, `--rm`, `--privileged`, the security option, the three volumes, `build`, `--output /output` and both images) are pushed unconditionally; some pushes are gated on a condition: TLS, chown, rootfs, extra arguments, repeated `--type`, and the AWS flags. The two lists are then concatenated, empty strings are dropped, and the result is joined and split on spaces. This part also builds the argv of `podman pull`.
- **Output reconciler** (`output_reconciler.dfy`). This part reads the listing of the output directory. The first regular `.json` file is taken as the manifest. Every other regular file is classified by the name of its directory, and `bootiso`, `vpc` and `image` are renamed to `anaconda-iso`, `vhd` and `raw`. The artifacts are kept in a map keyed by type, and the first artifact of each type wins.
- **Build** (`bib_build.dfy`). This is the pipeline: the storage workaround (delete the container storage, create `/etc/containers`, write `storage.conf` through a temporary file), two pulls, the creation of `./output`, the run, the listing and the reconciliation. Any failure of the run or after it yields the empty result `("", "", {})`. A failed helper command or pull is reported but does not stop the build.
- **Partition tables** (`partition_tables.dfy`). These are the base partition tables of the image builder: a constant map from layout name (`default`, `rpi`) and architecture to a partition table.

Supporting modules:

- `js_strings.dfy` gives the JavaScript string and array operations the action relies on, with their exact semantics. These are `split` with a one-character separator, `join`, `split(...).pop()`, `endsWith`, `trim` over the ECMAScript white-space set, and `filter`.
- `bib_types.dfy` holds the records of `src/types.ts`.
- `wrappers.dfy` holds `Option` and `Result`.

Modelling choices:

- Optional strings (`chown`, `rootfs`, `additionalArgs`, the AWS region) are strings in which `""` means "not given". The action only ever tests them for truthiness, which treats a missing value and `''` alike.
- An absent `types` list is the empty list.
- An absent `awsOptions` is `None`. If `aws` is requested without AWS options, the bucket and AMI flags carry the text `undefined`, as the template literals at src/bib.ts:73-74 produce.
- The documented behaviour says the manifest path is empty when no manifest exists. The code at src/bib.ts:110 interpolates `undefined` and reports `./output/undefined`. The model follows the code.
- The build passes the TLS flag as `--tls-verify false`, which becomes two tokens after the join and split. The pull passes the single token `--tls-verify=false`. Both are kept as written.
- `path.resolve` and the SHA-256 digest are function-valued parameters.
- The directory listing is an input sequence, in listing order, or `None` when reading the directory fails.
- Whether each started process succeeds is a parameter, `succeeds: Command -> bool`.
- The per-file classification is modelled sequentially, in listing order. `Promise.all` keeps that order for its results.

## Model

Each row names a member whose contract states a property of the action. Functions that only compute (`PullArgs`, src/bib.ts:126-133; `RuntimeArgs` and `ToolArgs`, src/bib.ts:43-84; `Tokenize` and `Argv`, src/bib.ts:87-93; `ManifestPath`, src/bib.ts:102-110; `ArtifactTypes`, src/bib.ts:140-203; `BuildResult` and `Commands`, src/bib.ts:18-121) have no row of their own; the lemmas about them do.

| member | source | states |
|---|---|---|
| JsStrings.Split | src/bib.ts:92 | `split(sep)` yields at least one part, and no part contains the separator |
| JsStrings.SplitNoSeparator | src/bib.ts:92 | a text without the separator splits into itself alone |
| JsStrings.SplitAppend | src/bib.ts:92 | splitting `a + sep + b` is splitting `a`, then splitting `b` |
| JsStrings.SplitTwo | src/bib.ts:92 | two separator-free words joined by the separator split back into exactly those two words |
| JsStrings.SplitJoin | src/bib.ts:89-92 | splitting a join of a non-empty list splits each element in turn, in order |
| JsStrings.SplitEachIdentity | src/bib.ts:89-92 | when no element contains the separator, join-then-split returns the list unchanged |
| JsStrings.SplitEachAppend | src/bib.ts:89-92 | splitting every element distributes over concatenation, keeping the order |
| JsStrings.JoinSplit | src/bib.ts:91-92 | join is the inverse of split: `join(split(s)) == s` |
| JsStrings.SplitBreaks | src/bib.ts:92 | a text holding the separator splits into at least two parts |
| JsStrings.LastSegmentSuffix | src/bib.ts:52 | `split(sep).pop()` is a separator-free suffix, preceded by the separator whenever it is not the whole text |
| JsStrings.LastSegmentEmpty | src/bib.ts:151-165 | the last segment is empty exactly when the text is empty or ends with the separator |
| JsStrings.LastSegmentNoSeparator | src/bib.ts:52 | without a separator the last segment is the whole text |
| JsStrings.TrimStart | src/bib.ts:65 | the result is a suffix of the input that does not start with white space, and everything cut off is white space |
| JsStrings.TrimEnd | src/bib.ts:65 | the result is a prefix of the input that does not end with white space, and everything cut off is white space |
| JsStrings.TrimStartEmpty | src/bib.ts:65 | trimming the front leaves nothing exactly when the text is all white space |
| JsStrings.TrimEndKeepsFirst | src/bib.ts:65 | trimming the end of a text that starts with a non-space keeps a non-empty text |
| JsStrings.TrimEmptyIffBlank | src/bib.ts:65 | `t.trim() === ''` exactly when every character of `t` is white space |
| JsStrings.Filter | src/bib.ts:90 | `filter` never lengthens its input |
| JsStrings.SplitEachLength | src/bib.ts:89-92 | splitting every element never yields fewer parts than elements |
| JsStrings.SplitEachGrows | src/bib.ts:89-92 | when any element holds the separator, splitting every element yields more parts than elements |
| JsStrings.FilterAppend | src/bib.ts:90 | filtering distributes over concatenation, so relative order is kept |
| JsStrings.FilterAccepted | src/bib.ts:90 | every kept element satisfies the predicate |
| JsStrings.FilterCount | src/bib.ts:148 | an accepted value is kept as often as it occurs, and a rejected one never |
| JsStrings.FilterKeepsAll | src/bib.ts:90 | when every element is accepted, filtering is the identity |
| JsStrings.FilterDropsAll | src/bib.ts:90 | when every element is rejected, filtering yields the empty list |
| CommandBuilder.AssembleCommand | src/bib.ts:39-84 | the two lists grown push by push equal the runtime and builder argument lists |
| CommandBuilder.PushTypeFlags | src/bib.ts:62-68 | pushing the type flags appends one `--type` per non-blank type to the list |
| CommandBuilder.PushAwsFlags | src/bib.ts:73-79 | pushing the AWS flags appends bucket, AMI name and region slots |
| CommandBuilder.RuntimeArgsShape | src/bib.ts:43-83 | the runtime list is the fixed prefix plus the config mount, has 8 or 9 entries, carries `--env AWS_*` exactly when `aws` is requested, and ends with the builder image |
| CommandBuilder.ConfigVolumeExtension | src/bib.ts:51-53 | the config is mounted as `/config.<ext>`, where `<ext>` is the dot-free text after the last dot, or the whole path when it has no dot |
| CommandBuilder.ToolArgsShape | src/bib.ts:55-84 | the builder list is the six slots in source order, then the type flags, then the AWS flags only when requested, then the image last |
| CommandBuilder.TypeFlagEachAppend | src/bib.ts:66 | mapping types to flags keeps the order |
| CommandBuilder.TypeFlagsAppend | src/bib.ts:62-68 | type flags of a concatenation are the concatenated type flags, in request order |
| CommandBuilder.TypeFlagsSingle | src/bib.ts:62-68 | a single type yields one `--type` flag unless it is blank |
| CommandBuilder.TypeFlagsCount | src/bib.ts:62-68 | for a non-blank type, the number of `--type t` flags equals the number of times `t` is requested |
| CommandBuilder.TypeFlagsSkipBlank | src/bib.ts:65 | a blank or white-space-only entry adds no flag |
| CommandBuilder.BlanksAroundType | src/bib.ts:62-68 | blank entries before a real type are dropped and the type keeps its flag |
| CommandBuilder.BlankTypesDropped | src/bib.ts:62-68 | `["", "  ", "qcow2"]` yields only `--type qcow2` |
| CommandBuilder.AwsFlags | src/bib.ts:70-80 | with `aws` requested, the three slots before the image hold bucket and AMI (`undefined` when options are missing), and the region slot is `--aws-region <region>` when a region is given and empty otherwise |
| CommandBuilder.TokenizeOrder | src/bib.ts:89-92 | every runtime token precedes every builder token |
| CommandBuilder.TokenizeSpaceFree | src/bib.ts:89-92 | when no surviving argument holds a space, the argv is exactly the surviving arguments and contains no empty string |
| CommandBuilder.TokenizeBreaksSpaces | src/bib.ts:89-92 | when any surviving argument holds a space, the process receives more tokens than there are surviving arguments |
| CommandBuilder.ArgvLayout | src/bib.ts:87-93 | the build argv is the split runtime arguments followed by the split builder arguments |
| CommandBuilder.ArgvEndsWithImages | src/bib.ts:82-93 | a space-free builder image ends the runtime tokens, and a space-free image ends the argv |
| CommandBuilder.ArgvTlsTokens | src/bib.ts:55-57 | with TLS verification off, the argv's builder part starts `build --output /output --tls-verify false` as five tokens |
| CommandBuilder.PullArgsShape | src/bib.ts:126-133 | the pull argv is `pull`, then the single token `--tls-verify=false` when TLS verification is off, then the image unless it is empty |
| CommandBuilder.PlainBuild | src/bib.ts:55-90 | with TLS on, no optional flags and one non-AWS type, exactly four builder arguments survive the filter |
| CommandBuilder.Qcow2Scenario | src/bib.ts:55-90 | a qcow2 build of `quay.io/x/base` keeps `build`, `--output /output`, `--type qcow2` and the image |
| CommandBuilder.TomlConfigScenario | src/bib.ts:51-53 | `/tmp/c.toml` gets the extension `toml` |
| OutputReconciler.FirstManifest | src/bib.ts:102-104 | `find` returns the first regular `.json` file, and nothing exactly when there is none |
| OutputReconciler.ManifestPathFirst | src/bib.ts:102-110 | the manifest path is `dir/` plus the first manifest's name, or `dir/undefined` when there is none |
| OutputReconciler.ManifestPathIgnoresLater | src/bib.ts:102-104 | entries listed after a manifest do not change the manifest path |
| OutputReconciler.Renamed | src/bib.ts:167-180 | `bootiso` becomes `anaconda-iso`, `vpc` becomes `vhd` and `image` becomes `raw`; the result is never one of those three; other names are unchanged, and non-empty names stay non-empty |
| OutputReconciler.RenamedIdempotent | src/bib.ts:167-180 | renaming twice is renaming once |
| OutputReconciler.Classify | src/bib.ts:148-187 | classification fails exactly when the file name or the directory has an empty last segment; on success the type is a non-empty public name and the checksum is the digest of the path |
| OutputReconciler.ClassifyByDirectory | src/bib.ts:160-187 | a file in `dir/kind/` whose name has a non-empty last segment (a name such as `sub/disk.raw` included) gets the type `kind` after renaming, and the resolved path of `dir/kind/name` |
| OutputReconciler.ClassifyErrorMessage | src/bib.ts:151-165 | a bad file name is reported before a bad directory, each with its message |
| OutputReconciler.ClassifyFile | src/bib.ts:149-188 | the per-file step with early failures and the reassigning `switch` computes the classification |
| OutputReconciler.ClassifyAll | src/bib.ts:147-191 | on success every candidate is classified, position for position; a failure means some candidate failed |
| OutputReconciler.ClassifyAllFirstError | src/bib.ts:147-191 | the reported error is that of the first failing candidate in listing order |
| OutputReconciler.ClassifyCandidates | src/bib.ts:147-191 | classifying the candidates one at a time and stopping at the first failure computes the whole classification |
| OutputReconciler.FirstWins | src/bib.ts:193-200 | the map's keys are exactly the types that occur, each entry's key equals its artifact's type, and each value is one of the artifacts |
| OutputReconciler.FirstWinsFirst | src/bib.ts:193-200 | the artifact stored for a type is the first artifact of that type |
| OutputReconciler.FirstWinsIgnoresDuplicate | src/bib.ts:195-196 | a later artifact of a type already present leaves the map unchanged |
| OutputReconciler.CollectFirst | src/bib.ts:193-202 | the `has`/`set` loop computes the first-wins map |
| OutputReconciler.ClassifiedKeys | src/bib.ts:193-200 | the keys of the first-wins map of classified files are exactly the types of those files |
| OutputReconciler.ArtifactTypesKeys | src/bib.ts:140-203 | without errors, every candidate's type is a key and every key is some candidate's type |
| OutputReconciler.ArtifactTypesError | src/bib.ts:154-165 | a regular non-manifest file with an empty name or directory segment makes the extraction fail |
| OutputReconciler.ExtractArtifactTypes | src/bib.ts:140-203 | the extraction yields the first classification error, or the first-wins map of the classified candidates |
| BibBuild.BuildResultEmpty | src/bib.ts:109-121 | the result is empty exactly when the run, the listing or a classification failed; otherwise it reports `./output` |
| BibBuild.BuildResultArtifacts | src/bib.ts:107-113 | every reported artifact is keyed by its own type, uses a public type name and carries a checksum |
| BibBuild.BuildResultManifest | src/bib.ts:102-110 | a successful build reports `./output/` plus the name of the first manifest of the listing |
| BibBuild.CommandsOrder | src/bib.ts:18-93 | a build first deletes the container storage and creates `/etc/containers`, writes the storage configuration with a shell command followed by a move exactly when that command succeeds (seven commands and no move when it fails, eight otherwise), and ends with the two pulls, `mkdir -p ./output` and the run |
| BibBuild.GithubActionsWorkaroundFixes | src/bib.ts:206-216 | the workaround starts its helper commands in order and reports a failure exactly when one of them failed |
| BibBuild.RunBuilder | src/bib.ts:85-121 | the run is the tokenised argv; the result is empty exactly when the run, the listing or a classification failed, and then the build is marked failed |
| BibBuild.Build | src/bib.ts:18-123 | a build starts every command of `Commands` in order; it reports the specified result; and it is marked failed exactly when one of its commands failed or the result is empty |
| PartitionTables.Lookup | bib/cmd/bootc-image-builder/partition_tables.go:84-177 | a table is found exactly for `default` on x86_64, aarch64, s390x and ppc64le and for `rpi` on aarch64; every table found ends with the `/boot` payload and then the root payload, and its mountpoints are distinct |
| PartitionTables.SizeUnits | bib/cmd/bootc-image-builder/partition_tables.go:10-11 | a mebibyte is 1048576 bytes and a gibibyte is 1024 mebibytes |
| PartitionTables.StandardPartitions | bib/cmd/bootc-image-builder/partition_tables.go:32-82 | the ESP is 501 MiB vfat at `/boot/efi`; `/boot` is 1 GiB ext4 and `/` is 2 GiB ext4, both mounted `ro`; root has pass number 1 |
| PartitionTables.Coverage | bib/cmd/bootc-image-builder/partition_tables.go:84-177 | `default` covers x86_64, aarch64, s390x and ppc64le; `rpi` covers only aarch64 |
| PartitionTables.DefaultTablesGpt | bib/cmd/bootc-image-builder/partition_tables.go:84-131 | every default table is GPT with the fixed disk UUID and no start offset |
| PartitionTables.DefaultFirstPartitions | bib/cmd/bootc-image-builder/partition_tables.go:86-130 | x86_64 starts with a bootable 1 MiB BIOS boot partition, aarch64 with the ESP, ppc64le with a bootable 4 MiB PReP partition, and s390x has only `/boot` and `/` |
| PartitionTables.RpiReusesPayloads | bib/cmd/bootc-image-builder/partition_tables.go:152-176 | the rpi table is DOS at an 8 MiB offset and reuses the ESP, boot and root sizes and payloads in order; only its first partition is bootable |

## Left out

- Process execution (`execAsRoot`, src/utils.ts:9-27): the model returns the commands the build starts, and their success is a parameter. Prefixing `sudo` when not running as root is not modelled.
- The helpers of src/utils.ts (`createDirectory`, `deleteDirectory`, `writeToFile`) are modelled by the commands they start and by their failure being reported; the text of their failure messages is not.
- The recursive `fs.readdir` walk (src/bib.ts:96-99): its result is an input sequence, and the traversal order is whatever that sequence says.
- `path.resolve` and `generateChecksum`: these are function parameters. The body of `generateChecksum` is not in src/utils.ts, and the model takes the digest as a total function, so a checksum failure is not modelled.
- Concurrency of `Promise.all`: classification is sequential. The two classification failures are thrown before the first `await` of each callback, so those promises are already rejected when `Promise.all` subscribes, and it rejects with the first failing candidate in listing order, as the model does. The two could only differ for a checksum rejection, which the model leaves out.
- Logging, groups and `setFailed` of `@actions/core`: the failure report is the `failed` flag of `Build`, without its message text.
- src/main.ts (reading inputs, splitting `types`, writing outputs): this is the action's entry point, not part of this model.
- JsStrings.Filter: its contract only bounds the length. Membership, order and multiplicity are separate lemmas (FilterAccepted, FilterAppend, FilterCount).
- Partition type GUIDs and library UUIDs are opaque named constants. The semantics of the disk library are not modelled.
- Scenario lemmas about concrete option records state the filtered builder list, not the full concrete argv text.
