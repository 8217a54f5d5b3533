# lope invocation assembler, modelled in Dafny

`lope` runs a command inside a Docker container built from a source image. It
mounts selected parts of the user's home directory and forwards environment
variables, optionally the SSH agent, the docker socket and a command proxy.
The heart of the program is the *assembler* in `lope.go`. `main` derives a
configuration from the command line. `lope.run` then passes a working state
(configuration, Dockerfile text, environment snapshot, argument vector)
through nine stages in a fixed order:

- `sshForward`, `createDockerfile`, `defaultParams`;
- `commandProxy`, `addVolumes`, `cleanEnvVars`;
- `addEnvVars`, `addUserAndGroup`, `runParams`.

Finally `main` builds the target image when it decides one is needed, and
runs the vector.

The model is a set of pure functions over immutable values:

- `Config.Lope` is the working state.
- Each stage is one function from state to state.
- `Pipeline.Run` is the fold of the stages in `Pipeline.RunOrder`.
- `Launch` turns the final state into the `Invocation` `main` would perform: an optional image build, then the `docker run` vector.

Host lookups are inputs collected in `Config.Host`:

- which absolute paths exist (`os.Stat`);
- the current user (`user.Current`);
- the `docker` group's gid (`user.LookupGroup`);
- the outbound IP address (`getIPAddress`).

Go's `strings.Split` and `strings.Join` are modelled exactly in `Strings`.
`Seqs` gives the reference shapes the loops are proved against:
order-preserving `Filter`, `Map`, and the flag/value `Pairs` of repeated
options such as `-e A -e B`.

Modules: `Wrappers` (Option/Result), `Strings`, `Seqs`, `Config`
(configuration, state, host facts, derivation from flags), `Dockerfile`,
`Env`, `Params`, `Pipeline`, `Launch`, and `Scenarios` (the cases the unit
tests in `lope_test.go` exercise).

Where the code and its tests or documentation disagree, the model follows
the code:

- `addEnvVars` emits each passed entry whole (`-e KEY=value`). The unit tests at lope_test.go:192-230 expect `-e KEY`. The model emits the whole entry.
- The key filter of `cleanEnvVars` is the regular expression `^[a-zA-Z_]+[a-zA-Z0-9_]$`, read literally (`Env.ValidKey`). It accepts keys of two or more characters in which a digit can only be the last character, so `A`, `AB12` and `A1B` are dropped. The documentation calls it a POSIX-identifier check, which would keep all three.
- `sshForward` always backgrounds the agent forward and always adds the SSH volume and socket variable. It does not skip them when the agent is unavailable.
- The test at lope_test.go:527-540 looks for `LOPE_PROXY_ADDR` in the argument vector right after `commandProxy`. The code stages that entry in the environment snapshot (lope.go:392); it reaches the vector only through `addEnvVars`, and only if the blacklist/whitelist policy admits it (`Pipeline.ProxyAddrReachesContainer`).
- The tests set `mount` and `os` before calling `addUserAndGroup` (lope_test.go:445-446). The code never reads either there. The `os` field is never read at all and is not modelled.

## Model

| member | source | states |
|---|---|---|
| Strings.JoinSplit | lope.go:498-516 | joining the pieces of a split with the separator gives back the original text, so the blacklist/whitelist flag strings are recoverable from the lists |
| Strings.SplitJoin | lope.go:289-291 | splitting a join gives back the pieces when no piece holds the separator |
| Strings.KeyOfIsTextBeforeFirstEquals | lope.go:183 | the key of an entry is its text before the first `=`: a prefix with no `=`, followed by `=` or the end |
| Strings.KeyOfEntry | lope.go:392 | the key of `k=v` is `k` whenever `k` has no `=` |
| Strings.ContainsAt | lope.go:197-208 | the unanchored match of a literal pattern holds iff the pattern occurs at some offset in the key |
| Strings.ContainsNoLonger | lope.go:197-208 | a pattern matches only a key at least as long, and a key of the same length only if equal |
| Seqs.FilterMembership | lope.go:180-216 | an element survives an order-preserving filter iff it is in the input and satisfies the predicate |
| Seqs.FilterConcat | lope.go:180-216 | filtering distributes over concatenation, so relative order is kept |
| Seqs.FilterIdempotent | lope.go:180-188 | filtering twice with the same predicate equals filtering once |
| Config.DeriveConfig | lope.go:471-476 | fewer than two positional arguments is the usage error and is the only failure; otherwise the source image is the first argument and the command the non-empty rest |
| Config.FromFlags | lope.go:478-518 | the target image is `lope`; home gets a trailing separator; the default paths apply iff no `-path` is given; both lists are non-empty and join back to the flag strings; mount iff neither `-addMount` nor `-noMount`; the `no…` flags are negated; every other flag is carried over unchanged; the working directory is never both mounted and added |
| Config.DefaultsMountWorkDir | lope.go:435-469 | with every flag at its default the derivation succeeds (given two arguments), bind-mounts `pwd` at `/lope`, exposes `/var/run/docker.sock`, runs as root with a terminal, leaves SSH and the proxy off, mounts the default home paths, and blacklists `HOME,SSH_AUTH_SOCK,TMPDIR,PATH` |
| Config.CommaList | lope.go:498 | splitting a flag value at commas (the blacklist here, the whitelist identically at lope.go:516) yields at least one entry, no entry holds a comma, and joining with commas restores the flag value |
| Dockerfile.CreateDockerfile | lope.go:149-176 | only the Dockerfile and the target image change; the text starts with `FROM <source>`; the target image becomes the source image iff nothing but the `FROM` line is written |
| Dockerfile.DockerfileReadsBack | lope.go:149-170 | reading the text back by lines gives `FROM`, then `ADD . <workDir>` iff addMount, then the four-line docker download block iff addDocker, then the instructions verbatim |
| Dockerfile.CollapseIffSingleLine | lope.go:170-175 | the target image collapses to the source image iff the text is a single line |
| Dockerfile.TrailingNewlineOnlyFromEmptyInstruction | lope.go:170 | the text ends with a newline iff the last instruction is empty |
| Env.KeyPatternIsLiteral | lope.go:181-184 | a backtracking reading of `^[a-zA-Z_]+[a-zA-Z0-9_]$` accepts exactly the keys `ValidKey` describes |
| Env.CleanEnvVarsInPlace | lope.go:180-188 | the backward loop that deletes in place leaves exactly the entries with a valid key, in their original order |
| Env.CleanEnvVarsKeepsExactlyValid | lope.go:180-188 | an entry survives cleaning iff it was present and its key is valid; cleaning is idempotent |
| Env.OnlyKeyIsChecked | lope.go:183-184 | the value after `=` never affects whether an entry is kept |
| Env.AdmitKey | lope.go:193-213 | the `blacklisted`/`add` loops with early exit decide exactly the precedence rule: a blacklist match excludes; otherwise an empty whitelist includes and a non-empty one includes only on a match |
| Env.BlacklistWins | lope.go:196-212 | a blacklist match excludes the entry whatever the whitelist holds |
| Env.EmptyWhitelistPatternAdmitsAll | lope.go:204-211 | the empty pattern matches every key, so a whitelist holding it (the split of an empty `-whitelist`) admits everything the blacklist lets through |
| Env.EnvOptions | lope.go:191-216 | the options come in `-e` pairs, each value an entry of the snapshot that the policy admits |
| Env.EnvOptionsArePairsOfAdmitted | lope.go:191-216 | the options are exactly the `-e` pairing of the admitted entries, in snapshot order, duplicates kept |
| Env.AddEnvVarsAppendsAdmittedThenSsh | lope.go:190-222 | `addEnvVars` appends the admitted pairs and then `-e SSH_AUTH_SOCK=/ssh-agent/ssh-agent.sock` iff SSH is on; nothing else changes |
| Env.EmptyPolicyPassesEverything | lope.go:191-216 | with no blacklist and no whitelist every entry is passed, in order |
| Params.DefaultParams | lope.go:224-241 | appends `docker run --rm --interactive --entrypoint E --workdir W --net host`, plus `--tty` iff tty |
| Params.CommandProxy | lope.go:376-393 | off: the state is unchanged. On: appends `--add-host=localhost:<ip>` and stages one entry whose key is `LOPE_PROXY_ADDR` and whose value is `http://<ip>:<port>` |
| Params.HomeVolumes | lope.go:244-251 | the home options come in `-v` pairs, each value the binding of a candidate path that exists |
| Params.HomeVolumesArePairsOfExisting | lope.go:244-251 | the home options are exactly the `-v` pairing of the bindings of the existing candidates, in candidate order |
| Params.CandidateMountedIffExists | lope.go:244-251 | a candidate's binding appears iff the candidate is listed and `home + path` exists |
| Params.BindingInjective | lope.go:247 | distinct candidate paths give distinct bindings |
| Params.AddVolumesOrder | lope.go:243-264 | the home volumes come first, then the working directory iff mounted, the docker socket iff exposed, the SSH agent volume iff SSH |
| Params.AddUserAndGroup | lope.go:266-287 | nothing is added for root or an unknown user; otherwise one `--user=uid:gid`, with the docker group's gid when that group exists and the user's own otherwise |
| Params.RunParams | lope.go:289-291 | appends exactly three tokens: the target image, `-c`, and the command tokens joined by single spaces |
| Params.RunParamsReadsBack | lope.go:289-291 | the joined command splits back into the command tokens iff there is at least one token and none holds a space; a token with an embedded space does not survive |
| Pipeline.Step | lope.go:401-412 | every stage only appends to the vector; only the proxy and cleaning stages change the snapshot; only the Dockerfile stage changes the configuration |
| Pipeline.RunStages | lope.go:401-412 | the vector before any run of stages is a prefix of the vector after it |
| Pipeline.RunDecidesImage | lope.go:149-176 | after the run the only configuration change is the target-image decision, and the Dockerfile is the newline join of its lines |
| Pipeline.RunAssemblesInOrder | lope.go:401-412 | the vector is: defaults, proxy alias, volumes, the `-e` pairs of the cleaned and admitted entries (staged proxy entry included) and the SSH socket, the user option, then image, `-c` and command |
| Pipeline.RunStartsWithDockerRun | lope.go:224-233 | the vector always begins with `docker run` |
| Pipeline.RunEndsWithCommand | lope.go:289-291 | the vector always ends with the target image, `-c` and the joined command |
| Pipeline.ProxyAddrReachesContainer | lope.go:376-393 | with the proxy on, its address entry has a valid key and survives cleaning; it reaches the vector iff the policy admits it |
| Pipeline.SshWiringIsConsistent | lope.go:217-263 | with SSH on, both the agent volume and the socket variable are in the vector, the volume first |
| Pipeline.MountedWorkDirInVector | lope.go:252-255 | a bind-mounted working directory appears as `dir:workDir` in the vector |
| Launch.LaunchAsWritten | lope.go:526-536 | as written, `main` builds iff the target image name differs from the source image name, tagging it with the target image and feeding it the Dockerfile |
| Launch.Launch | lope.go:526-536 | corrected: it builds iff the Dockerfile holds more than its `FROM` line; the image run is the one built, or else the source image |
| Launch.AsWrittenDiffersIff | lope.go:526-536 | the written and corrected launches differ iff the target image has the source image's name and the Dockerfile has content |
| Launch.DerivedDiffersIff | lope.go:507 | for configurations derived from the command line, they differ iff the source image is itself called `lope` and the Dockerfile has content |
| Launch.AsWrittenSkipsNeededBuild | lope.go:526-536 | `lope -addMount lope …`: the Dockerfile adds the working directory, yet the written code builds nothing and runs the unbuilt `lope` image |
| Launch.WorkDirReachesContainer | lope.go:479 | with the corrected launch, the working directory reaches the container: copied in by the build with `-addMount`, bind-mounted when neither `-addMount` nor `-noMount` is given |
| Scenarios.CleanExamples | lope_test.go:459-503 | `TEST=hello` and `TEST=he:llo` are kept and `T:EST=hello` is dropped |
| Scenarios.WhitelistExample | lope_test.go:216-223 | whitelist `ENV` passes `ENV1=…` and `ENV2=…` and drops `NO=no` |
| Scenarios.BlacklistOverridesExample | lope_test.go:224-231 | blacklist `ENV1` with whitelist `ENV` passes only `ENV2=…` |

## Left out

- Subprocesses: `run`, `runBackground` and `buildImage` (lope.go:23-66) start processes. `main`'s build and run are modelled as the `Launch.Invocation` value, not executed.
- `sshForward` (lope.go:293-374) only starts helper containers and an SSH session, so it is the identity on the state. Its retries, sleeps and error message are not modelled.
- The command proxy's HTTP handler, listener and `getIPAddress` (lope.go:72-111, 376-386) are left out. The IP address is an input. `cmdProxy/cmdProxy.go` is not part of this model, and neither is `build/build.go`.
- `os.Stat`, `user.Current`, `user.LookupGroup` and `os.Getwd` are inputs (`Config.Host`, the `pwd` and `homeDir` parameters). `main` dereferences the result of `user.Current()` without checking its error (lope.go:430); that crash is not modelled.
- Flag parsing, the usage text and `debug` logging are out. The parsed flags are a `Config.Flags` value, and the usage exit is `Config.MissingArguments`.
- The model is Unix-only. `filepath.FromSlash` (lope.go:68-70) is the identity, and the separator appended to the home directory (`os.PathSeparator`, lope.go:431) is `/`.
- Env.Matches: `regexp.MatchString` is modelled as substring containment. That is exact for patterns without metacharacters, which all defaults and tested patterns are. Patterns using regular-expression syntax and invalid patterns (whose error the code ignores) are not modelled.
- The `os` field of the configuration is never read and is not carried.

## Findings

| source | as written | input that shows it | evidently intended | confidence | as-written member | corrected member |
|---|---|---|---|---|---|---|
| lope.go:526-531 | `main` builds only when `cfg.image != cfg.sourceImage`. The target image is always named `lope` (lope.go:507) and collapses to the source image only when the Dockerfile is just its `FROM` line. | `lope -addMount lope make`: the Dockerfile adds the working directory, but the image names match, so nothing is built. The unbuilt `lope` image runs without the working directory (it is neither added nor mounted). | build whenever the Dockerfile holds more than the `FROM` line | low; not executed | Launch.LaunchAsWritten (counterexample: Launch.AsWrittenSkipsNeededBuild) | Launch.Launch (property: Launch.WorkDirReachesContainer) |
