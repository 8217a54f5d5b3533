/** The assembler: `lope.run` (lope.go:401-412) as a fold of the stages
    over the working state, and the hand-off to the build and run steps in
    `main` (lope.go:526-536). */
module Pipeline {
  import opened Wrappers
  import opened Strings
  import opened Seqs
  import opened Config
  import opened Dockerfile
  import opened Env
  import opened Params

  /** The stages of `lope.run`. */
  datatype Stage =
    | ForwardSsh            // sshForward: subprocesses only, no change to the state
    | SynthesizeDockerfile  // createDockerfile
    | SeedDefaults          // defaultParams
    | BridgeCommandProxy    // commandProxy
    | MountVolumes          // addVolumes
    | SanitizeEnv           // cleanEnvVars
    | FilterEnv             // addEnvVars
    | ResolveUser           // addUserAndGroup
    | AppendRun             // runParams

  /** The order in which `lope.run` calls the stages. */
  const RunOrder: seq<Stage> := [
    ForwardSsh, SynthesizeDockerfile, SeedDefaults, BridgeCommandProxy,
    MountVolumes, SanitizeEnv, FilterEnv, ResolveUser, AppendRun
  ]

  /** One stage applied to the state. Every stage only appends to the
      argument vector; only the proxy and sanitize stages touch the
      environment, and only the Dockerfile stage touches the configuration. */
  function Step(l: Lope, s: Stage, host: Host): (r: Lope)
    ensures |l.params| <= |r.params| && r.params[..|l.params|] == l.params
    ensures s != BridgeCommandProxy && s != SanitizeEnv ==> r.envs == l.envs
    ensures s != SynthesizeDockerfile ==> r.cfg == l.cfg && r.dockerfile == l.dockerfile
  {
    match s
    case ForwardSsh => l
    case SynthesizeDockerfile => CreateDockerfile(l)
    case SeedDefaults => DefaultParams(l)
    case BridgeCommandProxy => CommandProxy(l, host)
    case MountVolumes => AddVolumes(l, host)
    case SanitizeEnv => CleanEnvVars(l)
    case FilterEnv => AddEnvVars(l)
    case ResolveUser => AddUserAndGroup(l, host)
    case AppendRun => RunParams(l)
  }

  /** The stages applied in order. The argument vector only grows: the
      input vector is a prefix of the result. */
  function RunStages(l: Lope, stages: seq<Stage>, host: Host): (r: Lope)
    ensures |l.params| <= |r.params| && r.params[..|l.params|] == l.params
    decreases |stages|
  {
    if |stages| == 0 then l
    else
      var next := Step(l, stages[0], host);
      var r := RunStages(next, stages[1..], host);
      assert r.params[..|l.params|] == r.params[..|next.params|][..|l.params|];
      r
  }

  /** `lope.run`: the whole pipeline from the state `main` builds. */
  function Run(cfg: Config, environ: seq<string>, host: Host): Lope
  {
    RunStages(Start(cfg, environ), RunOrder, host)
  }

  /** The first two stages: nothing is appended yet, the Dockerfile is
      decided. */
  function Prepare(l: Lope, host: Host): Lope
  {
    Step(Step(l, ForwardSsh, host), SynthesizeDockerfile, host)
  }

  /** The seven stages that build the argument vector. */
  function Assemble(l: Lope, host: Host): Lope
  {
    Step(Step(Step(Step(Step(Step(Step(l,
      SeedDefaults, host), BridgeCommandProxy, host), MountVolumes, host),
      SanitizeEnv, host), FilterEnv, host), ResolveUser, host), AppendRun, host)
  }

  /** The image `runParams` names: the source image when the Dockerfile is
      the `FROM` line alone, the configured image otherwise. */
  function TargetImage(cfg: Config): string
  {
    if OnlyBaseImage(cfg) then cfg.sourceImage else cfg.image
  }

  /** The environment entry the proxy stage stages, if any. */
  function StagedProxyEntry(cfg: Config, host: Host): seq<string>
  {
    if cfg.cmdProxy then [ProxyAddrKey + "=" + ProxyUrl(host.ip, cfg.cmdProxyPort)] else []
  }

  /** The configuration and Dockerfile after the pipeline: only the target
      image has been decided, and the Dockerfile is the newline join of its
      lines. */
  lemma RunDecidesImage(cfg: Config, environ: seq<string>, host: Host)
    ensures Run(cfg, environ, host).cfg == cfg.(image := TargetImage(cfg))
    ensures Run(cfg, environ, host).dockerfile == Join(Lines(cfg), "\n")
  {
    var l0 := Start(cfg, environ);
    var l2 := Prepare(l0, host);
    RunUnrolls(l0, host);
    assert l2.cfg == cfg.(image := TargetImage(cfg));
    assert l2.dockerfile == Join(Lines(cfg), "\n");
    AssembleKeepsConfig(l2, host);
  }

  /** The options `defaultParams` seeds. */
  function DefaultTokens(cfg: Config): seq<string>
  {
    ["docker", "run", "--rm", "--interactive",
     "--entrypoint", cfg.entrypoint, "--workdir", cfg.workDir, "--net", "host"]
    + (if cfg.tty then ["--tty"] else [])
  }

  /** The host alias the proxy stage adds, if any. */
  function AliasTokens(cfg: Config, host: Host): seq<string>
  {
    if cfg.cmdProxy then ["--add-host=localhost:" + host.ip] else []
  }

  /** The volume options: the existing candidates, then the fixed volumes. */
  function VolumeTokens(cfg: Config, host: Host): seq<string>
  {
    Pairs("-v", Map(Filter(cfg.paths, Exists(host.existing, cfg.home)), Bindings(cfg.home)))
    + FixedVolumes(cfg)
  }

  /** The environment options for a snapshot: the `-e` pairing of the
      entries that are both well-formed and admitted, then the SSH socket. */
  function EnvTokens(cfg: Config, environ: seq<string>): seq<string>
  {
    Pairs("-e", Filter(Filter(environ, ValidEntry), Admits(cfg.blacklist, cfg.whitelist)))
    + (if cfg.ssh then ["-e", SshAuthSockEntry] else [])
  }

  /** The user option, if any. */
  function UserTokens(cfg: Config, host: Host): seq<string>
  {
    if cfg.root || host.user.None? then []
    else ["--user=" + host.user.value.uid + ":" + host.dockerGroupGid.GetOr(host.user.value.gid)]
  }

  lemma DefaultStage(l: Lope, host: Host)
    ensures Step(l, SeedDefaults, host).params == l.params + DefaultTokens(l.cfg)
  {
  }

  lemma ProxyStage(l: Lope, host: Host)
    ensures Step(l, BridgeCommandProxy, host).params == l.params + AliasTokens(l.cfg, host)
    ensures Step(l, BridgeCommandProxy, host).envs == l.envs + StagedProxyEntry(l.cfg, host)
  {
  }

  lemma VolumeStage(l: Lope, host: Host)
    ensures Step(l, MountVolumes, host).params == l.params + VolumeTokens(l.cfg, host)
  {
    assert Step(l, MountVolumes, host).params == AddVolumes(l, host).params;
    AddVolumesOrder(l, host);
  }

  lemma EnvStages(l: Lope, host: Host)
    ensures Step(Step(l, SanitizeEnv, host), FilterEnv, host).params == l.params + EnvTokens(l.cfg, l.envs)
  {
    AddEnvVarsAppendsAdmittedThenSsh(CleanEnvVars(l));
  }

  lemma UserStage(l: Lope, host: Host)
    ensures Step(l, ResolveUser, host).params == l.params + UserTokens(l.cfg, host)
  {
    assert Step(l, ResolveUser, host).params == AddUserAndGroup(l, host).params;
  }

  lemma FinalStage(l: Lope, host: Host)
    ensures Step(l, AppendRun, host).params == l.params + [l.cfg.image, "-c", Join(l.cfg.cmd, " ")]
  {
    assert Step(l, AppendRun, host).params == RunParams(l).params;
  }

  /** The stages after the Dockerfile decision, from an empty vector. */
  lemma {:induction false} TailAssembles(l: Lope, host: Host)
    requires l.params == []
    ensures Assemble(l, host).params == DefaultTokens(l.cfg) + AliasTokens(l.cfg, host) + VolumeTokens(l.cfg, host)
        + EnvTokens(l.cfg, l.envs + StagedProxyEntry(l.cfg, host)) + UserTokens(l.cfg, host)
        + [l.cfg.image, "-c", Join(l.cfg.cmd, " ")]
  {
    var l3 := Step(l, SeedDefaults, host);
    var l4 := Step(l3, BridgeCommandProxy, host);
    var l5 := Step(l4, MountVolumes, host);
    var l6 := Step(l5, SanitizeEnv, host);
    var l7 := Step(l6, FilterEnv, host);
    var l8 := Step(l7, ResolveUser, host);
    assert l3.cfg == l.cfg && l3.envs == l.envs;
    assert l4.cfg == l.cfg;
    assert l5.cfg == l.cfg && l5.envs == l4.envs;
    assert l6.cfg == l.cfg && l7.cfg == l.cfg && l8.cfg == l.cfg;
    DefaultStage(l, host);
    assert l3.params == DefaultTokens(l.cfg);
    ProxyStage(l3, host);
    VolumeStage(l4, host);
    EnvStages(l5, host);
    UserStage(l7, host);
    FinalStage(l8, host);
  }

  /** The assembling stages leave the configuration and Dockerfile alone. */
  lemma AssembleKeepsConfig(l: Lope, host: Host)
    ensures Assemble(l, host).cfg == l.cfg && Assemble(l, host).dockerfile == l.dockerfile
  {
  }

  /** After the first two stages the vector is empty, the snapshot is
      untouched and the target image is decided. */
  lemma PrepareDecides(cfg: Config, environ: seq<string>, host: Host)
    ensures var l2 := Prepare(Start(cfg, environ), host);
      l2.params == [] && l2.envs == environ && l2.cfg == cfg.(image := TargetImage(cfg))
  {
    var l1 := Step(Start(cfg, environ), ForwardSsh, host);
    assert l1 == Start(cfg, environ);
    assert Prepare(Start(cfg, environ), host).params == CreateDockerfile(l1).params;
  }

  /** Assembling from a prepared state gives the one-expression vector. */
  lemma AssembleFrom(cfg: Config, environ: seq<string>, host: Host, l2: Lope)
    requires l2.params == [] && l2.envs == environ && l2.cfg == cfg.(image := TargetImage(cfg))
    ensures Assemble(l2, host).params == Assembled(cfg, environ, host)
  {
    var c := l2.cfg;
    TailAssembles(l2, host);
    assert DefaultTokens(c) == DefaultTokens(cfg);
    assert VolumeTokens(c, host) == VolumeTokens(cfg, host);
    assert EnvTokens(c, environ + StagedProxyEntry(c, host)) == EnvTokens(cfg, environ + StagedProxyEntry(cfg, host));
  }

  /** The argument vector as one expression: the defaults, the proxy host
      alias iff the proxy is on, the volumes, the `-e` options of the cleaned
      and admitted entries (the staged proxy entry included) and the SSH
      socket entry iff SSH is on, the user option iff not root and the user
      resolves, and last the target image, `-c` and the joined command. */
  function Assembled(cfg: Config, environ: seq<string>, host: Host): seq<string>
  {
    DefaultTokens(cfg) + AliasTokens(cfg, host) + VolumeTokens(cfg, host)
    + EnvTokens(cfg, environ + StagedProxyEntry(cfg, host)) + UserTokens(cfg, host)
    + [TargetImage(cfg), "-c", Join(cfg.cmd, " ")]
  }

  /** The stage-by-stage fold builds exactly the one-expression vector. */
  lemma RunAssemblesInOrder(cfg: Config, environ: seq<string>, host: Host)
    ensures Run(cfg, environ, host).params == Assembled(cfg, environ, host)
  {
    RunUnrolls(Start(cfg, environ), host);
    PrepareDecides(cfg, environ, host);
    AssembleFrom(cfg, environ, host, Prepare(Start(cfg, environ), host));
  }

  /** Positions in a vector made of six consecutive segments. */
  lemma SegmentPositions(p: seq<string>, d: seq<string>, a: seq<string>, v: seq<string>,
                         e: seq<string>, u: seq<string>, t: seq<string>)
    requires p == d + a + v + e + u + t
    ensures p[..|d|] == d && p[|p| - |t|..] == t
    ensures p[|d| + |a|..|d| + |a| + |v|] == v
    ensures p[|d| + |a| + |v|..|d| + |a| + |v| + |e|] == e
  {
    var q := d + a + v + e;
    assert p == q + u + t;
    assert p[..|q|] == q;
    assert q[..|d| + |a| + |v|] == d + a + v;
  }

  /** Where each segment sits in the assembled vector. */
  lemma AssembledLayout(cfg: Config, environ: seq<string>, host: Host)
    ensures var p := Assembled(cfg, environ, host);
      var d := DefaultTokens(cfg);
      var o := |d| + |AliasTokens(cfg, host)|;
      var v := VolumeTokens(cfg, host);
      var e := EnvTokens(cfg, environ + StagedProxyEntry(cfg, host));
      && o + |v| + |e| + 3 <= |p|
      && p[..|d|] == d
      && p[o..o + |v|] == v
      && p[o + |v|..o + |v| + |e|] == e
      && p[|p| - 3..] == [TargetImage(cfg), "-c", Join(cfg.cmd, " ")]
  {
    SegmentPositions(Assembled(cfg, environ, host), DefaultTokens(cfg), AliasTokens(cfg, host),
      VolumeTokens(cfg, host), EnvTokens(cfg, environ + StagedProxyEntry(cfg, host)),
      UserTokens(cfg, host), [TargetImage(cfg), "-c", Join(cfg.cmd, " ")]);
  }

  lemma DefaultsStartWithDockerRun(cfg: Config)
    ensures |DefaultTokens(cfg)| >= 10 && DefaultTokens(cfg)[..2] == ["docker", "run"]
  {
  }

  /** The vector always starts with `docker run`. */
  lemma RunStartsWithDockerRun(cfg: Config, environ: seq<string>, host: Host)
    ensures var p := Run(cfg, environ, host).params;
      |p| >= 2 && p[..2] == ["docker", "run"]
  {
    var p := Assembled(cfg, environ, host);
    var d := DefaultTokens(cfg);
    AssembledLayout(cfg, environ, host);
    DefaultsStartWithDockerRun(cfg);
    assert p[..2] == p[..|d|][..2];
    RunAssemblesInOrder(cfg, environ, host);
  }

  /** The vector always ends with the target image, `-c` and the joined
      command. */
  lemma RunEndsWithCommand(cfg: Config, environ: seq<string>, host: Host)
    ensures var p := Run(cfg, environ, host).params;
      |p| >= 3 && p[|p| - 3..] == [TargetImage(cfg), "-c", Join(cfg.cmd, " ")]
  {
    AssembledLayout(cfg, environ, host);
    RunAssemblesInOrder(cfg, environ, host);
  }

  /** Every volume option is in the vector. */
  lemma VolumeInRun(cfg: Config, environ: seq<string>, host: Host, x: string)
    requires x in VolumeTokens(cfg, host)
    ensures x in Run(cfg, environ, host).params
  {
    assert x in DefaultTokens(cfg) + AliasTokens(cfg, host) + VolumeTokens(cfg, host);
    assert x in Assembled(cfg, environ, host);
    RunAssemblesInOrder(cfg, environ, host);
  }

  /** Every environment option is in the vector. */
  lemma EnvOptionInRun(cfg: Config, environ: seq<string>, host: Host, x: string)
    requires x in EnvTokens(cfg, environ + StagedProxyEntry(cfg, host))
    ensures x in Run(cfg, environ, host).params
  {
    assert x in DefaultTokens(cfg) + AliasTokens(cfg, host) + VolumeTokens(cfg, host)
      + EnvTokens(cfg, environ + StagedProxyEntry(cfg, host));
    assert x in Assembled(cfg, environ, host);
    RunAssemblesInOrder(cfg, environ, host);
  }

  /** The proxy's address entry is well-formed, and it reaches the container
      exactly when the blacklist/whitelist policy admits it: it is then among
      the passed entries and in the argument vector. */
  lemma ProxyAddrReachesContainer(cfg: Config, environ: seq<string>, host: Host)
    requires cfg.cmdProxy
    ensures var entry := ProxyAddrKey + "=" + ProxyUrl(host.ip, cfg.cmdProxyPort);
      var passed := Filter(Filter(environ + StagedProxyEntry(cfg, host), ValidEntry),
                           Admits(cfg.blacklist, cfg.whitelist));
      && ValidEntry(entry)
      && (entry in passed <==> Admitted(entry, cfg.blacklist, cfg.whitelist))
      && (Admitted(entry, cfg.blacklist, cfg.whitelist) ==> entry in Run(cfg, environ, host).params)
  {
    var entry := ProxyAddrKey + "=" + ProxyUrl(host.ip, cfg.cmdProxyPort);
    var cleaned := Filter(environ + StagedProxyEntry(cfg, host), ValidEntry);
    var passed := Filter(cleaned, Admits(cfg.blacklist, cfg.whitelist));
    KeyOfEntry(ProxyAddrKey, ProxyUrl(host.ip, cfg.cmdProxyPort));
    assert ValidKey(ProxyAddrKey);
    FilterMembership(environ + StagedProxyEntry(cfg, host), ValidEntry, entry);
    FilterMembership(cleaned, Admits(cfg.blacklist, cfg.whitelist), entry);
    if Admitted(entry, cfg.blacklist, cfg.whitelist) {
      var i :| 0 <= i < |passed| && passed[i] == entry;
      PairsAt("-e", passed, i);
      assert entry in EnvTokens(cfg, environ + StagedProxyEntry(cfg, host));
      EnvOptionInRun(cfg, environ, host, entry);
    }
  }

  /** With SSH forwarding on, both the agent volume and the socket variable
      are in the vector, the volume option first. */
  lemma SshWiringIsConsistent(cfg: Config, environ: seq<string>, host: Host)
    requires cfg.ssh
    ensures var p := Run(cfg, environ, host).params;
      exists i, j :: 0 <= i < j < |p| && p[i] == SshAgentVolume && p[j] == SshAuthSockEntry
  {
    var p := Assembled(cfg, environ, host);
    var o := |DefaultTokens(cfg)| + |AliasTokens(cfg, host)|;
    var v := VolumeTokens(cfg, host);
    var e := EnvTokens(cfg, environ + StagedProxyEntry(cfg, host));
    AssembledLayout(cfg, environ, host);
    SshTokensLast(cfg, environ + StagedProxyEntry(cfg, host), host);
    var i, j := o + |v| - 1, o + |v| + |e| - 1;
    assert p[i] == SshAgentVolume by {
      assert p[o..o + |v|][|v| - 1] == p[i];
    }
    assert p[j] == SshAuthSockEntry by {
      assert p[o + |v|..o + |v| + |e|][|e| - 1] == p[j];
    }
    RunAssemblesInOrder(cfg, environ, host);
  }

  /** With SSH forwarding on, the agent volume closes the volume options and
      the socket variable closes the environment options. */
  lemma SshTokensLast(cfg: Config, environ: seq<string>, host: Host)
    requires cfg.ssh
    ensures var v := VolumeTokens(cfg, host); |v| >= 1 && v[|v| - 1] == SshAgentVolume
    ensures var e := EnvTokens(cfg, environ); |e| >= 1 && e[|e| - 1] == SshAuthSockEntry
  {
  }

  /** A bind-mounted working directory is in the vector. */
  lemma MountedWorkDirInVector(cfg: Config, environ: seq<string>, host: Host)
    requires cfg.mount
    ensures cfg.dir + ":" + cfg.workDir in Run(cfg, environ, host).params
  {
    var vol := VolumeTokens(cfg, host);
    var k := |Pairs("-v", Map(Filter(cfg.paths, Exists(host.existing, cfg.home)), Bindings(cfg.home)))| + 1;
    assert vol[k] == cfg.dir + ":" + cfg.workDir;
    VolumeInRun(cfg, environ, host, cfg.dir + ":" + cfg.workDir);
  }

  /** Running the stages from position `k` is running stage `k` and then
      the stages from `k + 1`. */
  lemma RunStagesStep(l: Lope, stages: seq<Stage>, k: int, host: Host)
    requires 0 <= k < |stages|
    ensures RunStages(l, stages[k..], host) == RunStages(Step(l, stages[k], host), stages[k + 1..], host)
  {
    assert stages[k..][1..] == stages[k + 1..];
  }

  /** The fold over `RunOrder` is the nine stages applied one after the other. */
  lemma RunUnrolls(l0: Lope, host: Host)
    ensures RunStages(l0, RunOrder, host) == Assemble(Prepare(l0, host), host)
  {
    var s := RunOrder;
    var l1 := Step(l0, ForwardSsh, host);
    var l2 := Step(l1, SynthesizeDockerfile, host);
    var l3 := Step(l2, SeedDefaults, host);
    var l4 := Step(l3, BridgeCommandProxy, host);
    var l5 := Step(l4, MountVolumes, host);
    var l6 := Step(l5, SanitizeEnv, host);
    var l7 := Step(l6, FilterEnv, host);
    var l8 := Step(l7, ResolveUser, host);
    var l9 := Step(l8, AppendRun, host);
    assert s[0..] == s;
    RunStagesStep(l0, s, 0, host);
    RunStagesStep(l1, s, 1, host);
    RunStagesStep(l2, s, 2, host);
    RunStagesStep(l3, s, 3, host);
    RunStagesStep(l4, s, 4, host);
    RunStagesStep(l5, s, 5, host);
    RunStagesStep(l6, s, 6, host);
    RunStagesStep(l7, s, 7, host);
    RunStagesStep(l8, s, 8, host);
    assert s[9..] == [];
  }
}
