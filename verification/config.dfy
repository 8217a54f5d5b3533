/** The run configuration, the host facts the assembler consults, the
    pipeline's working state, and the derivation of the configuration from
    the command line (lope.go:113-147 and lope.go:428-524). */
module Config {
  import opened Wrappers
  import opened Strings

  /** The `config` record (lope.go:117-140). The `os` field is never read by
      the assembler and is not carried. */
  datatype Config = Config(
    addDocker: bool,          // download the docker client into the built image
    addMount: bool,           // copy the working directory into the built image
    cmd: seq<string>,         // command tokens run inside the container
    dir: string,              // host directory bind-mounted when `mount`
    docker: bool,             // expose the host's docker socket
    dockerSocket: string,
    entrypoint: string,
    blacklist: seq<string>,   // env-key patterns that are never passed
    whitelist: seq<string>,   // env-key patterns that are passed (when non-empty)
    home: string,             // home directory, with trailing separator
    image: string,            // target image; collapses to `sourceImage` when no build is needed
    mount: bool,              // bind-mount `dir` at `workDir`
    root: bool,               // run as the image's default (root) user
    sourceImage: string,
    cmdProxy: bool,
    cmdProxyPort: string,
    ssh: bool,
    instructions: seq<string>,
    paths: seq<string>,       // candidate paths under `home` to mount under /root
    tty: bool,
    workDir: string)

  /** The working directory reaches the container by at most one route:
      never both bind-mounted and copied into the image. */
  predicate WellFormed(cfg: Config)
  {
    !(cfg.mount && cfg.addMount)
  }

  /** The invoking user as `user.Current()` reports it. */
  datatype User = User(uid: string, gid: string)

  /** The host facts the assembler looks up: which absolute paths exist
      (`os.Stat`), the current user (`None` when the lookup fails), the gid of
      the `docker` group (`None` when there is no such group), and the
      host's outbound address (`getIPAddress`). */
  datatype Host = Host(
    existing: set<string>,
    user: Option<User>,
    dockerGroupGid: Option<string>,
    ip: string)

  /** The `lope` record (lope.go:142-147): the configuration, the synthesized
      Dockerfile text, the environment snapshot and the argument vector
      being built. */
  datatype Lope = Lope(cfg: Config, dockerfile: string, envs: seq<string>, params: seq<string>)

  /** The state `main` hands to the pipeline (lope.go:520-524). */
  function Start(cfg: Config, environ: seq<string>): Lope
  {
    Lope(cfg, "", environ, [])
  }

  /** The target image name before the Dockerfile decision (lope.go:507). */
  const SyntheticImage: string := "lope"

  /** Candidate paths mounted from home when no `-path` is given (lope.go:483-488). */
  const DefaultPaths: seq<string> := [".vault-token", ".aws/", ".kube/", ".ssh/"]

  /** Default `-blacklist` value (lope.go:436). */
  const DefaultBlacklist: string := "HOME,SSH_AUTH_SOCK,TMPDIR,PATH"

  /** The parsed command line: flag values and positional arguments. */
  datatype Flags = Flags(
    blacklist: string,
    whitelist: string,
    dir: string,
    entrypoint: string,
    instructions: seq<string>,
    mountPaths: seq<string>,
    noMount: bool,
    addMount: bool,
    noDocker: bool,
    ssh: bool,
    dockerSocket: string,
    workDir: string,
    noTty: bool,
    addDocker: bool,
    noRoot: bool,
    cmdProxy: bool,
    cmdProxyPort: string,
    args: seq<string>)

  /** Every flag at its default (lope.go:435-469); `pwd` is the current
      directory, `args` the positional arguments. */
  function DefaultFlags(pwd: string, args: seq<string>): Flags
  {
    Flags(DefaultBlacklist, "", pwd, "/bin/sh", [], [], false, false, false, false,
          "/var/run/docker.sock", "/lope", false, false, false, false, "24242", args)
  }

  /** The usage error `main` reports when fewer than two positional
      arguments are given (lope.go:472-476). */
  datatype Usage = MissingArguments

  /** A comma-separated flag value cut into its entries
      (`strings.Split(flag, ",")`); an empty value is one empty entry. */
  function CommaList(s: string): (r: seq<string>)
    ensures |r| >= 1 && Join(r, ",") == s
    ensures forall i :: 0 <= i < |r| ==> ',' !in r[i]
  {
    JoinSplit(s, ',');
    Split(s, ',')
  }

  /** The configuration `main` derives from the flags, the first positional
      argument `source` and the remaining ones `cmd` (lope.go:478-518);
      `homeDir` is the current user's home directory, to which the path
      separator is appended. */
  function FromFlags(f: Flags, source: string, cmd: seq<string>, homeDir: string): (cfg: Config)
    ensures WellFormed(cfg)
    ensures cfg.sourceImage == source && cfg.cmd == cmd
    ensures cfg.image == SyntheticImage && cfg.home == homeDir + "/"
    ensures cfg.paths == (if |f.mountPaths| == 0 then DefaultPaths else f.mountPaths)
    ensures |cfg.blacklist| >= 1 && Join(cfg.blacklist, ",") == f.blacklist
    ensures |cfg.whitelist| >= 1 && Join(cfg.whitelist, ",") == f.whitelist
    ensures cfg.mount <==> !f.addMount && !f.noMount
    ensures cfg.docker == !f.noDocker && cfg.root == !f.noRoot && cfg.tty == !f.noTty
    ensures && cfg.addMount == f.addMount && cfg.addDocker == f.addDocker
            && cfg.instructions == f.instructions && cfg.workDir == f.workDir && cfg.dir == f.dir
            && cfg.entrypoint == f.entrypoint && cfg.dockerSocket == f.dockerSocket && cfg.ssh == f.ssh
            && cfg.cmdProxy == f.cmdProxy && cfg.cmdProxyPort == f.cmdProxyPort
  {
    Config(
      addDocker := f.addDocker,
      addMount := f.addMount,
      cmd := cmd,
      dir := f.dir,
      docker := !f.noDocker,
      dockerSocket := f.dockerSocket,
      entrypoint := f.entrypoint,
      blacklist := CommaList(f.blacklist),
      whitelist := CommaList(f.whitelist),
      home := homeDir + "/",
      image := SyntheticImage,
      mount := !f.addMount && !f.noMount,
      root := !f.noRoot,
      sourceImage := source,
      cmdProxy := f.cmdProxy,
      cmdProxyPort := f.cmdProxyPort,
      ssh := f.ssh,
      instructions := f.instructions,
      paths := if |f.mountPaths| == 0 then DefaultPaths else f.mountPaths,
      tty := !f.noTty,
      workDir := f.workDir)
  }

  /** `main`'s derivation of the configuration (lope.go:472-518): fewer
      than two positional arguments is the usage error. */
  function DeriveConfig(f: Flags, homeDir: string): (r: Result<Config, Usage>)
    ensures r.Success? <==> |f.args| >= 2
    ensures r.Failure? ==> r.error == MissingArguments
    ensures r.Success? ==> r.value == FromFlags(f, f.args[0], f.args[1..], homeDir)
    ensures r.Success? ==> r.value.sourceImage == f.args[0] && r.value.cmd == f.args[1..] && |r.value.cmd| >= 1
  {
    if |f.args| < 2 then Failure(MissingArguments)
    else Success(FromFlags(f, f.args[0], f.args[1..], homeDir))
  }

  /** With every flag at its default, the working directory `pwd` is
      bind-mounted at `/lope` and not copied into an image, the docker socket
      is exposed, the container runs as the image's default (root) user
      with a terminal, SSH forwarding and the command proxy are off,
      the default candidate paths are mounted, and the blacklist joins back
      to `HOME,SSH_AUTH_SOCK,TMPDIR,PATH` (lope.go:435-469). */
  lemma DefaultsMountWorkDir(pwd: string, args: seq<string>, homeDir: string)
    requires |args| >= 2
    ensures DeriveConfig(DefaultFlags(pwd, args), homeDir).Success?
    ensures var cfg := DeriveConfig(DefaultFlags(pwd, args), homeDir).value;
      cfg.mount && !cfg.addMount && cfg.dir == pwd
    ensures var cfg := DeriveConfig(DefaultFlags(pwd, args), homeDir).value;
      cfg.workDir == "/lope"
    ensures var cfg := DeriveConfig(DefaultFlags(pwd, args), homeDir).value;
      cfg.docker && cfg.dockerSocket == "/var/run/docker.sock"
    ensures var cfg := DeriveConfig(DefaultFlags(pwd, args), homeDir).value;
      cfg.root && cfg.tty && !cfg.ssh && !cfg.cmdProxy
    ensures var cfg := DeriveConfig(DefaultFlags(pwd, args), homeDir).value;
      cfg.entrypoint == "/bin/sh"
    ensures var cfg := DeriveConfig(DefaultFlags(pwd, args), homeDir).value;
      cfg.paths == DefaultPaths
    ensures var cfg := DeriveConfig(DefaultFlags(pwd, args), homeDir).value;
      Join(cfg.blacklist, ",") == DefaultBlacklist
  {
    var f := DefaultFlags(pwd, args);
    var cfg := FromFlags(f, args[0], args[1..], homeDir);
    assert DeriveConfig(f, homeDir) == Success(cfg);
  }
}
