/** What `main` does with the assembled state (lope.go:526-539): build the
    target image from the synthesized Dockerfile when one is needed, then run
    the argument vector. The build and run themselves are subprocesses; here
    they are the `Invocation` the program would perform. */
module Launch {
  import opened Wrappers
  import opened Strings
  import opened Config
  import opened Dockerfile
  import opened Params
  import opened Pipeline

  /** `buildImage(tag, dockerfile)`: an image build fed the Dockerfile text. */
  datatype Build = Build(tag: string, dockerfile: string)

  /** The subprocesses `main` starts: an optional build, then `docker run`. */
  datatype Invocation = Invocation(build: Option<Build>, argv: seq<string>)

  /** The image the run vector names: the third token from the end. */
  function RunImage(argv: seq<string>): string
  {
    if |argv| >= 3 then argv[|argv| - 3] else ""
  }

  /** `main` as written: it builds exactly when the target image differs
      from the source image by name. */
  function LaunchAsWritten(cfg: Config, environ: seq<string>, host: Host): (r: Invocation)
    ensures r.argv == Run(cfg, environ, host).params
    ensures r.build.Some? <==> TargetImage(cfg) != cfg.sourceImage
    ensures r.build.Some? ==> r.build == Some(Build(TargetImage(cfg), Join(Lines(cfg), "\n")))
  {
    RunDecidesImage(cfg, environ, host);
    var l := Run(cfg, environ, host);
    if l.cfg.image != l.cfg.sourceImage then Invocation(Some(Build(l.cfg.image, l.dockerfile)), l.params)
    else Invocation(None, l.params)
  }

  /** `main` with the build decided by the Dockerfile itself: it builds
      exactly when the Dockerfile holds more than its `FROM` line, the image
      run is then the one built, and otherwise it is the source image. */
  function Launch(cfg: Config, environ: seq<string>, host: Host): (r: Invocation)
    ensures r.argv == Run(cfg, environ, host).params
    ensures r.build.Some? <==> !OnlyBaseImage(cfg)
    ensures r.build.Some? ==> r.build == Some(Build(cfg.image, Join(Lines(cfg), "\n")))
    ensures RunImage(r.argv) == (if r.build.Some? then r.build.value.tag else cfg.sourceImage)
  {
    RunDecidesImage(cfg, environ, host);
    RunEndsWithCommand(cfg, environ, host);
    var l := Run(cfg, environ, host);
    if !OnlyBaseImage(cfg) then Invocation(Some(Build(l.cfg.image, l.dockerfile)), l.params)
    else Invocation(None, l.params)
  }

  /** The two agree except exactly when the Dockerfile has content and the
      target image carries the source image's name: then the written code
      skips the build. */
  lemma AsWrittenDiffersIff(cfg: Config, environ: seq<string>, host: Host)
    ensures LaunchAsWritten(cfg, environ, host) != Launch(cfg, environ, host)
        <==> cfg.image == cfg.sourceImage && !OnlyBaseImage(cfg)
  {
  }

  /** A derived configuration always targets the fixed image name, so the
      build is skipped wrongly exactly when the source image is itself
      called `lope` and the Dockerfile has content. */
  lemma DerivedDiffersIff(f: Flags, homeDir: string, environ: seq<string>, host: Host)
    requires |f.args| >= 2
    ensures var cfg := DeriveConfig(f, homeDir).value;
      var differ := LaunchAsWritten(cfg, environ, host) != Launch(cfg, environ, host);
      differ <==> f.args[0] == SyntheticImage && !OnlyBaseImage(cfg)
  {
    AsWrittenDiffersIff(DeriveConfig(f, homeDir).value, environ, host);
  }

  /** `lope -addMount lope <cmd>...`: whenever the source image is itself
      named `lope` and `-addMount` is given, the Dockerfile copies the working
      directory in, yet the written code runs the unbuilt source image; the
      corrected launch builds it. */
  lemma AsWrittenSkipsNeededBuild(f: Flags, homeDir: string, environ: seq<string>, host: Host)
    requires |f.args| >= 2 && f.args[0] == SyntheticImage && f.addMount
    ensures var cfg := DeriveConfig(f, homeDir).value;
      var r := LaunchAsWritten(cfg, environ, host);
      && "ADD . " + f.workDir in Lines(cfg)
      && r.build.None?
      && RunImage(r.argv) == SyntheticImage
      && Launch(cfg, environ, host).build.Some?
  {
    var cfg := DeriveConfig(f, homeDir).value;
    assert Lines(cfg)[1] == "ADD . " + f.workDir;
    RunEndsWithCommand(cfg, environ, host);
  }

  /** The working directory reaches the container: copied in by the build
      when `-addMount` is given, bind-mounted at the working directory when
      neither `-addMount` nor `-noMount` is. */
  lemma WorkDirReachesContainer(f: Flags, homeDir: string, environ: seq<string>, host: Host)
    requires |f.args| >= 2
    ensures var cfg := DeriveConfig(f, homeDir).value;
      var r := Launch(cfg, environ, host);
      && (f.addMount ==> r.build.Some? && "ADD . " + f.workDir in Lines(cfg)
                         && RunImage(r.argv) == r.build.value.tag)
      && (!f.addMount && !f.noMount ==> f.dir + ":" + f.workDir in r.argv)
  {
    var cfg := DeriveConfig(f, homeDir).value;
    if f.addMount {
      assert Lines(cfg)[1] == "ADD . " + f.workDir;
    }
    if cfg.mount {
      MountedWorkDirInVector(cfg, environ, host);
    }
  }
}
