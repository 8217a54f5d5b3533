/** Dockerfile synthesis and the target-image decision (`createDockerfile`,
    lope.go:149-176). */
module Dockerfile {
  import opened Strings
  import opened Config

  /** The docker client archive the image downloads: the download host, the
      static stable channel, and the x86_64 archive of release 18.03.1-ce. */
  const DockerClientUrl: string :=
    "https://download.docker.com/" + "linux/static/stable/" + "x86_64/docker-18.03.1-ce.tgz"

  /** The fixed block that downloads the docker client into the image
      (lope.go:161-164). */
  const DockerDownload: seq<string> := [
    "RUN wget -q " + DockerClientUrl + @" && \",
    @"tar xfv docker* && \",
    @"mv docker/docker /usr/local/bin && \",
    "rm -rf docker/"
  ]

  /** The Dockerfile lines in the order `createDockerfile` appends them. */
  function Lines(cfg: Config): seq<string>
  {
    ["FROM " + cfg.sourceImage]
    + (if cfg.addMount then ["ADD . " + cfg.workDir] else [])
    + (if cfg.addDocker then DockerDownload else [])
    + cfg.instructions
  }

  /** Nothing besides the `FROM` line would be written, so the source image
      can be run as it is. */
  predicate OnlyBaseImage(cfg: Config)
  {
    !cfg.addMount && !cfg.addDocker && |cfg.instructions| == 0
  }

  /** No configured text that becomes a Dockerfile line holds a newline, so
      the lines can be read back from the text. */
  predicate NoNewlines(cfg: Config)
  {
    && '\n' !in cfg.sourceImage
    && '\n' !in cfg.workDir
    && forall i :: 0 <= i < |cfg.instructions| ==> '\n' !in cfg.instructions[i]
  }

  predicate EndsWithNewline(t: string)
  {
    |t| > 0 && t[|t| - 1] == '\n'
  }

  /** `createDockerfile`: records the newline-joined Dockerfile and collapses
      the target image to the source image when the Dockerfile would be the
      `FROM` line alone; nothing else in the state changes. */
  function CreateDockerfile(l: Lope): (r: Lope)
    ensures r.envs == l.envs && r.params == l.params
    ensures r.cfg == l.cfg.(image := r.cfg.image)
    ensures r.cfg.image == (if OnlyBaseImage(l.cfg) then l.cfg.sourceImage else l.cfg.image)
    ensures "FROM " + l.cfg.sourceImage <= r.dockerfile
    ensures OnlyBaseImage(l.cfg) ==> r.dockerfile == "FROM " + l.cfg.sourceImage
  {
    var d := Lines(l.cfg);
    JoinStartsWithFirst(d, "\n");
    var image := if |d| == 1 then l.cfg.sourceImage else l.cfg.image;
    l.(dockerfile := Join(d, "\n"), cfg := l.cfg.(image := image))
  }

  /** Each literal piece of the download block is newline-free; long
      string literals are checked one piece per lemma. */
  lemma NoNewlineInConcat(a: string, b: string)
    requires '\n' !in a && '\n' !in b
    ensures '\n' !in a + b
  {
  }

  lemma UrlHostHasNoNewline()
    ensures '\n' !in "https://download.docker.com/"
  {
  }

  lemma UrlDirHasNoNewline()
    ensures '\n' !in "linux/static/stable/"
  {
  }

  lemma UrlFileHasNoNewline()
    ensures '\n' !in "x86_64/docker-18.03.1-ce.tgz"
  {
  }

  /** No line of the download block holds a newline. */
  lemma DockerDownloadHasNoNewlines()
    ensures forall j :: 0 <= j < |DockerDownload| ==> '\n' !in DockerDownload[j]
  {
    UrlHostHasNoNewline();
    UrlDirHasNoNewline();
    UrlFileHasNoNewline();
    NoNewlineInConcat("https://download.docker.com/", "linux/static/stable/");
    NoNewlineInConcat("https://download.docker.com/" + "linux/static/stable/", "x86_64/docker-18.03.1-ce.tgz");
    assert '\n' !in "RUN wget -q " && '\n' !in @" && \";
    NoNewlineInConcat("RUN wget -q ", DockerClientUrl);
    NoNewlineInConcat("RUN wget -q " + DockerClientUrl, @" && \");
    assert '\n' !in DockerDownload[1];
    assert '\n' !in DockerDownload[2];
    assert '\n' !in DockerDownload[3];
  }

  lemma LinesHaveNoNewlines(cfg: Config)
    requires NoNewlines(cfg)
    ensures forall i :: 0 <= i < |Lines(cfg)| ==> '\n' !in Lines(cfg)[i]
  {
    var from := ["FROM " + cfg.sourceImage];
    var add := if cfg.addMount then ["ADD . " + cfg.workDir] else [];
    var block := if cfg.addDocker then DockerDownload else [];
    assert Lines(cfg) == from + add + block + cfg.instructions;
    assert '\n' !in from[0];
    assert forall j :: 0 <= j < |add| ==> '\n' !in add[j];
    DockerDownloadHasNoNewlines();
    forall i | 0 <= i < |Lines(cfg)|
      ensures '\n' !in Lines(cfg)[i]
    {
      if i == 0 {
      } else if i < 1 + |add| {
        assert Lines(cfg)[i] == add[i - 1];
      } else if i < 1 + |add| + |block| {
        assert Lines(cfg)[i] == block[i - 1 - |add|];
      } else {
        assert Lines(cfg)[i] == cfg.instructions[i - 1 - |add| - |block|];
      }
    }
  }

  /** Reading the Dockerfile back line by line gives the `FROM` line, the
      `ADD` line exactly when `addMount`, the docker-download block exactly
      when `addDocker`, and then the instructions verbatim and in order. */
  lemma DockerfileReadsBack(l: Lope)
    requires NoNewlines(l.cfg)
    ensures var cfg := l.cfg;
      var ls := Split(CreateDockerfile(l).dockerfile, '\n');
      var m := if cfg.addMount then 1 else 0;
      var k := if cfg.addDocker then |DockerDownload| else 0;
      && |ls| == 1 + m + k + |cfg.instructions|
      && ls[0] == "FROM " + cfg.sourceImage
      && (cfg.addMount ==> ls[1] == "ADD . " + cfg.workDir)
      && ls[1 + m..1 + m + k] == (if cfg.addDocker then DockerDownload else [])
      && ls[1 + m + k..] == cfg.instructions
  {
    LinesHaveNoNewlines(l.cfg);
    SplitJoin(Lines(l.cfg), '\n');
  }

  /** The target image collapses to the source image exactly when the
      Dockerfile text is a single line; an instruction list holding one empty
      instruction still counts as a line. */
  lemma CollapseIffSingleLine(l: Lope)
    requires NoNewlines(l.cfg)
    ensures |Split(CreateDockerfile(l).dockerfile, '\n')| == 1 <==> OnlyBaseImage(l.cfg)
  {
    DockerfileReadsBack(l);
  }

  /** `strings.Join` adds no trailing newline: the text ends with a newline
      exactly when the last instruction is the empty line. */
  lemma TrailingNewlineOnlyFromEmptyInstruction(l: Lope)
    requires NoNewlines(l.cfg)
    ensures EndsWithNewline(CreateDockerfile(l).dockerfile)
        <==> |l.cfg.instructions| > 0 && l.cfg.instructions[|l.cfg.instructions| - 1] == ""
  {
    var cfg := l.cfg;
    var xs := Lines(cfg);
    var n := |xs|;
    LinesHaveNoNewlines(cfg);
    var last := xs[n - 1];
    assert last == (if |cfg.instructions| > 0 then cfg.instructions[|cfg.instructions| - 1]
                    else if cfg.addDocker then "rm -rf docker/"
                    else if cfg.addMount then "ADD . " + cfg.workDir
                    else "FROM " + cfg.sourceImage);
    if n == 1 {
      assert Join(xs, "\n") == last;
      assert last[|last| - 1] in last;
    } else {
      assert xs == xs[..n - 1] + [last];
      JoinSnoc(xs[..n - 1], last, "\n");
      if |last| > 0 {
        assert last[|last| - 1] in last;
      }
    }
  }
}
