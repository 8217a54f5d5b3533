/** The stages that append fixed-shape options to the argument vector:
    `defaultParams` (lope.go:224-241), the appends of `commandProxy`
    (lope.go:376-393), `addVolumes` (lope.go:243-264), `addUserAndGroup`
    (lope.go:266-287) and `runParams` (lope.go:289-291). */
module Params {
  import opened Wrappers
  import opened Strings
  import opened Seqs
  import opened Config

  /** `defaultParams`: a removed-on-exit, interactive `docker run` with the
      configured entrypoint and working directory on the host network, plus
      a pseudo-terminal exactly when `tty` is requested. */
  function DefaultParams(l: Lope): (r: Lope)
    ensures r.cfg == l.cfg && r.dockerfile == l.dockerfile && r.envs == l.envs
    ensures r.params == l.params
      + ["docker", "run", "--rm", "--interactive",
         "--entrypoint", l.cfg.entrypoint, "--workdir", l.cfg.workDir, "--net", "host"]
      + (if l.cfg.tty then ["--tty"] else [])
  {
    var params := l.params + ["docker", "run", "--rm", "--interactive"]
      + ["--entrypoint", l.cfg.entrypoint]
      + ["--workdir", l.cfg.workDir]
      + ["--net", "host"];
    var params := if l.cfg.tty then params + ["--tty"] else params;
    l.(params := params)
  }

  /** The environment key that carries the command proxy's address. */
  const ProxyAddrKey: string := "LOPE_PROXY_ADDR"

  /** The command proxy's base URL on the host's outbound address. */
  function ProxyUrl(ip: string, port: string): string
  {
    "http://" + ip + ":" + port
  }

  /** The appends of `commandProxy`, with the host's outbound address as an
      input: a host alias for `localhost`, and an environment entry whose
      key is `LOPE_PROXY_ADDR` and whose value is the proxy URL, staged in
      the snapshot so that it is cleaned and filtered like the others.
      When the proxy is off the state is unchanged. */
  function CommandProxy(l: Lope, host: Host): (r: Lope)
    ensures r.cfg == l.cfg && r.dockerfile == l.dockerfile
    ensures !l.cfg.cmdProxy ==> r == l
    ensures l.cfg.cmdProxy ==> r.params == l.params + ["--add-host=localhost:" + host.ip]
    ensures l.cfg.cmdProxy ==>
      && |r.envs| == |l.envs| + 1 && r.envs[..|l.envs|] == l.envs
      && KeyOf(r.envs[|l.envs|]) == ProxyAddrKey
      && r.envs[|l.envs|] == ProxyAddrKey + "=" + ProxyUrl(host.ip, l.cfg.cmdProxyPort)
  {
    if !l.cfg.cmdProxy then l
    else
      var entry := ProxyAddrKey + "=" + ProxyUrl(host.ip, l.cfg.cmdProxyPort);
      KeyOfEntry(ProxyAddrKey, ProxyUrl(host.ip, l.cfg.cmdProxyPort));
      assert (l.envs + [entry])[..|l.envs|] == l.envs;
      l.(params := l.params + ["--add-host=localhost:" + host.ip], envs := l.envs + [entry])
  }

  /** The bind specification for a candidate path under the home directory. */
  function Binding(home: string, p: string): string
  {
    home + p + ":/root/" + p
  }

  /** A candidate is mounted when `home + p` exists on the host. */
  predicate Probe(existing: set<string>, home: string, p: string)
  {
    home + p in existing
  }

  function Exists(existing: set<string>, home: string): string -> bool
  {
    p => Probe(existing, home, p)
  }

  function Bindings(home: string): string -> string
  {
    p => Binding(home, p)
  }

  /** Every odd position of `s` (the value after each `-v`) is the binding of
      a candidate path that exists on the host. */
  predicate OddsBindExisting(s: seq<string>, home: string, paths: seq<string>, existing: set<string>)
  {
    forall j :: 0 <= j < |s| && j % 2 == 1 ==> BindsExisting(s[j], home, paths, existing)
  }

  /** `v` is the binding of some candidate path that exists on the host. */
  predicate BindsExisting(v: string, home: string, paths: seq<string>, existing: set<string>)
  {
    exists i :: 0 <= i < |paths| && Probe(existing, home, paths[i]) && v == Binding(home, paths[i])
  }

  /** The `-v` options for the candidate paths, built path by path in input
      order as the source's loop appends them (lope.go:244-251). Options
      alternate `-v` and the binding of a candidate that exists. */
  function HomeVolumes(home: string, paths: seq<string>, existing: set<string>): (r: seq<string>)
    ensures |r| % 2 == 0 && |r| <= 2 * |paths|
    ensures forall j :: 0 <= j < |r| && j % 2 == 0 ==> r[j] == "-v"
    ensures OddsBindExisting(r, home, paths, existing)
    decreases |paths|
  {
    if |paths| == 0 then []
    else
      var head := if Probe(existing, home, paths[0]) then ["-v", Binding(home, paths[0])] else [];
      var rest := HomeVolumes(home, paths[1..], existing);
      ConsBindings(home, paths, existing, head, rest);
      head + rest
  }

  /** One step of `HomeVolumes`: a pair for the first candidate in front of
      options that bind existing later candidates binds existing candidates. */
  lemma ConsBindings(home: string, paths: seq<string>, existing: set<string>, head: seq<string>, rest: seq<string>)
    requires |paths| > 0
    requires head == (if Probe(existing, home, paths[0]) then ["-v", Binding(home, paths[0])] else [])
    requires |rest| % 2 == 0
    requires OddsBindExisting(rest, home, paths[1..], existing)
    ensures OddsBindExisting(head + rest, home, paths, existing)
  {
    var r := head + rest;
    forall j | 0 <= j < |r| && j % 2 == 1
      ensures BindsExisting(r[j], home, paths, existing)
    {
      if j < |head| {
        assert Probe(existing, home, paths[0]) && j == 1;
        assert r[j] == Binding(home, paths[0]);
      } else {
        var k := j - |head|;
        assert |head| == 0 || |head| == 2;
        assert k % 2 == 1 && k < |rest| && r[j] == rest[k];
        var i :| 0 <= i < |paths[1..]| && Probe(existing, home, paths[1..][i]) && rest[k] == Binding(home, paths[1..][i]);
        assert paths[1..][i] == paths[i + 1];
      }
    }
  }

  /** The fixed volumes after the candidates: the working directory when
      bind-mounted, the docker socket when exposed, the SSH agent volume when
      forwarding is on, in that order (lope.go:252-263). */
  function FixedVolumes(cfg: Config): seq<string>
  {
    (if cfg.mount then ["-v", cfg.dir + ":" + cfg.workDir] else [])
    + (if cfg.docker then ["-v", cfg.dockerSocket + ":/var/run/docker.sock"] else [])
    + (if cfg.ssh then ["-v", SshAgentVolume] else [])
  }

  /** The named volume shared with the SSH helper container. */
  const SshAgentVolume: string := "lope-ssh-agent:/ssh-agent"

  /** `addVolumes`, with the existence probe as an input: appends the
      candidate volumes and then the fixed ones; nothing else changes. */
  function AddVolumes(l: Lope, host: Host): (r: Lope)
    ensures r.cfg == l.cfg && r.dockerfile == l.dockerfile && r.envs == l.envs
    ensures |l.params| <= |r.params| && r.params[..|l.params|] == l.params
  {
    var params := l.params + HomeVolumes(l.cfg.home, l.cfg.paths, host.existing) + FixedVolumes(l.cfg);
    assert params[..|l.params|] == l.params;
    l.(params := params)
  }

  /** The candidate options are the `-v` pairing of the bindings of exactly
      the existing candidates, in input order. */
  lemma {:induction false} HomeVolumesArePairsOfExisting(home: string, paths: seq<string>, existing: set<string>)
    ensures HomeVolumes(home, paths, existing)
      == Pairs("-v", Map(Filter(paths, Exists(existing, home)), Bindings(home)))
    decreases |paths|
  {
    if |paths| > 0 {
      HomeVolumesArePairsOfExisting(home, paths[1..], existing);
      var kept := Filter(paths[1..], Exists(existing, home));
      var head := if Probe(existing, home, paths[0]) then [paths[0]] else [];
      assert Filter(paths, Exists(existing, home)) == head + kept;
      MapConcat(head, kept, Bindings(home));
      PairsConcat("-v", Map(head, Bindings(home)), Map(kept, Bindings(home)));
    }
  }

  /** `addVolumes` appends, in this order: the bindings of the existing
      candidates in input order, the working directory iff `mount`, the
      docker socket iff `docker`, and the SSH agent volume iff `ssh`. */
  lemma AddVolumesOrder(l: Lope, host: Host)
    ensures AddVolumes(l, host).params == l.params
      + Pairs("-v", Map(Filter(l.cfg.paths, Exists(host.existing, l.cfg.home)), Bindings(l.cfg.home)))
      + FixedVolumes(l.cfg)
  {
    HomeVolumesArePairsOfExisting(l.cfg.home, l.cfg.paths, host.existing);
  }

  /** Distinct candidates have distinct bindings. */
  lemma BindingInjective(home: string, p: string, q: string)
    requires Binding(home, p) == Binding(home, q)
    ensures p == q
  {
    var b := Binding(home, p);
    assert |b| == |home| + 2 * |p| + 7;
    assert |Binding(home, q)| == |home| + 2 * |q| + 7;
    assert b[|home|..|home| + |p|] == p;
    assert Binding(home, q)[|home|..|home| + |q|] == q;
  }

  /** A binding is among the paired bindings of `kept` exactly when its
      candidate is in `kept`. */
  lemma PairedBindingIffKept(home: string, kept: seq<string>, p: string)
    ensures Binding(home, p) in Pairs("-v", Map(kept, Bindings(home))) <==> p in kept
  {
    var b := Map(kept, Bindings(home));
    var r := Pairs("-v", b);
    if p in kept {
      var i :| 0 <= i < |kept| && kept[i] == p;
      PairsAt("-v", b, i);
    }
    if Binding(home, p) in r {
      var j :| 0 <= j < |r| && r[j] == Binding(home, p);
      var i := j / 2;
      PairsAt("-v", b, i);
      if j == 2 * i {
        assert false;
      } else {
        assert r[2 * i + 1] == b[i] == Binding(home, kept[i]);
        BindingInjective(home, p, kept[i]);
      }
    }
  }

  /** A candidate's binding is among the candidate options exactly when the
      candidate was asked for and exists on the host: a missing path is never
      mounted. */
  lemma CandidateMountedIffExists(home: string, paths: seq<string>, existing: set<string>, p: string)
    ensures Binding(home, p) in HomeVolumes(home, paths, existing) <==> p in paths && home + p in existing
  {
    HomeVolumesArePairsOfExisting(home, paths, existing);
    FilterMembership(paths, Exists(existing, home), p);
    PairedBindingIffKept(home, Filter(paths, Exists(existing, home)), p);
  }

  /** `addUserAndGroup`, with the user and group lookups as inputs: nothing
      is appended when running as root or when the current user cannot be
      resolved; otherwise one `--user=uid:gid` option whose gid is the
      `docker` group's when that group exists and the user's own otherwise. */
  function AddUserAndGroup(l: Lope, host: Host): (r: Lope)
    ensures r.cfg == l.cfg && r.dockerfile == l.dockerfile && r.envs == l.envs
    ensures l.cfg.root || host.user.None? ==> r.params == l.params
    ensures !l.cfg.root && host.user.Some? ==>
      r.params == l.params + ["--user=" + host.user.value.uid + ":" + host.dockerGroupGid.GetOr(host.user.value.gid)]
  {
    if l.cfg.root then l
    else
      match host.user
      case None => l
      case Some(u) =>
        var groupID := if host.dockerGroupGid.Some? then host.dockerGroupGid.value else u.gid;
        l.(params := l.params + ["--user=" + u.uid + ":" + groupID])
  }

  /** `runParams`: appends the target image, `-c`, and the command tokens
      joined by single spaces into one string. */
  function RunParams(l: Lope): (r: Lope)
    ensures r.cfg == l.cfg && r.dockerfile == l.dockerfile && r.envs == l.envs
    ensures |r.params| == |l.params| + 3 && r.params[..|l.params|] == l.params
    ensures r.params[|l.params|] == l.cfg.image && r.params[|l.params| + 1] == "-c"
    ensures r.params[|l.params| + 2] == Join(l.cfg.cmd, " ")
  {
    l.(params := l.params + [l.cfg.image, "-c", Join(l.cfg.cmd, " ")])
  }

  /** The joined command reads back as the original tokens exactly when
      there is at least one token and none holds a space; a token with an
      embedded space is split apart again by the shell-side reading. */
  lemma RunParamsReadsBack(l: Lope)
    ensures var line := RunParams(l).params[|l.params| + 2];
      (Split(line, ' ') == l.cfg.cmd) <==> (|l.cfg.cmd| >= 1 && forall i :: 0 <= i < |l.cfg.cmd| ==> ' ' !in l.cfg.cmd[i])
  {
    var cmd := l.cfg.cmd;
    if |cmd| >= 1 && forall i :: 0 <= i < |cmd| ==> ' ' !in cmd[i] {
      SplitJoin(cmd, ' ');
    }
  }
}
