/** The environment stages: `cleanEnvVars` (lope.go:178-188), which drops
    entries whose key the shell cannot name, and `addEnvVars`
    (lope.go:190-222), which passes the remaining entries through the
    blacklist/whitelist policy as `-e` options. */
module Env {
  import opened Strings
  import opened Seqs
  import opened Config

  predicate IsLetterOrUnderscore(ch: char)
  {
    ('a' <= ch <= 'z') || ('A' <= ch <= 'Z') || ch == '_'
  }

  predicate IsWordChar(ch: char)
  {
    IsLetterOrUnderscore(ch) || ('0' <= ch <= '9')
  }

  /** The key pattern `^[a-zA-Z_]+[a-zA-Z0-9_]$` (lope.go:181) read
      literally: at least two characters, every one but the last a letter
      or `_`, the last a letter, digit or `_`. So "A", "AB12" and "A1B" are
      all rejected. */
  predicate ValidKey(k: string)
  {
    && |k| >= 2
    && (forall i :: 0 <= i < |k| - 1 ==> IsLetterOrUnderscore(k[i]))
    && IsWordChar(k[|k| - 1])
  }

  /** The same pattern matched the way a backtracking regex engine reads it:
      `[a-zA-Z_]+` takes one letter, and then either the final
      `[a-zA-Z0-9_]` ends the text or the `+` repeats. */
  predicate MatchesKeyPattern(k: string)
    decreases |k|
  {
    && |k| >= 1
    && IsLetterOrUnderscore(k[0])
    && ((|k| == 2 && IsWordChar(k[1])) || MatchesKeyPattern(k[1..]))
  }

  /** An entry survives `cleanEnvVars` when its key matches the pattern;
      the value is never inspected. */
  predicate ValidEntry(e: string)
  {
    ValidKey(KeyOf(e))
  }

  /** `cleanEnvVars` as a stage: keeps, in order, the entries whose key is
      valid; nothing but the environment changes. */
  function CleanEnvVars(l: Lope): (r: Lope)
    ensures r.cfg == l.cfg && r.dockerfile == l.dockerfile && r.params == l.params
    ensures |r.envs| <= |l.envs|
    ensures forall i :: 0 <= i < |r.envs| ==> r.envs[i] in l.envs && ValidKey(KeyOf(r.envs[i]))
  {
    FilterSound(l.envs, ValidEntry);
    l.(envs := Filter(l.envs, ValidEntry))
  }

  /** The source's loop: walk the snapshot from the end and cut out every
      entry whose key does not match. It leaves exactly the order-preserving
      selection of the valid entries. */
  method CleanEnvVarsInPlace(envs: seq<string>) returns (kept: seq<string>)
    ensures kept == Filter(envs, ValidEntry)
  {
    kept := envs;
    var i := |envs|;
    while i > 0
      invariant 0 <= i <= |envs|
      invariant kept == envs[..i] + Filter(envs[i..], ValidEntry)
      decreases i
    {
      i := i - 1;
      CutStep(envs, kept, i, ValidEntry);
      if !ValidEntry(kept[i]) {
        kept := kept[..i] + kept[i + 1..];
      }
    }
    assert envs[..0] + Filter(envs[0..], ValidEntry) == Filter(envs, ValidEntry);
  }

  /** How one key fares under the policy of lope.go:193-213: blacklist first,
      then the whitelist if there is one. */
  datatype Decision = ExcludedByBlacklist | IncludedByDefault | IncludedByWhitelist | NotWhitelisted
  {
    predicate Passes()
    {
      IncludedByDefault? || IncludedByWhitelist?
    }
  }

  /** `regexp.MatchString(pattern, key)` for a literal pattern: an
      unanchored partial match. */
  predicate Matches(pattern: string, key: string)
  {
    Contains(key, pattern)
  }

  predicate AnyMatches(patterns: seq<string>, key: string)
  {
    exists i :: 0 <= i < |patterns| && Matches(patterns[i], key)
  }

  /** The precedence rule: a blacklist match always excludes; otherwise an
      empty whitelist includes by default, and a non-empty one includes only
      keys it matches. */
  function Decide(key: string, blacklist: seq<string>, whitelist: seq<string>): Decision
  {
    if AnyMatches(blacklist, key) then ExcludedByBlacklist
    else if |whitelist| == 0 then IncludedByDefault
    else if AnyMatches(whitelist, key) then IncludedByWhitelist
    else NotWhitelisted
  }

  /** An entry `addEnvVars` passes: its key is admitted by the policy. */
  predicate Admitted(e: string, blacklist: seq<string>, whitelist: seq<string>)
  {
    Decide(KeyOf(e), blacklist, whitelist).Passes()
  }

  /** `Admitted` as a predicate on whole entries. */
  function Admits(blacklist: seq<string>, whitelist: seq<string>): string -> bool
  {
    e => Admitted(e, blacklist, whitelist)
  }

  /** The source's per-entry decision (lope.go:193-213): a `blacklisted`
      flag set by the first matching blacklist pattern, an `add` flag that
      starts false when there is a whitelist and is set by the first
      matching whitelist pattern. The entry is added when `add` holds and
      `blacklisted` does not, which is the precedence rule. */
  method AdmitKey(name: string, blacklist: seq<string>, whitelist: seq<string>) returns (admitted: bool)
    ensures admitted <==> Decide(name, blacklist, whitelist).Passes()
    ensures AnyMatches(blacklist, name) ==> !admitted
  {
    var add := true;
    var blacklisted := false;
    var i := 0;
    while i < |blacklist|
      invariant 0 <= i <= |blacklist|
      invariant !blacklisted
      invariant forall j :: 0 <= j < i ==> !Matches(blacklist[j], name)
    {
      if Matches(blacklist[i], name) {
        blacklisted := true;
        break;
      }
      i := i + 1;
    }
    assert blacklisted <==> AnyMatches(blacklist, name);
    if |whitelist| > 0 {
      add := false;
    }
    var k := 0;
    while k < |whitelist|
      invariant 0 <= k <= |whitelist|
      invariant add <==> |whitelist| == 0
      invariant forall j :: 0 <= j < k ==> !Matches(whitelist[j], name)
    {
      if Matches(whitelist[k], name) {
        add := true;
        break;
      }
      k := k + 1;
    }
    assert add <==> |whitelist| == 0 || AnyMatches(whitelist, name);
    admitted := add && !blacklisted;
  }

  /** The `-e` options for the entries `admit` accepts, built entry by entry
      in snapshot order as the source's loop appends them (lope.go:191-216).
      Options alternate `-e` and a whole accepted entry of the snapshot. */
  function EnvOptions(envs: seq<string>, admit: string -> bool): (r: seq<string>)
    ensures |r| % 2 == 0 && |r| <= 2 * |envs|
    ensures forall j :: 0 <= j < |r| && j % 2 == 0 ==> r[j] == "-e"
    ensures forall j :: 0 <= j < |r| && j % 2 == 1 ==> r[j] in envs && admit(r[j])
    decreases |envs|
  {
    if |envs| == 0 then []
    else
      var head := if admit(envs[0]) then ["-e", envs[0]] else [];
      var rest := EnvOptions(envs[1..], admit);
      assert forall j :: |head| <= j < |head| + |rest| ==> (head + rest)[j] == rest[j - |head|];
      assert forall j :: 0 <= j < |rest| ==> rest[j] in envs[1..] ==> rest[j] in envs;
      head + rest
  }

  /** The SSH agent socket as seen inside the container (lope.go:219). */
  const SshAuthSockEntry: string := "SSH_AUTH_SOCK=/ssh-agent/ssh-agent.sock"

  /** `addEnvVars`: appends the `-e` options of the admitted entries, then
      the SSH agent socket entry when SSH forwarding is on; nothing else
      changes. */
  function AddEnvVars(l: Lope): (r: Lope)
    ensures r.cfg == l.cfg && r.dockerfile == l.dockerfile && r.envs == l.envs
    ensures |l.params| <= |r.params| && r.params[..|l.params|] == l.params
    ensures l.cfg.ssh ==> |r.params| >= |l.params| + 2 && r.params[|r.params| - 2..] == ["-e", SshAuthSockEntry]
  {
    var opts := EnvOptions(l.envs, Admits(l.cfg.blacklist, l.cfg.whitelist));
    var ssh := if l.cfg.ssh then ["-e", SshAuthSockEntry] else [];
    var params := l.params + opts + ssh;
    assert params[..|l.params|] == l.params;
    l.(params := params)
  }

  /** `addEnvVars` appends the `-e` pairing of exactly the admitted entries,
      in snapshot order and without deduplication, and after them the SSH
      agent socket entry when SSH forwarding is on and nothing otherwise. */
  lemma AddEnvVarsAppendsAdmittedThenSsh(l: Lope)
    ensures AddEnvVars(l).params == l.params
      + Pairs("-e", Filter(l.envs, Admits(l.cfg.blacklist, l.cfg.whitelist)))
      + (if l.cfg.ssh then ["-e", SshAuthSockEntry] else [])
  {
    EnvOptionsArePairsOfAdmitted(l.envs, Admits(l.cfg.blacklist, l.cfg.whitelist));
  }

  /** The option list is the `-e` pairing of exactly the accepted entries,
      in snapshot order, without deduplication. */
  lemma {:induction false} EnvOptionsArePairsOfAdmitted(envs: seq<string>, admit: string -> bool)
    ensures EnvOptions(envs, admit) == Pairs("-e", Filter(envs, admit))
    decreases |envs|
  {
    if |envs| > 0 {
      EnvOptionsArePairsOfAdmitted(envs[1..], admit);
      var head := if admit(envs[0]) then [envs[0]] else [];
      PairsConcat("-e", head, Filter(envs[1..], admit));
    }
  }

  /** The literal reading of the key pattern agrees with its regex reading,
      in both directions. */
  lemma {:induction false} KeyPatternIsLiteral(k: string)
    ensures MatchesKeyPattern(k) <==> ValidKey(k)
    decreases |k|
  {
    if |k| >= 2 {
      KeyPatternIsLiteral(k[1..]);
      if ValidKey(k) && |k| > 2 {
        assert forall i :: 0 <= i < |k[1..]| - 1 ==> k[1..][i] == k[i + 1];
      }
      if MatchesKeyPattern(k[1..]) {
        assert forall i :: 1 <= i < |k| - 1 ==> k[i] == k[1..][i - 1];
      }
    }
  }

  /** `cleanEnvVars` keeps an entry exactly when it was in the snapshot and
      its key is valid, and cleaning twice changes nothing more. */
  lemma CleanEnvVarsKeepsExactlyValid(l: Lope, e: string)
    ensures e in CleanEnvVars(l).envs <==> e in l.envs && ValidKey(KeyOf(e))
    ensures CleanEnvVars(CleanEnvVars(l)) == CleanEnvVars(l)
  {
    FilterMembership(l.envs, ValidEntry, e);
    FilterIdempotent(l.envs, ValidEntry);
  }

  /** Only the key is checked: the value after the first `=` never affects
      whether an entry is kept. */
  lemma OnlyKeyIsChecked(k: string, v: string)
    requires '=' !in k
    ensures ValidEntry(k + "=" + v) <==> ValidKey(k)
  {
    KeyOfEntry(k, v);
  }

  /** A blacklist match excludes the entry whatever the whitelist says. */
  lemma BlacklistWins(e: string, blacklist: seq<string>, whitelist: seq<string>, i: int)
    requires 0 <= i < |blacklist| && Matches(blacklist[i], KeyOf(e))
    ensures !Admitted(e, blacklist, whitelist)
  {
  }

  /** With no blacklist and no whitelist every entry is passed, in order. */
  lemma EmptyPolicyPassesEverything(envs: seq<string>)
    ensures EnvOptions(envs, Admits([], [])) == Pairs("-e", envs)
  {
    EnvOptionsArePairsOfAdmitted(envs, Admits([], []));
    FilterKeepsAll(envs, Admits([], []));
  }

  /** The empty pattern matches every key, so a whitelist holding it (the
      split of an empty `-whitelist` flag is `[""]`) admits every entry the
      blacklist does not exclude. */
  lemma EmptyWhitelistPatternAdmitsAll(e: string, blacklist: seq<string>, whitelist: seq<string>)
    requires "" in whitelist
    requires !AnyMatches(blacklist, KeyOf(e))
    ensures Admitted(e, blacklist, whitelist)
  {
    var i :| 0 <= i < |whitelist| && whitelist[i] == "";
    assert Matches(whitelist[i], KeyOf(e));
  }
}
