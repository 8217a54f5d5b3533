/** Worked cases for the environment stages, the ones the repository's unit
    tests exercise (lope_test.go:182-258 and lope_test.go:459-503), stated
    against the model. */
module Scenarios {
  import opened Strings
  import opened Seqs
  import opened Env

  /** The environment entry `k=v`. */
  function Entry(k: string, v: string): string
  {
    k + "=" + v
  }

  /** Keys the cleaning pattern keeps and rejects. Since the pattern is read
      literally, a digit may only be the last character. */
  lemma KeyExamples()
    ensures ValidKey("TEST") && ValidKey("ENV1") && ValidKey("_X")
    ensures !ValidKey("T:EST") && !ValidKey("A") && !ValidKey("AB12") && !ValidKey("A1B")
  {
    assert !IsLetterOrUnderscore("AB12"[2]);
    assert !IsLetterOrUnderscore("A1B"[1]);
    assert !IsLetterOrUnderscore("T:EST"[1]);
  }

  /** Only the key decides: an entry whose value holds a colon is kept, one
      whose key holds a colon is dropped. */
  lemma CleanExamples()
    ensures Filter([Entry("TEST", "hello"), Entry("T:EST", "hello")], ValidEntry) == [Entry("TEST", "hello")]
    ensures Filter([Entry("TEST", "he:llo")], ValidEntry) == [Entry("TEST", "he:llo")]
  {
    KeyExamples();
    OnlyKeyIsChecked("TEST", "hello");
    OnlyKeyIsChecked("T:EST", "hello");
    OnlyKeyIsChecked("TEST", "he:llo");
    var s := [Entry("TEST", "hello"), Entry("T:EST", "hello")];
    assert s[1..][1..] == [];
  }

  /** A one-pattern list matches exactly what its pattern matches. */
  lemma SinglePattern(p: string, key: string)
    ensures AnyMatches([p], key) <==> Contains(key, p)
  {
    assert [p][0] == p;
  }

  /** The verdict on `k=v` is the policy's verdict on the key `k`. */
  lemma Verdict(k: string, v: string, blacklist: seq<string>, whitelist: seq<string>)
    requires '=' !in k
    ensures Admitted(Entry(k, v), blacklist, whitelist)
        <==> !AnyMatches(blacklist, k) && (|whitelist| == 0 || AnyMatches(whitelist, k))
  {
    KeyOfEntry(k, v);
  }

  /** `ENV` occurs in `ENV1` and `ENV2`, and `ENV1` in itself. */
  lemma PositiveMatches()
    ensures Contains("ENV1", "ENV") && Contains("ENV2", "ENV") && Contains("ENV1", "ENV1")
  {
    assert "ENV" <= "ENV1";
    assert "ENV" <= "ENV2";
  }

  /** Neither `ENV` nor `ENV1` occurs in the shorter `NO`, and `ENV1` does
      not occur in `ENV2`. */
  lemma NegativeMatches()
    ensures !Contains("NO", "ENV") && !Contains("NO", "ENV1") && !Contains("ENV2", "ENV1")
  {
    if Contains("NO", "ENV") {
      ContainsNoLonger("NO", "ENV");
    }
    if Contains("NO", "ENV1") {
      ContainsNoLonger("NO", "ENV1");
    }
    if Contains("ENV2", "ENV1") {
      ContainsNoLonger("ENV2", "ENV1");
    }
  }

  /** The verdicts behind the whitelist case: `ENV` matches inside `ENV1`
      and `ENV2` but not `NO`. */
  lemma WhitelistVerdicts()
    ensures Admitted(Entry("ENV1", "hello1"), [], ["ENV"])
    ensures Admitted(Entry("ENV2", "hello2"), [], ["ENV"])
    ensures !Admitted(Entry("NO", "no"), [], ["ENV"])
  {
    PositiveMatches();
    NegativeMatches();
    SinglePattern("ENV", "ENV1");
    SinglePattern("ENV", "ENV2");
    SinglePattern("ENV", "NO");
    Verdict("ENV1", "hello1", [], ["ENV"]);
    Verdict("ENV2", "hello2", [], ["ENV"]);
    Verdict("NO", "no", [], ["ENV"]);
  }

  /** The verdicts behind the blacklist case: `ENV1` is blacklisted, `ENV2`
      is whitelisted and not blacklisted, `NO` is not whitelisted. */
  lemma BlacklistVerdicts()
    ensures !Admitted(Entry("ENV1", "hello1"), ["ENV1"], ["ENV"])
    ensures Admitted(Entry("ENV2", "hello2"), ["ENV1"], ["ENV"])
    ensures !Admitted(Entry("NO", "no"), ["ENV1"], ["ENV"])
  {
    PositiveMatches();
    NegativeMatches();
    SinglePattern("ENV", "ENV2");
    SinglePattern("ENV", "NO");
    SinglePattern("ENV1", "ENV1");
    SinglePattern("ENV1", "ENV2");
    Verdict("ENV1", "hello1", ["ENV1"], ["ENV"]);
    Verdict("ENV2", "hello2", ["ENV1"], ["ENV"]);
    Verdict("NO", "no", ["ENV1"], ["ENV"]);
  }

  /** Filtering a three-element list, verdict by verdict. */
  lemma FilterThree(a: string, b: string, c: string, p: string -> bool)
    ensures Filter([a, b, c], p)
         == (if p(a) then [a] else []) + (if p(b) then [b] else []) + (if p(c) then [c] else [])
  {
    assert [c][1..] == [];
    assert Filter([c], p) == (if p(c) then [c] else []);
    assert [b, c][1..] == [c];
    assert Filter([b, c], p) == (if p(b) then [b] else []) + Filter([c], p);
    assert [a, b, c][1..] == [b, c];
    assert Filter([a, b, c], p) == (if p(a) then [a] else []) + Filter([b, c], p);
  }

  /** A whitelist pattern matches anywhere in the key; the entries are
      passed whole. */
  lemma WhitelistExample()
    ensures Filter([Entry("ENV1", "hello1"), Entry("ENV2", "hello2"), Entry("NO", "no")], Admits([], ["ENV"]))
         == [Entry("ENV1", "hello1"), Entry("ENV2", "hello2")]
  {
    WhitelistVerdicts();
    FilterThree(Entry("ENV1", "hello1"), Entry("ENV2", "hello2"), Entry("NO", "no"), Admits([], ["ENV"]));
  }

  /** A blacklist match overrides a whitelist match. */
  lemma BlacklistOverridesExample()
    ensures Filter([Entry("ENV1", "hello1"), Entry("ENV2", "hello2"), Entry("NO", "no")], Admits(["ENV1"], ["ENV"]))
         == [Entry("ENV2", "hello2")]
  {
    BlacklistVerdicts();
    FilterThree(Entry("ENV1", "hello1"), Entry("ENV2", "hello2"), Entry("NO", "no"), Admits(["ENV1"], ["ENV"]));
  }
}
