/**
 * The access decision taken by the root handler: a JA3 digest is checked
 * against the operator's whitelist and blacklist (ja3rp.go, lines 22-32 and 41).
 */
module Access {

  /** Outcome of the access check. */
  datatype Verdict = Accepted | Forbidden

  /** Exact, case-sensitive membership of a digest in a list, as the `inArray` helper does. */
  function InArray(needle: string, haystack: seq<string>): (found: bool)
    ensures found <==> needle in haystack
  {
    if haystack == [] then false
    else haystack[0] == needle || InArray(needle, haystack[1..])
  }

  /**
   * The condition of ja3rp.go line 41: a blacklisted digest is refused, and a
   * non-empty whitelist admits only its own members.
   */
  function Decide(digest: string, whitelist: seq<string>, blacklist: seq<string>): (v: Verdict)
    // the blacklist takes precedence over the whitelist
    ensures digest in blacklist ==> v == Forbidden
    // an empty whitelist imposes no restriction
    ensures digest !in blacklist && whitelist == [] ==> v == Accepted
    // a non-empty whitelist admits exactly its members
    ensures digest !in blacklist && whitelist != [] ==> (v == Accepted <==> digest in whitelist)
  {
    if InArray(digest, blacklist) || (|whitelist| > 0 && !InArray(digest, whitelist)) then Forbidden
    else Accepted
  }

  /** The decision rule stated on sets: allow-set and deny-set, membership only. */
  ghost function DecideOnSets(digest: string, allow: set<string>, deny: set<string>): Verdict
  {
    if digest in deny then Forbidden
    else if allow != {} && digest !in allow then Forbidden
    else Accepted
  }

  /** The entries of a list, as a set. */
  ghost function Elements(s: seq<string>): set<string>
  {
    set x | x in s
  }

  /** Deciding over the lists agrees with deciding over the sets of their entries. */
  lemma DecideMatchesSets(digest: string, whitelist: seq<string>, blacklist: seq<string>)
    ensures Decide(digest, whitelist, blacklist) == DecideOnSets(digest, Elements(whitelist), Elements(blacklist))
  {
    if whitelist != [] {
      assert whitelist[0] in Elements(whitelist);
    }
  }

  /** Reordering or duplicating entries of either list does not change the verdict. */
  lemma DecideDependsOnlyOnMembership(digest: string, w1: seq<string>, b1: seq<string>, w2: seq<string>, b2: seq<string>)
    requires forall x :: x in w1 <==> x in w2
    requires forall x :: x in b1 <==> x in b2
    ensures Decide(digest, w1, b1) == Decide(digest, w2, b2)
  {
    if w1 != [] {
      assert w1[0] in w2;
    }
    if w2 != [] {
      assert w2[0] in w1;
    }
  }

  /** Growing the blacklist can only turn an accepted digest into a forbidden one. */
  lemma BlacklistMonotone(digest: string, whitelist: seq<string>, blacklist: seq<string>, extra: seq<string>)
    ensures Decide(digest, whitelist, blacklist) == Forbidden ==> Decide(digest, whitelist, blacklist + extra) == Forbidden
  {
  }

  /** Growing a non-empty whitelist can only turn a forbidden digest into an accepted one. */
  lemma WhitelistWidening(digest: string, whitelist: seq<string>, blacklist: seq<string>, extra: seq<string>)
    requires whitelist != []
    ensures Decide(digest, whitelist, blacklist) == Accepted ==> Decide(digest, whitelist + extra, blacklist) == Accepted
  {
  }

  /** The digest the tests expect from Go's own TLS client. */
  const GoJA3Hash: string := "473cd7cb9faa642487833865d516e578"

  /** The two whitelist configurations of the whitelist test. */
  lemma WhitelistScenarios()
    ensures Decide(GoJA3Hash, ["a", "b", "c"], []) == Forbidden
    ensures Decide(GoJA3Hash, [GoJA3Hash], []) == Accepted
  {
  }

  /** The two blacklist configurations of the blacklist test. */
  lemma BlacklistScenarios()
    ensures Decide(GoJA3Hash, [], ["a", "b", "c"]) == Accepted
    ensures Decide(GoJA3Hash, [], [GoJA3Hash]) == Forbidden
  {
  }
}
