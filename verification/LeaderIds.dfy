/** How the launcher derives a leader id from an owner id, and which ids a controller recognises. */
module LeaderIds {
  import opened Records
  import P = Protocol

  const CONTROLLER := "controller-"
  const WORKER := "worker-"

  /** Which characters `str.strip` removes; all that matters is that no prefix character is one. */
  ghost predicate Sane(space: char -> bool) {
    forall c :: c in CONTROLLER + WORKER ==> !space(c)
  }

  function LStrip(space: char -> bool, s: string): (r: string)
    ensures r == [] || !space(r[0])
    ensures |r| <= |s| && r == s[|s| - |r|..]
    ensures forall i :: 0 <= i < |s| - |r| ==> space(s[i])
    ensures s != [] && !space(s[0]) ==> r == s
  {
    if s == [] || !space(s[0]) then s else LStrip(space, s[1..])
  }

  function RStrip(space: char -> bool, s: string): (r: string)
    ensures r == [] || !space(r[|r| - 1])
    ensures r <= s
    ensures forall i :: |r| <= i < |s| ==> space(s[i])
    ensures s != [] && !space(s[|s| - 1]) ==> r == s
    ensures s != [] && !space(s[0]) ==> r != []
  {
    if s == [] || !space(s[|s| - 1]) then s else RStrip(space, s[..|s| - 1])
  }

  function Strip(space: char -> bool, s: string): string {
    RStrip(space, LStrip(space, s))
  }

  /** An id that strip leaves alone, as the lease and election constructors keep theirs. */
  predicate Stripped(space: char -> bool, s: string) {
    s != [] && !space(s[0]) && !space(s[|s| - 1])
  }

  /** The text behind the first `n` characters, or `otherwise` when nothing is there. */
  function Behind(s: string, n: nat, otherwise: string): string
    requires n <= |s|
  {
    if s[n..] == "" then otherwise else s[n..]
  }

  function BuildLeaderId(space: char -> bool, controller: bool, ownerId: string): string {
    var stripped := Strip(space, ownerId);
    Prefixed(controller, if stripped == "" then ownerId else stripped, stripped)
  }

  function Prefixed(controller: bool, owner: string, stripped: string): string {
    if controller then
      if CONTROLLER <= owner then owner
      else if WORKER <= owner then CONTROLLER + Behind(owner, |WORKER|, stripped)
      else CONTROLLER + owner
    else
      if WORKER <= owner then owner
      else if CONTROLLER <= owner then WORKER + Behind(owner, |CONTROLLER|, stripped)
      else WORKER + owner
  }

  predicate IsController(space: char -> bool, leaderId: string) {
    var value := Strip(space, leaderId);
    value != "" && !(WORKER <= value)
  }

  lemma PrefixSurvives(space: char -> bool, prefix: string, s: string)
    requires prefix != [] && prefix <= s && !space(prefix[0]) && !space(prefix[|prefix| - 1])
    ensures prefix <= Strip(space, s)
  {
    assert s[0] == prefix[0];
    RStripKeeps(space, prefix, s);
  }

  lemma {:induction false} RStripKeeps(space: char -> bool, prefix: string, s: string)
    requires prefix != [] && prefix <= s && !space(prefix[|prefix| - 1])
    ensures prefix <= RStrip(space, s)
  {
    if space(s[|s| - 1]) {
      assert |prefix| < |s|;
      RStripKeeps(space, prefix, s[..|s| - 1]);
    }
  }

  lemma StripTwice(space: char -> bool, s: string)
    ensures Strip(space, Strip(space, s)) == Strip(space, s)
    ensures Strip(space, s) == "" || Stripped(space, Strip(space, s))
  {
    var l := LStrip(space, s);
    if l != [] {
      assert RStrip(space, l)[0] == l[0];
    }
  }

  lemma PrefixCharacters(space: char -> bool, prefix: string)
    requires Sane(space) && (prefix == CONTROLLER || prefix == WORKER)
    ensures !space(prefix[0]) && !space(prefix[|prefix| - 1])
  {
    assert prefix[0] in CONTROLLER + WORKER && prefix[|prefix| - 1] in CONTROLLER + WORKER;
  }

  lemma PrefixBuilt(space: char -> bool, controller: bool, ownerId: string)
    ensures (if controller then CONTROLLER else WORKER) <= BuildLeaderId(space, controller, ownerId)
  {
  }

  lemma OneRole(s: string)
    ensures !(CONTROLLER <= s && WORKER <= s)
  {
    if CONTROLLER <= s {
      assert s[0] == CONTROLLER[0] == 'c';
    }
  }

  lemma PrefixDecides(space: char -> bool, controller: bool, id: string)
    requires Sane(space) && (if controller then CONTROLLER else WORKER) <= id
    ensures IsController(space, id) == controller
  {
    var prefix := if controller then CONTROLLER else WORKER;
    PrefixCharacters(space, prefix);
    PrefixSurvives(space, prefix, id);
    OneRole(Strip(space, id));
  }

  /** Every id built in a controller mode is recognised as a controller's, every other one is not, for any
      owner id, and also after the stripping the election applies. */
  lemma BuiltIdsAreToldApart(space: char -> bool, controller: bool, ownerId: string)
    requires Sane(space)
    ensures IsController(space, BuildLeaderId(space, controller, ownerId)) == controller
    ensures IsController(space, Strip(space, BuildLeaderId(space, controller, ownerId))) == controller
  {
    PrefixBuilt(space, controller, ownerId);
    PrefixDecides(space, controller, BuildLeaderId(space, controller, ownerId));
    StripTwice(space, BuildLeaderId(space, controller, ownerId));
  }

  /** The ids the validator accepts: those with something in them whose first characters, white space aside, are not
      the worker prefix. */
  lemma AcceptsExactly(space: char -> bool, id: string)
    requires Sane(space)
    ensures IsController(space, id) <==>
            exists i :: Begins(space, id, i) && !(WORKER <= id[i..])
  {
    var front := LStrip(space, id);
    var n := |id| - |front|;
    assert IsController(space, id) <==> front != [] && !(WORKER <= front) by {
      if front != [] && WORKER <= front {
        PrefixCharacters(space, WORKER);
        RStripKeeps(space, WORKER, front);
      }
    }
    if front != [] {
      assert id[n] == front[0];
      assert Begins(space, id, n);
    }
    assert forall j :: 0 <= j < n ==> space(id[j]);
    forall i | Begins(space, id, i) ensures i == n && front != [] {
    }
  }

  /** The first character that is no white space is at `i`. */
  ghost predicate Begins(space: char -> bool, id: string, i: int) {
    0 <= i < |id| && !space(id[i]) && forall j :: 0 <= j < i ==> space(id[j])
  }

  /** An id that is the bare prefix of the other role is kept behind one's own, and so is one of white space only. */
  lemma OddIdsAreKept(space: char -> bool, controller: bool, ownerId: string)
    requires Sane(space) && (ownerId == Prefix(!controller) || Strip(space, ownerId) == "")
    ensures BuildLeaderId(space, controller, ownerId) == Prefix(controller) + ownerId
  {
    if ownerId == Prefix(!controller) {
      PrefixCharacters(space, ownerId);
      OneRole(ownerId);
    } else {
      BlankHasNoPrefix(space, ownerId, CONTROLLER);
      BlankHasNoPrefix(space, ownerId, WORKER);
    }
  }

  lemma BlankHasNoPrefix(space: char -> bool, s: string, prefix: string)
    requires Sane(space) && Strip(space, s) == "" && (prefix == CONTROLLER || prefix == WORKER)
    ensures !(prefix <= s)
  {
    if prefix <= s {
      PrefixCharacters(space, prefix);
      PrefixSurvives(space, prefix, s);
    }
  }

  function Prefix(controller: bool): string {
    if controller then CONTROLLER else WORKER
  }

  /** What is left of an owner id when one role prefix is taken off. An id that is the bare prefix of the other role
      keeps it. */
  function Root(controller: bool, owner: string): string {
    if Prefix(controller) <= owner then owner[|Prefix(controller)|..]
    else if Prefix(!controller) <= owner then Behind(owner, |Prefix(!controller)|, owner)
    else owner
  }

  lemma BuildIsRoot(space: char -> bool, controller: bool, owner: string)
    requires Stripped(space, owner)
    ensures BuildLeaderId(space, controller, owner) == Prefix(controller) + Root(controller, owner)
  {
    assert Strip(space, owner) == owner;
    PrefixedIsRoot(controller, owner);
  }

  lemma PrefixedIsRoot(controller: bool, owner: string)
    ensures Prefixed(controller, owner, owner) == Prefix(controller) + Root(controller, owner)
  {
    OneRole(owner);
    if Prefix(controller) <= owner {
      assert owner == Prefix(controller) + owner[|Prefix(controller)|..];
    }
  }

  /** White space around an owner id plays no part. */
  lemma BuildStrips(space: char -> bool, controller: bool, ownerId: string)
    requires Strip(space, ownerId) != ""
    ensures BuildLeaderId(space, controller, ownerId)
            == Prefix(controller) + Root(controller, Strip(space, ownerId))
  {
    PrefixedIsRoot(controller, Strip(space, ownerId));
  }

  /** Two processes of one role get the same leader id exactly when their owner ids differ in at most a role prefix:
      distinct owner ids are not enough. */
  lemma SameLeaderIdExactly(space: char -> bool, controller: bool, a: string, b: string)
    requires Stripped(space, a) && Stripped(space, b)
    ensures BuildLeaderId(space, controller, a) == BuildLeaderId(space, controller, b)
            <==> Root(controller, a) == Root(controller, b)
  {
    BuildIsRoot(space, controller, a);
    BuildIsRoot(space, controller, b);
    Prepended(Prefix(controller), Root(controller, a));
    Prepended(Prefix(controller), Root(controller, b));
  }

  lemma Prepended(prefix: string, x: string)
    ensures prefix <= prefix + x && (prefix + x)[|prefix|..] == x
  {
  }

  lemma RootBehindPrefix(controller: bool, behind: bool, x: string)
    requires x != ""
    ensures Root(controller, Prefix(behind) + x) == x
  {
    Prepended(Prefix(behind), x);
    OneRole(Prefix(behind) + x);
  }

  /** In either role an id without a prefix, and the same one behind the prefix of either role, give one leader id. */
  lemma DistinctOwnersCollide(space: char -> bool, controller: bool, behind: bool, x: string)
    requires Stripped(space, x) && Stripped(space, Prefix(behind) + x) && !(CONTROLLER <= x) && !(WORKER <= x)
    ensures BuildLeaderId(space, controller, Prefix(behind) + x) == BuildLeaderId(space, controller, x)
            == Prefix(controller) + x
  {
    RootBehindPrefix(controller, behind, x);
    BuildIsRoot(space, controller, Prefix(behind) + x);
    BuildIsRoot(space, controller, x);
  }

  /** The premises of leader safety hold for controllers whose owner ids have different roots. */
  lemma ControllersAreGood(space: char -> bool, ownerIds: map<P.Pid, string>, cfg: P.Config)
    requires Sane(space)
    requires cfg.role.LeaderRole? && cfg.owners.Keys == cfg.ttls.Keys == ownerIds.Keys
    requires 1 <= cfg.leastTtl && forall p :: p in cfg.ttls ==> cfg.leastTtl <= cfg.ttls[p]
    requires forall o: Owner :: cfg.accepts(o) == IsController(space, o.name)
    requires forall p :: p in ownerIds ==>
               Stripped(space, ownerIds[p]) && cfg.owners[p] == Owner(BuildLeaderId(space, true, ownerIds[p]))
    requires forall p, q :: p in ownerIds && q in ownerIds && p != q ==>
               Root(true, ownerIds[p]) != Root(true, ownerIds[q])
    ensures P.GoodConfig(cfg)
  {
    forall p | p in cfg.owners ensures cfg.accepts(cfg.owners[p]) {
      BuiltIdsAreToldApart(space, true, ownerIds[p]);
    }
    forall p, q ensures P.Distinct(cfg, p, q) {
      if p in ownerIds && q in ownerIds && p != q {
        SameLeaderIdExactly(space, true, ownerIds[p], ownerIds[q]);
      }
    }
  }
}
