/**
 * Company ownership: companies are linked by parent-to-child shares, each
 * active or not (a share is active unless created otherwise). A company's
 * owning users are its own owner when it has no active parent, and
 * otherwise the owners of the topmost companies reached by following
 * active shares upwards.
 */
module Companies {

  type CompanyId = nat
  type UserId = nat

  /** A share: `parent` holds a stake in `child`. */
  datatype Share = Share(id: nat, parent: CompanyId, child: CompanyId, active: bool)

  /** The companies, each with its owner, and the shares between them. */
  datatype Registry = Registry(owner: map<CompanyId, UserId>, shares: set<Share>)

  /** Every share links two known companies. */
  ghost predicate WellFormed(reg: Registry) {
    forall s :: s in reg.shares ==> s.parent in reg.owner && s.child in reg.owner
  }

  /**
   * The modelling assumption that the active shares form no cycle, stated
   * as a ranking: each active share goes from a child to a parent of
   * strictly smaller rank.
   */
  ghost predicate Ranked(reg: Registry, rank: map<CompanyId, nat>) {
    && reg.owner.Keys <= rank.Keys
    && forall s :: s in reg.shares && s.active && s.child in rank && s.parent in rank ==> rank[s.parent] < rank[s.child]
  }

  /** `Company#active_shares`: the active shares in which the company is the child. */
  function ActiveShares(reg: Registry, c: CompanyId): (r: set<Share>)
    ensures r <= reg.shares
    ensures forall s :: s in reg.shares && s.child == c && s.active ==> s in r
    ensures forall s :: s in r ==> s.child == c && s.active
  {
    set s | s in reg.shares && s.child == c && s.active
  }

  /** The parents of the company's active shares. */
  function ActiveParents(reg: Registry, c: CompanyId): (r: set<CompanyId>)
    ensures forall s :: s in ActiveShares(reg, c) ==> s.parent in r
    ensures forall p :: p in r ==> exists s :: s in ActiveShares(reg, c) && s.parent == p
  {
    set s | s in ActiveShares(reg, c) :: s.parent
  }

  /** A company with no active parent is a root of the ownership structure. */
  predicate IsRoot(reg: Registry, c: CompanyId) {
    ActiveParents(reg, c) == {}
  }

  /**
   * `Company#owning_users`: the company's own owner when it has no active
   * parent, otherwise the owning users of its active parents.
   */
  function OwningUsers(reg: Registry, c: CompanyId, ghost rank: map<CompanyId, nat>): (users: set<UserId>)
    requires WellFormed(reg) && Ranked(reg, rank) && c in reg.owner
    ensures IsRoot(reg, c) ==> users == {reg.owner[c]}
    decreases rank[c]
  {
    var parents := ActiveParents(reg, c);
    if parents == {} then {reg.owner[c]}
    else
      set p, u | p in parents && u in OwningUsers(reg, p, rank) :: u
  }

  // ---------------------------------------------------------------------------
  // The reference definition: owners of the roots reached by active chains

  /** A chain of companies in which each is an active parent of the one before. */
  ghost predicate ActiveChain(reg: Registry, chain: seq<CompanyId>) {
    |chain| >= 1 && forall i :: 0 <= i < |chain| - 1 ==> chain[i + 1] in ActiveParents(reg, chain[i])
  }

  /** `r` is a root reached from `c` by following active shares upwards (`c` itself counts). */
  ghost predicate OwningRoot(reg: Registry, c: CompanyId, r: CompanyId) {
    IsRoot(reg, r) && exists chain :: ActiveChain(reg, chain) && chain[0] == c && chain[|chain| - 1] == r
  }

  /** No two companies share an owner (as in every fixture of the tests). */
  ghost predicate OwnersDistinct(reg: Registry) {
    forall a, b :: a in reg.owner && b in reg.owner && a != b ==> reg.owner[a] != reg.owner[b]
  }

  /** An active parent has a smaller rank than its child. */
  lemma ParentRankSmaller(reg: Registry, rank: map<CompanyId, nat>, c: CompanyId, p: CompanyId)
    requires WellFormed(reg) && Ranked(reg, rank) && c in reg.owner && p in ActiveParents(reg, c)
    ensures p in reg.owner && rank[p] < rank[c]
  {
    var s :| s in ActiveShares(reg, c) && s.parent == p;
  }

  /** A chain stays a chain when a child of its first company is put in front. */
  lemma ExtendChain(reg: Registry, c: CompanyId, chain: seq<CompanyId>)
    requires ActiveChain(reg, chain) && chain[0] in ActiveParents(reg, c)
    ensures ActiveChain(reg, [c] + chain)
  {
    var longer := [c] + chain;
    forall i | 0 <= i < |longer| - 1
      ensures longer[i + 1] in ActiveParents(reg, longer[i])
    {
      if i > 0 {
        assert longer[i] == chain[i - 1] && longer[i + 1] == chain[i];
      }
    }
  }

  /** Every owning user is the owner of a root reached from the company. */
  lemma {:induction false} OwningUsersSound(reg: Registry, c: CompanyId, rank: map<CompanyId, nat>, u: UserId)
    requires WellFormed(reg) && Ranked(reg, rank) && c in reg.owner
    requires u in OwningUsers(reg, c, rank)
    ensures exists r :: r in reg.owner && OwningRoot(reg, c, r) && reg.owner[r] == u
    decreases rank[c]
  {
    if IsRoot(reg, c) {
      assert ActiveChain(reg, [c]);
      assert OwningRoot(reg, c, c);
    } else {
      var p :| p in ActiveParents(reg, c) && u in OwningUsers(reg, p, rank);
      ParentRankSmaller(reg, rank, c, p);
      OwningUsersSound(reg, p, rank, u);
      var r :| r in reg.owner && OwningRoot(reg, p, r) && reg.owner[r] == u;
      var chain :| ActiveChain(reg, chain) && chain[0] == p && chain[|chain| - 1] == r;
      ExtendChain(reg, c, chain);
      assert ActiveChain(reg, [c] + chain);
      assert OwningRoot(reg, c, r);
    }
  }

  /** The owner of every root reached from the company is an owning user. */
  lemma {:induction false} OwningUsersComplete(reg: Registry, c: CompanyId, rank: map<CompanyId, nat>, chain: seq<CompanyId>)
    requires WellFormed(reg) && Ranked(reg, rank) && c in reg.owner
    requires ActiveChain(reg, chain) && chain[0] == c && IsRoot(reg, chain[|chain| - 1])
    ensures chain[|chain| - 1] in reg.owner && reg.owner[chain[|chain| - 1]] in OwningUsers(reg, c, rank)
    decreases |chain|
  {
    if |chain| > 1 {
      var p := chain[1];
      ParentRankSmaller(reg, rank, c, p);
      var rest := chain[1..];
      assert ActiveChain(reg, rest) by {
        forall i | 0 <= i < |rest| - 1
          ensures rest[i + 1] in ActiveParents(reg, rest[i])
        {
          assert rest[i] == chain[i + 1] && rest[i + 1] == chain[i + 2];
        }
      }
      OwningUsersComplete(reg, p, rank, rest);
      assert rest[|rest| - 1] == chain[|chain| - 1];
    }
  }

  /**
   * `owning_users` are exactly the owners of the roots reached from the
   * company through active shares.
   */
  lemma OwningUsersAreRootOwners(reg: Registry, c: CompanyId, rank: map<CompanyId, nat>, u: UserId)
    requires WellFormed(reg) && Ranked(reg, rank) && c in reg.owner
    ensures u in OwningUsers(reg, c, rank) <==> exists r :: r in reg.owner && OwningRoot(reg, c, r) && reg.owner[r] == u
  {
    if u in OwningUsers(reg, c, rank) {
      OwningUsersSound(reg, c, rank, u);
    }
    if exists r :: r in reg.owner && OwningRoot(reg, c, r) && reg.owner[r] == u {
      var r :| r in reg.owner && OwningRoot(reg, c, r) && reg.owner[r] == u;
      var chain :| ActiveChain(reg, chain) && chain[0] == c && chain[|chain| - 1] == r;
      OwningUsersComplete(reg, c, rank, chain);
    }
  }

  /** The answer does not depend on which ranking witnesses acyclicity. */
  lemma OwningUsersRankIndependent(reg: Registry, c: CompanyId, rank1: map<CompanyId, nat>, rank2: map<CompanyId, nat>)
    requires WellFormed(reg) && Ranked(reg, rank1) && Ranked(reg, rank2) && c in reg.owner
    ensures OwningUsers(reg, c, rank1) == OwningUsers(reg, c, rank2)
  {
    forall u
      ensures u in OwningUsers(reg, c, rank1) <==> u in OwningUsers(reg, c, rank2)
    {
      OwningUsersAreRootOwners(reg, c, rank1, u);
      OwningUsersAreRootOwners(reg, c, rank2, u);
    }
  }

  // ---------------------------------------------------------------------------
  // What the tests assert, for any registry

  /**
   * The owner of a company that has an active parent is not an owning user:
   * neither the company's own owner nor that of an intermediate company.
   */
  lemma NonRootOwnerExcluded(reg: Registry, c: CompanyId, rank: map<CompanyId, nat>, q: CompanyId)
    requires WellFormed(reg) && Ranked(reg, rank) && c in reg.owner && OwnersDistinct(reg)
    requires q in reg.owner && !IsRoot(reg, q)
    ensures reg.owner[q] !in OwningUsers(reg, c, rank)
  {
    if reg.owner[q] in OwningUsers(reg, c, rank) {
      OwningUsersSound(reg, c, rank, reg.owner[q]);
    }
  }

  /** A direct active parent without an active parent contributes its owner. */
  lemma RootParentContributes(reg: Registry, c: CompanyId, rank: map<CompanyId, nat>, p: CompanyId)
    requires WellFormed(reg) && Ranked(reg, rank) && c in reg.owner
    requires p in ActiveParents(reg, c) && IsRoot(reg, p)
    ensures p in reg.owner && reg.owner[p] in OwningUsers(reg, c, rank)
  {
    var chain := [c, p];
    assert ActiveChain(reg, chain);
    OwningUsersComplete(reg, c, rank, chain);
  }

  /** Along an active chain company <- parent <- grandparent, the root grandparent's owner counts. */
  lemma ChainRootContributes(reg: Registry, c: CompanyId, rank: map<CompanyId, nat>, p: CompanyId, g: CompanyId)
    requires WellFormed(reg) && Ranked(reg, rank) && c in reg.owner
    requires p in ActiveParents(reg, c) && g in ActiveParents(reg, p) && IsRoot(reg, g)
    ensures g in reg.owner && reg.owner[g] in OwningUsers(reg, c, rank)
  {
    var chain := [c, p, g];
    assert ActiveChain(reg, chain);
    OwningUsersComplete(reg, c, rank, chain);
  }

  /** The last company of a chain longer than one is the parent of an active share. */
  lemma ChainTopHoldsActiveShare(reg: Registry, chain: seq<CompanyId>)
    requires ActiveChain(reg, chain) && |chain| > 1
    ensures exists s :: s in reg.shares && s.active && s.parent == chain[|chain| - 1]
  {
    var k := |chain| - 2;
    assert chain[k + 1] in ActiveParents(reg, chain[k]);
    var s :| s in ActiveShares(reg, chain[k]) && s.parent == chain[k + 1];
  }

  /**
   * The owner of another company that is the parent of no active share is
   * not an owning user, even when it holds an inactive share in the company.
   */
  lemma InactiveParentExcluded(reg: Registry, c: CompanyId, rank: map<CompanyId, nat>, q: CompanyId)
    requires WellFormed(reg) && Ranked(reg, rank) && c in reg.owner && OwnersDistinct(reg)
    requires q in reg.owner && q != c
    requires forall s :: s in reg.shares && s.parent == q ==> !s.active
    ensures reg.owner[q] !in OwningUsers(reg, c, rank)
  {
    if reg.owner[q] in OwningUsers(reg, c, rank) {
      OwningUsersSound(reg, c, rank, reg.owner[q]);
      var r :| r in reg.owner && OwningRoot(reg, c, r) && reg.owner[r] == reg.owner[q];
      var chain :| ActiveChain(reg, chain) && chain[0] == c && chain[|chain| - 1] == r;
      ChainTopHoldsActiveShare(reg, chain);
    }
  }

  // ---------------------------------------------------------------------------
  // The fixtures of the model tests

  /** A company with one active and one inactive share held by the same parent. */
  function TwoSharesRegistry(company: CompanyId, parent: CompanyId, owner: UserId, parentOwner: UserId,
                             active: Share, inactive: Share): (reg: Registry)
    requires active == Share(active.id, parent, company, true)
    requires inactive == Share(inactive.id, parent, company, false)
    ensures WellFormed(reg)
  {
    Registry(map[company := owner, parent := parentOwner], {active, inactive})
  }

  /** The active share is among the company's active shares, the inactive one is not. */
  lemma ActiveSharesScenario(company: CompanyId, parent: CompanyId, owner: UserId, parentOwner: UserId,
                             active: Share, inactive: Share)
    requires active == Share(active.id, parent, company, true)
    requires inactive == Share(inactive.id, parent, company, false)
    ensures var reg := TwoSharesRegistry(company, parent, owner, parentOwner, active, inactive);
      active in ActiveShares(reg, company) && inactive !in ActiveShares(reg, company)
  {
  }

  /** With no shares at all, the company's own owner is its only owning user. */
  lemma NoActiveParentScenario(company: CompanyId, owner: UserId, rank: map<CompanyId, nat>)
    requires company in rank
    ensures var reg := Registry(map[company := owner], {});
      WellFormed(reg) && Ranked(reg, rank) && OwningUsers(reg, company, rank) == {owner}
  {
    var reg := Registry(map[company := owner], {});
    assert ActiveParents(reg, company) == {};
  }

  const Company: CompanyId := 0
  const Parent: CompanyId := 1
  const OwnedParent: CompanyId := 2
  const Grandparent: CompanyId := 3
  const InactiveParent: CompanyId := 4

  /**
   * The company with an active parent, an active parent that is itself owned
   * by an active grandparent, and an inactive parent; each has its own owner.
   */
  function ActiveParentsRegistry(owner: UserId, parentOwner: UserId, ownedParentOwner: UserId,
                                 grandparentOwner: UserId, inactiveParentOwner: UserId): Registry
  {
    Registry(
      map[Company := owner, Parent := parentOwner, OwnedParent := ownedParentOwner,
          Grandparent := grandparentOwner, InactiveParent := inactiveParentOwner],
      {Share(1, Parent, Company, true),
       Share(2, Grandparent, OwnedParent, true),
       Share(3, OwnedParent, Company, true),
       Share(4, InactiveParent, Company, false)})
  }

  /** A ranking of the fixture: each active parent sits below its child. */
  const ActiveParentsRank: map<CompanyId, nat> :=
    map[Company := 2, Parent := 1, OwnedParent := 1, Grandparent := 0, InactiveParent := 0]

  /** The fixture is well formed, ranked, and its owners are distinct. */
  lemma ActiveParentsWellFormed(owner: UserId, parentOwner: UserId, ownedParentOwner: UserId,
                                grandparentOwner: UserId, inactiveParentOwner: UserId)
    requires |{owner, parentOwner, ownedParentOwner, grandparentOwner, inactiveParentOwner}| == 5
    ensures var reg := ActiveParentsRegistry(owner, parentOwner, ownedParentOwner, grandparentOwner, inactiveParentOwner);
      WellFormed(reg) && Ranked(reg, ActiveParentsRank) && OwnersDistinct(reg)
  {
  }

  /** Who is an active parent of whom in the fixture. */
  lemma ActiveParentsShape(owner: UserId, parentOwner: UserId, ownedParentOwner: UserId,
                           grandparentOwner: UserId, inactiveParentOwner: UserId)
    ensures var reg := ActiveParentsRegistry(owner, parentOwner, ownedParentOwner, grandparentOwner, inactiveParentOwner);
      Parent in ActiveParents(reg, Company) && OwnedParent in ActiveParents(reg, Company) &&
      Grandparent in ActiveParents(reg, OwnedParent) &&
      IsRoot(reg, Parent) && IsRoot(reg, Grandparent) &&
      (forall s :: s in reg.shares && s.parent == InactiveParent ==> !s.active)
  {
    var reg := ActiveParentsRegistry(owner, parentOwner, ownedParentOwner, grandparentOwner, inactiveParentOwner);
    assert Share(1, Parent, Company, true) in ActiveShares(reg, Company);
    assert Share(3, OwnedParent, Company, true) in ActiveShares(reg, Company);
    assert Share(2, Grandparent, OwnedParent, true) in ActiveShares(reg, OwnedParent);
  }

  /**
   * Only the owners of the topmost active ancestors own the company: the
   * parent's and the grandparent's owners count; the company's own owner, the
   * owned parent's owner and the inactive parent's owner do not.
   */
  lemma ActiveParentsScenario(owner: UserId, parentOwner: UserId, ownedParentOwner: UserId,
                              grandparentOwner: UserId, inactiveParentOwner: UserId)
    requires |{owner, parentOwner, ownedParentOwner, grandparentOwner, inactiveParentOwner}| == 5
    ensures var reg := ActiveParentsRegistry(owner, parentOwner, ownedParentOwner, grandparentOwner, inactiveParentOwner);
      var users := OwningUsers(reg, Company, ActiveParentsRank);
      WellFormed(reg) && Ranked(reg, ActiveParentsRank) &&
      parentOwner in users && grandparentOwner in users &&
      owner !in users && ownedParentOwner !in users && inactiveParentOwner !in users
  {
    var reg := ActiveParentsRegistry(owner, parentOwner, ownedParentOwner, grandparentOwner, inactiveParentOwner);
    var rank := ActiveParentsRank;
    ActiveParentsWellFormed(owner, parentOwner, ownedParentOwner, grandparentOwner, inactiveParentOwner);
    ActiveParentsShape(owner, parentOwner, ownedParentOwner, grandparentOwner, inactiveParentOwner);
    RootParentContributes(reg, Company, rank, Parent);
    ChainRootContributes(reg, Company, rank, OwnedParent, Grandparent);
    NonRootOwnerExcluded(reg, Company, rank, Company);
    NonRootOwnerExcluded(reg, Company, rank, OwnedParent);
    InactiveParentExcluded(reg, Company, rank, InactiveParent);
  }
}
