/**
 * The two entities of the permission registry: a permission owner (a named
 * permission domain, keyed by its unique fname) and the permission
 * activities registered under it, and what looking an activity up by fname
 * in an owner's activity set means.
 */
module PermissionEntities {

  /** A named permission check registered under an owner. It is never changed after creation. */
  class PermissionActivity {
    const name: string
    const fname: string
    /** Opaque key of the resolver for the activity's permission targets. */
    const targetProviderKey: string

    constructor (name: string, fname: string, targetProviderKey: string)
      ensures this.name == name && this.fname == fname
      ensures this.targetProviderKey == targetProviderKey
    {
      this.name := name;
      this.fname := fname;
      this.targetProviderKey := targetProviderKey;
    }
  }

  /**
   * A permission owner. Its surrogate id, display name and fname are fixed;
   * its set of activities is changed in place.
   */
  class PermissionOwner {
    const id: int
    const name: string
    const fname: string
    var activities: set<PermissionActivity>

    constructor (id: int, name: string, fname: string)
      ensures this.id == id && this.name == name && this.fname == fname
      ensures activities == {}
    {
      this.id := id;
      this.name := name;
      this.fname := fname;
      activities := {};
    }
  }

  /** The activities in `acts` whose fname is `fname`. */
  ghost function Matching(acts: set<PermissionActivity>, fname: string): set<PermissionActivity>
  {
    set a | a in acts && a.fname == fname
  }

  /** No two distinct activities in `acts` share an fname. */
  ghost predicate DistinctFnames(acts: set<PermissionActivity>)
  {
    forall a, b :: a in acts && b in acts && a.fname == b.fname ==> a == b
  }

  /**
   * What looking up `fname` under `owner` may answer: nothing for an absent
   * owner; otherwise nothing exactly when no activity of the owner has that
   * fname, and else one of the activities that has it (which one is left open,
   * since a set has no iteration order).
   */
  ghost predicate IsFindResult(owner: PermissionOwner?, fname: string, r: PermissionActivity?)
    reads owner
  {
    if owner == null then r == null
    else
      && (r == null <==> Matching(owner.activities, fname) == {})
      && (r != null ==> r in owner.activities && r.fname == fname)
  }

  /**
   * The linear search of an owner's activities: the first activity met whose
   * fname equals `activityFname`, or null when the owner is null or none
   * matches. The set is only read.
   */
  method FindActivity(owner: PermissionOwner?, activityFname: string) returns (activity: PermissionActivity?)
    ensures IsFindResult(owner, activityFname, activity)
  {
    if owner == null {
      return null;
    }
    var remaining := owner.activities;
    while remaining != {}
      invariant remaining <= owner.activities
      invariant forall a :: a in owner.activities && a !in remaining ==> a.fname != activityFname
      decreases remaining
    {
      var a :| a in remaining;
      if a.fname == activityFname {
        assert a in Matching(owner.activities, activityFname);
        return a;
      }
      remaining := remaining - {a};
    }
    return null;
  }

  /** Adding an activity whose fname no activity had makes it the only match for that fname. */
  lemma AddedActivityIsOnlyMatch(acts: set<PermissionActivity>, a: PermissionActivity)
    requires Matching(acts, a.fname) == {}
    ensures Matching(acts + {a}, a.fname) == {a}
  {
    assert a in Matching(acts + {a}, a.fname);
  }

  /** Adding an activity under a fname not yet used keeps the fnames distinct. */
  lemma AddedActivityKeepsFnamesDistinct(acts: set<PermissionActivity>, a: PermissionActivity)
    requires DistinctFnames(acts)
    requires Matching(acts, a.fname) == {}
    ensures DistinctFnames(acts + {a})
  {
    forall b | b in acts
      ensures b.fname != a.fname
    {
      assert b !in Matching(acts, a.fname);
    }
  }

  /** With distinct fnames, the lookup of a fname has one possible answer. */
  lemma FindResultIsUnique(owner: PermissionOwner?, fname: string, r1: PermissionActivity?, r2: PermissionActivity?)
    requires owner != null ==> DistinctFnames(owner.activities)
    requires IsFindResult(owner, fname, r1) && IsFindResult(owner, fname, r2)
    ensures r1 == r2
  {
  }
}
