/**
 * The permission owner DAO: a registry of permission owners kept in an
 * entity store, with lookups by surrogate id and by fname (the owner's
 * natural id), activity lookups that search an owner's activity set, and
 * get-or-create for owners and for activities.
 *
 * The entity manager and the natural-id query are represented by the
 * store's two maps: `owners` answers a find by id, `ownerIds` answers the
 * natural-id query on fname, and persisting a new owner assigns it the next
 * id and enters it in both.
 */
module PermissionDao {
  import opened PermissionEntities

  class PermissionOwnerDao {
    /** The persisted owners, by surrogate id. */
    var owners: map<int, PermissionOwner>
    /** The natural-id index: the id of the persisted owner with each fname. */
    var ownerIds: map<string, int>
    /** The id that the next persisted owner receives. */
    var nextId: int

    /**
     * Each stored owner sits under its own id, below `nextId`; the index maps
     * each fname to the one stored owner that has it, and covers every owner.
     */
    ghost predicate Valid()
      reads this
    {
      && (forall id :: id in owners ==> owners[id].id == id && id < nextId)
      && (forall f :: f in ownerIds ==> ownerIds[f] in owners && owners[ownerIds[f]].fname == f)
      && (forall id :: id in owners ==> owners[id].fname in ownerIds && ownerIds[owners[id].fname] == id)
    }

    constructor ()
      ensures Valid() && owners == map[]
    {
      owners := map[];
      ownerIds := map[];
      nextId := 1;
    }

    /** Find by surrogate id: the stored owner with that id, or null when there is none. */
    function GetPermissionOwnerById(id: int): (owner: PermissionOwner?)
      reads this
      requires Valid()
      ensures owner == null <==> id !in owners
      ensures owner != null ==> owner.id == id && owner in owners.Values
    {
      if id in owners then owners[id] else null
    }

    /** The natural-id query: the stored owner whose fname is `fname`, or null when there is none. */
    function GetPermissionOwnerByFname(fname: string): (owner: PermissionOwner?)
      reads this
      requires Valid()
      ensures owner == null <==> forall id :: id in owners ==> owners[id].fname != fname
      ensures owner != null ==> owner.fname == fname && owner.id in owners && owners[owner.id] == owner
    {
      if fname in ownerIds then
        var id := ownerIds[fname];
        assert owners[id].fname == fname;
        owners[id]
      else
        null
    }

    /** fname is a natural key: no two stored owners share one. */
    lemma OwnerFnamesAreUnique(i: int, j: int)
      requires Valid()
      requires i in owners && j in owners
      requires owners[i].fname == owners[j].fname
      ensures i == j
    {
    }

    /**
     * Returns the stored owner with `fname`; only when there is none, creates
     * an owner with `name` and `fname` and no activities, and persists it.
     */
    method GetOrCreatePermissionOwner(name: string, fname: string) returns (owner: PermissionOwner)
      requires Valid()
      modifies this
      ensures Valid()
      ensures owner.fname == fname && GetPermissionOwnerByFname(fname) == owner
      ensures old(GetPermissionOwnerByFname(fname)) != null ==>
                owner == old(GetPermissionOwnerByFname(fname)) && unchanged(this)
      ensures old(GetPermissionOwnerByFname(fname)) == null ==>
                && fresh(owner) && owner.name == name && owner.activities == {}
                && owner.id !in old(owners) && owners == old(owners)[owner.id := owner]
    {
      var found := GetPermissionOwnerByFname(fname);
      if found != null {
        return found;
      }
      owner := new PermissionOwner(nextId, name, fname);
      owners := owners[nextId := owner];
      ownerIds := ownerIds[fname := nextId];
      nextId := nextId + 1;
    }

    /**
     * Looks for an activity with `fname` under the stored owner that has
     * `owner`'s id and returns it; only when there is none, creates an
     * activity with `name`, `fname` and `targetProviderKey` and adds it to the
     * activity set of the `owner` passed in.
     */
    method GetOrCreatePermissionActivity(owner: PermissionOwner, name: string, fname: string, targetProviderKey: string)
      returns (activity: PermissionActivity)
      requires Valid()
      modifies owner
      ensures activity.fname == fname
      ensures old(GetPermissionOwnerById(owner.id)) != null &&
              old(Matching(GetPermissionOwnerById(owner.id).activities, fname)) != {} ==>
                activity in old(GetPermissionOwnerById(owner.id).activities) && unchanged(owner)
      ensures old(GetPermissionOwnerById(owner.id)) == null ||
              old(Matching(GetPermissionOwnerById(owner.id).activities, fname)) == {} ==>
                && fresh(activity) && activity.name == name && activity.targetProviderKey == targetProviderKey
                && owner.activities == old(owner.activities) + {activity}
      ensures GetPermissionOwnerById(owner.id) == owner && old(DistinctFnames(owner.activities)) ==>
                DistinctFnames(owner.activities)
    {
      var found := GetPermissionActivityByOwnerId(owner.id, fname);
      if found != null {
        return found;
      }
      activity := new PermissionActivity(name, fname, targetProviderKey);
      if GetPermissionOwnerById(owner.id) == owner && DistinctFnames(owner.activities) {
        AddedActivityKeepsFnamesDistinct(owner.activities, activity);
      }
      owner.activities := owner.activities + {activity};
    }

    /** The activity with `activityFname` under the owner with id `ownerId`; null for an unknown owner. */
    method GetPermissionActivityByOwnerId(ownerId: int, activityFname: string) returns (activity: PermissionActivity?)
      requires Valid()
      ensures IsFindResult(GetPermissionOwnerById(ownerId), activityFname, activity)
    {
      var owner := GetPermissionOwnerById(ownerId);
      activity := FindActivity(owner, activityFname);
    }

    /** The activity with `activityFname` under the owner with fname `ownerFname`; null for an unknown owner. */
    method GetPermissionActivityByOwnerFname(ownerFname: string, activityFname: string) returns (activity: PermissionActivity?)
      requires Valid()
      ensures IsFindResult(GetPermissionOwnerByFname(ownerFname), activityFname, activity)
    {
      var owner := GetPermissionOwnerByFname(ownerFname);
      activity := FindActivity(owner, activityFname);
    }
  }

  /**
   * Get-or-create of an owner is idempotent: a second call with the same
   * fname, whatever its name, returns the owner of the first and stores nothing.
   */
  method GetOrCreatePermissionOwnerTwice(dao: PermissionOwnerDao, name: string, fname: string, name2: string)
    returns (first: PermissionOwner, second: PermissionOwner)
    requires dao.Valid()
    modifies dao
    ensures dao.Valid()
    ensures second == first && first.fname == fname
    ensures dao.GetPermissionOwnerByFname(fname) == first
    ensures old(dao.GetPermissionOwnerByFname(fname)) == null ==>
              && fresh(first) && first.id !in old(dao.owners)
              && dao.owners == old(dao.owners)[first.id := first]
              && first.name == name && first.activities == {}
    ensures old(dao.GetPermissionOwnerByFname(fname)) != null ==>
              first == old(dao.GetPermissionOwnerByFname(fname)) && dao.owners == old(dao.owners)
  {
    first := dao.GetOrCreatePermissionOwner(name, fname);
    ghost var afterFirst := dao.owners;
    second := dao.GetOrCreatePermissionOwner(name2, fname);
    assert dao.owners == afterFirst;
  }

  /**
   * Get-or-create of an activity under a stored owner is idempotent as long
   * as at most one of its activities has the fname: the second call with the
   * same fname returns the activity of the first, and the two calls together
   * add at most that one activity.
   */
  method GetOrCreatePermissionActivityTwice(dao: PermissionOwnerDao, owner: PermissionOwner,
                                            name: string, fname: string, targetProviderKey: string,
                                            name2: string, targetProviderKey2: string)
    returns (first: PermissionActivity, second: PermissionActivity)
    requires dao.Valid() && dao.GetPermissionOwnerById(owner.id) == owner
    requires forall a, b :: a in Matching(owner.activities, fname) && b in Matching(owner.activities, fname) ==> a == b
    modifies owner
    ensures second == first && first.fname == fname
    ensures owner.activities == old(owner.activities) + {first}
    ensures Matching(old(owner.activities), fname) == {} ==>
              fresh(first) && first.name == name && first.targetProviderKey == targetProviderKey
    ensures Matching(old(owner.activities), fname) != {} ==>
              first in old(owner.activities) && owner.activities == old(owner.activities)
  {
    ghost var before := owner.activities;
    first := dao.GetOrCreatePermissionActivity(owner, name, fname, targetProviderKey);
    ghost var afterFirst := owner.activities;
    if Matching(before, fname) == {} {
      AddedActivityIsOnlyMatch(before, first);
    }
    assert first in Matching(afterFirst, fname);
    second := dao.GetOrCreatePermissionActivity(owner, name2, fname, targetProviderKey2);
    assert second in Matching(afterFirst, fname);
  }

  /**
   * An owner "portlet" with the activities "subscribe" and "manage": looking up
   * "manage" finds that activity, and looking up "unknown" finds none.
   */
  method PortletExample() {
    var dao := new PermissionOwnerDao();
    var portlet := dao.GetOrCreatePermissionOwner("Portlet", "portlet");
    var subscribe := dao.GetOrCreatePermissionActivity(portlet, "Subscribe", "subscribe", "groupKey");
    var manage := dao.GetOrCreatePermissionActivity(portlet, "Manage", "manage", "groupKey");
    assert portlet.activities == {subscribe, manage};
    var found := dao.GetPermissionActivityByOwnerFname("portlet", "manage");
    assert found == manage;
    var missing := dao.GetPermissionActivityByOwnerFname("portlet", "unknown");
    assert missing == null;
  }
}
