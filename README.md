# Permission owner registry

A model of uPortal's permission owner DAO (`JpaPermissionOwnerDao`). The DAO
keeps a registry of permission owners. An owner is a named permission domain
keyed by a unique `fname`. Each owner holds a set of permission activities,
and each activity carries a name, an `fname` and a target provider key. On top
of the persistence layer the DAO adds three pieces of logic:

- a linear search of an owner's activity set for an `fname` (`findActivity`);
- get-or-create for owners, by owner `fname`;
- get-or-create for activities, by activity `fname` under an owner.

The activity lookups by owner id and by owner `fname` also go through the
search.

The model has two modules:

- `PermissionEntities` (`permission_entities.dfy`) holds the owner and
  activity classes and the search. An owner's `id`, `name` and `fname` are
  fixed. Its `activities` set is changed in place. `FindActivity` is a loop
  that takes activities from the set in no fixed order, as iterating a Java
  `Set` does. `IsFindResult` states what the search may answer. It does not
  say which activity comes back when several share the `fname`.
- `PermissionDao` (`permission_owner_dao.dfy`) holds the DAO as a class over
  an abstract entity store:
  - `owners`, a map from surrogate id to owner, stands for `entityManager.find`;
  - `ownerIds`, a map from `fname` to id, stands for the natural-id query on `fname`;
  - `nextId` is the id the store gives the next persisted owner.

  `Valid()` says each owner is stored under its own id, and that the index
  names exactly one stored owner per `fname`.

`GetOrCreatePermissionActivity` looks the activity up under the stored owner
that has the passed-in owner's id. It adds a new activity to the set of the
passed-in owner. The contract covers both cases:

- When the passed-in owner is the stored one, the method returns an existing
  match and changes nothing. If there is no match, it adds exactly one fresh
  activity. This is the case `GetOrCreatePermissionActivityTwice` requires.
- When the id is not stored, the lookup finds nothing. When the id belongs to
  a different object, the lookup searches that stored object's set. Only if
  it finds no match is a new activity added to the passed-in owner, whatever
  that owner already holds.

The persistence calls are foreign to this code and are modelled only as map
lookups and map updates.

## Model

| member | source | states |
|---|---|---|
| `PermissionEntities.FindActivity` | uportal-war/src/main/java/org/jasig/portal/permission/dao/jpa/JpaPermissionOwnerDao.java:189-202 | returns null for a null owner whatever the fname; for an owner, returns null exactly when no activity in its set has the fname, and otherwise an activity that is in the set and has that fname; the set is only read |
| `PermissionEntities.AddedActivityIsOnlyMatch` | uportal-war/src/main/java/org/jasig/portal/permission/dao/jpa/JpaPermissionOwnerDao.java:141-143 | an activity added under an fname that no activity had is afterwards the only activity in the set with that fname |
| `PermissionEntities.AddedActivityKeepsFnamesDistinct` | uportal-war/src/main/java/org/jasig/portal/permission/dao/jpa/JpaPermissionOwnerDao.java:141-143 | adding an activity only when no activity has its fname keeps the activity fnames of a set distinct |
| `PermissionEntities.FindResultIsUnique` | uportal-war/src/main/java/org/jasig/portal/permission/dao/jpa/JpaPermissionOwnerDao.java:194-198 | when an owner's activity fnames are distinct, the search has exactly one possible answer, so set iteration order no longer matters |
| `PermissionDao.PermissionOwnerDao.GetPermissionOwnerById` | uportal-war/src/main/java/org/jasig/portal/permission/dao/jpa/JpaPermissionOwnerDao.java:105-107 | null exactly when no owner is stored under the id; otherwise a stored owner whose id is the one asked for |
| `PermissionDao.PermissionOwnerDao.GetPermissionOwnerByFname` | uportal-war/src/main/java/org/jasig/portal/permission/dao/jpa/JpaPermissionOwnerDao.java:114-119 | null exactly when no stored owner has the fname; otherwise the stored owner, under its own id, whose fname is the one asked for |
| `PermissionDao.PermissionOwnerDao.OwnerFnamesAreUnique` | uportal-war/src/main/java/org/jasig/portal/permission/dao/jpa/JpaPermissionOwnerDao.java:115-118 | fname is a natural key: two stored owners with the same fname are the same owner |
| `PermissionDao.PermissionOwnerDao.GetOrCreatePermissionOwner` | uportal-war/src/main/java/org/jasig/portal/permission/dao/jpa/JpaPermissionOwnerDao.java:91-98 | if an owner with the fname is stored, returns it and leaves the store unchanged; otherwise returns a fresh owner with the given name and fname and no activities, stored under a new id with nothing else changed; either way the fname lookup now finds the returned owner |
| `PermissionDao.PermissionOwnerDao.GetOrCreatePermissionActivity` | uportal-war/src/main/java/org/jasig/portal/permission/dao/jpa/JpaPermissionOwnerDao.java:138-146 | if the stored owner with the passed-in owner's id has an activity with the fname, returns one of those and changes nothing; otherwise returns a fresh activity with the given name, fname and target provider key, and the passed-in owner's set becomes its old set plus exactly that activity; distinct activity fnames of a stored owner stay distinct |
| `PermissionDao.PermissionOwnerDao.GetPermissionActivityByOwnerId` | uportal-war/src/main/java/org/jasig/portal/permission/dao/jpa/JpaPermissionOwnerDao.java:162-165 | answers what the search answers for the owner found by id; an unknown id gives null, not an error |
| `PermissionDao.PermissionOwnerDao.GetPermissionActivityByOwnerFname` | uportal-war/src/main/java/org/jasig/portal/permission/dao/jpa/JpaPermissionOwnerDao.java:172-175 | answers what the search answers for the owner found by fname; an unknown fname gives null, not an error |
| `PermissionDao.GetOrCreatePermissionOwnerTwice` | uportal-war/src/main/java/org/jasig/portal/permission/dao/jpa/JpaPermissionOwnerDao.java:91-97 | two get-or-create calls with the same fname, whatever the second name, return the same owner, which the fname lookup then finds; when no owner had the fname, it is fresh with the given name and no activities, stored under an id not stored before, and nothing else changes; otherwise it is the owner that was stored and the store is unchanged |
| `PermissionDao.GetOrCreatePermissionActivityTwice` | uportal-war/src/main/java/org/jasig/portal/permission/dao/jpa/JpaPermissionOwnerDao.java:138-145 | for a stored owner with at most one activity under the fname, two get-or-create calls with the same fname return the same activity; together they add at most that one activity, it is fresh when no activity had the fname, and otherwise it was already in the set and the set is unchanged |

## Left out

- `getAllPermissionOwners` and the criteria query behind it (`buildCriteriaQueries`, `buildFindAllPermissionOwners`) are left out. They are query plumbing, and the database decides the result order.
- The cache-region names are left out. They only label regions of an external second-level cache.
- `saveOwner`, `savePermissionActivity` and `getPermissionActivity(long id)` are left out. Each is a single `persist` or `find` call on the entity manager. Activity ids come from the persistence layer, which this model does not represent.
- `@Transactional` is not modelled. Nor is the check-then-act race between concurrent get-or-create callers. The model is sequential.
- The entity manager and the natural-id query builder are foreign code. Only the store's contents are modelled, as two maps. The id a new owner gets is the next value of a counter. The model folds that id into the owner's constructor instead of assigning it at `persist`. Integer width of ids (Java `long`) is not modelled.
- `GetOrCreatePermissionOwner`: a new owner is assumed to start with an empty activity set. `PermissionOwnerImpl` is not part of this model.
- Whether a new activity becomes durable is not modelled. The code adds it to the owner's set but never persists it, so durability depends on a cascade in the mapping configuration.
- Entity equality is object identity. `PermissionActivityImpl` and `PermissionOwnerImpl`, and their `equals` methods, are not part of this model.
- Logging is left out.
- FindActivity: null strings and a null activity set are not modelled (Dafny's `string` is never null). In the source a null `activityFname` throws a NullPointerException at the `equals` call as soon as the owner has an activity, and an activity whose fname is null is never matched.
- GetOrCreatePermissionActivity: a null owner is not modelled (the parameter's type is non-null). In the source it throws a NullPointerException at `owner.getId()`. Null name, fname and target provider key strings are not modelled either.
- `JpaStylesheetUserPreferencesDao` is left out. Each of its methods is a single entity-manager call or natural-id query with no logic of its own.
