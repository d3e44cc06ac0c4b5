/**
 * The identity cache: the bot brain's `data.users`, a map from user id to user
 * record, and how a fresh server snapshot of a user is merged into it
 * (`userChange`, src/index.js:100-126).
 *
 * A user record is a JS object. The adapter writes four keys of its own
 * (`name`, `real_name`, `email_address` and the provider bag `mm`); the bot
 * framework and its scripts may attach any others (`room`, `id`, notes).
 */
module Identity {
  import opened Js

  type User = Bag

  const DmKey: string := "dm_channel_id"

  /** The keys a fresh record is built with (src/index.js:104-109). */
  const FreshKeys: set<string> := {"name", "real_name", "email_address", "mm"}

  /** The record has an object-valued provider bag `mm`. */
  predicate HasMm(u: User)
  {
    "mm" in u && u["mm"].Obj?
  }

  /**
   * `user.mm.dm_channel_id`, read defensively: `undefined` when there is no
   * object `mm` or it has no such key.
   */
  function DmField(u: User): Value
  {
    if HasMm(u) then Field(u["mm"].fields, DmKey) else Undefined
  }

  /** The snapshot carries a non-null `id` (the guard of src/index.js:102). */
  predicate HasId(snap: Bag)
  {
    "id" in snap && !Nullish(snap["id"])
  }

  /** The cache key of an id value: JS coerces property names to strings. */
  function KeyOf(id: Value): string
  {
    ToJsString(id)
  }

  /** The record the brain creates for an id it has not seen. */
  function Stub(id: Value): (u: User)
    ensures u.Keys == {"id"} && !HasMm(u)
  {
    map["id" := id]
  }

  /** `brain.userForId(id)`: the cached record, or a new one for that id. */
  function Lookup(users: map<string, User>, key: string, id: Value): User
  {
    if key in users then users[key] else Stub(id)
  }

  /** `${first_name} ${last_name}` of a snapshot. */
  function RealName(snap: Bag): string
  {
    ToJsString(Field(snap, "first_name")) + " " + ToJsString(Field(snap, "last_name"))
  }

  /**
   * The record built at src/index.js:104-115: the adapter's own fields, and a
   * provider bag holding `keptDm` under `dm_channel_id`, overwritten by every
   * snapshot field.
   */
  function FreshRecord(snap: Bag, keptDm: Value): User
  {
    map[
      "name" := Field(snap, "username"),
      "real_name" := Str(RealName(snap)),
      "email_address" := Field(snap, "email"),
      "mm" := Obj(map[DmKey := keptDm] + snap)
    ]
  }

  /**
   * The record `userChange` hands to the brain, given the record `prev` the
   * brain held for the id (src/index.js:104-123): fresh fields from the
   * snapshot, every snapshot field copied into `mm`, the previous DM channel
   * kept unless the snapshot itself has one, and every previous key the fresh
   * record lacks carried over.
   */
  function NewRecord(prev: User, snap: Bag): User
  {
    (prev - FreshKeys) + FreshRecord(snap, DmField(prev))
  }

  /**
   * The first copy loop of src/index.js:112-115: the provider bag starts with
   * the kept DM channel and receives every snapshot field.
   */
  method ProviderBag(snap: Bag, keptDm: Value) returns (mm: Bag)
    ensures mm == map[DmKey := keptDm] + snap
  {
    mm := map[DmKey := keptDm];
    var todo := snap.Keys;
    while todo != {}
      invariant todo <= snap.Keys
      invariant mm.Keys == (snap.Keys - todo) + {DmKey}
      invariant forall k :: k in snap && k !in todo ==> mm[k] == snap[k]
      invariant DmKey in todo || DmKey !in snap ==> mm[DmKey] == keptDm
      decreases todo
    {
      var key :| key in todo;
      mm := mm[key := snap[key]];
      todo := todo - {key};
    }
  }

  /**
   * The second copy loop of src/index.js:116-123: every key of the previous
   * record that the base record lacks is copied into it.
   */
  method CarryOver(prev: User, base: User) returns (newUser: User)
    ensures newUser == (prev - base.Keys) + base
  {
    newUser := base;
    var rest := prev.Keys;
    while rest != {}
      invariant rest <= prev.Keys
      invariant newUser.Keys == base.Keys + (prev.Keys - rest)
      invariant forall k :: k in base ==> newUser[k] == base[k]
      invariant forall k :: k in prev && k !in rest && k !in base ==> newUser[k] == prev[k]
      decreases rest
    {
      var key :| key in rest;
      if key !in newUser {
        newUser := newUser[key := prev[key]];
      }
      rest := rest - {key};
    }
  }

  /** The record `userChange` builds (src/index.js:104-123), step by step. */
  method BuildRecord(prev: User, snap: Bag) returns (newUser: User)
    ensures newUser == NewRecord(prev, snap)
  {
    var mm := ProviderBag(snap, DmField(prev));
    var base := map[
      "name" := Field(snap, "username"),
      "real_name" := Str(RealName(snap)),
      "email_address" := Field(snap, "email"),
      "mm" := Obj(mm)
    ];
    assert base.Keys == FreshKeys;
    newUser := CarryOver(prev, base);
  }

  /**
   * The record the cache holds after `userChange(snap)`: the new record, with
   * `id` set by the brain as it stores it (src/index.js:124-125).
   */
  function Refreshed(prev: User, snap: Bag): User
    requires HasId(snap)
  {
    NewRecord(prev, snap)["id" := snap["id"]]
  }

  /**
   * What `userChange(snap)` stores for a user whose previous record was
   * `prev`: `name`, `real_name` and `email_address` from the snapshot, every
   * snapshot field in `mm`, the previous DM channel unless the snapshot has
   * its own, every other previous key as it was, and the snapshot's `id`.
   */
  lemma RefreshedRecord(prev: User, snap: Bag)
    requires HasId(snap)
    ensures var r := Refreshed(prev, snap);
      && r.Keys == prev.Keys + FreshKeys + {"id"}
      && r["id"] == snap["id"]
      && r["name"] == Field(snap, "username")
      && r["real_name"] == Str(RealName(snap))
      && r["email_address"] == Field(snap, "email")
      && HasMm(r) && r["mm"].fields.Keys == snap.Keys + {DmKey}
      && (forall k :: k in snap ==> r["mm"].fields[k] == snap[k])
      && (DmKey !in snap ==> DmField(r) == DmField(prev))
      && (forall k :: k in prev && k !in FreshKeys && k != "id" ==> r[k] == prev[k])
  {
  }

  /** Applying the same snapshot twice gives the record that applying it once gives. */
  lemma RefreshedIdempotent(prev: User, snap: Bag)
    requires HasId(snap)
    ensures Refreshed(Refreshed(prev, snap), snap) == Refreshed(prev, snap)
  {
    var once := Refreshed(prev, snap);
    var twice := Refreshed(once, snap);
    assert twice["mm"].fields == once["mm"].fields;
    assert twice.Keys == once.Keys;
  }

  /**
   * A snapshot that carries no DM channel leaves the cached one as it was,
   * whatever snapshots came before (the DM channel survives re-normalisation).
   */
  lemma {:induction false} DmSurvivesRefreshes(prev: User, snaps: seq<Bag>)
    requires forall i :: 0 <= i < |snaps| ==> HasId(snaps[i]) && DmKey !in snaps[i]
    ensures DmField(RefreshAll(prev, snaps)) == DmField(prev)
    decreases |snaps|
  {
    if snaps != [] {
      DmSurvivesRefreshes(Refreshed(prev, snaps[0]), snaps[1..]);
    }
  }

  /** The record after a series of snapshots of the same user. */
  function RefreshAll(prev: User, snaps: seq<Bag>): User
    requires forall i :: 0 <= i < |snaps| ==> HasId(snaps[i])
    decreases |snaps|
  {
    if snaps == [] then prev else RefreshAll(Refreshed(prev, snaps[0]), snaps[1..])
  }

  /** The client's user directory is keyed by each user's own id. */
  predicate KeyedById(directory: map<string, Bag>)
  {
    forall k :: k in directory ==> "id" in directory[k] && directory[k]["id"] == Str(k)
  }

  /** The record `userChange` stores for each user of a directory keyed by id. */
  function DirectoryRecords(users: map<string, User>, directory: map<string, Bag>): (r: map<string, User>)
    requires KeyedById(directory)
    ensures r.Keys == directory.Keys
  {
    map k | k in directory :: Refreshed(Lookup(users, k, Str(k)), directory[k])
  }

  /** Refreshing a directory caches every user of the directory and keeps every cached user. */
  lemma DirectoryKeys(users: map<string, User>, directory: map<string, Bag>)
    requires KeyedById(directory)
    ensures (users + DirectoryRecords(users, directory)).Keys == users.Keys + directory.Keys
  {
  }

  /** Each directory user is refreshed from their previous record, or from a new one. */
  lemma DirectoryUsersRefreshed(users: map<string, User>, directory: map<string, Bag>, k: string)
    requires KeyedById(directory) && k in directory
    ensures (users + DirectoryRecords(users, directory))[k] == Refreshed(Lookup(users, k, Str(k)), directory[k])
  {
  }

  /** A cached user the directory does not list is left as it was. */
  lemma DirectoryOthersKept(users: map<string, User>, directory: map<string, Bag>, k: string)
    requires KeyedById(directory) && k in users && k !in directory
    ensures (users + DirectoryRecords(users, directory))[k] == users[k]
  {
  }

  /** Moving one key from `todo` to done adds its target entry to the union. */
  lemma UnionStep<V>(base: map<string, V>, target: map<string, V>, todo: set<string>, id: string)
    requires id in todo && id in target
    ensures base + (target - (todo - {id})) == (base + (target - todo))[id := target[id]]
  {
  }

  /** Before any key is done the union is `base`; once all are, it is `base + target`. */
  lemma UnionEnds<V>(base: map<string, V>, target: map<string, V>)
    ensures base + (target - target.Keys) == base
    ensures base + (target - {}) == base + target
  {
  }

  /** A key still to do is not in the union yet: it reads as in `base`. */
  lemma UnionMiss<V>(base: map<string, V>, target: map<string, V>, todo: set<string>, id: string)
    requires id in todo
    ensures id in base + (target - todo) <==> id in base
    ensures id in base ==> (base + (target - todo))[id] == base[id]
  {
  }

  /**
   * One step of refreshing a directory: refreshing the next listed user of a
   * partly refreshed cache gives the cache with that user refreshed too.
   */
  lemma DirectoryStep(users: map<string, User>, directory: map<string, Bag>, todo: set<string>, id: string)
    requires KeyedById(directory) && id in todo && todo <= directory.Keys
    ensures var target := DirectoryRecords(users, directory);
      var before := users + (target - todo);
      before[id := Refreshed(Lookup(before, id, Str(id)), directory[id])] == users + (target - (todo - {id}))
  {
    var target := DirectoryRecords(users, directory);
    UnionMiss(users, target, todo, id);
    UnionStep(users, target, todo, id);
  }

  /** `user.room = room`. */
  function WithRoom(u: User, room: string): (r: User)
    ensures r.Keys == u.Keys + {"room"} && r["room"] == Str(room)
    ensures forall k :: k in u && k != "room" ==> r[k] == u[k]
  {
    u["room" := Str(room)]
  }

  /** `user.mm.dm_channel_id = channel`, on a record with a provider bag. */
  function WithDm(u: User, channel: Value): (r: User)
    requires HasMm(u)
    ensures HasMm(r) && DmField(r) == channel && r.Keys == u.Keys
    ensures r["mm"].fields.Keys == u["mm"].fields.Keys + {DmKey}
    ensures forall k :: k in u["mm"].fields && k != DmKey ==> r["mm"].fields[k] == u["mm"].fields[k]
    ensures forall k :: k in u && k != "mm" ==> r[k] == u[k]
  {
    u["mm" := Obj(u["mm"].fields[DmKey := channel])]
  }
}
