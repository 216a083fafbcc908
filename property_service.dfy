/** The listing synchronisation service: a cache of listings held in memory,
    mirrored into one persisted key, and reconciled with a remote system of
    record that is consulted on every read and told of every write. */
module PropertyService {
  import opened Wrappers
  import opened Types
  import opened Seqs

  /** What the persisted key `imperial_estates_db`, which holds the whole
      collection, holds when it is read. */
  datatype Slot =
    | Absent                           // no entry under the key
    | Blank                            // an empty string, which is falsy
    | Serialized(items: seq<Property>) // text that parses as a collection
    | Corrupt                          // text the JSON parser rejects

  /** Whether writing the persisted key succeeded or threw (a full quota,
      storage switched off). A throw is caught and only logged. */
  datatype Save = Saved | SaveFailed

  /** A parsed response body, by the shapes the reader tells apart. */
  datatype Body =
    | Arr(items: seq<Property>)              // a bare JSON array
    | Obj(properties: Option<seq<Property>>) // an object, with its `properties` array if it has one
    | Other                                  // null, a number, a string or a boolean

  /** How a remote call ended. `Threw` covers a network error, the abort
      after the ten-second request timeout and a body that is not JSON. */
  datatype Reply = Threw | NotOk | Ok(body: Body)

  /** The four remote endpoints and what is posted to them. */
  datatype Request =
    | GetAll
    | AddProperty(p: Property)
    | UpdateProperty(p: Property)
    | DeleteProperty(id: string)

  /** An effect on the world outside the cache, in the order it happens. */
  datatype Effect = Persist(items: seq<Property>) | Send(request: Request)

  /** Reading the persisted key: the stored collection, or nothing when there
      is no entry, the entry is empty or it does not parse. It never fails. */
  function LoadStored(slot: Slot): (r: Option<seq<Property>>)
    ensures r.Some? <==> slot.Serialized?
    ensures r.Some? ==> r.value == slot.items
  {
    match slot
    case Serialized(items) => Some(items)
    case _ => None
  }

  /** The persisted key after writing `items` to it: a later read gives back
      exactly `items` when the write succeeded, and what it gave before when
      the write threw. */
  function AfterSave(slot: Slot, items: seq<Property>, save: Save): (r: Slot)
    ensures LoadStored(r) == if save.Saved? then Some(items) else LoadStored(slot)
  {
    if save.Saved? then Serialized(items) else slot
  }

  /** The collection a reply supplies: present only for a successful response
      whose body is an array, or an object with an array under
      `properties`. An empty array counts. */
  function Fetched(reply: Reply): (r: Option<seq<Property>>)
    ensures r.Some? <==> reply.Ok? && (reply.body.Arr? || (reply.body.Obj? && reply.body.properties.Some?))
    ensures reply.Ok? && reply.body.Arr? ==> r == Some(reply.body.items)
    ensures reply.Ok? && reply.body.Obj? ==> r == reply.body.properties
  {
    match reply
    case Ok(Arr(items)) => Some(items)
    case Ok(Obj(properties)) => properties
    case _ => None
  }

  /** Update's transform: `p` stands at every index whose id is `p.id`; every
      other index keeps its listing. Ids do not move. */
  function Replaced(items: seq<Property>, p: Property): (r: seq<Property>)
    ensures |r| == |items|
    ensures forall i :: 0 <= i < |items| && items[i].id == p.id ==> r[i] == p
    ensures forall i :: 0 <= i < |items| && items[i].id != p.id ==> r[i] == items[i]
    ensures forall i :: 0 <= i < |items| ==> r[i].id == items[i].id
  {
    Map(items, (q: Property) => if q.id == p.id then p else q)
  }

  /** Delete's transform: no listing with id `id` is left, every other
      listing is kept, and the kept ones stay in order. */
  function Removed(items: seq<Property>, id: string): (r: seq<Property>)
    ensures forall i :: 0 <= i < |r| ==> r[i].id != id && r[i] in items
    ensures forall i :: 0 <= i < |items| && items[i].id != id ==> items[i] in r
    ensures IsSubsequence(r, items)
    ensures forall i :: 0 <= i < |items| ==>
      Count(r, items[i]) == if items[i].id != id then Count(items, items[i]) else 0
  {
    Filter(items, (q: Property) => q.id != id)
  }

  /** Update with an id that no listing has is a no-op, not an insert. */
  lemma UpdateWithoutMatch(items: seq<Property>, p: Property)
    requires !HasId(items, p.id)
    ensures Replaced(items, p) == items
  {
    var r := Replaced(items, p);
    assert forall i :: 0 <= i < |items| ==> r[i] == items[i];
  }

  /** Updating twice with the same listing is updating once. */
  lemma UpdateIdempotent(items: seq<Property>, p: Property)
    ensures Replaced(Replaced(items, p), p) == Replaced(items, p)
  {
  }

  /** Update never breaks id uniqueness. */
  lemma UpdateKeepsUniqueIds(items: seq<Property>, p: Property)
    requires UniqueIds(items)
    ensures UniqueIds(Replaced(items, p))
  {
  }

  /** Deleting an id twice is deleting it once. */
  lemma DeleteIdempotent(items: seq<Property>, id: string)
    ensures Removed(Removed(items, id), id) == Removed(items, id)
  {
    FilterIdempotent(items, (q: Property) => q.id != id);
  }

  /** Delete with an id that no listing has leaves the collection as it was. */
  lemma DeleteWithoutMatch(items: seq<Property>, id: string)
    requires !HasId(items, id)
    ensures Removed(items, id) == items
  {
    FilterKeepsAll(items, (q: Property) => q.id != id);
  }

  /** An order-preserving selection of listings with unique ids has unique
      ids. */
  lemma {:induction false} SubsequenceKeepsUniqueIds(a: seq<Property>, b: seq<Property>)
    requires IsSubsequence(a, b) && UniqueIds(b)
    ensures UniqueIds(a)
    decreases |b|
  {
    if a != [] {
      assert UniqueIds(b[1..]);
      if a[0] == b[0] {
        SubsequenceKeepsUniqueIds(a[1..], b[1..]);
        SubsequenceMembers(a[1..], b[1..]);
        forall j | 0 < j < |a| ensures a[0].id != a[j].id {
          assert a[j] == a[1..][j - 1];
          var k :| 0 <= k < |b[1..]| && b[1..][k] == a[j];
          assert b[k + 1] == a[j];
        }
      } else {
        SubsequenceKeepsUniqueIds(a, b[1..]);
      }
    }
  }

  /** Delete never breaks id uniqueness. */
  lemma DeleteKeepsUniqueIds(items: seq<Property>, id: string)
    requires UniqueIds(items)
    ensures UniqueIds(Removed(items, id))
  {
    SubsequenceKeepsUniqueIds(Removed(items, id), items);
  }

  /** Create keeps ids unique when the new id is fresh... */
  lemma CreateFreshKeepsUniqueIds(items: seq<Property>, p: Property)
    requires UniqueIds(items) && !HasId(items, p.id)
    ensures UniqueIds(items + [p])
  {
  }

  /** ...but it makes no check: creating a listing whose id is already present
      leaves two listings with that id. */
  lemma CreateTakenIdDuplicates(items: seq<Property>, p: Property)
    requires HasId(items, p.id)
    ensures !UniqueIds(items + [p])
  {
    var i :| 0 <= i < |items| && items[i].id == p.id;
    assert (items + [p])[i].id == (items + [p])[|items|].id;
  }

  /** The service state: `localProperties`, the persisted key, and the
      effects performed so far. */
  class ListingStore {
    var cache: seq<Property>
    var slot: Slot
    var effects: seq<Effect>

    /** The persisted key holds exactly the in-memory cache. */
    predicate Mirrored()
      reads this
    {
      slot == Serialized(cache)
    }

    /** Module initialisation: the cache is the stored collection if one
        loads, and empty otherwise. */
    constructor (persisted: Slot)
      ensures slot == persisted && effects == []
      ensures cache == LoadStored(persisted).GetOr([])
      ensures persisted.Serialized? ==> Mirrored()
    {
      cache := LoadStored(persisted).GetOr([]);
      slot := persisted;
      effects := [];
    }

    /** `saveStoredProperties`: write the whole cache to the persisted key. */
    method SaveStored(save: Save)
      modifies this`slot, this`effects
      ensures slot == AfterSave(old(slot), cache, save)
      ensures effects == old(effects) + [Persist(cache)]
      ensures save.Saved? ==> Mirrored()
    {
      effects := effects + [Persist(cache)];
      if save.Saved? {
        slot := Serialized(cache);
      }
    }

    /** `fetchProperties`: a usable reply replaces the cache and the persisted
        key with the server's collection, unmerged; anything else leaves both
        alone. Either way the (possibly new) cache is returned. */
    method FetchAll(reply: Reply, save: Save) returns (r: seq<Property>)
      modifies this
      ensures Fetched(reply).Some? ==>
        && cache == Fetched(reply).value
        && slot == AfterSave(old(slot), cache, save)
        && effects == old(effects) + [Send(GetAll), Persist(cache)]
      ensures Fetched(reply).None? ==>
        && cache == old(cache) && slot == old(slot)
        && effects == old(effects) + [Send(GetAll)]
      ensures r == cache
    {
      effects := effects + [Send(GetAll)];
      if reply.Ok? {
        var fetched: Option<seq<Property>> := None;
        match reply.body {
          case Arr(items) => fetched := Some(items);
          case Obj(properties) => fetched := properties;
          case Other =>
        }
        if fetched.Some? {
          // the server is the source of truth
          cache := fetched.value;
          SaveStored(save);
          return cache;
        }
      }
      return cache;
    }

    /** `createProperty`: append, persist, then post; the result is true
        whatever the remote call did. */
    method Create(p: Property, save: Save, reply: Reply) returns (ok: bool)
      modifies this
      ensures cache == old(cache) + [p]
      ensures slot == AfterSave(old(slot), cache, save)
      ensures save.Saved? ==> Mirrored()
      ensures effects == old(effects) + [Persist(cache), Send(AddProperty(p))]
      ensures ok
    {
      cache := cache + [p];
      SaveStored(save);
      effects := effects + [Send(AddProperty(p))];
      ok := true; // saved locally, which is enough: the remote outcome is ignored
    }

    /** `updateProperty`: replace every listing with `p`'s id, persist, then
        post; the result is true whatever the remote call did. */
    method Update(p: Property, save: Save, reply: Reply) returns (ok: bool)
      modifies this
      ensures cache == Replaced(old(cache), p)
      ensures slot == AfterSave(old(slot), cache, save)
      ensures save.Saved? ==> Mirrored()
      ensures effects == old(effects) + [Persist(cache), Send(UpdateProperty(p))]
      ensures ok
    {
      cache := Replaced(cache, p);
      SaveStored(save);
      effects := effects + [Send(UpdateProperty(p))];
      ok := true; // updated locally, which is enough: the remote outcome is ignored
    }

    /** `deleteProperty`: remove every listing with id `id`, persist, then
        post the id; the result is true whatever the remote call did. */
    method Delete(id: string, save: Save, reply: Reply) returns (ok: bool)
      modifies this
      ensures cache == Removed(old(cache), id)
      ensures slot == AfterSave(old(slot), cache, save)
      ensures save.Saved? ==> Mirrored()
      ensures effects == old(effects) + [Persist(cache), Send(DeleteProperty(id))]
      ensures ok
    {
      cache := Removed(cache, id);
      SaveStored(save);
      effects := effects + [Send(DeleteProperty(id))];
      ok := true; // deleted locally, which is enough: the remote outcome is ignored
    }
  }

  /** Offline start: with a persisted collection and a read that fails in any
      way, the read serves the persisted collection. */
  method OfflineReadServesStored(items: seq<Property>, reply: Reply) returns (r: seq<Property>)
    requires Fetched(reply).None?
    ensures r == items
  {
    var store := new ListingStore(Serialized(items));
    r := store.FetchAll(reply, Saved);
  }

  /** Two reads that get `a` and then `b` return `a` and then `b`, and leave
      exactly `b` persisted: nothing of `a` or of the old cache is merged. */
  method ReadsAreAuthoritative(persisted: Slot, a: seq<Property>, b: seq<Property>)
    returns (first: seq<Property>, second: seq<Property>, stored: Option<seq<Property>>)
    ensures first == a && second == b && stored == Some(b)
  {
    var store := new ListingStore(persisted);
    first := store.FetchAll(Ok(Arr(a)), Saved);
    second := store.FetchAll(Ok(Obj(Some(b))), Saved);
    stored := LoadStored(store.slot);
  }

  /** A create whose remote call fails still reports success, and the new
      listing is in the cache and in what a later start would load. */
  method OfflineCreateIsKept(persisted: Slot, p: Property)
    returns (ok: bool, cached: seq<Property>, reloaded: Option<seq<Property>>)
    ensures ok && cached == LoadStored(persisted).GetOr([]) + [p]
    ensures reloaded == Some(cached)
  {
    var store := new ListingStore(persisted);
    ok := store.Create(p, Saved, Threw);
    cached := store.cache;
    reloaded := LoadStored(store.slot);
  }
}
