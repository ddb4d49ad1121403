/** The fetcher store behind the Fetchers manager: records addressed by
    entity id, listed in creation order. The store also keeps, as a ghost
    journal, every effect visible outside the process in the order it
    happened, so that the order of writes and process launches can be
    stated. */
module Store {
  import opened Fetchers

  predicate Distinct(s: seq<int>)
  {
    forall i, j :: 0 <= i < j < |s| ==> s[i] != s[j]
  }

  /** The ids of `order` except `id`, in the same order. */
  function Without(order: seq<int>, id: int): (r: seq<int>)
    ensures forall x :: x in r <==> x in order && x != id
    ensures Distinct(order) ==> Distinct(r)
  {
    if order == [] then []
    else if order[0] == id then Without(order[1..], id)
    else
      var rest := Without(order[1..], id);
      assert Distinct(order) ==> order[0] !in order[1..];
      [order[0]] + rest
  }

  /** The records of the listed ids, in list order. */
  function Listed(order: seq<int>, records: map<int, Fetcher>): (r: seq<Fetcher>)
    requires forall i :: 0 <= i < |order| ==> order[i] in records
    ensures |r| == |order|
    ensures forall i :: 0 <= i < |order| ==> r[i] == records[order[i]]
  {
    if order == [] then [] else [records[order[0]]] + Listed(order[1..], records)
  }

  /** What one effect does to the stored records: an update overwrites the
      record with the written fetcher's id, when there is one; every other
      effect leaves the records alone here. */
  function Apply(records: map<int, Fetcher>, e: Effect): (r: map<int, Fetcher>)
    ensures r.Keys == records.Keys
    ensures forall id :: id in r && !(e.Updated? && e.fetcher.entityId == id) ==> r[id] == records[id]
    ensures e.Updated? && e.fetcher.entityId in records ==> r[e.fetcher.entityId] == e.fetcher
  {
    if e.Updated? && e.fetcher.entityId in records then records[e.fetcher.entityId := e.fetcher] else records
  }

  /** The records after the updates of a trace, applied first to last. */
  function ApplyUpdates(records: map<int, Fetcher>, es: seq<Effect>): (r: map<int, Fetcher>)
    ensures r.Keys == records.Keys
    decreases |es|
  {
    if es == [] then records else ApplyUpdates(Apply(records, es[0]), es[1..])
  }

  /** Applying two traces one after the other is applying their concatenation. */
  lemma {:induction false} ApplyUpdatesConcat(records: map<int, Fetcher>, a: seq<Effect>, b: seq<Effect>)
    ensures ApplyUpdates(records, a + b) == ApplyUpdates(ApplyUpdates(records, a), b)
    decreases |a|
  {
    if a == [] {
      assert a + b == b;
    } else {
      assert (a + b)[1..] == a[1..] + b;
      ApplyUpdatesConcat(Apply(records, a[0]), a[1..], b);
    }
  }

  class FetcherStore {
    var records: map<int, Fetcher>
    var order: seq<int>
    var nextId: int
    ghost var effects: seq<Effect>

    /** Every record is listed exactly once and is stored under its own id;
        ids already handed out are below nextId. */
    ghost predicate Valid()
      reads this`records, this`order, this`nextId
    {
      && Distinct(order)
      && (forall id :: id in records <==> id in order)
      && (forall id :: id in records ==> records[id].entityId == id && id < nextId)
    }

    constructor ()
      ensures Valid()
      ensures records == map[] && order == [] && effects == []
    {
      records, order, nextId := map[], [], 1;
      effects := [];
    }

    /** All fetchers, in list order. */
    function List(): (fs: seq<Fetcher>)
      reads this
      requires Valid()
      ensures |fs| == |order|
      ensures forall i :: 0 <= i < |order| ==> order[i] in records && fs[i] == records[order[i]] && fs[i].entityId == order[i]
    {
      assert forall i :: 0 <= i < |order| ==> order[i] in records by {
        forall i | 0 <= i < |order| ensures order[i] in records {
          assert order[i] in order;
          assert forall id :: id in records <==> id in order;
        }
      }
      Listed(order, records)
    }

    /** getFetchers(): reads the whole list. */
    method ListAll() returns (fs: seq<Fetcher>)
      requires Valid()
      modifies this`effects
      ensures fs == List()
      ensures effects == old(effects) + [ListedAll]
    {
      fs := List();
      effects := effects + [ListedAll];
    }

    /** getFetcher(id): the record, or nothing when there is none. */
    function Get(id: int): (r: Option<Fetcher>)
      reads this
      requires Valid()
      ensures r.Some? <==> id in records
      ensures r.Some? ==> r.value == records[id] && r.value.entityId == id
    {
      if id in records then Some(records[id]) else None
    }

    /** updateFetcher(f, notifyFull): overwrites the record with f's id, if there is one. */
    method Update(f: Fetcher, notifyFull: bool) returns (ok: bool)
      requires Valid()
      modifies this
      ensures Valid()
      ensures ok == (f.entityId in old(records))
      ensures records == if ok then old(records)[f.entityId := f] else old(records)
      ensures records == Apply(old(records), Updated(f, notifyFull))
      ensures order == old(order) && nextId == old(nextId)
      ensures effects == old(effects) + [Updated(f, notifyFull)]
    {
      ok := f.entityId in records;
      if ok {
        records := records[f.entityId := f];
      }
      effects := effects + [Updated(f, notifyFull)];
    }

    /** createFetcher(f): stores f under a fresh id and returns that id. */
    method Create(f: Fetcher) returns (id: int)
      requires Valid()
      modifies this
      ensures Valid()
      ensures id !in old(records)
      ensures records == old(records)[id := f.(entityId := id)]
      ensures order == old(order) + [id] && nextId > id
      ensures effects == old(effects) + [Created(f.(entityId := id))]
    {
      id := nextId;
      assert id !in order;
      records := records[id := f.(entityId := id)];
      order := order + [id];
      nextId := nextId + 1;
      effects := effects + [Created(f.(entityId := id))];
    }

    /** deleteFetcher(id): removes the record with that id, if there is one. */
    method Delete(id: int) returns (ok: bool)
      requires Valid()
      modifies this
      ensures Valid()
      ensures ok == (id in old(records))
      ensures records == old(records) - {id}
      ensures order == Without(old(order), id) && nextId == old(nextId)
      ensures effects == old(effects) + [Deleted(id)]
    {
      ok := id in records;
      records := records - {id};
      order := Without(order, id);
      effects := effects + [Deleted(id)];
    }
  }
}
