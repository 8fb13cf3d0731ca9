/** The security-state cache of the security models (pysnmp/proto/secmod/cache.py).

    A security model pushes per-exchange security data when it encodes a request and pops
    it again, by the returned state reference, when the matching response is decoded.
    References come from one counter that is a class attribute, so every cache of the
    process draws from it; the counter is bounded by 0xffffff and a push stores under the
    drawn reference without looking at what is already there. */
module SecModCache {
  import opened Wrappers

  /** The bound handed to the shared reference generator. */
  const MaxStateReference: nat := 0xffffff

  /** The shared reference generator (`Cache.__stateReference`). Every `Cache` built over
      the same object draws its references from it, as the class attribute is shared. */
  class StateReferenceCounter {
    var next: nat

    ghost predicate Valid()
      reads this
    {
      next < MaxStateReference
    }

    constructor (start: nat)
      requires start < MaxStateReference
      ensures Valid() && next == start
    {
      next := start;
    }

    /** Draw the next reference; after the largest one the counter starts again at 0. */
    method Next() returns (r: nat)
      requires Valid()
      modifies this
      ensures Valid()
      ensures r == old(next) && r < MaxStateReference
      ensures next == (r + 1) % MaxStateReference
    {
      r := next;
      next := (next + 1) % MaxStateReference;
    }
  }

  /** `error.ProtocolError('Cache miss for stateReference=...')` */
  datatype CacheError = CacheMiss(stateReference: nat)

  /** The table after `push` stored `data` under `ref`. */
  function Pushed<D>(entries: map<nat, D>, ref: nat, data: D): (r: map<nat, D>)
    ensures ref in r && r[ref] == data
    ensures r.Keys == entries.Keys + {ref}
  {
    entries[ref := data]
  }

  /** What `pop(ref)` returns, or the error it raises. */
  function PopResult<D>(entries: map<nat, D>, ref: nat): (r: Result<D, CacheError>)
    ensures r.Success? <==> ref in entries
  {
    if ref in entries then Success(entries[ref]) else Failure(CacheMiss(ref))
  }

  /** The table after `pop(ref)`: the entry is gone; on a miss nothing changes. */
  function Popped<D>(entries: map<nat, D>, ref: nat): (r: map<nat, D>)
    ensures ref !in r && r.Keys == entries.Keys - {ref}
  {
    entries - {ref}
  }

  /** A pop of a pushed reference returns exactly the pushed data and restores the table
      to what it was without that reference. */
  lemma PopAfterPush<D>(entries: map<nat, D>, ref: nat, data: D)
    ensures PopResult(Pushed(entries, ref, data), ref) == Success(data)
    ensures Popped(Pushed(entries, ref, data), ref) == Popped(entries, ref)
  {
  }

  /** A second pop of the same reference is a cache miss. */
  lemma SecondPopMisses<D>(entries: map<nat, D>, ref: nat)
    ensures PopResult(Popped(entries, ref), ref) == Failure(CacheMiss(ref))
  {
  }

  /** A pop that misses raises and leaves the table as it was. */
  lemma MissLeavesTable<D>(entries: map<nat, D>, ref: nat)
    requires ref !in entries
    ensures PopResult(entries, ref).Failure?
    ensures Popped(entries, ref) == entries
  {
  }

  /** Push and pop each touch one key: every other entry keeps its data. */
  lemma OtherEntriesUntouched<D>(entries: map<nat, D>, ref: nat, data: D, other: nat)
    requires other != ref
    ensures other in Pushed(entries, ref, data) <==> other in entries
    ensures other in Popped(entries, ref) <==> other in entries
    ensures other in entries ==>
      Pushed(entries, ref, data)[other] == entries[other] && Popped(entries, ref)[other] == entries[other]
  {
  }

  /** A push under a reference already in use replaces the old data: the table does not
      grow and the earlier data can no longer be popped. */
  lemma PushOverwrites<D>(entries: map<nat, D>, ref: nat, data: D)
    requires ref in entries
    ensures |Pushed(entries, ref, data)| == |entries|
    ensures PopResult(Pushed(entries, ref, data), ref) == Success(data)
  {
    assert Pushed(entries, ref, data).Keys == entries.Keys;
  }

  class Cache<D> {
    /** `self.__cacheEntries` */
    var entries: map<nat, D>
    /** `Cache.__stateReference`, shared with every other cache built over the same object */
    const stateReference: StateReferenceCounter

    constructor (counter: StateReferenceCounter)
      ensures entries == map[] && stateReference == counter
    {
      entries := map[];
      stateReference := counter;
    }

    /** `push(**securityData)`: store the data under a freshly drawn reference and return it. */
    method Push(securityData: D) returns (ref: nat)
      requires stateReference.Valid()
      modifies this, stateReference
      ensures stateReference.Valid()
      ensures ref == old(stateReference.next) && ref < MaxStateReference
      ensures stateReference.next == (ref + 1) % MaxStateReference
      ensures entries == Pushed(old(entries), ref, securityData)
    {
      ref := stateReference.Next();
      entries := entries[ref := securityData];
    }

    /** `pop(stateReference)`: hand back and forget the entry, or raise a cache miss. */
    method Pop(ref: nat) returns (r: Result<D, CacheError>)
      modifies this
      ensures r == PopResult(old(entries), ref)
      ensures entries == Popped(old(entries), ref)
      ensures r.Failure? ==> entries == old(entries)
    {
      if ref in entries {
        r := Success(entries[ref]);
        entries := entries - {ref};
        return;
      }
      r := Failure(CacheMiss(ref));
    }
  }

  /** Two caches over one counter draw consecutive references: a reference handed out by
      one cache is never handed out by the other until the counter wraps around. */
  method SharedCounterAcrossCaches<D>(start: nat, x: D, y: D) returns (r1: nat, r2: nat)
    requires start < MaxStateReference
    ensures r1 == start && r2 == (start + 1) % MaxStateReference
    ensures r1 != r2
  {
    var counter := new StateReferenceCounter(start);
    var a := new Cache<D>(counter);
    var b := new Cache<D>(counter);
    r1 := a.Push(x);
    r2 := b.Push(y);
  }
}
