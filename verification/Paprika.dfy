/**
 The local copy of a remote recipe list: a sync fetches what is new or changed, in
 batches, and drops what is gone.

 Which fetches succeed, and with what, is a parameter. Writes to the store succeed.
 */
module Paprika {
  import opened Option

  datatype Stub = Stub(uid: string, hash: string)

  /** The two stored tables, both by uid. */
  datatype Cache = Cache(recipes: map<string, string>, hashes: map<string, string>)

  datatype Counts = Counts(added: nat, updated: nat, removed: nat)

  type Fetch = string -> Option<string>

  const BATCH: nat := 50

  function Valid(stubs: seq<Stub>): seq<Stub> {
    if stubs == [] then []
    else
      var last := stubs[|stubs| - 1];
      Valid(stubs[..|stubs| - 1]) + if last.uid != "" && last.hash != "" then [last] else []
  }

  predicate IsStale(hashes: map<string, string>, stub: Stub) {
    stub.uid !in hashes || hashes[stub.uid] != stub.hash
  }

  function ToFetch(hashes: map<string, string>, stubs: seq<Stub>): seq<Stub> {
    if stubs == [] then []
    else
      var last := stubs[|stubs| - 1];
      ToFetch(hashes, stubs[..|stubs| - 1]) + if IsStale(hashes, last) then [last] else []
  }

  function Uids(stubs: seq<Stub>): set<string> {
    set stub <- stubs :: stub.uid
  }

  function Store(c: Cache, stub: Stub, fetch: Fetch): Cache {
    if fetch(stub.uid).None? then c
    else Cache(c.recipes[stub.uid := fetch(stub.uid).value], c.hashes[stub.uid := stub.hash])
  }

  function StoreAll(c: Cache, stubs: seq<Stub>, fetch: Fetch): Cache {
    if stubs == [] then c
    else Store(StoreAll(c, stubs[..|stubs| - 1], fetch), stubs[|stubs| - 1], fetch)
  }

  function Drop(c: Cache, uids: set<string>): Cache {
    Cache(c.recipes - uids, c.hashes - uids)
  }

  predicate IsUpdate(hashes: map<string, string>, uid: string) {
    uid in hashes && hashes[uid] != ""
  }

  /** How many of the stubs were fetched, and were updates as `update` says. */
  function Fetched(hashes: map<string, string>, stubs: seq<Stub>, fetch: Fetch, update: bool): nat {
    if stubs == [] then 0
    else
      var last := stubs[|stubs| - 1];
      Fetched(hashes, stubs[..|stubs| - 1], fetch, update) +
      if fetch(last.uid).Some? && IsUpdate(hashes, last.uid) == update then 1 else 0
  }

  /** One sync against a list of valid stubs. */
  function Synced(c: Cache, stubs: seq<Stub>, fetch: Fetch): Cache {
    Drop(StoreAll(c, ToFetch(c.hashes, stubs), fetch), c.hashes.Keys - Uids(stubs))
  }

  function SyncCounts(c: Cache, stubs: seq<Stub>, fetch: Fetch): Counts {
    var stale := ToFetch(c.hashes, stubs);
    Counts(Fetched(c.hashes, stale, fetch, false), Fetched(c.hashes, stale, fetch, true),
           |c.hashes.Keys - Uids(stubs)|)
  }

  // ---------------------------------------------------------------------------
  // The sync
  // ---------------------------------------------------------------------------

  class RecipeStore {
    var recipes: map<string, string>
    var hashes: map<string, string>

    ghost function Now(): Cache
      reads this
    {
      Cache(recipes, hashes)
    }

    constructor ()
      ensures Now() == Cache(map[], map[])
    {
      recipes, hashes := map[], map[];
    }

    /** Fetches one batch and stores, in one go, what arrived. */
    method SyncBatch(storedHashes: map<string, string>, batch: seq<Stub>, fetch: Fetch)
        returns (added: nat, updated: nat)
      modifies this
      ensures Now() == StoreAll(old(Now()), batch, fetch)
      ensures added == Fetched(storedHashes, batch, fetch, false)
      ensures updated == Fetched(storedHashes, batch, fetch, true)
    {
      var results := seq(|batch|, j requires 0 <= j < |batch| => fetch(batch[j].uid));
      var pipeline := Cache(recipes, hashes);
      added, updated := 0, 0;
      for j := 0 to |results|
        invariant pipeline == StoreAll(old(Now()), batch[..j], fetch)
        invariant added == Fetched(storedHashes, batch[..j], fetch, false)
        invariant updated == Fetched(storedHashes, batch[..j], fetch, true)
      {
        assert batch[..j + 1][..j] == batch[..j];
        var r, stub := results[j], batch[j];
        if r.None? {
          continue;
        }
        if stub.uid in storedHashes && storedHashes[stub.uid] != "" {
          updated := updated + 1;
        } else {
          added := added + 1;
        }
        pipeline := Cache(pipeline.recipes[stub.uid := r.value], pipeline.hashes[stub.uid := stub.hash]);
      }
      assert batch[..|batch|] == batch;
      recipes, hashes := pipeline.recipes, pipeline.hashes;
    }

    method Stale(stubs: seq<Stub>) returns (valid: seq<Stub>, toFetch: seq<Stub>)
      ensures valid == Valid(stubs) && toFetch == ToFetch(hashes, valid)
    {
      valid := [];
      for i := 0 to |stubs|
        invariant valid == Valid(stubs[..i])
      {
        assert stubs[..i + 1][..i] == stubs[..i];
        if stubs[i].uid != "" && stubs[i].hash != "" {
          valid := valid + [stubs[i]];
        }
      }
      assert stubs[..|stubs|] == stubs;
      toFetch := [];
      for i := 0 to |valid|
        invariant toFetch == ToFetch(hashes, valid[..i])
      {
        assert valid[..i + 1][..i] == valid[..i];
        if valid[i].uid !in hashes || hashes[valid[i].uid] != valid[i].hash {
          toFetch := toFetch + [valid[i]];
        }
      }
      assert valid[..|valid|] == valid;
    }

    /** `None` is a list that could not be fetched: the error goes to the caller and nothing changes. */
    method SyncRecipes(list: Option<seq<Stub>>, fetch: Fetch) returns (counts: Option<Counts>)
      modifies this
      ensures list.None? ==> Now() == old(Now()) && counts == None
      ensures list.Some? ==>
        && Now() == Synced(old(Now()), Valid(list.value), fetch)
        && counts == Some(SyncCounts(old(Now()), Valid(list.value), fetch))
    {
      hide Valid, ToFetch, Store;
      if list.None? {
        return None;
      }
      var storedHashes := hashes;
      var valid, toFetch := Stale(list.value);
      var toRemove := storedHashes.Keys - Uids(valid);
      var added, updated, i := 0, 0, 0;
      while i < |toFetch|
        invariant 0 <= i
        invariant var done := toFetch[..if i < |toFetch| then i else |toFetch|];
          && Now() == StoreAll(old(Now()), done, fetch)
          && added == Fetched(storedHashes, done, fetch, false)
          && updated == Fetched(storedHashes, done, fetch, true)
      {
        var end := if i + BATCH < |toFetch| then i + BATCH else |toFetch|;
        var a, u := SyncBatch(storedHashes, toFetch[i..end], fetch);
        assert toFetch[..end] == toFetch[..i] + toFetch[i..end];
        StoreInTwo(old(Now()), toFetch[..i], toFetch[i..end], fetch);
        FetchedInTwo(storedHashes, toFetch[..i], toFetch[i..end], fetch, false);
        FetchedInTwo(storedHashes, toFetch[..i], toFetch[i..end], fetch, true);
        added, updated, i := added + a, updated + u, i + BATCH;
      }
      assert toFetch[..|toFetch|] == toFetch;
      recipes, hashes := recipes - toRemove, hashes - toRemove;
      counts := Some(Counts(added, updated, |toRemove|));
    }
  }

  lemma {:induction false} StoreInTwo(c: Cache, a: seq<Stub>, b: seq<Stub>, fetch: Fetch)
    ensures StoreAll(c, a + b, fetch) == StoreAll(StoreAll(c, a, fetch), b, fetch)
  {
    if b == [] {
      assert a + b == a;
    } else {
      StoreInTwo(c, a, b[..|b| - 1], fetch);
      assert (a + b)[..|a + b| - 1] == a + b[..|b| - 1];
    }
  }

  lemma {:induction false} FetchedInTwo(hashes: map<string, string>, a: seq<Stub>, b: seq<Stub>, fetch: Fetch, update: bool)
    ensures Fetched(hashes, a + b, fetch, update) == Fetched(hashes, a, fetch, update) + Fetched(hashes, b, fetch, update)
  {
    if b == [] {
      assert a + b == a;
    } else {
      FetchedInTwo(hashes, a, b[..|b| - 1], fetch, update);
      assert (a + b)[..|a + b| - 1] == a + b[..|b| - 1];
    }
  }

  // ---------------------------------------------------------------------------
  // What a sync achieves
  // ---------------------------------------------------------------------------

  /** Every hash belongs to a stored recipe, and is not empty. */
  ghost predicate Sound(c: Cache) {
    c.hashes.Keys <= c.recipes.Keys && forall uid <- c.hashes :: c.hashes[uid] != ""
  }

  ghost predicate AllValid(stubs: seq<Stub>) {
    forall stub <- stubs :: stub.uid != "" && stub.hash != ""
  }

  /** No uid is listed with two hashes. */
  ghost predicate Consistent(stubs: seq<Stub>) {
    forall a <- stubs, b <- stubs :: a.uid == b.uid ==> a.hash == b.hash
  }

  ghost predicate Distinct(stubs: seq<Stub>) {
    forall i, j :: 0 <= i < j < |stubs| ==> stubs[i].uid != stubs[j].uid
  }

  lemma {:induction false} ToFetchIs(hashes: map<string, string>, stubs: seq<Stub>)
    ensures forall stub :: stub in ToFetch(hashes, stubs) <==> stub in stubs && IsStale(hashes, stub)
  {
    if stubs != [] {
      ToFetchIs(hashes, stubs[..|stubs| - 1]);
      assert stubs == stubs[..|stubs| - 1] + [stubs[|stubs| - 1]];
    }
  }

  lemma {:induction false} ValidIs(stubs: seq<Stub>)
    ensures AllValid(Valid(stubs))
    ensures forall stub :: stub in Valid(stubs) <==> stub in stubs && stub.uid != "" && stub.hash != ""
  {
    if stubs != [] {
      ValidIs(stubs[..|stubs| - 1]);
      assert stubs == stubs[..|stubs| - 1] + [stubs[|stubs| - 1]];
    }
  }

  function Hash(c: Cache, uid: string): Option<string> {
    if uid in c.hashes then Some(c.hashes[uid]) else None
  }

  function Recipe(c: Cache, uid: string): Option<string> {
    if uid in c.recipes then Some(c.recipes[uid]) else None
  }

  /** What one uid has after storing a list: what was fetched for it, or what it had. */
  lemma {:induction false} StoredFor(c: Cache, stubs: seq<Stub>, fetch: Fetch, uid: string)
    ensures var d := StoreAll(c, stubs, fetch);
            if uid in Uids(stubs) && fetch(uid).Some? then
              Recipe(d, uid) == fetch(uid) && exists stub <- stubs :: stub.uid == uid && Hash(d, uid) == Some(stub.hash)
            else Recipe(d, uid) == Recipe(c, uid) && Hash(d, uid) == Hash(c, uid)
  {
    if stubs != [] {
      var init, last := stubs[..|stubs| - 1], stubs[|stubs| - 1];
      StoredFor(c, init, fetch, uid);
      assert stubs == init + [last];
      if last.uid == uid && fetch(uid).Some? {
        assert last in stubs;
      } else if uid in Uids(init) && fetch(uid).Some? {
        var stub :| stub in init && stub.uid == uid && Hash(StoreAll(c, init, fetch), uid) == Some(stub.hash);
        assert stub in stubs;
      }
    }
  }

  lemma {:induction false} StoreKeepsSound(c: Cache, stubs: seq<Stub>, fetch: Fetch)
    requires Sound(c) && AllValid(stubs)
    ensures Sound(StoreAll(c, stubs, fetch))
  {
    if stubs != [] {
      StoreKeepsSound(c, stubs[..|stubs| - 1], fetch);
    }
  }

  /** For any list and any failures, the cache stays sound, and only listed uids have a hash. */
  lemma SyncKeepsSound(c: Cache, stubs: seq<Stub>, fetch: Fetch)
    requires Sound(c) && AllValid(stubs)
    ensures var d := Synced(c, stubs, fetch); Sound(d) && d.hashes.Keys <= Uids(stubs)
  {
    var stale := ToFetch(c.hashes, stubs);
    ToFetchIs(c.hashes, stubs);
    StoreKeepsSound(c, stale, fetch);
    forall uid | uid in StoreAll(c, stale, fetch).hashes ensures uid in c.hashes || uid in Uids(stubs) {
      StoredFor(c, stale, fetch, uid);
    }
  }

  /** A listed uid whose fetch did not fail has the listed hash; one whose fetch failed is as before. */
  lemma SyncedFor(c: Cache, stubs: seq<Stub>, fetch: Fetch, stub: Stub)
    requires Consistent(stubs) && stub in stubs
    ensures var d := Synced(c, stubs, fetch);
            if IsStale(c.hashes, stub) && fetch(stub.uid).Some? then
              Hash(d, stub.uid) == Some(stub.hash) && Recipe(d, stub.uid) == fetch(stub.uid)
            else Hash(d, stub.uid) == Hash(c, stub.uid) && Recipe(d, stub.uid) == Recipe(c, stub.uid)
  {
    var stale := ToFetch(c.hashes, stubs);
    ToFetchIs(c.hashes, stubs);
    StoredFor(c, stale, fetch, stub.uid);
    assert stub.uid in Uids(stubs);
    if IsStale(c.hashes, stub) {
      assert stub in stale;
    } else {
      assert stub.uid !in Uids(stale);
    }
  }

  /** A uid that is no longer listed loses its hash and its recipe with it; a recipe without a hash is left alone. */
  lemma UnlistedFor(c: Cache, stubs: seq<Stub>, fetch: Fetch, uid: string)
    requires forall stub <- stubs :: stub.uid != uid
    ensures var d := Synced(c, stubs, fetch);
            && uid !in d.hashes
            && (uid in c.hashes ==> uid !in d.recipes)
            && (uid !in c.hashes ==> Recipe(d, uid) == Recipe(c, uid))
  {
    var stale := ToFetch(c.hashes, stubs);
    ToFetchIs(c.hashes, stubs);
    StoredFor(c, stale, fetch, uid);
    assert uid !in Uids(stubs) && uid !in Uids(stale);
  }

  function Failures(stubs: seq<Stub>, fetch: Fetch): seq<Stub> {
    if stubs == [] then []
    else
      var last := stubs[|stubs| - 1];
      Failures(stubs[..|stubs| - 1], fetch) + if fetch(last.uid).None? then [last] else []
  }

  lemma FailuresStep(stubs: seq<Stub>, stub: Stub, fetch: Fetch)
    ensures Failures(stubs + [stub], fetch) ==
            Failures(stubs, fetch) + if fetch(stub.uid).None? then [stub] else []
  {
    assert (stubs + [stub])[..|stubs|] == stubs;
  }

  lemma ToFetchStep(hashes: map<string, string>, stubs: seq<Stub>, k: nat)
    requires 0 < k <= |stubs|
    ensures ToFetch(hashes, stubs[..k]) ==
            ToFetch(hashes, stubs[..k - 1]) + if IsStale(hashes, stubs[k - 1]) then [stubs[k - 1]] else []
  {
    assert stubs[..k][..k - 1] == stubs[..k - 1];
  }

  lemma {:induction false} FailuresLeft(c: Cache, stubs: seq<Stub>, fetch: Fetch, k: nat)
    requires Consistent(stubs) && k <= |stubs|
    ensures ToFetch(Synced(c, stubs, fetch).hashes, stubs[..k]) == Failures(ToFetch(c.hashes, stubs[..k]), fetch)
  {
    if k == 0 {
      assert stubs[..k] == [];
    } else {
      hide Synced, ToFetch, Failures, Consistent;
      var d, stub, before := Synced(c, stubs, fetch), stubs[k - 1], ToFetch(c.hashes, stubs[..k - 1]);
      FailuresLeft(c, stubs, fetch, k - 1);
      SyncedFor(c, stubs, fetch, stub);
      ToFetchStep(c.hashes, stubs, k);
      ToFetchStep(d.hashes, stubs, k);
      assert IsStale(d.hashes, stub) <==> IsStale(c.hashes, stub) && fetch(stub.uid).None?;
      FailuresStep(before, stub, fetch);
      assert before + [] == before && Failures(before, fetch) + [] == Failures(before, fetch);
    }
  }

  /** A second sync against the same list fetches exactly what the first one failed to fetch. */
  lemma SecondSync(c: Cache, stubs: seq<Stub>, fetch: Fetch)
    requires Consistent(stubs)
    ensures ToFetch(Synced(c, stubs, fetch).hashes, stubs) == Failures(ToFetch(c.hashes, stubs), fetch)
  {
    FailuresLeft(c, stubs, fetch, |stubs|);
    assert stubs[..|stubs|] == stubs;
  }

  /** With no failures one sync is enough, exactly when no uid is listed with two hashes. */
  lemma ConvergesIff(c: Cache, stubs: seq<Stub>, fetch: Fetch)
    requires forall stub <- stubs :: fetch(stub.uid).Some?
    ensures ToFetch(Synced(c, stubs, fetch).hashes, stubs) == [] <==> Consistent(stubs)
  {
    var d := Synced(c, stubs, fetch);
    ToFetchIs(d.hashes, stubs);
    if Consistent(stubs) {
      SecondSync(c, stubs, fetch);
      ToFetchIs(c.hashes, stubs);
      NoFailures(ToFetch(c.hashes, stubs), fetch);
    } else {
      var a, b :| a in stubs && b in stubs && a.uid == b.uid && a.hash != b.hash;
      assert IsStale(d.hashes, a) || IsStale(d.hashes, b);
    }
  }

  lemma {:induction false} NoFailures(stubs: seq<Stub>, fetch: Fetch)
    requires forall stub <- stubs :: fetch(stub.uid).Some?
    ensures Failures(stubs, fetch) == []
  {
    if stubs != [] {
      NoFailures(stubs[..|stubs| - 1], fetch);
    }
  }

  /** Then the stored hashes are those of the list, and syncing again changes nothing. */
  lemma InSync(c: Cache, stubs: seq<Stub>, fetch: Fetch, again: Fetch)
    requires Sound(c) && AllValid(stubs) && Consistent(stubs)
    requires forall stub <- stubs :: fetch(stub.uid).Some?
    ensures var d := Synced(c, stubs, fetch);
            && d.hashes.Keys == Uids(stubs)
            && (forall stub <- stubs :: Hash(d, stub.uid) == Some(stub.hash))
            && Synced(d, stubs, again) == d
  {
    var d := Synced(c, stubs, fetch);
    SyncKeepsSound(c, stubs, fetch);
    forall stub | stub in stubs ensures Hash(d, stub.uid) == Some(stub.hash) {
      SyncedFor(c, stubs, fetch, stub);
    }
    assert forall uid <- Uids(stubs) :: uid in d.hashes;
    ConvergesIff(c, stubs, fetch);
    assert d.hashes.Keys - Uids(stubs) == {};
  }

  // ---------------------------------------------------------------------------
  // What the counts mean
  // ---------------------------------------------------------------------------

  function Arrived(stubs: seq<Stub>, fetch: Fetch): set<string> {
    set stub <- stubs | fetch(stub.uid).Some? :: stub.uid
  }

  lemma ArrivedStep(stubs: seq<Stub>, stub: Stub, fetch: Fetch)
    ensures Arrived(stubs + [stub], fetch) ==
            Arrived(stubs, fetch) + if fetch(stub.uid).Some? then {stub.uid} else {}
  {
  }

  lemma OneMore(uids: set<string>, uid: string, keys: set<string>)
    requires uid !in uids
    ensures |(uids + {uid}) - keys| == |uids - keys| + if uid in keys then 0 else 1
    ensures |(uids + {uid}) * keys| == |uids * keys| + if uid in keys then 1 else 0
  {
    assert (uids + {uid}) - keys == if uid in keys then uids - keys else (uids - keys) + {uid};
    assert (uids + {uid}) * keys == if uid in keys then (uids * keys) + {uid} else uids * keys;
  }

  lemma FetchedStep(hashes: map<string, string>, stubs: seq<Stub>, stub: Stub, fetch: Fetch, update: bool)
    ensures Fetched(hashes, stubs + [stub], fetch, update) ==
            Fetched(hashes, stubs, fetch, update) +
            if fetch(stub.uid).Some? && IsUpdate(hashes, stub.uid) == update then 1 else 0
  {
    assert (stubs + [stub])[..|stubs|] == stubs;
  }

  lemma LastIsNew(init: seq<Stub>, last: Stub, fetch: Fetch)
    requires Distinct(init + [last])
    ensures Distinct(init) && last.uid !in Arrived(init, fetch)
  {
    var all := init + [last];
    assert forall i :: 0 <= i < |init| ==> all[i] == init[i] && all[i].uid != all[|init|].uid;
  }

  lemma {:induction false} FetchedIs(hashes: map<string, string>, stubs: seq<Stub>, fetch: Fetch)
    requires Distinct(stubs) && forall uid <- hashes :: hashes[uid] != ""
    ensures Fetched(hashes, stubs, fetch, false) == |Arrived(stubs, fetch) - hashes.Keys|
    ensures Fetched(hashes, stubs, fetch, true) == |Arrived(stubs, fetch) * hashes.Keys|
  {
    if stubs == [] {
      assert Arrived(stubs, fetch) == {};
    } else {
      hide Arrived, Fetched, Distinct;
      var init, last := stubs[..|stubs| - 1], stubs[|stubs| - 1];
      assert stubs == init + [last];
      LastIsNew(init, last, fetch);
      FetchedIs(hashes, init, fetch);
      FetchedStep(hashes, init, last, fetch, false);
      FetchedStep(hashes, init, last, fetch, true);
      ArrivedStep(init, last, fetch);
      OneMore(Arrived(init, fetch), last.uid, hashes.Keys);
    }
  }

  lemma {:induction false} ToFetchDistinct(hashes: map<string, string>, stubs: seq<Stub>)
    requires Distinct(stubs)
    ensures Distinct(ToFetch(hashes, stubs))
  {
    if stubs != [] {
      var init, last := stubs[..|stubs| - 1], stubs[|stubs| - 1];
      ToFetchDistinct(hashes, init);
      ToFetchIs(hashes, init);
      assert forall stub <- init :: stub.uid != last.uid;
      assert forall stub <- ToFetch(hashes, init) :: stub in init;
    }
  }

  /** The uids, among those that had a hash before, whose hash a sync changed. */
  function Changed(c: Cache, d: Cache): set<string> {
    set uid <- c.hashes.Keys * d.hashes.Keys | c.hashes[uid] != d.hashes[uid]
  }

  /** What arrived was stale and is stored; every other listed uid is as before. */
  lemma ArrivedFor(c: Cache, stubs: seq<Stub>, fetch: Fetch, stub: Stub)
    requires Distinct(stubs) && stub in stubs
    ensures var d := Synced(c, stubs, fetch);
            if stub.uid in Arrived(ToFetch(c.hashes, stubs), fetch)
            then Hash(d, stub.uid) == Some(stub.hash) && Hash(c, stub.uid) != Hash(d, stub.uid)
            else Hash(d, stub.uid) == Hash(c, stub.uid)
  {
    hide Synced;
    DistinctConsistent(stubs);
    ToFetchIs(c.hashes, stubs);
    SyncedFor(c, stubs, fetch, stub);
    var arrived := Arrived(ToFetch(c.hashes, stubs), fetch);
    if IsStale(c.hashes, stub) {
      assert stub in ToFetch(c.hashes, stubs);
    } else {
      assert stub.uid !in arrived;
    }
  }

  lemma ArrivedAreListed(c: Cache, stubs: seq<Stub>, fetch: Fetch)
    ensures Arrived(ToFetch(c.hashes, stubs), fetch) <= Uids(stubs)
  {
    ToFetchIs(c.hashes, stubs);
  }

  /** Which uids gain, change and lose their hash in a sync. */
  lemma KeysAfter(c: Cache, stubs: seq<Stub>, fetch: Fetch)
    requires Sound(c) && AllValid(stubs) && Distinct(stubs)
    ensures var d, arrived := Synced(c, stubs, fetch), Arrived(ToFetch(c.hashes, stubs), fetch);
            && d.hashes.Keys - c.hashes.Keys == arrived - c.hashes.Keys
            && Changed(c, d) == arrived * c.hashes.Keys
            && c.hashes.Keys - d.hashes.Keys == c.hashes.Keys - Uids(stubs)
  {
    hide Synced, Arrived, Distinct, ToFetch, Sound;
    var d, arrived := Synced(c, stubs, fetch), Arrived(ToFetch(c.hashes, stubs), fetch);
    SyncKeepsSound(c, stubs, fetch);
    ArrivedAreListed(c, stubs, fetch);
    forall uid | uid in Uids(stubs)
      ensures if uid in arrived then uid in d.hashes && Hash(c, uid) != Hash(d, uid) else Hash(d, uid) == Hash(c, uid)
    {
      var stub :| stub in stubs && stub.uid == uid;
      ArrivedFor(c, stubs, fetch, stub);
    }
  }

  /** The counts say how many uids gained, changed and lost their hash; the first two, how many fetches succeeded. */
  lemma CountsMean(c: Cache, stubs: seq<Stub>, fetch: Fetch)
    requires Sound(c) && AllValid(stubs) && Distinct(stubs)
    ensures var d, counts := Synced(c, stubs, fetch), SyncCounts(c, stubs, fetch);
            && counts.added == |d.hashes.Keys - c.hashes.Keys|
            && counts.updated == |Changed(c, d)|
            && counts.removed == |c.hashes.Keys - d.hashes.Keys|
            && counts.added + counts.updated == |Arrived(ToFetch(c.hashes, stubs), fetch)|
  {
    hide Synced, Arrived, Distinct, ToFetch, Changed, Fetched, AllValid;
    var stale := ToFetch(c.hashes, stubs);
    var arrived := Arrived(stale, fetch);
    ToFetchDistinct(c.hashes, stubs);
    FetchedIs(c.hashes, stale, fetch);
    KeysAfter(c, stubs, fetch);
    TwoParts(arrived, c.hashes.Keys);
  }

  lemma TwoParts(uids: set<string>, keys: set<string>)
    ensures |uids| == |uids - keys| + |uids * keys|
  {
    assert uids == (uids - keys) + (uids * keys);
  }

  lemma DistinctConsistent(stubs: seq<Stub>)
    requires Distinct(stubs)
    ensures Consistent(stubs)
  {
  }
}