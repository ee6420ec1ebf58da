/**
 The bounded registry of rate-limit buckets (`rate_limit.go`): a bucket per key, made on first
 use; when the table is full a newcomer makes the registry forget all of them.
 */
module BucketRegistry {
  import opened Options

  const MAX_BUCKETS_PER_TIER := 50000

  /** The registry with its buckets numbered in the order they were made, and its resets counted. */
  datatype Table = Table(buckets: map<string, nat>, made: nat, resets: nat)

  const Fresh := Table(map[], 0, 0)

  function Serve(max: nat, t: Table, key: string): Table {
    if key in t.buckets then t
    else if |t.buckets| >= max then Table(map[key := t.made], t.made + 1, t.resets + 1)
    else Table(t.buckets[key := t.made], t.made + 1, t.resets)
  }

  function Run(max: nat, keys: seq<string>): Table {
    if keys == [] then Fresh else Serve(max, Run(max, keys[..|keys| - 1]), keys[|keys| - 1])
  }

  /** How many full buckets the requests with one key were given. */
  function FullBuckets(max: nat, keys: seq<string>, key: string): nat {
    if keys == [] then 0
    else
      var front, last := keys[..|keys| - 1], keys[|keys| - 1];
      FullBuckets(max, front, key) + if last == key && key !in Run(max, front).buckets then 1 else 0
  }

  /** The bucket that serves the request with this number. */
  function Served(max: nat, keys: seq<string>, i: nat): nat
    requires i < |keys|
  {
    Serve(max, Run(max, keys[..i]), keys[i]).buckets[keys[i]]
  }

  lemma RunNext(max: nat, keys: seq<string>, i: nat)
    requires i < |keys|
    ensures Run(max, keys[..i + 1]) == Serve(max, Run(max, keys[..i]), keys[i])
  {
    assert keys[..i + 1][..i] == keys[..i];
  }

  // -------------------------------------------------------------------- how many

  ghost predicate Sized(max: nat, t: Table) {
    if t.made == 0 then t == Fresh else 1 <= |t.buckets| <= max && t.made == t.resets * max + |t.buckets|
  }

  lemma {:induction false} SizedAlways(max: nat, keys: seq<string>)
    requires max > 0
    ensures Sized(max, Run(max, keys))
  {
    if keys != [] {
      var t, key := Run(max, keys[..|keys| - 1]), keys[|keys| - 1];
      SizedAlways(max, keys[..|keys| - 1]);
      if key !in t.buckets {
        if |t.buckets| >= max {
          assert (t.resets + 1) * max == t.resets * max + max;
        } else {
          assert |t.buckets[key := t.made]| == |t.buckets| + 1;
        }
      }
    }
  }

  lemma {:induction false} Multiples(x: nat, y: nat, d: nat)
    requires x < y
    ensures x * d + d <= y * d
    decreases y
  {
    assert y * d == (y - 1) * d + d;
    if x < y - 1 {
      Multiples(x, y - 1, d);
    }
  }

  lemma Division(a: nat, q: nat, r: nat, d: nat)
    requires r < d && a == q * d + r
    ensures a / d == q && a % d == r
  {
    var q': nat, r' := a / d, a % d;
    assert a == q' * d + r';
    if q < q' {
      Multiples(q, q', d);
    } else if q' < q {
      Multiples(q', q, d);
    }
  }

  /** The exact size of the registry and the exact number of its resets, after m buckets were made. */
  lemma SizeAndResets(max: nat, keys: seq<string>)
    requires max > 0 && Run(max, keys).made >= 1
    ensures var t := Run(max, keys);
      |t.buckets| == (t.made - 1) % max + 1 && t.resets == (t.made - 1) / max && |t.buckets| <= max
  {
    SizedAlways(max, keys);
    var t := Run(max, keys);
    Division(t.made - 1, t.resets, |t.buckets| - 1, max);
  }

  lemma {:induction false} FreshBound(max: nat, keys: seq<string>, key: string)
    ensures FullBuckets(max, keys, key) <= Run(max, keys).resets + if key in Run(max, keys).buckets then 1 else 0
  {
    if keys != [] {
      FreshBound(max, keys[..|keys| - 1], key);
    }
  }

  /** No key is ever given more than one full bucket, and one more for each time the registry overflowed. */
  lemma FullBucketsPerKey(max: nat, keys: seq<string>, key: string)
    requires max > 0 && Run(max, keys).made >= 1
    ensures FullBuckets(max, keys, key) <= (Run(max, keys).made - 1) / max + 1
  {
    FreshBound(max, keys, key);
    SizeAndResets(max, keys);
  }

  function Total(max: nat, keys: seq<string>): nat {
    if keys == [] then 0
    else Total(max, keys[..|keys| - 1]) + if keys[|keys| - 1] in Run(max, keys[..|keys| - 1]).buckets then 0 else 1
  }

  /** What is called `made` is the number of requests that found no bucket. */
  lemma {:induction false} MadeIsTheMisses(max: nat, keys: seq<string>)
    ensures Run(max, keys).made == Total(max, keys)
  {
    if keys != [] {
      MadeIsTheMisses(max, keys[..|keys| - 1]);
    }
  }

  // -------------------------------------------------------------- one bucket for a key

  lemma ServeKeeps(max: nat, t: Table, key: string, k: string)
    requires k in t.buckets && Serve(max, t, key).resets == t.resets
    ensures k in Serve(max, t, key).buckets && Serve(max, t, key).buckets[k] == t.buckets[k]
  {
  }

  lemma {:induction false} KeepsBucket(max: nat, keys: seq<string>, i: nat, j: nat)
    requires i < j <= |keys| && Run(max, keys[..i + 1]).resets == Run(max, keys[..j]).resets
    ensures keys[i] in Run(max, keys[..j]).buckets && Run(max, keys[..j]).buckets[keys[i]] == Served(max, keys, i)
    decreases j
  {
    if i + 1 < j {
      ResetsGrow(max, keys, i + 1, j - 1);
      ResetsGrow(max, keys, j - 1, j);
      KeepsBucket(max, keys, i, j - 1);
      RunNext(max, keys, j - 1);
      ServeKeeps(max, Run(max, keys[..j - 1]), keys[j - 1], keys[i]);
    } else {
      RunNext(max, keys, i);
    }
  }

  lemma {:induction false} ResetsGrow(max: nat, keys: seq<string>, i: nat, j: nat)
    requires i <= j <= |keys|
    ensures Run(max, keys[..i]).resets <= Run(max, keys[..j]).resets
    ensures Run(max, keys[..i]).made <= Run(max, keys[..j]).made
    decreases j
  {
    if i < j {
      RunNext(max, keys, j - 1);
      ResetsGrow(max, keys, i, j - 1);
    }
  }

  /**
   Two requests with one key share a bucket exactly when the registry was not reset between
   them: alternating keys do not multiply a budget, only an overflow does.
   */
  lemma SharedBetweenResets(max: nat, keys: seq<string>, i: nat, j: nat)
    requires max > 0 && i < j < |keys| && keys[i] == keys[j]
    ensures Served(max, keys, i) == Served(max, keys, j) <==>
      Run(max, keys[..i + 1]).resets == Run(max, keys[..j]).resets
  {
    RunNext(max, keys, i);
    RunNext(max, keys, j);
    ResetsGrow(max, keys, i + 1, j);
    if Run(max, keys[..i + 1]).resets == Run(max, keys[..j]).resets {
      KeepsBucket(max, keys, i, j);
    } else {
      BucketsAreNumbered(max, keys[..i + 1]);
      NewerThanReset(max, keys, i + 1, j);
    }
  }

  lemma {:induction false} BucketsAreNumbered(max: nat, keys: seq<string>)
    ensures forall k :: k in Run(max, keys).buckets ==> Run(max, keys).buckets[k] < Run(max, keys).made
  {
    if keys != [] {
      BucketsAreNumbered(max, keys[..|keys| - 1]);
    }
  }

  /** After a reset only newer buckets are left. */
  lemma {:induction false} NewerThanReset(max: nat, keys: seq<string>, i: nat, j: nat)
    requires i <= j <= |keys| && Run(max, keys[..i]).resets < Run(max, keys[..j]).resets
    ensures forall k :: k in Run(max, keys[..j]).buckets ==> Run(max, keys[..i]).made <= Run(max, keys[..j]).buckets[k]
    decreases j
  {
    if i < j {
      RunNext(max, keys, j - 1);
      ResetsGrow(max, keys, i, j - 1);
      if Run(max, keys[..i]).resets < Run(max, keys[..j - 1]).resets {
        NewerThanReset(max, keys, i, j - 1);
      }
    }
  }

  // ------------------------------------------------------------------------ the object

  /** A token bucket; its refilling is not part of this model. */
  class Bucket {
    constructor () {
    }
  }

  /** Key by key, the objects are those that the table has by number. */
  ghost predicate Stands(buckets: map<string, Bucket>, t: Table, all: seq<Bucket>) {
    && |all| == t.made
    && (forall i, j :: 0 <= i < j < |all| ==> all[i] != all[j])
    && buckets.Keys == t.buckets.Keys
    && (forall k :: k in buckets ==> t.buckets[k] < |all| && buckets[k] == all[t.buckets[k]])
  }

  lemma StandsNext(max: nat, buckets: map<string, Bucket>, t: Table, all: seq<Bucket>, key: string, b: Bucket)
    requires Stands(buckets, t, all) && key !in buckets && b !in all
    ensures Stands((if |buckets| >= max then map[] else buckets)[key := b], Serve(max, t, key), all + [b])
  {
    assert |buckets.Keys| == |buckets| && |t.buckets.Keys| == |t.buckets|;
  }

  class Registry {
    const maxEntries: nat
    var buckets: map<string, Bucket>
    ghost var table: Table
    ghost var history: seq<string>
    ghost var all: seq<Bucket>

    ghost predicate Valid()
      reads this
    {
      maxEntries > 0 && table == Run(maxEntries, history) && Stands(buckets, table, all)
    }

    constructor ()
      ensures Valid() && history == [] && all == [] && maxEntries == MAX_BUCKETS_PER_TIER
    {
      maxEntries := MAX_BUCKETS_PER_TIER;
      buckets := map[];
      table, history, all := Fresh, [], [];
    }

    /** `bucketFor` */
    method BucketFor(key: string) returns (b: Bucket)
      requires Valid()
      modifies this
      ensures Valid() && history == old(history) + [key] && table == Serve(maxEntries, old(table), key)
      ensures b == all[Served(maxEntries, history, |old(history)|)] && old(all) <= all
      ensures key in old(buckets) ==> b == old(buckets)[key] && buckets == old(buckets)
      ensures key !in old(buckets) ==> fresh(b) && b !in old(all)
      ensures key !in old(buckets) ==>
        buckets == (if |old(buckets)| < maxEntries then old(buckets) else map[])[key := b]
    {
      ghost var keys := history + [key];
      assert keys[..|history|] == history;
      history := keys;
      if key in buckets {
        return buckets[key];
      }
      ghost var before := buckets;
      if |buckets| >= maxEntries {
        buckets := map[];
      }
      b := new Bucket();
      StandsNext(maxEntries, before, table, all, key, b);
      table := Serve(maxEntries, table, key);
      buckets := buckets[key := b];
      all := all + [b];
    }
  }

  // --------------------------------------------------------------- a registry per class

  datatype PathClass = PathClass(name: string, paths: seq<string>, perMinute: real)

  /** The media table leaves out classes without a rate. */
  predicate Serves(c: PathClass, skipIdle: bool) {
    !skipIdle || c.perMinute > 0.0
  }

  /** The last class in force that lists a path. */
  function LastClass(classes: seq<PathClass>, skipIdle: bool, path: string): Option<nat> {
    if classes == [] then None
    else
      var c := classes[|classes| - 1];
      if Serves(c, skipIdle) && path in c.paths then Some(|classes| - 1)
      else LastClass(classes[..|classes| - 1], skipIdle, path)
  }

  /**
   Every listed path leads to the registry of the last class in force that lists it, and no other
   path leads anywhere.
   */
  ghost predicate Lead(classes: seq<PathClass>, skipIdle: bool, tiers: map<string, Registry>,
                       made: map<nat, Registry>) {
    forall path :: LeadsTo(LastClass(classes, skipIdle, path), tiers, made, path)
  }

  ghost predicate LeadsTo(class': Option<nat>, tiers: map<string, Registry>, made: map<nat, Registry>, path: string) {
    if class'.None? then path !in tiers
    else path in tiers && class'.value in made && tiers[path] == made[class'.value]
  }

  lemma LeadNext(classes: seq<PathClass>, skipIdle: bool, tiers: map<string, Registry>, made: map<nat, Registry>,
                 tiers': map<string, Registry>, registry: Registry)
    requires classes != [] && Serves(classes[|classes| - 1], skipIdle) && |classes| - 1 !in made
    requires Lead(classes[..|classes| - 1], skipIdle, tiers, made)
    requires forall path :: path in tiers' <==> path in tiers || path in classes[|classes| - 1].paths
    requires forall path :: path in tiers' ==>
      tiers'[path] == if path in classes[|classes| - 1].paths then registry else tiers[path]
    ensures Lead(classes, skipIdle, tiers', made[(|classes| - 1) as nat := registry])
  {
  }

  lemma LeadStays(classes: seq<PathClass>, skipIdle: bool, tiers: map<string, Registry>, made: map<nat, Registry>)
    requires classes != [] && !Serves(classes[|classes| - 1], skipIdle)
    requires Lead(classes[..|classes| - 1], skipIdle, tiers, made)
    ensures Lead(classes, skipIdle, tiers, made)
  {
  }

  /** One registry for each class in force, no two classes sharing one. */
  ghost predicate OneEach(classes: seq<PathClass>, skipIdle: bool, made: map<nat, Registry>) {
    && (forall i: nat :: i in made <==> i < |classes| && Serves(classes[i], skipIdle))
    && (forall i: nat, j: nat :: i in made && j in made && i != j ==> made[i] != made[j])
  }

  /**
   The tables `newRateLimiter` builds: all paths of a class lead to one registry, and paths of
   different classes to different ones. `made` has the registry of each class in force.
   */
  method BuildTiers(classes: seq<PathClass>, skipIdle: bool)
    returns (tiers: map<string, Registry>, made: map<nat, Registry>)
    ensures OneEach(classes, skipIdle, made) && Lead(classes, skipIdle, tiers, made)
    ensures forall i: nat :: i in made <==> i < |classes| && (skipIdle ==> classes[i].perMinute > 0.0)
    ensures forall i: nat :: i in made ==> fresh(made[i]) && made[i].Valid() && made[i].history == []
  {
    tiers, made := map[], map[];
    for i := 0 to |classes|
      invariant OneEach(classes[..i], skipIdle, made) && Lead(classes[..i], skipIdle, tiers, made)
      invariant forall j: nat :: j in made ==> fresh(made[j]) && made[j].Valid() && made[j].history == []
    {
      assert classes[..i + 1][..i] == classes[..i];
      if !Serves(classes[i], skipIdle) {
        LeadStays(classes[..i + 1], skipIdle, tiers, made);
        continue;
      }
      var registry := new Registry();
      var more := AddPaths(tiers, classes[i].paths, registry);
      LeadNext(classes[..i + 1], skipIdle, tiers, made, more, registry);
      made := made[i as nat := registry];
      tiers := more;
    }
    assert classes[..|classes|] == classes;
  }

  method AddPaths(tiers: map<string, Registry>, paths: seq<string>, registry: Registry)
    returns (more: map<string, Registry>)
    ensures forall path :: path in more <==> path in tiers || path in paths
    ensures forall path :: path in more ==> more[path] == if path in paths then registry else tiers[path]
  {
    more := tiers;
    for n := 0 to |paths|
      invariant forall path :: path in more <==> path in tiers || path in paths[..n]
      invariant forall path :: path in more ==> more[path] == if path in paths[..n] then registry else tiers[path]
    {
      assert paths[..n + 1] == paths[..n] + [paths[n]];
      more := more[paths[n] := registry];
    }
    assert paths[..|paths|] == paths;
  }
}
