/** The size recorded with a pushed manifest: a sum over the stored layers it names. */
module Manifest {
  import opened Prelude
  import opened P2P
  import opened LayerStore
  import opened Registry
  import opened UploadSafety
  import opened PushPull

  /** `digest in (...)`: the distinct stored digests among those named. */
  function Named(layers: Table, layerIDs: seq<string>): set<string> {
    set d | d in layers && d in layerIDs
  }

  /** The sum of a weight over a set of digests. */
  ghost function Sum(digests: set<string>, weight: string -> int): int {
    if digests == {} then 0
    else
      var d :| d in digests;
      weight(d) + Sum(digests - {d}, weight)
  }

  /** The order in which the set is summed does not matter. */
  lemma {:induction false} SumRemove(digests: set<string>, weight: string -> int, d: string)
    requires d in digests
    ensures Sum(digests, weight) == weight(d) + Sum(digests - {d}, weight)
  {
    var first :| first in digests && Sum(digests, weight) == weight(first) + Sum(digests - {first}, weight);
    if first != d {
      SumRemove(digests - {first}, weight, d);
      SumRemove(digests - {d}, weight, first);
      assert digests - {first} - {d} == digests - {d} - {first};
    }
  }

  function SizeOf(layers: Table): string -> int {
    d => if d in layers then layers[d].size else 0
  }

  /** What the database and its driver decide: whether the query fails, and what a sum over
      no rows at all is read as (an error, or some number). */
  datatype Query = Query(fails: bool, emptySum: Option<int>)

  /** `select sum(size) ... where digest in (...)`; None is an error. */
  ghost function ImageSize(layers: Table, layerIDs: seq<string>, q: Query): Option<int> {
    if q.fails then None
    else if Named(layers, layerIDs) == {} then q.emptySum
    else Some(Sum(Named(layers, layerIDs), SizeOf(layers)))
  }

  /** The query, as a scan of the table. */
  method GetImageSizeByLayerIds(layers: Table, layerIDs: seq<string>, q: Query) returns (size: Option<int>)
    ensures size == ImageSize(layers, layerIDs, q)
  {
    if q.fails {
      return None;
    }
    var todo := Named(layers, layerIDs);
    if todo == {} {
      return q.emptySum;
    }
    var total := 0;
    while todo != {}
      invariant todo <= Named(layers, layerIDs)
      invariant total + Sum(todo, SizeOf(layers)) == Sum(Named(layers, layerIDs), SizeOf(layers))
    {
      var d :| d in todo;
      SumRemove(todo, SizeOf(layers), d);
      total := total + layers[d].size;
      todo := todo - {d};
    }
    size := Some(total);
  }

  /** The part of PushManifest that fills in the size: `declared` is what the client's own
      document says, and stays when the query gives an error. */
  method ManifestSize(layers: Table, layerDigests: seq<string>, declared: int, q: Query) returns (size: int)
    ensures size == RecordedSize(layers, layerDigests, declared, q)
  {
    var layerIDs: seq<string> := [];
    for i := 0 to |layerDigests|
      invariant layerIDs == layerDigests[..i]
    {
      layerIDs := layerIDs + [layerDigests[i]];
    }
    assert layerIDs == layerDigests;
    var sum := GetImageSizeByLayerIds(layers, layerIDs, q);
    size := if sum.Some? then sum.value else declared;
  }

  ghost function RecordedSize(layers: Table, layerDigests: seq<string>, declared: int, q: Query): int {
    match ImageSize(layers, layerDigests, q)
    case None => declared
    case Some(n) => n
  }

  /** The recorded size: the sizes of the digests that are both stored and named, each once. */
  lemma SizeOfTheNamed(layers: Table, layerDigests: seq<string>, declared: int, q: Query, ds: set<string>)
    requires forall d :: d in ds <==> d in layerDigests && d in layers
    ensures RecordedSize(layers, layerDigests, declared, q) ==
      if q.fails || (ds == {} && q.emptySum.None?) then declared
      else if ds == {} then q.emptySum.value
      else Sum(ds, SizeOf(layers))
  {
    assert ds == Named(layers, layerDigests);
  }

  /** Reordering or repeating layers in the manifest does not change the recorded size. */
  lemma SizeIsASetSum(layers: Table, a: seq<string>, b: seq<string>, declared: int, q: Query)
    requires forall d :: d in a <==> d in b
    ensures RecordedSize(layers, a, declared, q) == RecordedSize(layers, b, declared, q)
  {
    assert Named(layers, a) == Named(layers, b);
  }

  /** The bytes the registry stores for a digest. */
  function StoredBytes(s: State): string -> int {
    d => if d in s.store.layers && s.store.layers[d].dfsLink in s.dfs.objects
         then |s.dfs.objects[s.store.layers[d].dfsLink]| else 0
  }

  lemma {:induction false} SumsAgree(digests: set<string>, f: string -> int, g: string -> int)
    requires forall d :: d in digests ==> f(d) == g(d)
    ensures Sum(digests, f) == Sum(digests, g)
  {
    if digests != {} {
      var d :| d in digests;
      SumRemove(digests, f, d);
      SumRemove(digests, g, d);
      SumsAgree(digests - {d}, f, g);
    }
  }

  /** In every reachable state the size recorded with a manifest that names some stored
      layer is the total number of bytes of the distinct stored objects it names, whatever
      size the client declared. */
  lemma {:induction false} ManifestSizeIsStoredBytes(env: Env, r: Run, layerDigests: seq<string>, declared: int,
                                                     q: Query, ds: set<string>)
    requires SoundCids(env) && Plausible(r) && !q.fails
    requires ds != {} && forall d :: d in ds <==> d in layerDigests && d in Exec(env, r).store.layers
    ensures var s := Exec(env, r);
      && RecordedSize(s.store.layers, layerDigests, declared, q) == Sum(ds, StoredBytes(s))
      && forall d :: d in ds ==>
           && s.store.layers[d].dfsLink in s.dfs.objects
           && StoredBytes(s)(d) == |s.dfs.objects[s.store.layers[d].dfsLink]|
  {
    IntegrityAlways(env, r);
    var s := Exec(env, r);
    SizeOfTheNamed(s.store.layers, layerDigests, declared, q, ds);
    SumsAgree(ds, SizeOf(s.store.layers), StoredBytes(s));
  }

  /** Exactly when what the client declares decides the size: when the query gives an error,
      be it its own or the one the driver makes of a sum over no rows. */
  lemma DeclaredSizeSurvives(layers: Table, layerDigests: seq<string>, declared: int, other: int, q: Query)
    requires declared != other
    ensures RecordedSize(layers, layerDigests, declared, q) != RecordedSize(layers, layerDigests, other, q)
      <==> q.fails || (Named(layers, layerDigests) == {} && q.emptySum.None?)
  {
  }
}
