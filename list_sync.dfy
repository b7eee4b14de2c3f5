/** The list synchronizer (src/App.js:114-133): every value the store emits
    under `projects` replaces the displayed list with one record per child,
    in the order the children come. */
module ListSync {
  import opened ProjectData

  /** A child of the snapshot: its key and the object stored under it. */
  type Child = (string, Object)

  /** What `snapshot.val()` gives: null when nothing is stored, otherwise
      the children in the order `Object.keys` lists them. The keys of a
      snapshot the store emits are distinct (`DistinctKeys`); the projection
      itself does not depend on that. */
  type Snapshot = Option<seq<Child>>

  /** `{id: key, ...entry}`: the key becomes `id` first, and the spread that
      follows copies every property of the entry, so an entry that stores
      its own `id` overrides the key. */
  function RecordOf(key: string, entry: Object): (r: Object)
    ensures r.Keys == entry.Keys + {"id"}
    ensures forall f :: f in entry ==> r[f] == entry[f]
    ensures r["id"] == if "id" in entry then entry["id"] else Str(key)
  {
    map["id" := Str(key)] + entry
  }

  /** `Object.keys(data).map(...)`: one record per child, in child order. */
  function Records(children: seq<Child>): (rs: seq<Object>)
    ensures |rs| == |children|
    ensures forall i :: 0 <= i < |children| ==> rs[i] == RecordOf(children[i].0, children[i].1)
  {
    if children == [] then []
    else [RecordOf(children[0].0, children[0].1)] + Records(children[1..])
  }

  /** The list the callback publishes for a snapshot (src/App.js:119-127). */
  function Projection(snap: Snapshot): (rs: seq<Object>)
    ensures snap.None? ==> rs == []
    ensures snap.Some? ==> |rs| == |snap.value|
    ensures snap.Some? && snap.value == [] ==> rs == []
    ensures snap.Some? ==> forall i :: 0 <= i < |rs| ==>
      var (key, entry) := snap.value[i];
      rs[i].Keys == entry.Keys + {"id"} &&
      (forall f :: f in entry ==> rs[i][f] == entry[f]) &&
      rs[i]["id"] == if "id" in entry then entry["id"] else Str(key)
  {
    match snap
    case None => []
    case Some(children) => Records(children)
  }

  /** The `id` of every record of a list, in order. */
  function Ids(rs: seq<Object>): (ids: seq<Value>)
    ensures |ids| == |rs|
    ensures forall i :: 0 <= i < |rs| ==> ids[i] == Get(rs[i], "id")
  {
    if rs == [] then [] else [Get(rs[0], "id")] + Ids(rs[1..])
  }

  /** No child stores a property named `id` of its own. */
  predicate NoStoredIds(children: seq<Child>)
  {
    forall i :: 0 <= i < |children| ==> "id" !in children[i].1
  }

  /** The projection keeps the order of the children: projecting two runs of
      children one after the other gives the two lists one after the other. */
  lemma RecordsAppend(a: seq<Child>, b: seq<Child>)
    ensures Records(a + b) == Records(a) + Records(b)
  {
  }

  /** When no child stores its own `id`, the ids of the published list are
      exactly the keys of the snapshot, in the same order. */
  lemma IdsAreKeys(children: seq<Child>)
    requires NoStoredIds(children)
    ensures Ids(Records(children)) == seq(|children|, i requires 0 <= i < |children| => Str(children[i].0))
  {
  }

  /** Distinct keys give distinct ids when no child stores its own `id`, so
      the rows of the table (keyed by `id`) never collide. */
  lemma IdsDistinct(children: seq<Child>, i: nat, j: nat)
    requires NoStoredIds(children)
    requires i < j < |children| && children[i].0 != children[j].0
    ensures Get(Records(children)[i], "id") != Get(Records(children)[j], "id")
  {
  }

  /** The keys of the children, as a set. */
  function KeySet(children: seq<Child>): (ks: set<string>)
    ensures forall i :: 0 <= i < |children| ==> children[i].0 in ks
    ensures forall k :: k in ks ==> exists i :: 0 <= i < |children| && children[i].0 == k
  {
    if children == [] then {} else {children[0].0} + KeySet(children[1..])
  }

  /** No two children share a key, as in any JavaScript object. */
  predicate DistinctKeys(children: seq<Child>)
  {
    forall i, j :: 0 <= i < j < |children| ==> children[i].0 != children[j].0
  }

  /** Distinct keys are as many as the children. */
  lemma {:induction false} DistinctKeyCount(children: seq<Child>)
    requires DistinctKeys(children)
    ensures |KeySet(children)| == |children|
  {
    if children != [] {
      var rest := children[1..];
      assert DistinctKeys(rest) by {
        forall i, j | 0 <= i < j < |rest|
          ensures rest[i].0 != rest[j].0
        {
          assert rest[i] == children[i + 1] && rest[j] == children[j + 1];
        }
      }
      assert children[0].0 !in KeySet(rest) by {
        forall i | 0 <= i < |rest|
          ensures rest[i].0 != children[0].0
        {
          assert rest[i] == children[i + 1];
        }
      }
      DistinctKeyCount(rest);
      assert KeySet(children) == {children[0].0} + KeySet(rest);
    }
  }

  /** For a snapshot the store can emit, the published list has one record
      per key: its length is the number of distinct keys. */
  lemma ProjectionCountsKeys(children: seq<Child>)
    requires DistinctKeys(children)
    ensures |Projection(Some(children))| == |KeySet(children)|
  {
    DistinctKeyCount(children);
  }
}
