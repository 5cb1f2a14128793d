/**
 * `MemStorage` of server/storage.ts, restricted to its puppy operations.
 *
 * The JavaScript `Map` is a finite map together with the order in which its
 * keys were first set, because `Map.prototype.values` iterates in insertion
 * order. `randomUUID` is an oracle: each operation that draws an id takes it
 * as a parameter, and the properties that rely on the id being new say so.
 */
module Storage {
  import opened Wrappers
  import opened Schema

  datatype Store = Store(puppies: map<string, Puppy>, order: seq<string>)

  /** The store right after `new Map()`. */
  const Empty: Store := Store(map[], [])

  /** Representation invariant of the store. */
  ghost predicate Valid(s: Store) {
    && (forall i, j :: 0 <= i < j < |s.order| ==> s.order[i] != s.order[j])
    && (forall k :: k in s.puppies <==> k in s.order)
    && (forall k :: k in s.puppies ==> s.puppies[k].id == k)
    && (forall k :: k in s.puppies ==> s.puppies[k].description != Some(""))
  }

  /** `d || null`: an absent, null or empty description becomes null, any other is kept. */
  function NormalizeDescription(d: Option<string>): (r: Option<string>)
    ensures r == None <==> (d == None || d == Some(""))
    ensures r.Some? ==> r == d
  {
    if d == Some("") then None else d
  }

  /**
   * The record built from an insert: `{ ...ins, id, description: ins.description || null }`.
   * No default is filled in here.
   */
  function Build(ins: InsertPuppy, id: string): (p: Puppy)
    ensures p.id == id
    ensures Omit(p) == ins.(description := NormalizeDescription(ins.description))
  {
    WithId(ins, id).(description := NormalizeDescription(ins.description))
  }

  /** `Map.prototype.set`: a new key is appended to the iteration order, an existing one keeps its place. */
  function Set(s: Store, key: string, p: Puppy): (t: Store)
    ensures key in t.puppies && t.puppies[key] == p
    ensures forall k :: k != key ==> (k in t.puppies <==> k in s.puppies)
    ensures forall k :: k != key && k in s.puppies ==> t.puppies[k] == s.puppies[k]
    ensures key in s.order ==> t.order == s.order
    ensures key !in s.order ==> t.order == s.order + [key]
  {
    Store(s.puppies[key := p], if key in s.order then s.order else s.order + [key])
  }

  /** `getPuppy`: the stored record under `id`, or undefined. */
  function GetPuppy(s: Store, id: string): (r: Option<Puppy>)
    ensures r.Some? <==> id in s.puppies
    ensures r.Some? ==> r.value == s.puppies[id]
  {
    if id in s.puppies then Some(s.puppies[id]) else None
  }

  /** The values stored under `keys`, in that order; a key not in `m` contributes nothing. */
  function Values(m: map<string, Puppy>, keys: seq<string>): (r: seq<Puppy>)
    ensures |r| <= |keys|
    ensures (forall k :: k in keys ==> k in m) ==>
              |r| == |keys| && forall i :: 0 <= i < |keys| ==> r[i] == m[keys[i]]
  {
    if |keys| == 0 then []
    else (if keys[0] in m then [m[keys[0]]] else []) + Values(m, keys[1..])
  }

  /** `getAllPuppies`: `Array.from(this.puppies.values())`. */
  function GetAllPuppies(s: Store): (r: seq<Puppy>)
    requires Valid(s)
    ensures |r| == |s.order| == |s.puppies|
    ensures forall i :: 0 <= i < |r| ==> r[i] == s.puppies[s.order[i]]
    ensures forall p :: p in r <==> exists k :: k in s.puppies && s.puppies[k] == p
    ensures forall i, j :: 0 <= i < j < |r| ==> r[i].id != r[j].id
  {
    DistinctLength(s.order, s.puppies.Keys);
    var r := Values(s.puppies, s.order);
    ValuesCoverMap(s, r);
    r
  }

  lemma ValuesCoverMap(s: Store, r: seq<Puppy>)
    requires Valid(s)
    requires |r| == |s.order| && forall i :: 0 <= i < |r| ==> r[i] == s.puppies[s.order[i]]
    ensures forall p :: p in r <==> exists k :: k in s.puppies && s.puppies[k] == p
  {
    forall p | exists k :: k in s.puppies && s.puppies[k] == p
      ensures p in r
    {
      var k :| k in s.puppies && s.puppies[k] == p;
      var i :| 0 <= i < |s.order| && s.order[i] == k;
      assert r[i] == p;
    }
  }

  /** A sequence without repeats that enumerates a set is as long as the set is large. */
  lemma {:induction false} DistinctLength(xs: seq<string>, ks: set<string>)
    requires forall i, j :: 0 <= i < j < |xs| ==> xs[i] != xs[j]
    requires forall k :: k in ks <==> k in xs
    ensures |xs| == |ks|
  {
    if |xs| > 0 {
      var last := xs[|xs| - 1];
      var init := xs[..|xs| - 1];
      assert forall k :: k in ks - {last} <==> k in init by {
        forall k ensures k in ks - {last} <==> k in init {
          if k in init {
            var i :| 0 <= i < |init| && init[i] == k;
            assert xs[i] == k;
          }
        }
      }
      DistinctLength(init, ks - {last});
    }
  }

  /** `createPuppy`: build the record under the drawn id, set it, and return it. */
  function CreatePuppy(s: Store, ins: InsertPuppy, id: string): (r: (Store, Puppy))
    ensures r.1.id == id
    ensures GetPuppy(r.0, id) == Some(r.1)
    ensures forall k :: k != id ==> GetPuppy(r.0, k) == GetPuppy(s, k)
    ensures Valid(s) ==> Valid(r.0)
    ensures r.0.puppies.Keys == s.puppies.Keys + {id}
  {
    var p := Build(ins, id);
    (Set(s, id, p), p)
  }

  /** Under a fresh id the listing grows by exactly the created record, appended at the end. */
  lemma CreateAppendsToListing(s: Store, ins: InsertPuppy, id: string)
    requires Valid(s) && id !in s.puppies
    ensures Valid(CreatePuppy(s, ins, id).0)
    ensures GetAllPuppies(CreatePuppy(s, ins, id).0) == GetAllPuppies(s) + [CreatePuppy(s, ins, id).1]
    ensures |CreatePuppy(s, ins, id).0.puppies| == |s.puppies| + 1
  {
    var (t, p) := CreatePuppy(s, ins, id);
    assert t.order == s.order + [id];
    ValuesAppend(s.puppies, s.order, id, p);
  }

  /** Setting a new key appends its value to the values listed in key order. */
  lemma {:induction false} ValuesAppend(m: map<string, Puppy>, keys: seq<string>, id: string, p: Puppy)
    requires id !in keys
    ensures Values(m[id := p], keys + [id]) == Values(m, keys) + [p]
  {
    if |keys| == 0 {
      assert keys + [id] == [id];
    } else {
      assert (keys + [id])[1..] == keys[1..] + [id];
      ValuesAppend(m, keys[1..], id, p);
    }
  }

  /** A colliding id replaces the record under it in place: the store keeps its size and order. */
  lemma CreateUnderTakenIdReplaces(s: Store, ins: InsertPuppy, id: string)
    requires Valid(s) && id in s.puppies
    ensures CreatePuppy(s, ins, id).0.order == s.order
    ensures |CreatePuppy(s, ins, id).0.puppies| == |s.puppies|
  {
  }

  /** Reading back the id of a created record gives that record, whose description is normalised and all else copied. */
  lemma {:induction false} CreatedIsRetrievable(s: Store, ins: InsertPuppy, id: string)
    ensures var (t, q) := CreatePuppy(s, ins, id);
            GetPuppy(t, q.id) == Some(q)
            && q.description == NormalizeDescription(ins.description)
            && Omit(q).(description := ins.description) == ins
  {
  }

  // ---------------------------------------------------------------------------
  // initializePuppies

  // The seed texts are kept in constants of their own so that proofs about
  // the flags of the seed records need not unfold them.

  const ThunderDescription: string :=
    "Beautiful twin puppies with excellent temperament. Fully vaccinated and health guaranteed. Two adorable puppies available - each puppy is priced individually."
  const ThunderImages: seq<string> := [
    "/attached_assets/WhatsApp Image 2025-08-19 at 10.36.29_a97b3215_1755596301642.jpg",
    "/attached_assets/WhatsApp Image 2025-08-19 at 10.40.37_6e57a7e1_1755596454818.jpg",
    "/attached_assets/WhatsApp Image 2025-08-19 at 10.40.44_bad6bad0_1755596456728.jpg",
    "/attached_assets/WhatsApp Image 2025-08-19 at 10.40.51_77057677_1755596460289.jpg"
  ]
  const BlazeDescription: string :=
    "Energetic male puppy with exceptional bloodlines. Perfect for active families. This handsome boy has amazing coloring and temperament."
  const BlazeImages: seq<string> := [
    "/attached_assets/WhatsApp Image 2025-08-19 at 10.41.55_6b139999_1755596569113.jpg",
    "/attached_assets/WhatsApp Image 2025-08-19 at 10.42.13_26aa9a3d_1755596574424.jpg",
    "/attached_assets/WhatsApp Image 2025-08-19 at 10.42.18_68c77f53_1755596576549.jpg",
    "/attached_assets/WhatsApp Image 2025-08-19 at 10.42.18_be5e52b7_1755596581297.jpg",
    "/attached_assets/WhatsApp Image 2025-08-19 at 10.42.25_21cc9215_1755596583565.jpg",
    "/attached_assets/WhatsApp Image 2025-08-19 at 10.42.40_7378bbb8_1755596585832.jpg"
  ]
  const ScoutDescription: string :=
    "Gentle female puppy with calm temperament. Perfect for families with young children. Beautiful markings and sweet personality."
  const ScoutImages: seq<string> := [
    "/attached_assets/WhatsApp Image 2025-08-19 at 10.44.51_be685c89_1755596711580.jpg",
    "/attached_assets/WhatsApp Image 2025-08-19 at 10.44.56_baf1be46_1755596718671.jpg",
    "/attached_assets/WhatsApp Image 2025-08-19 at 10.45.01_9951a6ab_1755596714454.jpg",
    "/attached_assets/WhatsApp Image 2025-08-19 at 10.45.05_f36728b0_1755596721270.jpg"
  ]

  const Thunder: InsertPuppy := InsertPuppy(
    "Thunder & Storm Twins", "American Pit Bull Terrier", "8 weeks old", "10-12 lbs",
    "Male & Female", 3000, "Brindle and Black with White", Some(ThunderDescription), ThunderImages,
    Some(true), Some(DefaultHealthStatus), Some(true), Some(true), Some(true))
  const Blaze: InsertPuppy := InsertPuppy(
    "Blaze", "American Pit Bull Terrier", "9 weeks old", "13 lbs",
    "Male", 3500, "Blue/Gray with White", Some(BlazeDescription), BlazeImages,
    Some(true), Some(DefaultHealthStatus), Some(true), Some(true), Some(true))
  const Scout: InsertPuppy := InsertPuppy(
    "Scout", "American Pit Bull Terrier", "7 weeks old", "10 lbs",
    "Female", 2800, "Brown and White", Some(ScoutDescription), ScoutImages,
    Some(true), Some(DefaultHealthStatus), Some(true), Some(true), Some(true))

  /** The records `initializePuppies` loads, in its order. */
  const SeedPuppies: seq<InsertPuppy> := [Thunder, Blaze, Scout]

  /** An insert that supplies every defaulted column with its default value. */
  predicate SuppliesDefaults(ins: InsertPuppy) {
    ins.isAvailable == Some(true) && ins.healthStatus == Some(DefaultHealthStatus)
    && ins.isVaccinated == Some(true) && ins.isInsured == Some(true) && ins.freeDelivery == Some(true)
  }

  /** The `forEach` of `initializePuppies`: each record is built and set under the next drawn id. */
  function Load(s: Store, data: seq<InsertPuppy>, ids: seq<string>): (t: Store)
    requires |ids| == |data|
    ensures Valid(s) ==> Valid(t)
    ensures t.puppies.Keys == s.puppies.Keys + set k | k in ids
    decreases |data|
  {
    if |data| == 0 then s
    else
      assert (set k | k in ids) == {ids[0]} + set k | k in ids[1..];
      var t1 := Set(s, ids[0], Build(data[0], ids[0]));
      assert t1 == CreatePuppy(s, data[0], ids[0]).0;
      Load(t1, data[1..], ids[1..])
  }

  /** No id occurs twice. */
  predicate Distinct(ids: seq<string>) {
    forall i, j :: 0 <= i < j < |ids| ==> ids[i] != ids[j]
  }

  /** Loading under distinct ids not yet in the order appends them to the order in turn. */
  lemma {:induction false} LoadOrder(s: Store, data: seq<InsertPuppy>, ids: seq<string>)
    requires |ids| == |data|
    requires Distinct(ids)
    requires forall i :: 0 <= i < |ids| ==> ids[i] !in s.order
    ensures Load(s, data, ids).order == s.order + ids
    decreases |data|
  {
    if |data| == 0 {
      assert s.order + ids == s.order;
    } else {
      var t1 := Set(s, ids[0], Build(data[0], ids[0]));
      assert t1.order == s.order + [ids[0]];
      TailAvoidsHead(s.order, ids);
      LoadOrder(t1, data[1..], ids[1..]);
      AppendHeadThenTail(s.order, ids);
    }
  }

  /** The later ids of a repeat-free list avoid its first one and whatever the earlier ones avoid. */
  lemma TailAvoidsHead(order: seq<string>, ids: seq<string>)
    requires |ids| > 0 && Distinct(ids)
    requires forall i :: 0 <= i < |ids| ==> ids[i] !in order
    ensures Distinct(ids[1..])
    ensures forall i :: 0 <= i < |ids[1..]| ==> ids[1..][i] !in order + [ids[0]]
  {
    forall i | 0 <= i < |ids[1..]|
      ensures ids[1..][i] !in order + [ids[0]]
    {
      assert ids[1..][i] == ids[i + 1] && ids[i + 1] != ids[0];
    }
  }

  lemma AppendHeadThenTail<T>(a: seq<T>, b: seq<T>)
    requires |b| > 0
    ensures a + [b[0]] + b[1..] == a + b
  {
  }

  /**
   * Loading under distinct ids stores under each the record built from the
   * matching insert, and leaves every other key as it was.
   */
  lemma {:induction false} LoadContents(s: Store, data: seq<InsertPuppy>, ids: seq<string>)
    requires |ids| == |data|
    requires Distinct(ids)
    ensures forall i :: 0 <= i < |ids| ==>
              ids[i] in Load(s, data, ids).puppies && Load(s, data, ids).puppies[ids[i]] == Build(data[i], ids[i])
    ensures forall k :: k in s.puppies && k !in ids ==>
              k in Load(s, data, ids).puppies && Load(s, data, ids).puppies[k] == s.puppies[k]
    decreases |data|
  {
    if |data| > 0 {
      var t1 := Set(s, ids[0], Build(data[0], ids[0]));
      var t := Load(s, data, ids);
      assert t == Load(t1, data[1..], ids[1..]);
      LoadContents(t1, data[1..], ids[1..]);
      assert ids[0] !in ids[1..] by {
        forall i | 0 <= i < |ids[1..]|
          ensures ids[1..][i] != ids[0]
        {
          assert ids[1..][i] == ids[i + 1];
        }
      }
      forall i | 0 <= i < |ids|
        ensures ids[i] in t.puppies && t.puppies[ids[i]] == Build(data[i], ids[i])
      {
        if i > 0 {
          assert ids[1..][i - 1] == ids[i] && data[1..][i - 1] == data[i];
        }
      }
      forall k | k in s.puppies && k !in ids
        ensures k in t.puppies && t.puppies[k] == s.puppies[k]
      {
        assert k != ids[0] && k !in ids[1..];
      }
    }
  }

  /** Loading records that all supply the defaulted columns keeps every stored record at the defaults. */
  lemma {:induction false} LoadKeepsDefaults(s: Store, data: seq<InsertPuppy>, ids: seq<string>)
    requires |ids| == |data|
    requires forall k :: k in s.puppies ==> HasDefaultFlags(s.puppies[k])
    requires forall i :: 0 <= i < |data| ==> SuppliesDefaults(data[i])
    ensures forall k :: k in Load(s, data, ids).puppies ==> HasDefaultFlags(Load(s, data, ids).puppies[k])
    decreases |data|
  {
    if |data| > 0 {
      var t := CreatePuppy(s, data[0], ids[0]).0;
      assert SuppliesDefaults(data[0]);
      assert forall k :: k in t.puppies ==> HasDefaultFlags(t.puppies[k]);
      LoadKeepsDefaults(t, data[1..], ids[1..]);
    }
  }

  /** Each of the three seed records spells out the default flags and health status. */
  lemma SeedsSupplyDefaults()
    ensures |SeedPuppies| == 3
    ensures forall i :: 0 <= i < |SeedPuppies| ==> SuppliesDefaults(SeedPuppies[i])
  {
    assert SuppliesDefaults(SeedPuppies[0]);
    assert SuppliesDefaults(SeedPuppies[1]);
    assert SuppliesDefaults(SeedPuppies[2]);
  }

  /** The constructor: an empty map loaded with the three seed records under the drawn ids. */
  function Initialize(ids: seq<string>): (s: Store)
    requires |ids| == |SeedPuppies|
    ensures Valid(s)
    ensures s.puppies.Keys == set k | k in ids
  {
    EmptyValid();
    Load(Empty, SeedPuppies, ids)
  }

  /**
   * Every record of the constructed store is complete and carries the
   * default flags and health status; with three distinct ids there are
   * exactly three records.
   */
  lemma InitializeAtDefaults(ids: seq<string>)
    requires |ids| == |SeedPuppies|
    ensures forall k :: k in Initialize(ids).puppies ==>
              HasDefaultFlags(Initialize(ids).puppies[k]) && Complete(Initialize(ids).puppies[k])
    ensures Distinct(ids) ==> |Initialize(ids).puppies| == 3
  {
    SeedsSupplyDefaults();
    LoadKeepsDefaults(Empty, SeedPuppies, ids);
    DistinctCount(ids);
  }

  /**
   * With distinct ids the constructed store lists the seed records in
   * order: Thunder, Blaze and Scout, each built under its drawn id.
   */
  lemma InitializeListsSeeds(ids: seq<string>)
    requires |ids| == |SeedPuppies|
    ensures Distinct(ids) ==>
              |GetAllPuppies(Initialize(ids))| == |SeedPuppies|
              && forall i :: 0 <= i < |SeedPuppies| ==>
                   GetAllPuppies(Initialize(ids))[i] == Build(SeedPuppies[i], ids[i])
  {
    LoadListing(SeedPuppies, ids);
  }

  /** The empty store satisfies the invariant. */
  lemma EmptyValid()
    ensures Valid(Empty)
  {
  }

  /** Loading an empty store under distinct ids lists one built record per insert, in order. */
  lemma LoadListing(data: seq<InsertPuppy>, ids: seq<string>)
    requires |ids| == |data|
    ensures Valid(Load(Empty, data, ids))
    ensures Distinct(ids) ==>
              |GetAllPuppies(Load(Empty, data, ids))| == |ids|
              && forall i :: 0 <= i < |ids| ==> GetAllPuppies(Load(Empty, data, ids))[i] == Build(data[i], ids[i])
  {
    EmptyValid();
    if Distinct(ids) {
      var t := Load(Empty, data, ids);
      LoadOrder(Empty, data, ids);
      LoadContents(Empty, data, ids);
      assert t.order == ids;
    }
  }

  /** Distinct ids make a set as large as their number. */
  lemma DistinctCount(ids: seq<string>)
    ensures Distinct(ids) ==> |set k | k in ids| == |ids|
  {
    if Distinct(ids) {
      DistinctLength(ids, set k | k in ids);
    }
  }
}
