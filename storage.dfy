/**
 * The profile and drink store of db/storage.ts. AsyncStorage is modelled as an
 * in-memory map from key to an already-decoded value. `getDrinks` and
 * `getDrinksByDate` only read, `saveDrinks` overwrites the `drinks` key, and
 * `addDrink`, `updateDrink` and `deleteDrink` read the whole list, change it
 * and write it back.
 */
module Storage {

  datatype Profile = Profile(sex: string, weight: string, height: string, weeklyLimit: string)

  /** `kind` is the source's `type` field, the id of a drink-type table row. */
  datatype Drink = Drink(id: string, kind: string, volume: real, abv: real, timestamp: string)

  /** A drink before `addDrink` has given it an id (`Omit<Drink, 'id'>`). */
  datatype NewDrink = NewDrink(kind: string, volume: real, abv: real, timestamp: string) {
    /** `{ ...drink, id }`. */
    function WithId(id: string): (d: Drink)
      ensures d.id == id
      ensures d.kind == kind && d.volume == volume && d.abv == abv && d.timestamp == timestamp
    {
      Drink(id, kind, volume, abv, timestamp)
    }
  }

  /** What a key of the store holds, once decoded. */
  datatype Value = ProfileValue(profile: Profile) | DrinksValue(drinks: seq<Drink>)

  const ProfileKey: string := "profile"
  const DrinksKey: string := "drinks"

  /** What `getProfile` answers when nothing is stored. */
  const DefaultProfile: Profile := Profile("", "", "", "")

  // ---------------------------------------------------------------------------
  // Sequence operations the drink functions are built from

  /** `Array.prototype.filter`: the elements that `keep` accepts, in order. */
  function Filter<T(==,!new)>(s: seq<T>, keep: T -> bool): (r: seq<T>)
    ensures |r| <= |s|
    ensures forall x :: x in r ==> x in s && keep(x)
    ensures forall x :: multiset(r)[x] == if keep(x) then multiset(s)[x] else 0
  {
    if s == [] then []
    else
      var rest := Filter(s[1..], keep);
      assert s == [s[0]] + s[1..];
      if keep(s[0]) then [s[0]] + rest else rest
  }

  /** `a` can be obtained from `b` by deleting elements, the rest keeping their order. */
  predicate IsSubsequence<T(==)>(a: seq<T>, b: seq<T>)
    decreases |b|
  {
    if a == [] then true
    else if b == [] then false
    else if a[0] == b[0] then IsSubsequence(a[1..], b[1..])
    else IsSubsequence(a, b[1..])
  }

  /** Filtering keeps the stored order. */
  lemma {:induction false} FilterIsSubsequence<T(!new)>(s: seq<T>, keep: T -> bool)
    ensures IsSubsequence(Filter(s, keep), s)
  {
    if s != [] {
      FilterIsSubsequence(s[1..], keep);
      var rest := Filter(s[1..], keep);
      if keep(s[0]) {
        assert Filter(s, keep) == [s[0]] + rest;
        assert ([s[0]] + rest)[1..] == rest;
      } else {
        assert Filter(s, keep) == rest;
        assert rest != [] ==> rest[0] in rest && keep(rest[0]);
      }
    }
  }

  /** Filtering twice with the same test is filtering once. */
  lemma {:induction false} FilterIdempotent<T(!new)>(s: seq<T>, keep: T -> bool)
    ensures Filter(Filter(s, keep), keep) == Filter(s, keep)
  {
    if s != [] {
      FilterIdempotent(s[1..], keep);
      var rest := Filter(s[1..], keep);
      if keep(s[0]) {
        assert ([s[0]] + rest)[1..] == rest;
      }
    }
  }

  /** A filter that accepts every element changes nothing. */
  lemma {:induction false} FilterKeepsAll<T(!new)>(s: seq<T>, keep: T -> bool)
    requires forall x :: x in s ==> keep(x)
    ensures Filter(s, keep) == s
  {
    if s != [] {
      assert keep(s[0]) by { assert s[0] in s; }
      forall x | x in s[1..] ensures keep(x) {
        assert x in s;
      }
      FilterKeepsAll(s[1..], keep);
      assert s == [s[0]] + s[1..];
    }
  }

  /** Filtering a concatenation filters each part. */
  lemma {:induction false} FilterAppend<T(!new)>(a: seq<T>, b: seq<T>, keep: T -> bool)
    ensures Filter(a + b, keep) == Filter(a, keep) + Filter(b, keep)
  {
    if a == [] {
      assert a + b == b;
    } else {
      assert (a + b)[1..] == a[1..] + b;
      FilterAppend(a[1..], b, keep);
    }
  }

  // ---------------------------------------------------------------------------
  // Drink lists

  /** Some entry has id `id`. */
  predicate HasId(ds: seq<Drink>, id: string)
  {
    exists i :: 0 <= i < |ds| && ds[i].id == id
  }

  /** Ids in the list are pairwise distinct. */
  predicate IdsDistinct(ds: seq<Drink>)
  {
    forall i, j :: 0 <= i < j < |ds| ==> ds[i].id != ds[j].id
  }

  /** `Array.prototype.findIndex` by id: the first position holding `id`, or -1. */
  function IndexOfId(ds: seq<Drink>, id: string): (k: int)
    ensures -1 <= k < |ds|
    ensures k == -1 <==> !HasId(ds, id)
    ensures k >= 0 ==> ds[k].id == id && forall j :: 0 <= j < k ==> ds[j].id != id
  {
    if ds == [] then -1
    else if ds[0].id == id then 0
    else
      var k := IndexOfId(ds[1..], id);
      assert forall i :: 1 <= i < |ds| ==> ds[i] == ds[1..][i - 1];
      if k == -1 then -1 else k + 1
  }

  /** `timestamp.startsWith(date)`. */
  predicate StartsWith(s: string, prefix: string)
    ensures StartsWith(s, prefix) <==> exists rest :: s == prefix + rest
  {
    assert |prefix| <= |s| && s[..|prefix|] == prefix ==> s == prefix + s[|prefix|..];
    |prefix| <= |s| && s[..|prefix|] == prefix
  }

  /** The entries logged on `date` (a `YYYY-MM-DD` prefix of the ISO timestamp). */
  function OnDate(ds: seq<Drink>, date: string): (r: seq<Drink>)
    ensures |r| <= |ds|
    ensures forall d :: d in r ==> d in ds && StartsWith(d.timestamp, date)
  {
    Filter(ds, (d: Drink) => StartsWith(d.timestamp, date))
  }

  /** The entries whose id is not `id`. */
  function Without(ds: seq<Drink>, id: string): (r: seq<Drink>)
    ensures |r| <= |ds|
    ensures forall d :: d in r ==> d in ds && d.id != id
  {
    Filter(ds, (d: Drink) => d.id != id)
  }

  /** `deleteDrink` leaves no entry with the id, keeps every other entry and keeps their order. */
  lemma WithoutSpec(ds: seq<Drink>, id: string)
    ensures !HasId(Without(ds, id), id)
    ensures forall d :: d in Without(ds, id) <==> d in ds && d.id != id
    ensures IsSubsequence(Without(ds, id), ds)
  {
    var r := Without(ds, id);
    forall i | 0 <= i < |r| ensures r[i].id != id {
      assert r[i] in r;
    }
    forall d | d in ds && d.id != id ensures d in r {
      assert multiset(ds)[d] > 0;
    }
    FilterIsSubsequence(ds, (d: Drink) => d.id != id);
  }

  /** Deleting twice is deleting once, and deleting an absent id changes nothing. */
  lemma WithoutIdempotent(ds: seq<Drink>, id: string)
    ensures Without(Without(ds, id), id) == Without(ds, id)
    ensures !HasId(ds, id) ==> Without(ds, id) == ds
  {
    FilterIdempotent(ds, (d: Drink) => d.id != id);
    if !HasId(ds, id) {
      forall d | d in ds ensures d.id != id {
        var i :| 0 <= i < |ds| && ds[i] == d;
      }
      FilterKeepsAll(ds, (d: Drink) => d.id != id);
    }
  }

  /** The entries on a date are exactly the stored ones with that prefix, with their multiplicity and order. */
  lemma OnDateSpec(ds: seq<Drink>, date: string)
    ensures forall d :: d in OnDate(ds, date) <==> d in ds && StartsWith(d.timestamp, date)
    ensures forall d :: multiset(OnDate(ds, date))[d] == if StartsWith(d.timestamp, date) then multiset(ds)[d] else 0
    ensures IsSubsequence(OnDate(ds, date), ds)
  {
    var r := OnDate(ds, date);
    forall d | d in ds && StartsWith(d.timestamp, date) ensures d in r {
      assert multiset(ds)[d] > 0;
    }
    FilterIsSubsequence(ds, (d: Drink) => StartsWith(d.timestamp, date));
  }

  /** Appending a drink whose id is fresh keeps the ids distinct. */
  lemma AppendKeepsIdsDistinct(ds: seq<Drink>, d: Drink)
    requires IdsDistinct(ds) && !HasId(ds, d.id)
    ensures IdsDistinct(ds + [d])
  {
  }

  /** Replacing an entry by one with the same id keeps the ids distinct. */
  lemma ReplaceKeepsIdsDistinct(ds: seq<Drink>, k: nat, d: Drink)
    requires IdsDistinct(ds) && k < |ds| && ds[k].id == d.id
    ensures IdsDistinct(ds[k := d])
  {
  }

  /** Putting a drink whose id is fresh in front keeps the ids distinct. */
  lemma PrependKeepsIdsDistinct(d: Drink, ds: seq<Drink>)
    requires IdsDistinct(ds) && !HasId(ds, d.id)
    ensures IdsDistinct([d] + ds)
  {
    var r := [d] + ds;
    forall i, j | 0 <= i < j < |r| ensures r[i].id != r[j].id {
      assert r[j] == ds[j - 1];
      if i > 0 {
        assert r[i] == ds[i - 1];
      }
    }
  }

  /** An id absent from a list is absent from any filtering of it. */
  lemma FilterKeepsAbsent(ds: seq<Drink>, keep: Drink -> bool, id: string)
    requires !HasId(ds, id)
    ensures !HasId(Filter(ds, keep), id)
  {
    var r := Filter(ds, keep);
    forall j | 0 <= j < |r| ensures r[j].id != id {
      assert r[j] in r;
      var i :| 0 <= i < |ds| && ds[i] == r[j];
    }
  }

  /** Removing entries keeps the ids distinct. */
  lemma {:induction false} FilterKeepsIdsDistinct(ds: seq<Drink>, keep: Drink -> bool)
    requires IdsDistinct(ds)
    ensures IdsDistinct(Filter(ds, keep))
  {
    if ds != [] {
      var tail := ds[1..];
      assert IdsDistinct(tail) by {
        forall i, j | 0 <= i < j < |tail| ensures tail[i].id != tail[j].id {
          assert tail[i] == ds[i + 1] && tail[j] == ds[j + 1];
        }
      }
      assert !HasId(tail, ds[0].id) by {
        forall i | 0 <= i < |tail| ensures tail[i].id != ds[0].id {
          assert tail[i] == ds[i + 1];
        }
      }
      FilterKeepsIdsDistinct(tail, keep);
      if keep(ds[0]) {
        FilterKeepsAbsent(tail, keep, ds[0].id);
        PrependKeepsIdsDistinct(ds[0], Filter(tail, keep));
      }
    }
  }

  // ---------------------------------------------------------------------------
  // The store

  class Store {
    /** AsyncStorage's contents, keyed by storage key. */
    var items: map<string, Value>

    /** The two keys this module writes hold values of the right kind. */
    ghost predicate Valid()
      reads this
    {
      && (ProfileKey in items ==> items[ProfileKey].ProfileValue?)
      && (DrinksKey in items ==> items[DrinksKey].DrinksValue?)
    }

    /** A store in which nothing has been saved yet. */
    constructor Empty()
      ensures Valid() && items == map[]
    {
      items := map[];
    }

    /** `getProfile`: the stored profile, or the all-empty one when none is stored. */
    function GetProfile(): (p: Profile)
      reads this
      requires Valid()
      ensures ProfileKey !in items ==> p == DefaultProfile && p.weeklyLimit == ""
      ensures ProfileKey in items ==> items[ProfileKey] == ProfileValue(p)
    {
      if ProfileKey in items then items[ProfileKey].profile else DefaultProfile
    }

    /** `getDrinks`: the stored list, or the empty list when none is stored. */
    function GetDrinks(): (ds: seq<Drink>)
      reads this
      requires Valid()
      ensures DrinksKey !in items ==> ds == []
      ensures DrinksKey in items ==> items[DrinksKey] == DrinksValue(ds)
    {
      if DrinksKey in items then items[DrinksKey].drinks else []
    }

    /** `saveProfile`: overwrites the profile key and nothing else. */
    method SaveProfile(p: Profile)
      requires Valid()
      modifies this
      ensures Valid()
      ensures items == old(items)[ProfileKey := ProfileValue(p)]
      ensures GetProfile() == p && GetDrinks() == old(GetDrinks())
    {
      items := items[ProfileKey := ProfileValue(p)];
    }

    /** `saveDrinks`: overwrites the drinks key and nothing else. */
    method SaveDrinks(ds: seq<Drink>)
      requires Valid()
      modifies this
      ensures Valid()
      ensures items == old(items)[DrinksKey := DrinksValue(ds)]
      ensures GetDrinks() == ds && GetProfile() == old(GetProfile())
    {
      items := items[DrinksKey := DrinksValue(ds)];
    }

    /**
     * `addDrink`: gives `entry` the id `id` (the generator's output), appends it
     * to the stored list and returns it.
     */
    method AddDrink(entry: NewDrink, id: string) returns (d: Drink)
      requires Valid()
      modifies this
      ensures Valid()
      ensures d == entry.WithId(id)
      ensures items == old(items)[DrinksKey := DrinksValue(old(GetDrinks()) + [d])]
      ensures GetDrinks() == old(GetDrinks()) + [d] && GetProfile() == old(GetProfile())
      ensures IdsDistinct(old(GetDrinks())) && !HasId(old(GetDrinks()), id) ==> IdsDistinct(GetDrinks())
    {
      d := entry.WithId(id);
      var drinks := GetDrinks();
      if IdsDistinct(drinks) && !HasId(drinks, id) {
        AppendKeepsIdsDistinct(drinks, d);
      }
      drinks := drinks + [d];
      SaveDrinks(drinks);
    }

    /** `getDrinksByDate`: the stored drinks whose timestamp starts with `date`, in stored order. */
    function GetDrinksByDate(date: string): (ds: seq<Drink>)
      reads this
      requires Valid()
      ensures forall d :: d in ds <==> d in GetDrinks() && StartsWith(d.timestamp, date)
      ensures forall d :: multiset(ds)[d] == if StartsWith(d.timestamp, date) then multiset(GetDrinks())[d] else 0
      ensures IsSubsequence(ds, GetDrinks())
    {
      OnDateSpec(GetDrinks(), date);
      OnDate(GetDrinks(), date)
    }

    /**
     * `updateDrink`: replaces the first entry with `d`'s id by `d`; when no entry
     * has that id the store is not written at all.
     */
    method UpdateDrink(d: Drink)
      requires Valid()
      modifies this
      ensures Valid()
      ensures var k := IndexOfId(old(GetDrinks()), d.id);
              if k == -1 then items == old(items)
              else items == old(items)[DrinksKey := DrinksValue(old(GetDrinks())[k := d])]
      ensures |GetDrinks()| == |old(GetDrinks())| && GetProfile() == old(GetProfile())
      ensures IdsDistinct(old(GetDrinks())) ==> IdsDistinct(GetDrinks())
    {
      var drinks := GetDrinks();
      var index := IndexOfId(drinks, d.id);
      if index != -1 {
        if IdsDistinct(drinks) {
          ReplaceKeepsIdsDistinct(drinks, index, d);
        }
        drinks := drinks[index := d];
        SaveDrinks(drinks);
      }
    }

    /**
     * `deleteDrink`: writes back the list without the entries whose id is `id`.
     * The write happens even when nothing was removed.
     */
    method DeleteDrink(id: string)
      requires Valid()
      modifies this
      ensures Valid()
      ensures items == old(items)[DrinksKey := DrinksValue(Without(old(GetDrinks()), id))]
      ensures !HasId(GetDrinks(), id) && GetProfile() == old(GetProfile())
      ensures forall x :: x in GetDrinks() <==> x in old(GetDrinks()) && x.id != id
      ensures !HasId(old(GetDrinks()), id) ==> GetDrinks() == old(GetDrinks())
      ensures IdsDistinct(old(GetDrinks())) ==> IdsDistinct(GetDrinks())
    {
      var drinks := GetDrinks();
      WithoutSpec(drinks, id);
      WithoutIdempotent(drinks, id);
      if IdsDistinct(drinks) {
        FilterKeepsIdsDistinct(drinks, (x: Drink) => x.id != id);
      }
      var updatedDrinks := Without(drinks, id);
      SaveDrinks(updatedDrinks);
    }
  }

  /** Deleting the same id twice leaves the store as deleting it once. */
  method DeleteTwice(s: Store, id: string)
    requires s.Valid()
    modifies s
    ensures s.Valid()
    ensures s.items == old(s.items)[DrinksKey := DrinksValue(Without(old(s.GetDrinks()), id))]
  {
    s.DeleteDrink(id);
    s.DeleteDrink(id);
    WithoutIdempotent(old(s.GetDrinks()), id);
  }
}
