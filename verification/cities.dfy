/** The city lookups of the weather settings over a table of provinces, each
    with its list of cities. The table is a record keyed by province name
    whose keys keep their declaration order. */
module Cities {
  import opened Wrappers
  import opened Strings
  import opened Seqs

  /** `code` is the weather service's city code, `adcode` the administrative
      division code. */
  datatype City = City(name: string, code: string, adcode: string, province: string)

  /** The provinces in declaration order, each with its cities in order. */
  type Table = seq<(string, seq<City>)>

  /** No province name appears twice, as in a record literal. */
  predicate DistinctKeys(t: Table) {
    forall i, j :: 0 <= i < j < |t| ==> t[i].0 != t[j].0
  }

  /** Every city names the province it is filed under. */
  predicate WellFiled(t: Table) {
    forall i, c :: 0 <= i < |t| && c in t[i].1 ==> c.province == t[i].0
  }

  /** Every city in `cs` names `key` as its province. */
  predicate Filed(key: string, cs: seq<City>) {
    forall c :: c in cs ==> c.province == key
  }

  /** `Filed`, stated position by position. */
  lemma FiledByIndex(key: string, cs: seq<City>)
    requires forall i :: 0 <= i < |cs| ==> cs[i].province == key
    ensures Filed(key, cs)
  {
  }

  lemma WellFiledByRows(t: Table)
    requires forall i :: 0 <= i < |t| ==> Filed(t[i].0, t[i].1)
    ensures WellFiled(t)
  {
  }

  /** All cities, province by province, in table order. */
  function Flatten(t: Table): seq<City> {
    if t == [] then [] else t[0].1 + Flatten(t[1..])
  }

  lemma {:induction false} FlattenMembers(t: Table)
    ensures forall c :: c in Flatten(t) <==> exists i :: 0 <= i < |t| && c in t[i].1
  {
    if t != [] {
      FlattenMembers(t[1..]);
      forall c | c in Flatten(t)
        ensures exists i :: 0 <= i < |t| && c in t[i].1
      {
        if c !in t[0].1 {
          assert c in Flatten(t[1..]);
          var i :| 0 <= i < |t[1..]| && c in t[1..][i].1;
          assert c in t[i + 1].1;
        }
      }
      forall c, i | 0 <= i < |t| && c in t[i].1
        ensures c in Flatten(t)
      {
        if i > 0 {
          assert c in t[1..][i - 1].1;
        }
      }
    }
  }

  lemma {:induction false} FlattenSnoc(t: Table, i: nat)
    requires i < |t|
    ensures Flatten(t[..i + 1]) == Flatten(t[..i]) + t[i].1
    decreases i
  {
    if i > 0 {
      assert t[..i + 1][1..] == t[1..][..i];
      assert t[..i][1..] == t[1..][..i - 1];
      FlattenSnoc(t[1..], i - 1);
    } else {
      assert t[..1][1..] == [];
    }
  }

  // ---------------------------------------------------------------------------
  // getProvinces, getCitiesByProvince

  /** `getProvinces`: the province names in declaration order. */
  function Provinces(t: Table): (r: seq<string>)
    ensures |r| == |t|
    ensures forall i :: 0 <= i < |t| ==> r[i] == t[i].0
  {
    seq(|t|, i requires 0 <= i < |t| => t[i].0)
  }

  /** `getCitiesByProvince`: the cities filed under the first key equal to
      `province`, or no cities when no key is. */
  function CitiesByProvince(t: Table, province: string): (r: seq<City>)
    ensures (forall i :: 0 <= i < |t| ==> t[i].0 != province) ==> r == []
    ensures forall i :: 0 <= i < |t| && t[i].0 == province && (forall j :: 0 <= j < i ==> t[j].0 != province) ==>
      r == t[i].1
  {
    if t == [] then []
    else if t[0].0 == province then t[0].1
    else
      var r := CitiesByProvince(t[1..], province);
      assert forall i :: 1 <= i < |t| ==> t[1..][i - 1] == t[i];
      r
  }

  /** Each listed province maps back to its own cities. */
  lemma ProvincesRoundTrip(t: Table, i: nat)
    requires DistinctKeys(t) && i < |t|
    ensures CitiesByProvince(t, Provinces(t)[i]) == t[i].1
  {
  }

  /** In a well-filed table every city the lookup returns names the
      province asked for. */
  lemma CitiesByProvinceFiled(t: Table, province: string)
    requires WellFiled(t)
    ensures forall c :: c in CitiesByProvince(t, province) ==> c.province == province
  {
    if exists i :: 0 <= i < |t| && t[i].0 == province {
      var i := FindIndex((e: (string, seq<City>)) => e.0, t, province);
    }
  }

  // ---------------------------------------------------------------------------
  // searchCities

  /** The filter of `searchCities`: the lowercased name contains `lowered`. */
  function NameMatches(lowered: string): City -> bool {
    (c: City) => Contains(Lower(c.name), lowered)
  }

  /** `searchCities`: a blank query finds nothing; otherwise every city, in
      table order, whose lowercased name contains the lowercased query. The
      query itself is not trimmed. */
  method SearchCities(t: Table, query: string) returns (r: seq<City>)
    ensures AllWhitespace(query) ==> r == []
    ensures !AllWhitespace(query) ==> r == Filter(NameMatches(Lower(query)), Flatten(t))
  {
    TrimEmptyIff(query);
    if Trim(query) == "" {
      return [];
    }
    var f := NameMatches(Lower(query));
    r := [];
    var i := 0;
    while i < |t|
      invariant 0 <= i <= |t|
      invariant r == Filter(f, Flatten(t[..i]))
    {
      ghost var done := Flatten(t[..i]);
      r := AppendMatches(f, t[i].1, r);
      FilterConcat(f, done, t[i].1);
      FlattenSnoc(t, i);
      i := i + 1;
    }
    assert t[..i] == t;
  }

  /** One province of the search: the cities of `cities` that `f` accepts,
      in order, appended to `acc`. */
  method AppendMatches(f: City -> bool, cities: seq<City>, acc: seq<City>) returns (r: seq<City>)
    ensures r == acc + Filter(f, cities)
  {
    r := acc;
    var j := 0;
    while j < |cities|
      invariant 0 <= j <= |cities|
      invariant r == acc + Filter(f, cities[..j])
    {
      assert cities[..j + 1] == cities[..j] + [cities[j]];
      FilterConcat(f, cities[..j], [cities[j]]);
      if f(cities[j]) {
        r := r + [cities[j]];
      }
      j := j + 1;
    }
    assert cities[..j] == cities;
  }

  /** The search results are exactly the table's cities whose lowercased
      name contains the lowercased query, each as often as it is listed. */
  lemma SearchCitiesMembers(t: Table, query: string, r: seq<City>)
    requires !AllWhitespace(query) && r == Filter(NameMatches(Lower(query)), Flatten(t))
    ensures forall c :: c in r <==>
      (exists i :: 0 <= i < |t| && c in t[i].1) && Contains(Lower(c.name), Lower(query))
    ensures forall c :: multiset(r)[c] == if Contains(Lower(c.name), Lower(query)) then multiset(Flatten(t))[c] else 0
  {
    FilterMembers(NameMatches(Lower(query)), Flatten(t));
    FlattenMembers(t);
    forall c | true
      ensures multiset(r)[c] == if Contains(Lower(c.name), Lower(query)) then multiset(Flatten(t))[c] else 0
    {
      FilterCount(NameMatches(Lower(query)), Flatten(t), c);
    }
  }

  // ---------------------------------------------------------------------------
  // getCityByCode, getCityByName

  /** `s[k]` is the first element of `s` satisfying `f`. */
  predicate FirstMatch(s: seq<City>, f: City -> bool, k: int) {
    0 <= k < |s| && f(s[k]) && forall j :: 0 <= j < k ==> !f(s[j])
  }

  /** `Array.prototype.find`: the first element satisfying `f`. */
  function Find(s: seq<City>, f: City -> bool): (r: Option<City>)
    ensures r.None? <==> forall k :: 0 <= k < |s| ==> !f(s[k])
    ensures r.Some? ==> exists k :: FirstMatch(s, f, k) && s[k] == r.value
  {
    if s == [] then None
    else if f(s[0]) then Some(s[0])
    else
      var r := Find(s[1..], f);
      assert forall k :: 1 <= k < |s| ==> s[1..][k - 1] == s[k];
      r
  }

  lemma {:induction false} FindConcat(a: seq<City>, b: seq<City>, f: City -> bool)
    ensures Find(a + b, f) == if Find(a, f).Some? then Find(a, f) else Find(b, f)
  {
    if a != [] {
      assert (a + b)[1..] == a[1..] + b;
      FindConcat(a[1..], b, f);
    } else {
      assert a + b == b;
    }
  }

  /** The province-by-province search of `getCityByCode` and `getCityByName`:
      `find` in each province's list in turn, stopping at the first hit. */
  function FindInTable(t: Table, f: City -> bool): Option<City> {
    if t == [] then None
    else
      match Find(t[0].1, f)
      case Some(c) => Some(c)
      case None => FindInTable(t[1..], f)
  }

  /** The province at `j` has no city satisfying `f`. */
  predicate Misses(t: Table, f: City -> bool, j: nat)
    requires j < |t|
  {
    Find(t[j].1, f).None?
  }

  /** The search stops at the first province whose list has a match. */
  lemma {:induction false} FindInTableAt(t: Table, f: City -> bool, k: nat)
    requires k < |t|
    requires forall j :: 0 <= j < k ==> Misses(t, f, j)
    requires Find(t[k].1, f).Some?
    ensures FindInTable(t, f) == Find(t[k].1, f)
  {
    if k > 0 {
      assert Misses(t, f, 0);
      MissesTail(t, f, k);
      assert t[1..][k - 1] == t[k];
      FindInTableAt(t[1..], f, k - 1);
    }
  }

  lemma MissesTail(t: Table, f: City -> bool, k: nat)
    requires 0 < k <= |t|
    requires forall j :: 0 <= j < k ==> Misses(t, f, j)
    ensures forall j :: 0 <= j < k - 1 ==> Misses(t[1..], f, j)
  {
    forall j | 0 <= j < k - 1
      ensures Misses(t[1..], f, j)
    {
      assert Misses(t, f, j + 1);
      assert t[1..][j] == t[j + 1];
    }
  }

  /** Searching province by province finds the first match in table order. */
  lemma {:induction false} FindInTableIsFirst(t: Table, f: City -> bool)
    ensures FindInTable(t, f) == Find(Flatten(t), f)
  {
    if t != [] {
      FindInTableIsFirst(t[1..], f);
      FindConcat(t[0].1, Flatten(t[1..]), f);
    }
  }

  function HasCode(code: string): City -> bool {
    (c: City) => c.code == code
  }

  function HasName(name: string): City -> bool {
    (c: City) => c.name == name
  }

  /** `getCityByCode`. */
  function CityByCode(t: Table, code: string): Option<City> {
    FindInTable(t, HasCode(code))
  }

  /** `getCityByName`. */
  function CityByName(t: Table, name: string): Option<City> {
    FindInTable(t, HasName(name))
  }

  /** `getCityByCode` returns the first city in table order with that code,
      and nothing exactly when no city has it. */
  lemma CityByCodeIsFirst(t: Table, code: string)
    ensures var r := CityByCode(t, code); var all := Flatten(t);
      && (r.None? <==> forall k :: 0 <= k < |all| ==> all[k].code != code)
      && (r.Some? ==> r.value.code == code && exists k :: FirstMatch(all, HasCode(code), k) && all[k] == r.value)
  {
    FindInTableIsFirst(t, HasCode(code));
  }

  /** `getCityByName` returns the first city in table order with that exact
      name, and nothing exactly when no city has it. */
  lemma CityByNameIsFirst(t: Table, name: string)
    ensures var r := CityByName(t, name); var all := Flatten(t);
      && (r.None? <==> forall k :: 0 <= k < |all| ==> all[k].name != name)
      && (r.Some? ==> r.value.name == name && exists k :: FirstMatch(all, HasName(name), k) && all[k] == r.value)
  {
    FindInTableIsFirst(t, HasName(name));
  }
}
