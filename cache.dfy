/** The time-boxed memoizing cache: the signature strings that address cache entries,
    the in-memory driver with its `Remember` primitive, and the repository decorator
    that routes four read operations through it.

    Time is an explicit `now` in nanoseconds; a TTL is a number of seconds. */
module Cache {
  import opened Results
  import opened Format
  import opened Categories

  const NanosPerSecond: int := 1_000_000_000

  /** The instant recorded by Remember: `seconds` after `now`. */
  function Expiry(now: int, seconds: int): (expiry: int)
    ensures seconds > 0 ==> expiry > now
    ensures seconds == 0 ==> expiry == now
    ensures seconds < 0 ==> expiry < now
  {
    now + seconds * NanosPerSecond
  }

  // ---------------------------------------------------------------------------
  // Signatures

  /** The memoized decorator calls, with their arguments. */
  datatype Signature =
    | MainCategoriesCall(limit: int, offset: int)
    | SubCategoriesCall(categoryId: string)
    | FindCall(id: string)
    | AllCall

  const MainCategoriesPrefix: string := "MainCategories "
  const SubCategoriesPrefix: string := "SubCategories "
  const FindPrefix: string := "Find "

  /** The cache key of a call: "MainCategories %d-%d", "SubCategories %s", "Find %s", "All". */
  function Key(call: Signature): (key: string)
    ensures call.MainCategoriesCall? <==> HasPrefix(key, MainCategoriesPrefix)
    ensures call.SubCategoriesCall? <==> HasPrefix(key, SubCategoriesPrefix)
    ensures call.FindCall? <==> HasPrefix(key, FindPrefix)
    ensures call.AllCall? <==> key == "All"
  {
    match call
    case MainCategoriesCall(limit, offset) =>
      var key := MainCategoriesPrefix + (IntToDecimal(limit) + "-" + IntToDecimal(offset));
      assert key[..|MainCategoriesPrefix|] == MainCategoriesPrefix;
      assert key[0] == 'M';
      key
    case SubCategoriesCall(categoryId) =>
      var key := SubCategoriesPrefix + categoryId;
      assert key[..|SubCategoriesPrefix|] == SubCategoriesPrefix;
      assert key[0] == 'S';
      key
    case FindCall(id) =>
      var key := FindPrefix + id;
      assert key[..|FindPrefix|] == FindPrefix;
      assert key[0] == 'F';
      key
    case AllCall => "All"
  }

  predicate HasPrefix(s: string, prefix: string) {
    |prefix| <= |s| && s[..|prefix|] == prefix
  }

  /** The first '-' at index `from` or later, or |s| when there is none. */
  function Separator(s: string, from: nat): (k: nat)
    requires from <= |s|
    ensures from <= k <= |s|
    decreases |s| - from
  {
    if from == |s| || s[from] == '-' then from else Separator(s, from + 1)
  }

  /** Reads a key back into the call it was built from. */
  function ParseKey(key: string): Option<Signature> {
    if key == "All" then Some(AllCall)
    else if HasPrefix(key, FindPrefix) then Some(FindCall(key[|FindPrefix|..]))
    else if HasPrefix(key, SubCategoriesPrefix) then Some(SubCategoriesCall(key[|SubCategoriesPrefix|..]))
    else if HasPrefix(key, MainCategoriesPrefix) then
      var body := key[|MainCategoriesPrefix|..];
      if body == [] then None
      else
        var k := Separator(body, 1);
        if k == |body| then None
        else Some(MainCategoriesCall(ParseDecimal(body[..k]), ParseDecimal(body[k + 1..])))
    else None
  }

  lemma {:induction false} SeparatorFinds(s: string, from: nat, k: nat)
    requires from <= k < |s| && s[k] == '-'
    requires forall j :: from <= j < k ==> s[j] != '-'
    ensures Separator(s, from) == k
    decreases k - from
  {
    if from < k {
      SeparatorFinds(s, from + 1, k);
    }
  }

  lemma MainCategoriesKeyRoundTrip(limit: int, offset: int)
    ensures ParseKey(Key(MainCategoriesCall(limit, offset))) == Some(MainCategoriesCall(limit, offset))
  {
    var l, o := IntToDecimal(limit), IntToDecimal(offset);
    var key := Key(MainCategoriesCall(limit, offset));
    assert key == MainCategoriesPrefix + (l + "-" + o);
    assert key[0] == 'M';
    assert !HasPrefix(key, FindPrefix) && !HasPrefix(key, SubCategoriesPrefix);
    assert key[..|MainCategoriesPrefix|] == MainCategoriesPrefix;
    var body := key[|MainCategoriesPrefix|..];
    assert body == l + "-" + o;
    forall j | 1 <= j < |l| ensures body[j] != '-' {
      assert body[j] == l[j];
    }
    SeparatorFinds(body, 1, |l|);
    assert body[..|l|] == l;
    assert body[|l| + 1..] == o;
    DecimalRoundTrip(limit);
    DecimalRoundTrip(offset);
  }

  /** Every key reads back as the call it was built from. */
  lemma KeyRoundTrip(call: Signature)
    ensures ParseKey(Key(call)) == Some(call)
  {
    var key := Key(call);
    match call
    case AllCall =>
    case FindCall(id) =>
      assert key[..|FindPrefix|] == FindPrefix;
    case SubCategoriesCall(categoryId) =>
      assert key[0] == 'S';
      assert key[..|SubCategoriesPrefix|] == SubCategoriesPrefix;
    case MainCategoriesCall(limit, offset) =>
      MainCategoriesKeyRoundTrip(limit, offset);
  }

  /** Two calls share a cache entry exactly when they are the same call: distinct
      (limit, offset) pairs, ids or operations never collide. */
  lemma KeyInjective(a: Signature, b: Signature)
    ensures Key(a) == Key(b) <==> a == b
  {
    KeyRoundTrip(a);
    KeyRoundTrip(b);
  }

  // ---------------------------------------------------------------------------
  // The in-memory driver

  /** Whether Remember at `now` answers from the stored entry for `key`: a value is
      stored and no expiry before `now` is recorded for it. A value with no recorded
      expiry (stored by Put alone) is served at every instant. */
  predicate Serves<V>(elements: map<string, V>, timeStamps: map<string, int>, key: string, now: int): (served: bool)
    ensures served ==> key in elements
    ensures key in elements && key !in timeStamps ==> served
    ensures served && key in timeStamps ==> now <= timeStamps[key]
  {
    key in elements && !(key in timeStamps && timeStamps[key] < now)
  }

  /** An entry recorded by Remember is served up to and including its expiry instant and
      never after it. */
  lemma RememberedEntryLifetime<V>(elements: map<string, V>, timeStamps: map<string, int>,
                                    key: string, value: V, now: int, seconds: int, later: int)
    ensures Serves(elements[key := value], timeStamps[key := Expiry(now, seconds)], key, later)
            <==> later <= now + seconds * NanosPerSecond
  {
  }

  /** With a TTL of zero or less the entry is stale at every later instant. */
  lemma NonPositiveTtlExpiresAtOnce<V>(elements: map<string, V>, timeStamps: map<string, int>,
                                       key: string, value: V, now: int, seconds: int, later: int)
    requires seconds <= 0 && later > now
    ensures !Serves(elements[key := value], timeStamps[key := Expiry(now, seconds)], key, later)
  {
  }

  /** Storing under one key does not change whether another key is served. */
  lemma OtherKeysUnaffected<V>(elements: map<string, V>, timeStamps: map<string, int>,
                               key: string, value: V, stamp: int, other: string, now: int)
    requires other != key
    ensures Serves(elements[key := value], timeStamps[key := stamp], other, now)
            == Serves(elements, timeStamps, other, now)
  {
  }

  class InMemory<V> {
    var elements: map<string, V>
    var timeStamps: map<string, int>

    /** NewInMemoryDriver: both maps empty. */
    constructor ()
      ensures elements == map[] && timeStamps == map[]
    {
      elements := map[];
      timeStamps := map[];
    }

    /** Overwrites the value under `key`; expiries and other keys are untouched. */
    method Put(key: string, value: V)
      modifies this
      ensures elements == old(elements)[key := value]
      ensures timeStamps == old(timeStamps)
      ensures Get(key) == Ok(value)
      ensures forall k :: k != key ==> Get(k) == old(Get(k))
    {
      elements := elements[key := value];
    }

    /** The stored value, or a not-found error; expiries are not consulted. */
    function Get(key: string): (r: Result<V>)
      reads this
      ensures r.Ok? <==> key in elements
      ensures r.Ok? ==> r.value == elements[key]
      ensures r.Err? ==> r.error == ElementNotFound(key)
    {
      if key !in elements then Err(ElementNotFound(key)) else Ok(elements[key])
    }

    /** Whether a value is stored under `key`, whatever its expiry. */
    function Has(key: string): (r: bool)
      reads this
      ensures r <==> Get(key).Ok?
    {
      key in elements
    }

    /** Answers from the stored entry when it is served at `now`; otherwise invokes the
        callback (`called` records that it did) and, on success only, records the expiry
        `now + seconds` and stores the result. A failure leaves both maps as they were. */
    method Remember(key: string, seconds: int, now: int, callback: () -> Result<V>)
      returns (r: Result<V>, ghost called: bool)
      modifies this
      ensures called <==> !Serves(old(elements), old(timeStamps), key, now)
      ensures !called ==> r == old(Get(key)) && r.Ok?
      ensures !called ==> elements == old(elements) && timeStamps == old(timeStamps)
      ensures called ==> r == callback()
      ensures called && r.Err? ==> elements == old(elements) && timeStamps == old(timeStamps)
      ensures called && r.Ok? ==> elements == old(elements)[key := r.value]
      ensures called && r.Ok? ==> timeStamps == old(timeStamps)[key := Expiry(now, seconds)]
      ensures called && r.Ok? ==> forall later :: Serves(elements, timeStamps, key, later) <==> later <= Expiry(now, seconds)
      ensures called && r.Ok? && seconds <= 0 ==> forall later :: later > now ==> !Serves(elements, timeStamps, key, later)
      ensures forall other, later :: other != key ==>
                Serves(elements, timeStamps, other, later) == Serves(old(elements), old(timeStamps), other, later)
    {
      called := false;
      var showPullData := false;
      if key in timeStamps {
        showPullData := timeStamps[key] - now < 0;
      }
      var stored := Get(key);
      if stored.Ok? && !showPullData {
        return stored, called;
      }
      called := true;
      var fetched := callback();
      if fetched.Err? {
        return Err(fetched.error), called;
      }
      var elements0, timeStamps0 := elements, timeStamps;
      timeStamps := timeStamps[key := Expiry(now, seconds)];
      Put(key, fetched.value);
      forall later ensures Serves(elements, timeStamps, key, later) <==> later <= Expiry(now, seconds) {
        RememberedEntryLifetime(elements0, timeStamps0, key, fetched.value, now, seconds, later);
      }
      forall other, later | other != key
        ensures Serves(elements, timeStamps, other, later) == Serves(elements0, timeStamps0, other, later)
      {
        OtherKeysUnaffected(elements0, timeStamps0, key, fetched.value, Expiry(now, seconds), other, later);
      }
      return fetched, called;
    }
  }

  // ---------------------------------------------------------------------------
  // The caching repository decorator

  /** The shapes of value the decorator stores: a list of categories, or the possibly
      nil result of Find. */
  datatype CachedValue = CategoryList(categories: seq<Category>) | SingleCategory(category: Option<Category>)

  /** The type assertion `.([]*Category)` on a cached value. */
  function AsList(key: string, value: CachedValue): (r: Result<seq<Category>>)
    ensures r.Ok? <==> value.CategoryList?
    ensures r.Ok? ==> r.value == value.categories
    ensures r.Err? ==> r.error == TypeMismatch(key)
  {
    match value
    case CategoryList(categories) => Ok(categories)
    case SingleCategory(_) => Err(TypeMismatch(key))
  }

  /** The type assertion `.(*Category)` on a cached value. */
  function AsCategory(key: string, value: CachedValue): (r: Result<Option<Category>>)
    ensures r.Ok? <==> value.SingleCategory?
    ensures r.Ok? ==> r.value == value.category
    ensures r.Err? ==> r.error == TypeMismatch(key)
  {
    match value
    case SingleCategory(category) => Ok(category)
    case CategoryList(_) => Err(TypeMismatch(key))
  }

  /** Places a repository answer in the cache's value type. */
  function ListValue(answer: Result<seq<Category>>): (r: Result<CachedValue>)
    ensures r.Ok? <==> answer.Ok?
    ensures r.Ok? ==> r.value == CategoryList(answer.value)
    ensures r.Err? ==> r.error == answer.error
  {
    match answer
    case Ok(categories) => Ok(CategoryList(categories))
    case Err(e) => Err(e)
  }

  function CategoryValue(answer: Result<Option<Category>>): (r: Result<CachedValue>)
    ensures r.Ok? <==> answer.Ok?
    ensures r.Ok? ==> r.value == SingleCategory(answer.value)
    ensures r.Err? ==> r.error == answer.error
  {
    match answer
    case Ok(category) => Ok(SingleCategory(category))
    case Err(e) => Err(e)
  }

  /** A call that reached the wrapped category repository, with its arguments. */
  datatype RepositoryCall =
    | ReadCall(call: Signature)
    | FindManyCall(ids: seq<string>)
    | StoreCall(category: Category)
    | RemoveCall(id: string)
    | UpdateCall(id: string, category: Category)
    | TotalCall

  /** Wraps a category repository with a cache and a fixed TTL. The wrapped repository
      is represented by the answer it would give to each call (the `answer` parameters);
      `calls` records, in order, the calls that reach it. */
  class CacheCategoryRepository {
    const cache: InMemory<CachedValue>
    const ttl: int
    ghost var calls: seq<RepositoryCall>

    /** NewCacheCategoryRepository. */
    constructor (cache: InMemory<CachedValue>, ttl: int)
      ensures this.cache == cache && this.ttl == ttl && calls == []
    {
      this.cache := cache;
      this.ttl := ttl;
      calls := [];
    }

    /** The state of the cache after a call under `key` at `now` whose repository answer
        was `fetched`, given that the entry was not served. */
    ghost predicate StoredAfterMiss(key: string, now: int, fetched: Result<CachedValue>,
                                    elements0: map<string, CachedValue>, timeStamps0: map<string, int>)
      reads this, cache
    {
      if fetched.Ok? then
        cache.elements == elements0[key := fetched.value] && cache.timeStamps == timeStamps0[key := Expiry(now, ttl)]
      else
        cache.elements == elements0 && cache.timeStamps == timeStamps0
    }

    method MainCategories(limit: int, offset: int, now: int, answer: Result<seq<Category>>)
      returns (r: Result<seq<Category>>)
      modifies this, cache
      ensures var key := Key(MainCategoriesCall(limit, offset));
        if Serves(old(cache.elements), old(cache.timeStamps), key, now) then
          && r == AsList(key, old(cache.elements[key]))
          && cache.elements == old(cache.elements) && cache.timeStamps == old(cache.timeStamps)
          && calls == old(calls)
        else
          && r == answer && calls == old(calls) + [ReadCall(MainCategoriesCall(limit, offset))]
          && StoredAfterMiss(key, now, ListValue(answer), old(cache.elements), old(cache.timeStamps))
    {
      var signature := Key(MainCategoriesCall(limit, offset));
      var elements, called := cache.Remember(signature, ttl, now, () => ListValue(answer));
      if called {
        calls := calls + [ReadCall(MainCategoriesCall(limit, offset))];
      }
      if elements.Err? {
        return Err(elements.error);
      }
      r := AsList(signature, elements.value);
    }

    method SubCategories(categoryId: string, now: int, answer: Result<seq<Category>>)
      returns (r: Result<seq<Category>>)
      modifies this, cache
      ensures var key := Key(SubCategoriesCall(categoryId));
        if Serves(old(cache.elements), old(cache.timeStamps), key, now) then
          && r == AsList(key, old(cache.elements[key]))
          && cache.elements == old(cache.elements) && cache.timeStamps == old(cache.timeStamps)
          && calls == old(calls)
        else
          && r == answer && calls == old(calls) + [ReadCall(SubCategoriesCall(categoryId))]
          && StoredAfterMiss(key, now, ListValue(answer), old(cache.elements), old(cache.timeStamps))
    {
      var signature := Key(SubCategoriesCall(categoryId));
      var elements, called := cache.Remember(signature, ttl, now, () => ListValue(answer));
      if called {
        calls := calls + [ReadCall(SubCategoriesCall(categoryId))];
      }
      if elements.Err? {
        return Err(elements.error);
      }
      r := AsList(signature, elements.value);
    }

    method Find(id: string, now: int, answer: Result<Option<Category>>)
      returns (r: Result<Option<Category>>)
      modifies this, cache
      ensures var key := Key(FindCall(id));
        if Serves(old(cache.elements), old(cache.timeStamps), key, now) then
          && r == AsCategory(key, old(cache.elements[key]))
          && cache.elements == old(cache.elements) && cache.timeStamps == old(cache.timeStamps)
          && calls == old(calls)
        else
          && r == answer && calls == old(calls) + [ReadCall(FindCall(id))]
          && StoredAfterMiss(key, now, CategoryValue(answer), old(cache.elements), old(cache.timeStamps))
    {
      var signature := Key(FindCall(id));
      var elements, called := cache.Remember(signature, ttl, now, () => CategoryValue(answer));
      if called {
        calls := calls + [ReadCall(FindCall(id))];
      }
      if elements.Err? {
        return Err(elements.error);
      }
      r := AsCategory(signature, elements.value);
    }

    method All(now: int, answer: Result<seq<Category>>) returns (r: Result<seq<Category>>)
      modifies this, cache
      ensures var key := Key(AllCall);
        if Serves(old(cache.elements), old(cache.timeStamps), key, now) then
          && r == AsList(key, old(cache.elements[key]))
          && cache.elements == old(cache.elements) && cache.timeStamps == old(cache.timeStamps)
          && calls == old(calls)
        else
          && r == answer && calls == old(calls) + [ReadCall(AllCall)]
          && StoredAfterMiss(key, now, ListValue(answer), old(cache.elements), old(cache.timeStamps))
    {
      var signature := Key(AllCall);
      var elements, called := cache.Remember(signature, ttl, now, () => ListValue(answer));
      if called {
        calls := calls + [ReadCall(AllCall)];
      }
      if elements.Err? {
        return Err(elements.error);
      }
      r := AsList(signature, elements.value);
    }

    // The operations below go straight to the wrapped repository: that one call, with the
    // same arguments, reaches it,
    // its answer is returned as is, and the cache is not touched.

    method FindMany(ids: seq<string>, answer: Result<seq<Category>>) returns (r: Result<seq<Category>>)
      modifies this
      ensures r == answer && calls == old(calls) + [FindManyCall(ids)] && unchanged(cache)
    {
      calls := calls + [FindManyCall(ids)];
      r := answer;
    }

    method Store(category: Category, answer: Outcome) returns (err: Outcome)
      modifies this
      ensures err == answer && calls == old(calls) + [StoreCall(category)] && unchanged(cache)
    {
      calls := calls + [StoreCall(category)];
      err := answer;
    }

    method Remove(id: string, answer: Outcome) returns (err: Outcome)
      modifies this
      ensures err == answer && calls == old(calls) + [RemoveCall(id)] && unchanged(cache)
    {
      calls := calls + [RemoveCall(id)];
      err := answer;
    }

    method Update(id: string, category: Category, answer: Outcome) returns (err: Outcome)
      modifies this
      ensures err == answer && calls == old(calls) + [UpdateCall(id, category)] && unchanged(cache)
    {
      calls := calls + [UpdateCall(id, category)];
      err := answer;
    }

    method Total(answer: Result<int>) returns (r: Result<int>)
      modifies this
      ensures r == answer && calls == old(calls) + [TotalCall] && unchanged(cache)
    {
      calls := calls + [TotalCall];
      r := answer;
    }
  }
}
