/** Client code that replays the cases of cache_test.go and the decorator's staleness
    window using only the contracts of the cache module. */
module CacheScenarios {
  import opened Results
  import opened Categories
  import opened Cache

  /** An empty driver invokes the callback and keeps its result. */
  method RememberCallsCallbackWhenEmpty() {
    var driver := new InMemory<string>();
    var r, called := driver.Remember("empty", 1, 0, () => Ok("cached"));
    assert called && r == Ok("cached");
    assert driver.Get("empty") == Ok("cached");
  }

  /** A value with no recorded expiry is answered without the callback. */
  method RememberServesValueWithoutTimeStamp(now: int) {
    var driver := new InMemory<string>();
    driver.Put("not empty", "cached");
    var r, called := driver.Remember("not empty", 1, now, () => Ok("other"));
    assert !called && r == Ok("cached");
  }

  /** An expiry five seconds in the past makes Remember call again and overwrite the entry. */
  method RememberRefetchesExpiredValue(now: int) {
    var driver := new InMemory<string>();
    driver.Put("old", "cached");
    driver.timeStamps := map["old" := now - 5 * NanosPerSecond];
    var r, called := driver.Remember("old", 0, now, () => Ok("new cached"));
    assert called && r == Ok("new cached");
    assert driver.Get("old") == Ok("new cached") && driver.timeStamps["old"] == now;
  }

  /** A one-second entry is served half a second later and refetched two seconds later;
      a failed refetch stores nothing, so the next call tries again. */
  method RememberTimeline() {
    var driver := new InMemory<string>();
    var r, called := driver.Remember("x", 1, 0, () => Ok("cached"));
    assert called && r == Ok("cached");
    r, called := driver.Remember("x", 1, NanosPerSecond / 2, () => Ok("other"));
    assert !called && r == Ok("cached");
    r, called := driver.Remember("x", 1, 2 * NanosPerSecond, () => Err(StoreFailure("down")));
    assert called && r == Err(StoreFailure("down"));
    assert driver.Get("x") == Ok("cached") && driver.timeStamps["x"] == NanosPerSecond;
    r, called := driver.Remember("x", 1, 2 * NanosPerSecond, () => Ok("refreshed"));
    assert called && r == Ok("refreshed");
  }

  /** Find is answered from the cache within the TTL, an Update goes straight through,
      and the stale category is still returned until the entry expires. */
  method UpdateDoesNotRefreshCachedFind(before: Category, after: Category) {
    var cache := new InMemory<CachedValue>();
    var repository := new CacheCategoryRepository(cache, 60);
    var r := repository.Find("abcd", 0, Ok(Some(before)));
    assert r == Ok(Some(before)) && repository.calls == [ReadCall(FindCall("abcd"))];
    r := repository.Find("abcd", NanosPerSecond, Ok(Some(after)));
    assert r == Ok(Some(before)) && repository.calls == [ReadCall(FindCall("abcd"))];
    var err := repository.Update("abcd", after, Pass);
    assert err == Pass && repository.calls == [ReadCall(FindCall("abcd")), UpdateCall("abcd", after)];
    r := repository.Find("abcd", 2 * NanosPerSecond, Ok(Some(after)));
    assert r == Ok(Some(before)) && |repository.calls| == 2;
    r := repository.Find("abcd", 61 * NanosPerSecond, Ok(Some(after)));
    assert r == Ok(Some(after)) && repository.calls[2] == ReadCall(FindCall("abcd"));
  }

  /** Two pages of main categories are cached under different keys and never share a value. */
  method PagesAreCachedApart(firstPage: seq<Category>, secondPage: seq<Category>) {
    var cache := new InMemory<CachedValue>();
    var repository := new CacheCategoryRepository(cache, 60);
    KeyInjective(MainCategoriesCall(10, 0), MainCategoriesCall(10, 10));
    var r := repository.MainCategories(10, 0, 0, Ok(firstPage));
    assert r == Ok(firstPage);
    r := repository.MainCategories(10, 10, 0, Ok(secondPage));
    assert r == Ok(secondPage);
    assert repository.calls == [ReadCall(MainCategoriesCall(10, 0)), ReadCall(MainCategoriesCall(10, 10))];
  }
}
