/** The parent-chain walk of the store-backed category repository. The store's Find
    (a GetItem request and the decoding of its item) is the lookup function `find`. */
module DynamoDB {
  import opened Results
  import opened Categories

  /** The largest number of parent hops the walk takes before giving up. */
  const MaxParentHops: int := 10

  /** The answer of the walk that starts at `id` when `tries` parent hops have already
      been counted: it stops at the first category without a parent, and fails on a
      lookup error, on a missing category, or once the counter exceeds the bound. */
  function MainCategoryWalk(find: string -> Result<Option<Category>>, id: string, tries: int): (r: Result<Category>)
    ensures r.Ok? ==> !HasParent(r.value.parentCategoryId)
    decreases MaxParentHops + 1 - tries
  {
    match find(id)
    case Err(e) => Err(e)
    case Ok(None) => Err(NoValidParent)
    case Ok(Some(category)) =>
      if !HasParent(category.parentCategoryId) then Ok(category)
      else if tries + 1 > MaxParentHops then Err(ParentNotFound(tries + 1))
      else MainCategoryWalk(find, category.parentCategoryId.value, tries + 1)
  }

  /** The parent id of the category stored under `id`, when it is found and has one. */
  function ParentOf(find: string -> Result<Option<Category>>, id: string): Option<string> {
    match find(id)
    case Ok(Some(category)) =>
      if HasParent(category.parentCategoryId) then Some(category.parentCategoryId.value) else None
    case _ => None
  }

  /** The id reached after `hops` parent hops from `id`, when every category on the way
      was found and had a parent. */
  function ChainId(find: string -> Result<Option<Category>>, id: string, hops: nat): Option<string> {
    if hops == 0 then Some(id)
    else match ChainId(find, id, hops - 1)
      case None => None
      case Some(x) => ParentOf(find, x)
  }

  /** The chain seen from the parent is the chain from the child, one hop shorter. */
  lemma {:induction false} ChainIdFromParent(find: string -> Result<Option<Category>>, id: string, parent: string, hops: nat)
    requires ParentOf(find, id) == Some(parent)
    ensures ChainId(find, id, hops + 1) == ChainId(find, parent, hops)
  {
    if hops > 0 {
      ChainIdFromParent(find, id, parent, hops - 1);
    }
  }

  /** Following `hops` parents only advances the counter, as long as it stays within the bound. */
  lemma {:induction false} WalkSkipsHops(find: string -> Result<Option<Category>>, id: string, tries: int, hops: nat, x: string)
    requires 0 <= tries && tries + hops <= MaxParentHops
    requires ChainId(find, id, hops) == Some(x)
    ensures MainCategoryWalk(find, id, tries) == MainCategoryWalk(find, x, tries + hops)
    decreases hops
  {
    if hops > 0 {
      var parent := ParentOf(find, id);
      if parent.None? {
        ChainIdNoneStays(find, id, hops);
        assert false;
      }
      ChainIdFromParent(find, id, parent.value, hops - 1);
      WalkSkipsHops(find, parent.value, tries + 1, hops - 1, x);
    }
  }

  lemma {:induction false} ChainIdNoneStays(find: string -> Result<Option<Category>>, id: string, hops: nat)
    requires hops > 0 && ParentOf(find, id).None?
    ensures ChainId(find, id, hops).None?
  {
    if hops > 1 {
      ChainIdNoneStays(find, id, hops - 1);
    }
  }

  /** Starting from a zero counter, a category without a parent reached within ten hops
      is the answer. */
  lemma WalkReachesRoot(find: string -> Result<Option<Category>>, id: string, hops: nat, x: string, root: Category)
    requires hops <= MaxParentHops && ChainId(find, id, hops) == Some(x)
    requires find(x) == Ok(Some(root)) && !HasParent(root.parentCategoryId)
    ensures MainCategoryWalk(find, id, 0) == Ok(root)
  {
    WalkSkipsHops(find, id, 0, hops, x);
  }

  /** A failed lookup within ten hops is returned unchanged. */
  lemma WalkPropagatesLookupError(find: string -> Result<Option<Category>>, id: string, hops: nat, x: string)
    requires hops <= MaxParentHops && ChainId(find, id, hops) == Some(x)
    requires find(x).Err?
    ensures MainCategoryWalk(find, id, 0) == Err(find(x).error)
  {
    WalkSkipsHops(find, id, 0, hops, x);
  }

  /** A missing category within ten hops gives the "no valid parent" error. */
  lemma WalkReportsMissingCategory(find: string -> Result<Option<Category>>, id: string, hops: nat, x: string)
    requires hops <= MaxParentHops && ChainId(find, id, hops) == Some(x)
    requires find(x) == Ok(None)
    ensures MainCategoryWalk(find, id, 0) == Err(NoValidParent)
  {
    WalkSkipsHops(find, id, 0, hops, x);
  }

  /** When the first eleven categories all have parents (a cycle included), the walk
      gives up with the counter at eleven. */
  lemma WalkGivesUp(find: string -> Result<Option<Category>>, id: string)
    requires ChainId(find, id, MaxParentHops + 1).Some?
    ensures MainCategoryWalk(find, id, 0) == Err(ParentNotFound(MaxParentHops + 1))
  {
    var x := ChainId(find, id, MaxParentHops);
    WalkSkipsHops(find, id, 0, MaxParentHops, x.value);
    assert ParentOf(find, x.value).Some?;
  }

  /** A category that is its own parent makes the walk give up after eleven lookups. */
  lemma SelfParentGivesUp(find: string -> Result<Option<Category>>, id: string, category: Category)
    requires find(id) == Ok(Some(category)) && category.parentCategoryId == Some(id) && id != ""
    ensures MainCategoryWalk(find, id, 0) == Err(ParentNotFound(MaxParentHops + 1))
  {
    SelfChain(find, id, MaxParentHops + 1);
    WalkGivesUp(find, id);
  }

  lemma {:induction false} SelfChain(find: string -> Result<Option<Category>>, id: string, hops: nat)
    requires ParentOf(find, id) == Some(id)
    ensures ChainId(find, id, hops) == Some(id)
  {
    if hops > 0 {
      SelfChain(find, id, hops - 1);
    }
  }

  /** The stored IsMainCategory flag of a category built by NewCategory agrees with the
      walk: it is "y" exactly when the walk from its id answers with the category itself. */
  lemma MainFlagAgreesWithWalk(find: string -> Result<Option<Category>>, id: string, category: Category, tries: int)
    requires find(id) == Ok(Some(category))
    requires category.isMainCategory == Some(MainCategoryFlag(category.parentCategoryId))
    ensures category.isMainCategory == Some("y") <==> MainCategoryWalk(find, id, tries) == Ok(category)
  {
  }

  class DynamoDBCategoryRepository {
    const tableName: string
    /** The store's Find: an error, no category, or the category under the id. */
    const find: string -> Result<Option<Category>>
    var parentCategoryTries: int

    /** NewDynamoDBCategoryRepository over a store whose lookups `find` answers. */
    constructor (find: string -> Result<Option<Category>>)
      ensures tableName == "categories" && this.find == find && parentCategoryTries == 0
    {
      tableName := "categories";
      this.find := find;
      parentCategoryTries := 0;
    }

    method ResetRetries()
      modifies this
      ensures parentCategoryTries == 0
    {
      parentCategoryTries := 0;
    }

    /** Looks the category up, returns it when it has no parent, and otherwise counts one
        hop and continues with the parent. The reset registered with `defer` runs on
        every return, so the counter is zero afterwards whatever the outcome. */
    method FindMainCategory(childCategoryId: string) returns (r: Result<Category>)
      modifies this
      ensures r == MainCategoryWalk(find, childCategoryId, old(parentCategoryTries))
      ensures parentCategoryTries == 0
      decreases MaxParentHops + 1 - parentCategoryTries
    {
      var category := find(childCategoryId);
      // deferred: ResetRetries()
      if category.Err? {
        r := Err(category.error);
      } else if category.value.None? {
        r := Err(NoValidParent);
      } else if category.value.value.parentCategoryId.None? || category.value.value.parentCategoryId.value == "" {
        r := Ok(category.value.value);
      } else {
        parentCategoryTries := parentCategoryTries + 1;
        if parentCategoryTries > MaxParentHops {
          r := Err(ParentNotFound(parentCategoryTries));
        } else {
          r := FindMainCategory(category.value.value.parentCategoryId.value);
        }
      }
      ResetRetries();
    }
  }
}
