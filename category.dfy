/** The category entity: its constructor, the main-category flag derived from the
    parent id, and the two operations on its multimedia list. */
module Categories {
  import opened Results

  /** An entry of the multimedia list; `content` stands for the fields other than the id,
      which belong to an external package. */
  datatype MultimediaItem = MultimediaItem(id: string, content: string)

  /** A banner attached to a category; its fields belong to an external package. */
  datatype Banner = Banner(content: string)

  /** A category "has a parent" when its parent id is set and not empty. */
  predicate HasParent(parentCategoryId: Option<string>): (r: bool)
    ensures !r <==> parentCategoryId == None || parentCategoryId == Some("")
  {
    parentCategoryId.Some? && parentCategoryId.value != ""
  }

  /** The value stored in IsMainCategory: "y" for a top-level category, "n" otherwise. */
  function MainCategoryFlag(parentCategoryId: Option<string>): (flag: string)
    ensures flag == "y" || flag == "n"
    ensures flag == "y" <==> !HasParent(parentCategoryId)
  {
    if HasParent(parentCategoryId) then "n" else "y"
  }

  /** The items of `items` whose id differs from `id`, in their original order. */
  function WithoutItem(items: seq<MultimediaItem>, id: string): (kept: seq<MultimediaItem>)
    ensures |kept| <= |items|
    ensures forall i :: 0 <= i < |kept| ==> kept[i].id != id
  {
    if items == [] then []
    else
      var last := items[|items| - 1];
      WithoutItem(items[..|items| - 1], id) + (if last.id == id then [] else [last])
  }

  predicate Contains(items: seq<MultimediaItem>, id: string) {
    exists i :: 0 <= i < |items| && items[i].id == id
  }

  /** Filtering keeps exactly the items with another id. */
  lemma {:induction false} WithoutItemMembers(items: seq<MultimediaItem>, id: string, x: MultimediaItem)
    ensures x in WithoutItem(items, id) <==> x in items && x.id != id
  {
    if items != [] {
      var init := items[..|items| - 1];
      WithoutItemMembers(init, id, x);
      assert items == init + [items[|items| - 1]];
    }
  }

  /** After filtering no item carries the removed id, and nothing is lost otherwise. */
  lemma {:induction false} WithoutItemRemovesAll(items: seq<MultimediaItem>, id: string)
    ensures !Contains(WithoutItem(items, id), id)
    ensures |WithoutItem(items, id)| <= |items|
    ensures !Contains(items, id) ==> WithoutItem(items, id) == items
  {
    if items != [] {
      var init := items[..|items| - 1];
      WithoutItemRemovesAll(init, id);
      assert items == init + [items[|items| - 1]];
    }
  }

  class Category {
    const id: string
    const name: Option<string>
    const description: Option<string>
    var multimedia: seq<MultimediaItem>
    const parentCategoryId: Option<string>
    const isMainCategory: Option<string>
    const visible: Option<bool>
    const createdAt: Option<string>
    const banner: Option<Banner>

    /** The struct literal: every field as given. */
    constructor (id: string, name: Option<string>, description: Option<string>,
                 multimedia: seq<MultimediaItem>, parentCategoryId: Option<string>,
                 isMainCategory: Option<string>, visible: Option<bool>,
                 createdAt: Option<string>, banner: Option<Banner>)
      ensures this.id == id && this.name == name && this.description == description
      ensures this.multimedia == multimedia && this.parentCategoryId == parentCategoryId
      ensures this.isMainCategory == isMainCategory && this.visible == visible
      ensures this.createdAt == createdAt && this.banner == banner
    {
      this.id := id;
      this.name := name;
      this.description := description;
      this.multimedia := multimedia;
      this.parentCategoryId := parentCategoryId;
      this.isMainCategory := isMainCategory;
      this.visible := visible;
      this.createdAt := createdAt;
      this.banner := banner;
    }

    /** Appends `item` to the multimedia list. */
    method AddMultimediaItem(item: MultimediaItem)
      modifies this
      ensures multimedia == old(multimedia) + [item]
      ensures |multimedia| == |old(multimedia)| + 1 && multimedia[|multimedia| - 1] == item
    {
      multimedia := multimedia + [item];
    }

    /** As written: reports whether an item with `id` is present. The filtered list is
        built in a local variable that is never stored, so the category is left as it was
        (the method may not modify `this`). The local list also begins with as many nil
        entries as the original list is long, which `None` stands for here. */
    method RemoveMultimediaItem(id: string) returns (itemExists: bool)
      ensures itemExists <==> Contains(multimedia, id)
    {
      var newList: seq<Option<MultimediaItem>> := seq(|multimedia|, _ => None);
      itemExists := false;
      var i := 0;
      while i < |multimedia|
        invariant 0 <= i <= |multimedia|
        invariant itemExists <==> Contains(multimedia[..i], id)
      {
        var item := multimedia[i];
        if item.id != id {
          newList := newList + [Some(item)];
        } else {
          itemExists := true;
        }
        assert multimedia[..i + 1] == multimedia[..i] + [item];
        i := i + 1;
      }
      assert multimedia[..i] == multimedia;
    }

    /** The evidently intended removal: the same scan, with the filtered list stored back. */
    method RemoveMultimediaItemStored(id: string) returns (itemExists: bool)
      modifies this
      ensures itemExists <==> Contains(old(multimedia), id)
      ensures multimedia == WithoutItem(old(multimedia), id)
      ensures !Contains(multimedia, id)
    {
      var items := multimedia;
      var newList: seq<MultimediaItem> := [];
      itemExists := false;
      var i := 0;
      while i < |items|
        invariant 0 <= i <= |items|
        invariant newList == WithoutItem(items[..i], id)
        invariant itemExists <==> Contains(items[..i], id)
      {
        var item := items[i];
        assert items[..i + 1] == items[..i] + [item];
        assert items[..i + 1][..i] == items[..i];
        if item.id != id {
          newList := newList + [item];
        } else {
          itemExists := true;
        }
        i := i + 1;
      }
      assert items[..i] == items;
      multimedia := newList;
      WithoutItemRemovesAll(items, id);
    }
  }

  /** NewCategory: the id and creation instant are parameters (a fresh uuid and the
      current time in Go); IsMainCategory is derived from the parent id, every other
      argument is copied unchanged, and the error is always nil. */
  method NewCategory(id: string, createdAt: string, name: Option<string>, description: Option<string>,
                     parentCategoryId: Option<string>, visible: Option<bool>,
                     multimedia: seq<MultimediaItem>, banner: Option<Banner>)
    returns (category: Category, err: Outcome)
    ensures fresh(category) && err == Pass
    ensures category.isMainCategory == Some(MainCategoryFlag(parentCategoryId))
    ensures category.id == id && category.createdAt == Some(createdAt)
    ensures category.name == name && category.description == description
    ensures category.parentCategoryId == parentCategoryId && category.multimedia == multimedia
    ensures category.visible == visible && category.banner == banner
  {
    var isMainCategory := "y";
    if parentCategoryId.Some? && parentCategoryId.value != "" {
      isMainCategory := "n";
    }
    category := new Category(id, name, description, multimedia, parentCategoryId,
                             Some(isMainCategory), visible, Some(createdAt), banner);
    err := Pass;
  }

  /** The as-written removal leaves a present item in place while reporting it found. */
  method RemovalLeavesItemInPlace() returns (category: Category, itemExists: bool)
    ensures itemExists && category.multimedia == [MultimediaItem("a", "")]
    ensures Contains(category.multimedia, "a")
  {
    var item := MultimediaItem("a", "");
    category := new Category("c", None, None, [item], None, Some("y"), None, None, None);
    itemExists := category.RemoveMultimediaItem("a");
    assert category.multimedia[0].id == "a";
  }
}
