/** The shop sidebar: a fixed catalogue of themes, avatars and music tracks,
    each of which the user may buy once and then equip, one per category. */
module Shop {
  import opened Basics

  datatype Category = Theme | Avatar | Music

  datatype ShopItem = ShopItem(id: string, name: string, price: nat, category: Category, owned: bool, equipped: bool)

  /** Light or dark colour scheme, as handed to the theme hook. */
  datatype ColorMode = Light | Dark

  /** The catalogue the sidebar starts from: four items per category, and the
      first of each category owned and equipped. */
  function Catalogue(): (items: seq<ShopItem>)
    ensures |items| == 12
    ensures forall c :: |ItemsOfCategory(items, c)| == 4
    ensures InventoryValid(items)
  {
    CatalogueIdsUnique();
    CatalogueEquipped();
    CatalogueCategorySizes();
    CatalogueItems
  }

  const CatalogueItems: seq<ShopItem> := CatalogueThemes + CatalogueAvatars + CatalogueMusic

  const CatalogueThemes: seq<ShopItem> := [
    ShopItem("theme-cosmic", "Cosmic Purple", 500, Theme, true, true),
    ShopItem("theme-forest", "Forest Calm", 750, Theme, false, false),
    ShopItem("theme-ocean", "Ocean Waves", 1000, Theme, false, false),
    ShopItem("theme-sunset", "Golden Sunset", 1250, Theme, false, false)
  ]

  const CatalogueAvatars: seq<ShopItem> := [
    ShopItem("avatar-robot", "Cyber Bot", 300, Avatar, true, true),
    ShopItem("avatar-wizard", "Wise Wizard", 400, Avatar, false, false),
    ShopItem("avatar-ninja", "Shadow Ninja", 500, Avatar, false, false),
    ShopItem("avatar-dragon", "Fire Dragon", 750, Avatar, false, false)
  ]

  const CatalogueMusic: seq<ShopItem> := [
    ShopItem("music-lofi", "Lo-fi Beats", 200, Music, true, true),
    ShopItem("music-classical", "Classical Focus", 250, Music, false, false),
    ShopItem("music-nature", "Nature Sounds", 300, Music, false, false),
    ShopItem("music-electronic", "Electronic Vibes", 400, Music, false, false)
  ]

  lemma CatalogueIdsUnique()
    ensures |CatalogueItems| == 12 && UniqueIds(CatalogueItems)
  {
  }

  lemma CatalogueEquipped()
    ensures EquippedOwned(CatalogueItems) && OneEquippedPerCategory(CatalogueItems)
  {
    assert EquippedIndices(CatalogueItems, Theme) == {0};
    assert EquippedIndices(CatalogueItems, Avatar) == {4};
    assert EquippedIndices(CatalogueItems, Music) == {8};
  }

  lemma CatalogueCategorySizes()
    ensures forall c :: |ItemsOfCategory(CatalogueItems, c)| == 4
  {
    forall c ensures |ItemsOfCategory(CatalogueItems, c)| == 4 {
      CatalogueCategorySize(c);
    }
  }

  lemma CatalogueCategorySize(c: Category)
    ensures |ItemsOfCategory(CatalogueItems, c)| == 4
  {
    var t, a, m := CatalogueThemes, CatalogueAvatars, CatalogueMusic;
    ItemsOfCategoryAppend(t + a, m, c);
    ItemsOfCategoryAppend(t, a, c);
    ItemsOfCategoryUniform(t, Theme, c);
    ItemsOfCategoryUniform(a, Avatar, c);
    ItemsOfCategoryUniform(m, Music, c);
  }

  lemma {:induction false} ItemsOfCategoryUniform(s: seq<ShopItem>, d: Category, c: Category)
    requires forall i :: 0 <= i < |s| ==> s[i].category == d
    ensures ItemsOfCategory(s, c) == if c == d then s else []
  {
    if s != [] {
      ItemsOfCategoryUniform(s[1..], d, c);
      assert s == [s[0]] + s[1..];
    }
  }

  predicate UniqueIds(s: seq<ShopItem>)
  {
    forall i, j :: 0 <= i < j < |s| ==> s[i].id != s[j].id
  }

  predicate EquippedOwned(s: seq<ShopItem>)
  {
    forall i :: 0 <= i < |s| && s[i].equipped ==> s[i].owned
  }

  /** Positions of the equipped items of category `c`. */
  function EquippedIndices(s: seq<ShopItem>, c: Category): set<nat>
  {
    set i: nat | i < |s| && s[i].category == c && s[i].equipped
  }

  predicate OneEquippedPerCategory(s: seq<ShopItem>)
  {
    forall c :: |EquippedIndices(s, c)| == 1
  }

  /** The invariant the shop keeps: ids identify items, every category has
      exactly one equipped item, and only owned items are equipped. */
  predicate InventoryValid(s: seq<ShopItem>)
  {
    UniqueIds(s) && EquippedOwned(s) && OneEquippedPerCategory(s)
  }

  /** The list `handlePurchase` builds: the item with the given id becomes owned. */
  function MarkOwned(s: seq<ShopItem>, id: string): seq<ShopItem>
  {
    seq(|s|, i requires 0 <= i < |s| => if s[i].id == id then s[i].(owned := true) else s[i])
  }

  /** The list `handleEquip` builds: within the item's category only the item
      itself stays equipped; other categories are untouched. */
  function EquipOnly(s: seq<ShopItem>, item: ShopItem): seq<ShopItem>
  {
    seq(|s|, i requires 0 <= i < |s| =>
      if s[i].category == item.category then s[i].(equipped := s[i].id == item.id) else s[i])
  }

  /** Buying changes only owned flags, never the equipped set, and keeps the invariant. */
  lemma MarkOwnedKeepsInventory(s: seq<ShopItem>, id: string)
    requires InventoryValid(s)
    ensures InventoryValid(MarkOwned(s, id))
    ensures forall i :: 0 <= i < |s| ==> MarkOwned(s, id)[i].owned == (s[i].owned || s[i].id == id)
    ensures forall c :: EquippedIndices(MarkOwned(s, id), c) == EquippedIndices(s, c)
    ensures |MarkOwned(s, id)| == |s|
    ensures forall i :: 0 <= i < |s| ==> MarkOwned(s, id)[i].(owned := s[i].owned) == s[i]
  {
    var r := MarkOwned(s, id);
    forall c ensures EquippedIndices(r, c) == EquippedIndices(s, c) {
    }
  }

  /** Equipping an owned item from the list makes it the only equipped item of
      its category, leaves other categories and all owned flags as they were,
      and keeps the invariant. */
  lemma EquipOnlyKeepsInventory(s: seq<ShopItem>, k: nat)
    requires InventoryValid(s) && k < |s| && s[k].owned
    ensures InventoryValid(EquipOnly(s, s[k]))
    ensures EquippedIndices(EquipOnly(s, s[k]), s[k].category) == {k}
    ensures forall c :: c != s[k].category ==> EquippedIndices(EquipOnly(s, s[k]), c) == EquippedIndices(s, c)
    ensures forall i :: 0 <= i < |s| ==> EquipOnly(s, s[k])[i].owned == s[i].owned
    ensures |EquipOnly(s, s[k])| == |s|
    ensures forall i :: 0 <= i < |s| ==> EquipOnly(s, s[k])[i].(equipped := s[i].equipped) == s[i]
    ensures forall i :: 0 <= i < |s| && s[i].category != s[k].category ==> EquipOnly(s, s[k])[i] == s[i]
  {
    var r := EquipOnly(s, s[k]);
    assert EquippedIndices(r, s[k].category) == {k};
    forall c ensures |EquippedIndices(r, c)| == 1 {
      if c != s[k].category {
        assert EquippedIndices(r, c) == EquippedIndices(s, c);
      }
    }
  }

  /** `getItemsByCategory`: the items of one category, in catalogue order. */
  function ItemsOfCategory(s: seq<ShopItem>, c: Category): (r: seq<ShopItem>)
    ensures |r| <= |s|
  {
    if s == [] then []
    else if s[0].category == c then [s[0]] + ItemsOfCategory(s[1..], c)
    else ItemsOfCategory(s[1..], c)
  }

  /** The filter keeps exactly the items of the requested category. */
  lemma {:induction false} ItemsOfCategoryMembers(s: seq<ShopItem>, c: Category)
    ensures forall x :: x in ItemsOfCategory(s, c) <==> x in s && x.category == c
  {
    if s != [] {
      ItemsOfCategoryMembers(s[1..], c);
      assert s == [s[0]] + s[1..];
    }
  }

  /** Filtering keeps order: the filter of a concatenation is the concatenation of the filters. */
  lemma {:induction false} ItemsOfCategoryAppend(s: seq<ShopItem>, t: seq<ShopItem>, c: Category)
    ensures ItemsOfCategory(s + t, c) == ItemsOfCategory(s, c) + ItemsOfCategory(t, c)
  {
    if s == [] {
      assert s + t == t;
    } else {
      assert (s + t)[0] == s[0];
      assert (s + t)[1..] == s[1..] + t;
      ItemsOfCategoryAppend(s[1..], t, c);
      if s[0].category == c {
        calc {
          ItemsOfCategory(s + t, c);
          [s[0]] + ItemsOfCategory(s[1..] + t, c);
          [s[0]] + (ItemsOfCategory(s[1..], c) + ItemsOfCategory(t, c));
          ([s[0]] + ItemsOfCategory(s[1..], c)) + ItemsOfCategory(t, c);
        }
      }
    }
  }

  /** The three category tabs together show every item exactly once. */
  lemma {:induction false} CategoriesPartition(s: seq<ShopItem>)
    ensures |ItemsOfCategory(s, Theme)| + |ItemsOfCategory(s, Avatar)| + |ItemsOfCategory(s, Music)| == |s|
  {
    if s != [] {
      CategoriesPartition(s[1..]);
    }
  }

  /** Position `k` holds the first equipped item of category `c`. */
  predicate FirstEquippedAt(s: seq<ShopItem>, c: Category, k: nat)
  {
    k < |s| && s[k].category == c && s[k].equipped &&
    forall j :: 0 <= j < k ==> !(s[j].category == c && s[j].equipped)
  }

  /** `items.find(...)`: the first item of category `c` that is equipped. */
  function FirstEquipped(s: seq<ShopItem>, c: Category): (r: Option<ShopItem>)
    ensures r.Some? ==> r.value in s && r.value.category == c && r.value.equipped
    ensures r.Some? ==> exists k: nat :: FirstEquippedAt(s, c, k) && s[k] == r.value
    ensures r.None? ==> forall i :: 0 <= i < |s| ==> !(s[i].category == c && s[i].equipped)
  {
    if s == [] then None
    else if s[0].category == c && s[0].equipped then
      assert FirstEquippedAt(s, c, 0);
      Some(s[0])
    else
      var r := FirstEquipped(s[1..], c);
      if r.Some? then
        var k: nat :| FirstEquippedAt(s[1..], c, k) && s[1..][k] == r.value;
        assert FirstEquippedAt(s, c, k + 1);
        r
      else r
  }

  /** In a valid inventory every category has an equipped item to find, and it
      is the only one. */
  lemma FirstEquippedFound(s: seq<ShopItem>, c: Category)
    requires InventoryValid(s)
    ensures FirstEquipped(s, c).Some?
    ensures forall i :: 0 <= i < |s| && s[i].category == c && s[i].equipped ==> s[i] == FirstEquipped(s, c).value
  {
    var e := EquippedIndices(s, c);
    assert |e| == 1;
    var k :| k in e;
    assert e == {k} by {
      assert |e - {k}| == 0;
    }
    var r := FirstEquipped(s, c);
    if r.None? {
      assert false;
    }
    var w :| 0 <= w < |s| && s[w] == r.value;
    assert w in e;
    forall i | 0 <= i < |s| && s[i].category == c && s[i].equipped
      ensures s[i] == r.value
    {
      assert i as nat in e;
    }
  }

  /** The colour scheme chosen when a theme is equipped: dark for the forest and
      ocean themes, light for every other id. */
  function ModeForTheme(id: string): (m: ColorMode)
    ensures m == Dark <==> id in {"theme-forest", "theme-ocean"}
  {
    match id
    case "theme-cosmic" => Light
    case "theme-forest" => Dark
    case "theme-ocean" => Dark
    case "theme-sunset" => Light
    case _ => Light
  }

  class ShopSidebar {
    var items: array<ShopItem>

    predicate Valid()
      reads this, items
    {
      InventoryValid(items[..])
    }

    constructor ()
      ensures Valid() && fresh(items)
      ensures items[..] == Catalogue()
    {
      var c := Catalogue();
      var a := new ShopItem[12](i requires 0 <= i < 12 => c[i]);
      assert a[..] == c;
      items := a;
    }

    /** Buys `item`, one of the listed items, when the balance covers its price
        and it is not yet owned; `purchased` says whether `onPurchase` is
        called. Afterwards a bought or already owned item is owned in the list. */
    method Purchase(item: ShopItem, coins: nat) returns (purchased: bool)
      requires Valid() && item in items[..]
      modifies items
      ensures Valid()
      ensures purchased <==> coins >= item.price && !item.owned
      ensures items[..] == if purchased then MarkOwned(old(items[..]), item.id) else old(items[..])
      ensures purchased || item.owned ==>
        forall i :: 0 <= i < items.Length && items[i].id == item.id ==> items[i].owned
    {
      purchased := coins >= item.price && !item.owned;
      if purchased {
        ghost var before := items[..];
        var i := 0;
        while i < items.Length
          invariant 0 <= i <= items.Length
          invariant forall j :: 0 <= j < i ==> items[j] == MarkOwned(before, item.id)[j]
          invariant forall j :: i <= j < items.Length ==> items[j] == before[j]
        {
          if items[i].id == item.id {
            items[i] := items[i].(owned := true);
          }
          i := i + 1;
        }
        assert items[..] == MarkOwned(before, item.id);
        MarkOwnedKeepsInventory(before, item.id);
      }
    }

    /** Equips `item`, one of the listed items, when it is owned; `equipped`
        says whether `onEquip` is called and `mode` is the colour scheme chosen
        for a theme. */
    method Equip(item: ShopItem) returns (equipped: bool, mode: Option<ColorMode>)
      requires Valid() && item in items[..]
      modifies items
      ensures Valid()
      ensures equipped <==> item.owned
      ensures items[..] == if equipped then EquipOnly(old(items[..]), item) else old(items[..])
      ensures mode == if equipped && item.category == Theme then Some(ModeForTheme(item.id)) else None
    {
      equipped := item.owned;
      mode := None;
      if equipped {
        ghost var before := items[..];
        var i := 0;
        while i < items.Length
          invariant 0 <= i <= items.Length
          invariant forall j :: 0 <= j < i ==> items[j] == EquipOnly(before, item)[j]
          invariant forall j :: i <= j < items.Length ==> items[j] == before[j]
        {
          if items[i].category == item.category {
            items[i] := items[i].(equipped := items[i].id == item.id);
          }
          i := i + 1;
        }
        assert items[..] == EquipOnly(before, item);
        ghost var k :| 0 <= k < |before| && before[k] == item;
        EquipOnlyKeepsInventory(before, k);
        if item.category == Theme {
          mode := Some(ModeForTheme(item.id));
        }
      }
    }

    /** `getItemsByCategory` over the current list. */
    function GetItemsByCategory(c: Category): (r: seq<ShopItem>)
      reads this, items
      ensures forall x :: x in r <==> x in items[..] && x.category == c
    {
      ItemsOfCategoryMembers(items[..], c);
      ItemsOfCategory(items[..], c)
    }

    /** `equippedMusic`: the music track currently equipped, which a valid shop always has. */
    function EquippedMusic(): (r: Option<ShopItem>)
      reads this, items
      ensures r.Some? ==> r.value in items[..] && r.value.category == Music && r.value.equipped
      ensures Valid() ==> r.Some?
    {
      if Valid() then FirstEquippedFound(items[..], Music); FirstEquipped(items[..], Music)
      else FirstEquipped(items[..], Music)
    }
  }
}
