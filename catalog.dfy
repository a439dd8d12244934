/** The static menu of the restaurant and the sidebar filter over one of its
    categories (restaurant_management.py, lines 141-179 and 226-232). */
module Catalog {
  import opened Wrappers

  /** The dietary label an item carries ("veg" or "non-veg"). */
  datatype Diet = Veg | NonVeg

  datatype MenuItem = MenuItem(name: string, price: nat, description: string, diet: Diet, spicy: bool)

  /** One entry of the top-level menu dictionary: a category label and its
      items, in the dictionary's insertion order. */
  datatype Category = Category(name: string, items: seq<MenuItem>)

  /** The dictionary literal. Keys are unique: no two categories share a
      label and no two items of one category share a name, so the
      dictionaries of the source are faithfully lists here. */
  function Menu(): (menu: seq<Category>)
    ensures forall i, j :: 0 <= i < j < |menu| ==> menu[i].name != menu[j].name
    ensures forall c, i, j :: 0 <= c < |menu| && 0 <= i < j < |menu[c].items| ==>
              menu[c].items[i].name != menu[c].items[j].name
  {
    [ Category("🥗 Starters", [
        MenuItem("Finger Chips", 80, "Crispy golden fries", Veg, false),
        MenuItem("Paneer Chilly", 170, "Spicy paneer in Chinese style", Veg, true),
        MenuItem("Manchurian", 120, "Vegetable balls in tangy sauce", Veg, true),
        MenuItem("Chicken Wings", 200, "Spicy grilled chicken wings", NonVeg, true),
        MenuItem("Fish Tikka", 250, "Tandoori fish pieces", NonVeg, true)]),
      Category("🍲 Soups", [
        MenuItem("Tomato Soup", 90, "Fresh tomato soup", Veg, false),
        MenuItem("Manchow Soup", 120, "Spicy Chinese soup", Veg, true),
        MenuItem("Sweet Corn Soup", 110, "Creamy sweet corn", Veg, false),
        MenuItem("Chicken Soup", 140, "Hot chicken broth", NonVeg, false)]),
      Category("🥘 Main Course", [
        MenuItem("Paneer Bhurji", 180, "Scrambled paneer curry", Veg, true),
        MenuItem("Kaju Curry", 220, "Rich cashew curry", Veg, false),
        MenuItem("Veg Handi", 150, "Mixed vegetable curry", Veg, true),
        MenuItem("Butter Chicken", 280, "Creamy chicken curry", NonVeg, false),
        MenuItem("Mutton Curry", 320, "Spicy mutton curry", NonVeg, true)]),
      Category("🫓 Breads", [
        MenuItem("Phulka Roti", 8, "Soft wheat bread", Veg, false),
        MenuItem("Butter Naan", 40, "Buttery naan bread", Veg, false),
        MenuItem("Paneer Kulcha", 40, "Stuffed paneer bread", Veg, false),
        MenuItem("Garlic Naan", 45, "Garlic flavored naan", Veg, false)]),
      Category("🍰 Desserts", [
        MenuItem("Gulab Jamun", 60, "Sweet milk balls", Veg, false),
        MenuItem("Ice Cream", 80, "Vanilla ice cream", Veg, false),
        MenuItem("Rasgulla", 70, "Spongy cheese balls", Veg, false)]),
      Category("🥤 Beverages", [
        MenuItem("Lassi", 50, "Yogurt drink", Veg, false),
        MenuItem("Fresh Lime", 40, "Fresh lime water", Veg, false),
        MenuItem("Masala Tea", 20, "Spiced tea", Veg, false),
        MenuItem("Coffee", 30, "Hot coffee", Veg, false)])
    ]
  }

  /** Dictionary lookup by key in a list of categories; None where Python
      would raise KeyError. The first entry with that key wins. */
  function Find(cats: seq<Category>, name: string): (r: Option<seq<MenuItem>>)
    ensures r.Some? <==> exists i :: 0 <= i < |cats| && cats[i].name == name
    ensures r.Some? ==> exists i :: (0 <= i < |cats| && cats[i].name == name && cats[i].items == r.value
                                     && forall j :: 0 <= j < i ==> cats[j].name != name)
  {
    if cats == [] then None
    else if cats[0].name == name then Some(cats[0].items)
    else
      var r := Find(cats[1..], name);
      if r.Some? then
        assert exists i :: (1 <= i < |cats| && cats[i].name == name && cats[i].items == r.value
                            && forall j :: 0 <= j < i ==> cats[j].name != name) by {
          var k :| 0 <= k < |cats[1..]| && cats[1..][k].name == name && cats[1..][k].items == r.value
            && forall j :: 0 <= j < k ==> cats[1..][j].name != name;
          assert cats[k + 1] == cats[1..][k];
          forall j | 0 <= j < k + 1 ensures cats[j].name != name {
            if j > 0 { assert cats[j] == cats[1..][j - 1]; }
          }
        }
        r
      else
        assert forall i :: 1 <= i < |cats| ==> cats[i] == cats[1..][i - 1];
        r
  }

  /** `menu_items[category]`: the items of the category with that label, or
      None when no category has it. */
  function Lookup(category: string): (r: Option<seq<MenuItem>>)
    ensures r.None? <==> forall i :: 0 <= i < |Menu()| ==> Menu()[i].name != category
    ensures forall i :: 0 <= i < |Menu()| && Menu()[i].name == category ==> r == Some(Menu()[i].items)
  {
    Find(Menu(), category)
  }

  /** The item is listed under that category of the menu. */
  predicate Offers(category: string, item: MenuItem)
  {
    var found := Lookup(category);
    found.Some? && item in found.value
  }

  /** The two checkbox tests of the sidebar filter: an item is skipped
      exactly when "Veg Only" is ticked and it is not veg, or "Spicy Only" is
      ticked and it is not spicy; with no box ticked every item passes. */
  predicate Passes(item: MenuItem, vegOnly: bool, spicyOnly: bool): (p: bool)
    ensures !p <==> (vegOnly && item.diet == NonVeg) || (spicyOnly && !item.spicy)
    ensures !vegOnly && !spicyOnly ==> p
  {
    (!vegOnly || item.diet == Veg) && (!spicyOnly || item.spicy)
  }

  /** The filtered items, defined from the last item backwards so that it
      extends one item at a time as the loop does. */
  function Filtered(items: seq<MenuItem>, vegOnly: bool, spicyOnly: bool): (r: seq<MenuItem>)
    ensures |r| <= |items|
    ensures forall i :: 0 <= i < |r| ==> Passes(r[i], vegOnly, spicyOnly)
  {
    if items == [] then []
    else
      var rest := Filtered(items[..|items| - 1], vegOnly, spicyOnly);
      var last := items[|items| - 1];
      if Passes(last, vegOnly, spicyOnly) then rest + [last] else rest
  }

  /** The loop that builds `filtered_items`: the items of the chosen category,
      in order, skipping those that fail an active checkbox. An empty result
      is a valid outcome ("No items match your filter criteria"). */
  method FilterItems(items: seq<MenuItem>, vegOnly: bool, spicyOnly: bool) returns (filtered: seq<MenuItem>)
    ensures filtered == Filtered(items, vegOnly, spicyOnly)
  {
    filtered := [];
    var i := 0;
    while i < |items|
      invariant 0 <= i <= |items|
      invariant filtered == Filtered(items[..i], vegOnly, spicyOnly)
    {
      var item := items[i];
      i := i + 1;
      assert items[..i][..i - 1] == items[..i - 1];
      if vegOnly && item.diet != Veg {
        continue;
      }
      if spicyOnly && !item.spicy {
        continue;
      }
      filtered := filtered + [item];
    }
    assert items[..|items|] == items;
  }

  /** The filter of the chosen category of the menu. */
  method FilterMenu(category: string, vegOnly: bool, spicyOnly: bool) returns (filtered: seq<MenuItem>)
    requires Lookup(category).Some?
    ensures forall x :: x in filtered <==> Offers(category, x) && Passes(x, vegOnly, spicyOnly)
    ensures SubsequenceOf(filtered, Lookup(category).value)
  {
    var items := Lookup(category).value;
    filtered := FilterItems(items, vegOnly, spicyOnly);
    FilteredMembers(items, vegOnly, spicyOnly);
    FilteredKeepsOrder(items, vegOnly, spicyOnly);
  }

  /** `a` is `b` with some elements deleted, the rest kept in order. */
  predicate SubsequenceOf<T(==)>(a: seq<T>, b: seq<T>)
    decreases |b|
  {
    if a == [] then true
    else if b == [] then false
    else if a[|a| - 1] == b[|b| - 1] then SubsequenceOf(a[..|a| - 1], b[..|b| - 1])
    else SubsequenceOf(a, b[..|b| - 1])
  }

  /** The filtered menu holds exactly the items that pass both tests. */
  lemma {:induction false} FilteredMembers(items: seq<MenuItem>, vegOnly: bool, spicyOnly: bool)
    ensures forall x :: x in Filtered(items, vegOnly, spicyOnly) <==> x in items && Passes(x, vegOnly, spicyOnly)
  {
    if items != [] {
      var init := items[..|items| - 1];
      FilteredMembers(init, vegOnly, spicyOnly);
      assert items == init + [items[|items| - 1]];
    }
  }

  /** The filter keeps catalog order. */
  lemma {:induction false} FilteredKeepsOrder(items: seq<MenuItem>, vegOnly: bool, spicyOnly: bool)
    ensures SubsequenceOf(Filtered(items, vegOnly, spicyOnly), items)
  {
    if items != [] {
      var init := items[..|items| - 1];
      var last := items[|items| - 1];
      FilteredKeepsOrder(init, vegOnly, spicyOnly);
      var rest := Filtered(init, vegOnly, spicyOnly);
      if Passes(last, vegOnly, spicyOnly) {
        assert (rest + [last])[..|rest + [last]| - 1] == rest;
      } else {
        SubsequenceDropLast(rest, items);
      }
    }
  }

  /** Deleting one more element from the end of `b` keeps `a` a subsequence. */
  lemma {:induction false} SubsequenceDropLast<T>(a: seq<T>, b: seq<T>)
    requires b != [] && SubsequenceOf(a, b[..|b| - 1])
    ensures SubsequenceOf(a, b)
    decreases |b|
  {
    if a != [] && a[|a| - 1] == b[|b| - 1] {
      var b' := b[..|b| - 1];
      SubsequenceWithoutLast(a, b');
      assert b'[..|b'| - 1] == b[..|b| - 2];
      SubsequenceDropLast(a[..|a| - 1], b');
    }
  }

  lemma {:induction false} SubsequenceWithoutLast<T>(a: seq<T>, b: seq<T>)
    requires a != [] && SubsequenceOf(a, b)
    ensures |b| >= 1 && SubsequenceOf(a[..|a| - 1], b[..|b| - 1])
    decreases |b|
  {
    if a[|a| - 1] != b[|b| - 1] {
      var b' := b[..|b| - 1];
      SubsequenceWithoutLast(a, b');
      assert b'[..|b'| - 1] == b[..|b| - 2];
      SubsequenceDropLast(a[..|a| - 1], b');
    }
  }

  /** With both checkboxes cleared the whole category is shown. */
  lemma {:induction false} NoFilterKeepsAll(items: seq<MenuItem>)
    ensures Filtered(items, false, false) == items
  {
    if items != [] {
      NoFilterKeepsAll(items[..|items| - 1]);
      assert items == items[..|items| - 1] + [items[|items| - 1]];
    }
  }

  /** The two checkboxes act independently: filtering on both at once is the
      veg-only filter followed by the spicy-only filter. */
  lemma {:induction false} FilterComposes(items: seq<MenuItem>, vegOnly: bool, spicyOnly: bool)
    ensures Filtered(items, vegOnly, spicyOnly) == Filtered(Filtered(items, vegOnly, false), false, spicyOnly)
  {
    if items != [] {
      var init := items[..|items| - 1];
      var last := items[|items| - 1];
      FilterComposes(init, vegOnly, spicyOnly);
      var v := Filtered(init, vegOnly, false);
      if Passes(last, vegOnly, false) {
        assert (v + [last])[..|v + [last]| - 1] == v;
      }
    }
  }

  /** The sidebar's quick-add buttons (lines 273-277): name, category, price. */
  datatype PopularItem = PopularItem(name: string, category: string, price: nat)

  /** Each button is keyed by `quick_<item>`, so the names are distinct. */
  function PopularItems(): (r: seq<PopularItem>)
    ensures |r| == 3
    ensures forall j, k :: 0 <= j < k < |r| ==> r[j].name != r[k].name
  {
    [ PopularItem("Butter Chicken", "🥘 Main Course", 280),
      PopularItem("Butter Naan", "🫓 Breads", 40),
      PopularItem("Masala Tea", "🥤 Beverages", 20) ]
  }

  /** Every quick-add button names an item of the menu under the category and
      at the price it shows, and that item is not spicy. */
  lemma PopularItemsOnMenu(k: nat)
    requires k < |PopularItems()|
    ensures var p := PopularItems()[k];
            exists item :: (Offers(p.category, item) && item.name == p.name && item.price == p.price
                            && !item.spicy && (item.diet == Veg <==> p.name != "Butter Chicken"))
  {
    var p := PopularItems()[k];
    // the category of the button and the item's place in it
    var (c, i) := match k
      case 0 => (2, 3)
      case 1 => (3, 1)
      case _ => (5, 2);
    var item := Menu()[c].items[i];
    assert p.category == Menu()[c].name;
    LookupAt(c);
    assert item in Lookup(p.category).value;
    assert item.name == p.name && item.price == p.price && !item.spicy;
    assert item.diet == Veg <==> p.name != "Butter Chicken";
  }

  /** Looking up the label of a category yields that category's items. */
  lemma LookupAt(c: nat)
    requires c < |Menu()|
    ensures Lookup(Menu()[c].name) == Some(Menu()[c].items)
  {
  }
}
