/**
  The customer menu's category tabs (src/components/customer/CategoryTabs.tsx):
  the items shown for the active tab, the tab list with its leading 'All'
  entry, and the item-count caption.
 */
module CategoryTabs {
  import opened Common
  import opened Types

  /** `filtered`: every item for the 'all' tab, otherwise the items of that category. */
  function Filtered(menuItems: seq<MenuItem>, activeCategory: string): (r: seq<MenuItem>)
    ensures activeCategory == "all" ==> r == menuItems
    ensures activeCategory != "all" ==>
      && (forall k :: 0 <= k < |r| ==> r[k] in menuItems && r[k].categoryId == activeCategory)
      && (forall k :: 0 <= k < |menuItems| && menuItems[k].categoryId == activeCategory ==> menuItems[k] in r)
    ensures activeCategory != "all" ==> IsSubsequence(r, menuItems)
  {
    if activeCategory == "all" then menuItems
    else Filter(menuItems, (m: MenuItem) => m.categoryId == activeCategory)
  }

  /** Every item belongs to one tab's selection or to none, and the 'all' tab shows them all. */
  lemma TabsPartitionItems(menuItems: seq<MenuItem>, c: string, d: string)
    requires c != "all" && d != "all" && c != d
    ensures forall m :: m in Filtered(menuItems, c) ==> m !in Filtered(menuItems, d)
  {
  }

  const AllTab := Category("all", "All", "all")

  /** `allCategories`: the 'All' tab followed by the café's categories. */
  function AllCategories(categories: seq<Category>): (r: seq<Category>)
    ensures |r| == |categories| + 1
    ensures r[0].id == "all" && r[0].name == "All"
    ensures r[1..] == categories
  {
    [AllTab] + categories
  }

  /** "`n` item" or "`n` items". */
  function CountLabel(n: nat): (caption: string)
    ensures |caption| > |NatToString(n)| && caption[..|NatToString(n)|] == NatToString(n)
  {
    NatToString(n) + " item" + (if n != 1 then "s" else "")
  }

  /** The caption is plural except for exactly one item. */
  lemma CountLabelPlural(n: nat)
    ensures CountLabel(n)[|CountLabel(n)| - 1] == 's' <==> n != 1
    ensures n == 1 ==> CountLabel(n) == "1 item"
  {
    assert AllDigits(NatToString(n));
    if n == 1 {
      assert NatToString(1) == "1";
    }
  }
}
