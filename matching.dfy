/**
 * The pure part of the meal-matching step: the six candidate lists drawn from a menu,
 * the decoding of the matcher's reply, the summary lines and the total price.
 */
module Matching {
  import opened Wrappers
  import opened Lists
  import opened Menus

  /** A candidate shown to the matcher: a meal's name and its first price tier. */
  datatype MenuItem = MenuItem(name: string, price: Option<int>)

  /** One fixed category of the candidate menu. */
  datatype Offer = Offer(title: string, items: seq<MenuItem>)

  /** An item the matcher reports, with its price in cents, or `None` where the reply gives a null price. */
  datatype MatchedItem = MatchedItem(name: string, price: Option<int>)

  /** One entry of the reply object, kept in the order the entries are enumerated. */
  datatype Category = Category(name: string, items: seq<MatchedItem>)

  type MatchResult = seq<Category>

  /** What the completion call hands back for the reply. */
  datatype Reply =
    | NoContent                    // the message content is null or empty
    | Json(result: MatchResult)    // content that parses as a category object
    | Failed                       // the call failed or the content is not JSON: the promise rejects

  /** The section titles looked up, in the order the prompt lists them. */
  const CATEGORY_TITLES: seq<string> := ["Salate", "Suppen", "Aktionen", "Essen", "Beilagen", "Desserts"]

  /** The meals of the first section whose title is exactly `title`; none when no section has that title. */
  function SectionMeals(sections: seq<MenuSection>, title: string): (r: seq<Meal>)
    ensures (forall j :: 0 <= j < |sections| ==> sections[j].title != title) ==> r == []
    ensures forall j :: 0 <= j < |sections| && sections[j].title == title
                        && (forall k :: 0 <= k < j ==> sections[k].title != title)
                     ==> r == sections[j].meals
  {
    var p := (sec: MenuSection) => sec.title == title;
    assert forall j :: 0 <= j < |sections| ==> (p(sections[j]) <==> sections[j].title == title);
    match Find(sections, p)
    case None => []
    case Some(sec) => sec.meals
  }

  /** The first price tier of a meal; an empty price list reads as missing. */
  function FirstPrice(prices: seq<Option<int>>): (r: Option<int>)
    ensures |prices| == 0 ==> r.None?
    ensures |prices| > 0 ==> r == prices[0]
  {
    if |prices| == 0 then None else prices[0]
  }

  /** Each meal reduced to its name and first price, in menu order. */
  function Project(meals: seq<Meal>): (r: seq<MenuItem>)
    ensures |r| == |meals|
    ensures forall i :: 0 <= i < |meals| ==> r[i].name == meals[i].name && r[i].price == FirstPrice(meals[i].prices)
  {
    Map(meals, (meal: Meal) => MenuItem(meal.name, FirstPrice(meal.prices)))
  }

  /** The candidate list for one title: the projected meals of the first section with that title. */
  function Offered(menu: MensaMenu, title: string): (r: Offer)
    ensures r.title == title
    ensures (forall j :: 0 <= j < |menu.menu| ==> menu.menu[j].title != title) ==> r.items == []
    ensures forall j :: 0 <= j < |menu.menu| && menu.menu[j].title == title
                        && (forall k :: 0 <= k < j ==> menu.menu[k].title != title)
                     ==> r.items == Project(menu.menu[j].meals)
  {
    Offer(title, Project(SectionMeals(menu.menu, title)))
  }

  /** The six candidate lists the prompt is built from: salads, soups, specials, mains, sides, desserts. */
  function Candidates(menu: MensaMenu): (r: seq<Offer>)
    ensures |r| == |CATEGORY_TITLES|
    ensures forall c :: 0 <= c < |r| ==> r[c].title == CATEGORY_TITLES[c]
  {
    OfferedAll(menu, CATEGORY_TITLES)
  }

  /** The candidate list of each title, in the order of the titles. */
  function OfferedAll(menu: MensaMenu, titles: seq<string>): (r: seq<Offer>)
    ensures |r| == |titles|
    ensures forall c :: 0 <= c < |r| ==> r[c] == Offered(menu, titles[c])
  {
    if |titles| == 0 then [] else [Offered(menu, titles[0])] + OfferedAll(menu, titles[1..])
  }

  /** Reads the reply: absent content is the empty object, parsed content is itself, a failure yields nothing. */
  function DecodeReply(reply: Reply): (r: Option<MatchResult>)
    ensures reply.NoContent? ==> r == Some([])
    ensures reply.Json? ==> r == Some(reply.result)
    ensures reply.Failed? <==> r.None?
  {
    match reply
    case NoContent => Some([])
    case Json(m) => Some(m)
    case Failed => None
  }

  /**
   * The line for one entry: its name in bold, then its item names separated by commas, then two
   * spaces; an entry without items gives the empty line.
   */
  function RenderCategory(c: Category): (r: string)
    ensures r == "" <==> |c.items| == 0
    ensures |c.items| > 0 ==> r == "<b>" + c.name + ":</b> " + Join(ItemNames(c.items), ", ") + "  "
  {
    if |c.items| == 0 then ""
    else
      var prefix := "<b>" + c.name + ":</b> ";
      var r := prefix + Join(ItemNames(c.items), ", ") + "  ";
      assert r[..|prefix|] == prefix;
      r
  }

  /** The names of the matched items, in reply order. */
  function ItemNames(items: seq<MatchedItem>): (r: seq<string>)
    ensures |r| == |items|
    ensures forall i :: 0 <= i < |items| ==> r[i] == items[i].name
  {
    Map(items, (item: MatchedItem) => item.name)
  }

  /** One rendered line per entry, in entry order. */
  function RenderAll(m: MatchResult): (r: seq<string>)
    ensures |r| == |m|
    ensures forall i :: 0 <= i < |m| ==> r[i] == RenderCategory(m[i])
  {
    Map(m, RenderCategory)
  }

  /** The lines that are not empty, in their original order. */
  function DropEmpty(lines: seq<string>): (r: seq<string>)
    ensures |r| <= |lines|
    ensures forall i :: 0 <= i < |r| ==> r[i] != ""
    ensures forall x :: x in r <==> x in lines && x != ""
    ensures |lines| == 1 ==> r == (if lines[0] == "" then [] else lines)
  {
    if |lines| == 0 then []
    else if lines[0] == "" then DropEmpty(lines[1..])
    else [lines[0]] + DropEmpty(lines[1..])
  }

  /** The readable match: the lines of the entries that have items, separated by newlines. */
  function Summary(m: MatchResult): (r: string)
    ensures r == Join(RenderAll(NonEmptyCategories(m)), "\n")
  {
    SummaryLinesAreNonEmptyEntries(m);
    Join(DropEmpty(RenderAll(m)), "\n")
  }

  /** A price as the running sum sees it: a null price adds nothing. */
  function PriceOrZero(price: Option<int>): (r: int)
    ensures price.None? ==> r == 0
    ensures price.Some? ==> r == price.value
  {
    if price.Some? then price.value else 0
  }

  /** The inner reduce: the item prices added one by one, in order, to the start value. */
  function AddPrices(acc: int, items: seq<MatchedItem>): (r: int)
    ensures r == acc + SumPrices(items)
    decreases |items|
  {
    if |items| == 0 then acc else AddPrices(acc + PriceOrZero(items[0].price), items[1..])
  }

  /** The outer reduce over the entries: each entry with items adds its inner reduce started at 0. */
  function AddCategories(acc: int, m: MatchResult): (r: int)
    ensures r == acc + SumPrices(AllItems(m))
    decreases |m|
  {
    if |m| == 0 then acc
    else
      SumPricesAppend(m[0].items, AllItems(m[1..]));
      if |m[0].items| == 0 then AddCategories(acc, m[1..])
      else AddCategories(acc + AddPrices(0, m[0].items), m[1..])
  }

  /** The total price in cents: the sum of the prices of every matched item across all entries. */
  function Total(m: MatchResult): (r: int)
    ensures r == SumPrices(AllItems(m))
  {
    AddCategories(0, m)
  }

  // ----- reference definitions the computations above are proved against -----

  /** Every matched item of every entry, entry by entry. */
  function AllItems(m: MatchResult): (r: seq<MatchedItem>)
  {
    if |m| == 0 then [] else m[0].items + AllItems(m[1..])
  }

  function SumPrices(items: seq<MatchedItem>): (r: int)
  {
    if |items| == 0 then 0 else PriceOrZero(items[0].price) + SumPrices(items[1..])
  }

  /** The entries that have at least one item, in their original order. */
  function NonEmptyCategories(m: MatchResult): (r: seq<Category>)
  {
    if |m| == 0 then []
    else if |m[0].items| == 0 then NonEmptyCategories(m[1..])
    else [m[0]] + NonEmptyCategories(m[1..])
  }

  /** Filtering distributes over concatenation, so it keeps the order and the repeats of the kept lines. */
  lemma {:induction false} DropEmptyAppend(a: seq<string>, b: seq<string>)
    ensures DropEmpty(a + b) == DropEmpty(a) + DropEmpty(b)
  {
    if |a| == 0 {
      assert a + b == b;
    } else {
      assert (a + b)[1..] == a[1..] + b;
      DropEmptyAppend(a[1..], b);
    }
  }

  // ----- candidate extraction -----

  /**
   * There are six lists, one per fixed title in order; each holds the projected meals of the first
   * section carrying exactly that title, and is empty when no section carries it.
   */
  lemma CandidatesFollowFirstSection(menu: MensaMenu, c: int)
    requires 0 <= c < |CATEGORY_TITLES|
    ensures |Candidates(menu)| == |CATEGORY_TITLES|
    ensures Candidates(menu)[c].title == CATEGORY_TITLES[c]
    ensures (forall j :: 0 <= j < |menu.menu| ==> menu.menu[j].title != CATEGORY_TITLES[c]) ==> Candidates(menu)[c].items == []
    ensures forall j :: 0 <= j < |menu.menu| && menu.menu[j].title == CATEGORY_TITLES[c]
                        && (forall k :: 0 <= k < j ==> menu.menu[k].title != CATEGORY_TITLES[c])
                     ==> Candidates(menu)[c].items == Project(menu.menu[j].meals)
  {
    assert Candidates(menu)[c] == Offered(menu, CATEGORY_TITLES[c]);
  }

  /** Every candidate for a title is a real dish of a section with that title, with the dish's first price. */
  lemma OfferedDrawnFromMenu(menu: MensaMenu, title: string, n: int)
    requires 0 <= n < |Offered(menu, title).items|
    ensures exists j, k :: 0 <= j < |menu.menu| && 0 <= k < |menu.menu[j].meals| && menu.menu[j].title == title
                           && Offered(menu, title).items[n] == MenuItem(menu.menu[j].meals[k].name, FirstPrice(menu.menu[j].meals[k].prices))
  {
    var found := Find(menu.menu, (sec: MenuSection) => sec.title == title);
    assert found.Some?;
    var j :| 0 <= j < |menu.menu| && menu.menu[j] == found.value;
    assert Offered(menu, title).items == Project(menu.menu[j].meals);
    assert menu.menu[j].title == title;
    assert Offered(menu, title).items[n] == MenuItem(menu.menu[j].meals[n].name, FirstPrice(menu.menu[j].meals[n].prices));
  }

  /** Every candidate is a real dish of the fetched menu, under its own title, with that dish's first price. */
  lemma CandidatesDrawnFromMenu(menu: MensaMenu, c: int, n: int)
    requires 0 <= c < |Candidates(menu)| && 0 <= n < |Candidates(menu)[c].items|
    ensures exists j, k :: 0 <= j < |menu.menu| && 0 <= k < |menu.menu[j].meals|
                           && menu.menu[j].title == Candidates(menu)[c].title
                           && Candidates(menu)[c].items[n] == MenuItem(menu.menu[j].meals[k].name, FirstPrice(menu.menu[j].meals[k].prices))
  {
    var title := Candidates(menu)[c].title;
    assert Candidates(menu)[c] == Offered(menu, title);
    OfferedDrawnFromMenu(menu, title, n);
  }

  // ----- summary -----

  /** Filtering after rendering equals rendering only the entries that have items. */
  lemma {:induction false} SummaryLinesAreNonEmptyEntries(m: MatchResult)
    ensures DropEmpty(RenderAll(m)) == RenderAll(NonEmptyCategories(m))
    ensures forall i :: 0 <= i < |DropEmpty(RenderAll(m))| ==> DropEmpty(RenderAll(m))[i] != ""
  {
    if |m| > 0 {
      SummaryLinesAreNonEmptyEntries(m[1..]);
      assert RenderAll(m) == [RenderCategory(m[0])] + RenderAll(m[1..]);
      assert RenderAll(m)[1..] == RenderAll(m[1..]);
      if |m[0].items| > 0 {
        assert RenderCategory(m[0])[..3] == "<b>";
        assert RenderAll([m[0]] + NonEmptyCategories(m[1..])) == [RenderCategory(m[0])] + RenderAll(NonEmptyCategories(m[1..]));
      }
    }
  }

  /** The summary is empty exactly when no entry has an item; otherwise no line is blank. */
  lemma SummaryEmptyIff(m: MatchResult)
    ensures Summary(m) == "" <==> forall i :: 0 <= i < |m| ==> |m[i].items| == 0
  {
    SummaryLinesAreNonEmptyEntries(m);
    NonEmptyCategoriesEmptyIff(m);
  }

  lemma {:induction false} NonEmptyCategoriesEmptyIff(m: MatchResult)
    ensures |NonEmptyCategories(m)| == 0 <==> forall i :: 0 <= i < |m| ==> |m[i].items| == 0
  {
    if |m| > 0 {
      NonEmptyCategoriesEmptyIff(m[1..]);
      assert forall i :: 1 <= i < |m| ==> m[i] == m[1..][i - 1];
    }
  }

  // ----- total -----

  lemma {:induction false} SumPricesAppend(a: seq<MatchedItem>, b: seq<MatchedItem>)
    ensures SumPrices(a + b) == SumPrices(a) + SumPrices(b)
  {
    if |a| > 0 {
      assert (a + b)[1..] == a[1..] + b;
      SumPricesAppend(a[1..], b);
    } else {
      assert a + b == b;
    }
  }

  lemma {:induction false} AllItemsEmpty(m: MatchResult)
    requires forall i :: 0 <= i < |m| ==> |m[i].items| == 0
    ensures AllItems(m) == []
  {
    if |m| > 0 {
      assert forall i :: 1 <= i < |m| ==> m[i] == m[1..][i - 1];
      AllItemsEmpty(m[1..]);
    }
  }

  /** No match, or only empty entries, costs nothing. */
  lemma TotalOfEmptyMatch(m: MatchResult)
    requires forall i :: 0 <= i < |m| ==> |m[i].items| == 0
    ensures Total(m) == 0
  {
    AllItemsEmpty(m);
  }

  lemma {:induction false} SumPricesNonNegative(items: seq<MatchedItem>)
    requires forall i :: 0 <= i < |items| ==> PriceOrZero(items[i].price) >= 0
    ensures SumPrices(items) >= 0
  {
    if |items| > 0 {
      assert forall i :: 1 <= i < |items| ==> items[i] == items[1..][i - 1];
      SumPricesNonNegative(items[1..]);
    }
  }

  lemma {:induction false} AllItemsMembers(m: MatchResult, x: MatchedItem)
    requires x in AllItems(m)
    ensures exists i :: 0 <= i < |m| && x in m[i].items
  {
    if |m| > 0 && x !in m[0].items {
      AllItemsMembers(m[1..], x);
      var i :| 0 <= i < |m[1..]| && x in m[1..][i].items;
      assert x in m[i + 1].items;
    }
  }

  /** With no negative price among the matched items the total is never negative. */
  lemma TotalNonNegative(m: MatchResult)
    requires forall i, k :: 0 <= i < |m| && 0 <= k < |m[i].items| && m[i].items[k].price.Some? ==> m[i].items[k].price.value >= 0
    ensures Total(m) >= 0
  {
    forall n | 0 <= n < |AllItems(m)| ensures PriceOrZero(AllItems(m)[n].price) >= 0 {
      AllItemsMembers(m, AllItems(m)[n]);
    }
    SumPricesNonNegative(AllItems(m));
  }
}
