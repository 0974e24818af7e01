/** The mobile navigation menu: one link per item, closing the menu when followed. */
module MobileMenu {
  import Text

  /** The items, in display order. */
  const MenuItems: seq<string> := ["Marketplace", "Sell Energy", "Profile", "Carbon Credits", "Transactions", "Help"]

  /** `` `/${item.toLowerCase().replace(' ', '-')}` ``. */
  function LinkPath(item: string): (path: string)
    ensures |path| == |item| + 1
  {
    "/" + Text.ReplaceFirst(Text.Lower(item), ' ', '-')
  }

  /**
   * The path is a slash and then the lower-cased item, with its first space,
   * if any, turned into a dash and every later space kept.
   */
  lemma LinkPathSpec(item: string)
    ensures var low := Text.Lower(item);
      && LinkPath(item)[0] == '/'
      && (' ' !in low ==> LinkPath(item)[1..] == low)
      && (' ' in low ==> LinkPath(item)[1..] == low[..Text.IndexOf(low, ' ')] + "-" + low[Text.IndexOf(low, ' ') + 1..])
  {
    var low := Text.Lower(item);
    Text.ReplaceFirstSpec(low, ' ', '-');
    assert LinkPath(item)[1..] == Text.ReplaceFirst(low, ' ', '-');
  }

  /** Only the first space becomes a dash. */
  lemma OnlyFirstSpaceReplaced()
    ensures LinkPath("a b c") == "/a-b c"
  {
  }

  /** The routes the six fixed items lead to, in the same order. */
  const Routes: seq<string> := ["/marketplace", "/sell-energy", "/profile", "/carbon-credits", "/transactions", "/help"]

  /** Each fixed item leads to its route. */
  lemma MenuRoutes(i: nat)
    requires i < |MenuItems|
    ensures LinkPath(MenuItems[i]) == Routes[i]
  {
    if i == 0 {
      MarketplaceRoute();
    } else if i == 1 {
      SellEnergyRoute();
    } else if i == 2 {
      ProfileRoute();
    } else if i == 3 {
      CarbonCreditsRoute();
    } else if i == 4 {
      TransactionsRoute();
    } else {
      HelpRoute();
    }
  }

  lemma MarketplaceRoute()
    ensures LinkPath(MenuItems[0]) == Routes[0]
  {
    var low := Text.Lower(MenuItems[0]);
    assert low == "marketplace";
    Text.ReplaceFromAbsent(low, ' ', '-', 0);
  }

  lemma SellEnergyRoute()
    ensures LinkPath(MenuItems[1]) == Routes[1]
  {
    var low := Text.Lower(MenuItems[1]);
    assert low == "sell energy";
    Text.ReplaceFromFirst(low, ' ', '-', 0, 4);
  }

  lemma ProfileRoute()
    ensures LinkPath(MenuItems[2]) == Routes[2]
  {
    var low := Text.Lower(MenuItems[2]);
    assert low == "profile";
    Text.ReplaceFromAbsent(low, ' ', '-', 0);
  }

  lemma CarbonCreditsRoute()
    ensures LinkPath(MenuItems[3]) == Routes[3]
  {
    var low := Text.Lower(MenuItems[3]);
    assert low == "carbon credits";
    Text.ReplaceFromFirst(low, ' ', '-', 0, 6);
  }

  lemma TransactionsRoute()
    ensures LinkPath(MenuItems[4]) == Routes[4]
  {
    var low := Text.Lower(MenuItems[4]);
    assert low == "transactions";
    Text.ReplaceFromAbsent(low, ' ', '-', 0);
  }

  lemma HelpRoute()
    ensures LinkPath(MenuItems[5]) == Routes[5]
  {
    var low := Text.Lower(MenuItems[5]);
    assert low == "help";
    Text.ReplaceFromAbsent(low, ' ', '-', 0);
  }

  /** The open/closed flag the menu receives from the navigation bar. */
  class Menu {
    var isOpen: bool

    constructor(open: bool)
      ensures isOpen == open
    {
      isOpen := open;
    }

    /** Following an item's link: the menu closes, whatever the item. */
    method ClickItem(item: string) returns (path: string)
      modifies this
      ensures !isOpen
      ensures path == LinkPath(item)
    {
      path := LinkPath(item);
      isOpen := false;
    }
  }
}
