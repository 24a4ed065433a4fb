/** The fields of a fetched menu that the bot reads. */
module Menus {
  import opened Wrappers

  /** A dish; each price tier is in cents, `None` where the menu gives no price. */
  datatype Meal = Meal(name: string, prices: seq<Option<int>>)

  datatype MenuSection = MenuSection(title: string, meals: seq<Meal>)

  datatype MensaMenu = MensaMenu(menu: seq<MenuSection>)
}
