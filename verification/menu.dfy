/** The static menu catalog of data/menu-items.ts. */
module Menu {
  import opened Wrappers

  datatype AddOn = AddOn(name: string, price: int)

  datatype Category = Mains | Sides | Desserts | Drinks

  datatype MenuItem = MenuItem(
    id: string,
    name: string,
    description: string,
    price: int,
    image: string,
    category: Category,
    isCustomizable: bool,
    addOns: Option<seq<AddOn>>)

  /** The catalog, in the order it is declared. Prices are whole currency units. */
  const MenuItems: seq<MenuItem> := [
    MenuItem("fool", "Fool Medames",
      "Traditional Egyptian fava beans served with tahini, olive oil, and fresh vegetables",
      270, "/images/fool.jpg", Mains, true,
      Some([AddOn("Extra Tahini", 45), AddOn("Boiled Egg", 60), AddOn("Extra Vegetables", 30)])),
    MenuItem("koshary", "Koshary",
      "Egypt's national dish with rice, lentils, pasta, and spicy tomato sauce",
      390, "/images/kosharii.jpg", Mains, true,
      Some([AddOn("Extra Sauce", 30), AddOn("Extra Fried Onions", 45), AddOn("Spicy Level Up", 15)])),
    MenuItem("mashed-potato", "Creamy Mashed Potato",
      "Smooth and creamy mashed potatoes with butter and herbs",
      210, "/images/mpotato.webp", Sides, true,
      Some([AddOn("Extra Butter", 23), AddOn("Cheese Topping", 60), AddOn("Bacon Bits", 75)])),
    MenuItem("green-salad", "Fresh Green Salad",
      "Mixed greens with cucumber, tomatoes, and house dressing",
      240, "/images/green-salad.jpg", Sides, true,
      Some([AddOn("Grilled Chicken", 120), AddOn("Feta Cheese", 75), AddOn("Avocado", 90),
            AddOn("Extra Dressing", 15)])),
    MenuItem("french-fries", "Crispy French Fries",
      "Golden crispy fries seasoned with sea salt",
      150, "/images/fries.webp", Sides, true,
      Some([AddOn("Cheese Sauce", 45), AddOn("Garlic Aioli", 30), AddOn("Truffle Oil", 60)])),
    MenuItem("orange-juice", "Fresh Orange Juice",
      "Freshly squeezed orange juice, no added sugar",
      120, "/images/orange-juice.jpg", Drinks, false,
      None),
    MenuItem("lemon-tea", "Lemon Iced Tea",
      "Refreshing iced tea with fresh lemon and mint",
      90, "/images/lemon-tea.webp", Drinks, true,
      Some([AddOn("Extra Lemon", 15), AddOn("Extra Mint", 15), AddOn("Honey", 23)])),
    MenuItem("rice-pudding", "Rice Pudding",
      "Creamy rice pudding with cinnamon and vanilla",
      180, "/images/rice-pudding.webp", Desserts, true,
      Some([AddOn("Extra Cinnamon", 8), AddOn("Raisins", 30), AddOn("Nuts", 45)]))
  ]

  /** Every price on the item and on each of its add-ons is a positive whole number. */
  predicate PricesPositive(item: MenuItem)
  {
    && item.price > 0
    && (item.addOns.Some? ==> forall k :: 0 <= k < |item.addOns.value| ==> item.addOns.value[k].price > 0)
  }

  /** Add-ons are offered exactly on customizable items, and never as an empty list. */
  predicate AddOnsMatchFlag(item: MenuItem)
  {
    if item.isCustomizable then item.addOns.Some? && |item.addOns.value| > 0
    else item.addOns.None?
  }

  lemma MenuIdsDistinct()
    ensures forall i, j :: 0 <= i < j < |MenuItems| ==> MenuItems[i].id != MenuItems[j].id
  {
  }

  lemma MenuPricesPositive()
    ensures forall i :: 0 <= i < |MenuItems| ==> PricesPositive(MenuItems[i])
  {
  }

  lemma MenuAddOnsMatchFlag()
    ensures forall i :: 0 <= i < |MenuItems| ==> AddOnsMatchFlag(MenuItems[i])
    ensures forall i :: 0 <= i < |MenuItems| && !MenuItems[i].isCustomizable ==> MenuItems[i].id == "orange-juice"
  {
  }
}
