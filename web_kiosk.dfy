/** The web app's catalog and a walk through one ordering session. */
module WebKiosk {
  import opened Wrappers
  import opened Kiosk

  const Mains: Category := Category(1, "Mains", [
    MenuItem(1, "Signature Burger", 12.90, "\U{1F354}"),
    MenuItem(2, "Grilled Chicken", 14.90, "\U{1F357}"),
    MenuItem(3, "Fish & Chips", 15.90, "\U{1F41F}"),
    MenuItem(4, "Beef Steak", 22.90, "\U{1F969}")])

  const Sides: Category := Category(2, "Sides", [
    MenuItem(5, "Crispy Fries", 4.90, "\U{1F35F}"),
    MenuItem(6, "Onion Rings", 5.90, "\U{1F9C5}"),
    MenuItem(7, "Garden Salad", 6.90, "\U{1F957}"),
    MenuItem(8, "Garlic Bread", 3.90, "\U{1F956}")])

  const Beverages: Category := Category(3, "Beverages", [
    MenuItem(9, "Fresh Juice", 4.50, "\U{1F9C3}"),
    MenuItem(10, "Iced Coffee", 5.90, "\U{2615}"),
    MenuItem(11, "Soft Drinks", 3.90, "\U{1F964}"),
    MenuItem(12, "Smoothie", 6.90, "\U{1F964}")])

  const Desserts: Category := Category(4, "Desserts", [
    MenuItem(13, "Chocolate Cake", 7.90, "\U{1F370}"),
    MenuItem(14, "Ice Cream", 4.90, "\U{1F366}"),
    MenuItem(15, "Fresh Cookies", 3.90, "\U{1F36A}"),
    MenuItem(16, "Fruit Tart", 6.90, "\U{1F967}")])

  /** `menuCategories`, in display order. */
  const MenuCategories: seq<Category> := [Mains, Sides, Beverages, Desserts]

  /** Start, pick Mains, add the Signature Burger twice and open the cart: two separate
      lines and a total of 25.80. Placing the order then returns to the welcome screen
      with an empty cart but Mains still selected, and the inactivity timer firing on
      the welcome screen changes nothing. */
  method MainsScenario() returns (viewed: View, lines: nat, total: real, placed: bool,
                                   after: View, afterLines: nat, afterCategory: Option<Category>)
    ensures viewed == CartView && lines == 2 && total == 25.80
    ensures placed && after == WelcomeView && afterLines == 0 && afterCategory == Some(Mains)
  {
    var s := new Session();
    s.Start();
    assert s.View() == MenuView;
    s.SelectCategory(MenuCategories[0]);
    assert s.View() == ItemsView && s.selectedCategory.value.name == "Mains";
    var burger := s.selectedCategory.value.items[0];
    s.AddToCart(burger);
    s.AddToCart(burger);
    s.ViewCart();
    viewed, lines, total := s.View(), |s.cart|, TotalPrice(s.cart);
    placed := s.PlaceOrder();
    s.InactivityTimeout();
    after, afterLines, afterCategory := s.View(), |s.cart|, s.selectedCategory;
  }

  /** The inactivity timer firing on any screen but welcome discards the cart and the
      category; placing an order on an empty cart is refused and leaves the screen. */
  method TimeoutScenario() returns (refused: bool, stayed: View, after: View, afterLines: nat,
                                     afterCategory: Option<Category>)
    ensures refused && stayed == CartView
    ensures after == WelcomeView && afterLines == 0 && afterCategory == None
  {
    var s := new Session();
    s.Start();
    s.ViewCart();
    var placed := s.PlaceOrder();
    refused, stayed := !placed, s.View();
    s.ContinueShopping();
    assert s.View() == MenuView;
    s.SelectCategory(Desserts);
    s.AddToCart(Desserts.items[1]);
    s.InactivityTimeout();
    after, afterLines, afterCategory := s.View(), |s.cart|, s.selectedCategory;
  }
}
