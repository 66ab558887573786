/** The React Native app's catalog and a walk through one ordering session. This app
    has the same handlers as the web app and no inactivity timer. */
module NativeKiosk {
  import opened Wrappers
  import opened Kiosk

  const Burgers: Category := Category(1, "Burgers", [
    MenuItem(1, "Classic Burger", 8.99, "\U{1F354}"),
    MenuItem(2, "Cheese Burger", 9.99, "\U{1F354}"),
    MenuItem(3, "Deluxe Burger", 12.99, "\U{1F354}")])

  const Fries: Category := Category(2, "Fries", [
    MenuItem(4, "Regular Fries", 3.99, "\U{1F35F}"),
    MenuItem(5, "Large Fries", 4.99, "\U{1F35F}"),
    MenuItem(6, "Loaded Fries", 6.99, "\U{1F35F}")])

  const Drinks: Category := Category(3, "Drinks", [
    MenuItem(7, "Soft Drink", 2.99, "\U{1F964}"),
    MenuItem(8, "Coffee", 3.49, "\U{2615}"),
    MenuItem(9, "Milkshake", 4.99, "\U{1F964}")])

  const Desserts: Category := Category(4, "Desserts", [
    MenuItem(10, "Ice Cream", 3.99, "\U{1F366}"),
    MenuItem(11, "Apple Pie", 4.49, "\U{1F967}"),
    MenuItem(12, "Cookies", 2.99, "\U{1F36A}")])

  /** `menuCategories`, in display order. */
  const MenuCategories: seq<Category> := [Burgers, Fries, Drinks, Desserts]

  /** Start, pick Burgers, add a Classic and a Cheese Burger, open the cart (18.98) and
      place the order: the cart is emptied, the welcome screen returns, and Burgers
      stays selected, so that "Continue Shopping" would lead straight to its items. */
  method BurgerScenario() returns (lines: nat, total: real, placed: bool, after: View,
                                    afterLines: nat, afterCategory: Option<Category>)
    ensures lines == 2 && total == 18.98
    ensures placed && after == WelcomeView && afterLines == 0 && afterCategory == Some(Burgers)
  {
    var s := new Session();
    s.Start();
    s.SelectCategory(MenuCategories[0]);
    s.AddToCart(Burgers.items[0]);
    s.AddToCart(Burgers.items[1]);
    s.ViewCart();
    assert s.View() == CartView;
    lines, total := |s.cart|, TotalPrice(s.cart);
    placed := s.PlaceOrder();
    after, afterLines, afterCategory := s.View(), |s.cart|, s.selectedCategory;
  }

  /** From the cart with no category selected, "Continue Shopping" leads to the category
      list, and "Back to Welcome" from there to the welcome screen. */
  method BackScenario() returns (shopping: View, back: View)
    ensures shopping == MenuView && back == WelcomeView
  {
    var s := new Session();
    s.Start();
    s.ViewCart();
    s.ContinueShopping();
    shopping := s.View();
    s.BackToWelcome();
    back := s.View();
  }
}
