/** The kiosk session of the two single-file apps (the web app and the React Native app):
    four mutually exclusive screens, the selected category and an ordered cart in which
    every tap on an item appends a new line. */
module Kiosk {
  import opened Wrappers
  import opened Seqs

  /** The values the handlers store in `currentScreen`. */
  const WelcomeScreen: string := "welcome"
  const MenuScreen: string := "menu"
  const ItemsScreen: string := "items"
  const CartScreen: string := "cart"

  /** The screen components `renderScreen` can draw. */
  datatype View = WelcomeView | MenuView | ItemsView | CartView

  /** The screen name under which each view is stored. */
  function ScreenName(v: View): (name: string)
    ensures name in {WelcomeScreen, MenuScreen, ItemsScreen, CartScreen}
  {
    match v
    case WelcomeView => WelcomeScreen
    case MenuView => MenuScreen
    case ItemsView => ItemsScreen
    case CartView => CartScreen
  }

  /** `renderScreen`: the view drawn for a stored screen name; any other name falls
      through the `switch` to the welcome screen. */
  function RenderScreen(screen: string): (v: View)
    ensures screen in {WelcomeScreen, MenuScreen, ItemsScreen, CartScreen} ==> ScreenName(v) == screen
    ensures screen !in {WelcomeScreen, MenuScreen, ItemsScreen, CartScreen} ==> v == WelcomeView
  {
    if screen == MenuScreen then MenuView
    else if screen == ItemsScreen then ItemsView
    else if screen == CartScreen then CartView
    else WelcomeView
  }

  /** Storing a view's name and rendering it gives back that view. */
  lemma RenderScreenName(v: View)
    ensures RenderScreen(ScreenName(v)) == v
  {
  }

  /** An entry of the static catalog. */
  datatype MenuItem = MenuItem(id: int, name: string, price: real, image: string)

  /** A catalog category with its items (the icon and emoji are display only). */
  datatype Category = Category(id: int, name: string, items: seq<MenuItem>)

  /** A cart line: a copy of the item's fields plus a quantity (`{ ...item, quantity: 1 }`). */
  datatype CartItem = CartItem(id: int, name: string, price: real, image: string, quantity: int)

  /** The line `addToCart` creates for an item. */
  function NewLine(item: MenuItem): (line: CartItem)
    ensures line.quantity == 1
    ensures line.id == item.id && line.name == item.name && line.price == item.price
    ensures line.image == item.image
  {
    CartItem(item.id, item.name, item.price, item.image, 1)
  }

  function LineAmount(line: CartItem): real
  {
    line.price * line.quantity as real
  }

  function LinePrice(line: CartItem): real
  {
    line.price
  }

  function ItemPrice(item: MenuItem): real
  {
    item.price
  }

  /** `getTotalPrice` before `toFixed(2)`: the exact sum of price times quantity. */
  function TotalPrice(cart: seq<CartItem>): real
  {
    Sum(cart, LineAmount)
  }

  /** The cart after `addToCart` has been tapped for each of `items` in turn. */
  function AddAll(cart: seq<CartItem>, items: seq<MenuItem>): seq<CartItem>
    decreases |items|
  {
    if |items| == 0 then cart else AddAll(cart + [NewLine(items[0])], items[1..])
  }

  /** A run of additions keeps the lines already there, appends exactly one line per
      tap in tap order, and raises the total by the sum of the added prices. */
  lemma {:induction false} AddAllEffect(cart: seq<CartItem>, items: seq<MenuItem>)
    ensures |AddAll(cart, items)| == |cart| + |items|
    ensures AddAll(cart, items)[..|cart|] == cart
    ensures forall k :: 0 <= k < |items| ==> AddAll(cart, items)[|cart| + k] == NewLine(items[k])
    ensures TotalPrice(AddAll(cart, items)) == TotalPrice(cart) + Sum(items, ItemPrice)
    decreases |items|
  {
    if |items| > 0 {
      var next := cart + [NewLine(items[0])];
      AddAllEffect(next, items[1..]);
      SumAppend(cart, NewLine(items[0]), LineAmount);
      assert AddAll(cart, items)[..|cart|] == AddAll(next, items[1..])[..|next|][..|cart|];
      forall k | 0 <= k < |items|
        ensures AddAll(cart, items)[|cart| + k] == NewLine(items[k])
      {
        if k > 0 {
          assert items[1..][k - 1] == items[k];
        }
      }
    }
  }

  /** In a cart whose lines all have quantity 1 the total is the sum of the prices. */
  lemma {:induction false} UnitLinesTotal(cart: seq<CartItem>)
    requires forall i :: 0 <= i < |cart| ==> cart[i].quantity == 1
    ensures TotalPrice(cart) == Sum(cart, LinePrice)
    decreases |cart|
  {
    if |cart| > 0 {
      UnitLinesTotal(cart[1..]);
    }
  }

  /** The session state both apps keep in `useState` hooks. */
  class Session {
    var currentScreen: string
    var selectedCategory: Option<Category>
    var cart: seq<CartItem>

    /** Holds in every reachable state: the screen is one of the four names, the item
        list is only shown for a selected category, and no line was ever edited. */
    ghost predicate Valid()
      reads this
    {
      && currentScreen in {WelcomeScreen, MenuScreen, ItemsScreen, CartScreen}
      && (currentScreen == ItemsScreen ==> selectedCategory.Some?)
      && forall i :: 0 <= i < |cart| ==> cart[i].quantity == 1
    }

    /** The initial hook values. */
    constructor ()
      ensures Valid()
      ensures currentScreen == WelcomeScreen && selectedCategory == None && cart == []
    {
      currentScreen := WelcomeScreen;
      selectedCategory := None;
      cart := [];
    }

    /** The view currently drawn. */
    function View(): View
      reads this
    {
      RenderScreen(currentScreen)
    }

    /** "Start Ordering" on the welcome screen. */
    method Start()
      requires Valid()
      modifies this
      ensures Valid()
      ensures currentScreen == MenuScreen
      ensures selectedCategory == old(selectedCategory) && cart == old(cart)
    {
      currentScreen := MenuScreen;
    }

    /** The cart button in the header of the category and item screens. */
    method ViewCart()
      requires Valid()
      modifies this
      ensures Valid()
      ensures currentScreen == CartScreen
      ensures selectedCategory == old(selectedCategory) && cart == old(cart)
    {
      currentScreen := CartScreen;
    }

    /** "Back to Welcome" on the category screen. */
    method BackToWelcome()
      requires Valid()
      modifies this
      ensures Valid()
      ensures currentScreen == WelcomeScreen
      ensures selectedCategory == old(selectedCategory) && cart == old(cart)
    {
      currentScreen := WelcomeScreen;
    }

    /** Tapping a category card. */
    method SelectCategory(category: Category)
      requires Valid()
      modifies this
      ensures Valid()
      ensures currentScreen == ItemsScreen && selectedCategory == Some(category)
      ensures cart == old(cart)
    {
      selectedCategory := Some(category);
      currentScreen := ItemsScreen;
    }

    /** "Back to Menu" on the item screen: the category stays selected. */
    method BackToMenu()
      requires Valid()
      modifies this
      ensures Valid()
      ensures currentScreen == MenuScreen
      ensures selectedCategory == old(selectedCategory) && cart == old(cart)
    {
      currentScreen := MenuScreen;
    }

    /** "Add to Cart": appends a fresh line with quantity 1, even when a line for the
        same item is already in the cart. */
    method AddToCart(item: MenuItem)
      requires Valid()
      modifies this
      ensures Valid()
      ensures cart == old(cart) + [NewLine(item)]
      ensures TotalPrice(cart) == old(TotalPrice(cart)) + item.price
      ensures currentScreen == old(currentScreen) && selectedCategory == old(selectedCategory)
    {
      SumAppend(cart, NewLine(item), LineAmount);
      cart := cart + [NewLine(item)];
    }

    /** "Continue Shopping" on the cart screen: back to the item list when a category
        is selected, otherwise to the category list. */
    method ContinueShopping()
      requires Valid()
      modifies this
      ensures Valid()
      ensures currentScreen == (if old(selectedCategory).Some? then ItemsScreen else MenuScreen)
      ensures selectedCategory == old(selectedCategory) && cart == old(cart)
    {
      if selectedCategory.Some? {
        currentScreen := ItemsScreen;
      } else {
        currentScreen := MenuScreen;
      }
    }

    /** "Place Order": disabled on an empty cart; otherwise empties the cart and returns
        to the welcome screen, leaving the selected category as it was. */
    method PlaceOrder() returns (placed: bool)
      requires Valid()
      modifies this
      ensures Valid()
      ensures placed <==> |old(cart)| > 0
      ensures placed ==> currentScreen == WelcomeScreen && cart == []
      ensures !placed ==> currentScreen == old(currentScreen) && cart == old(cart)
      ensures selectedCategory == old(selectedCategory)
    {
      placed := |cart| > 0;
      if placed {
        cart := [];
        currentScreen := WelcomeScreen;
      }
    }

    /** The inactivity timer of the web app firing: any screen other than welcome is
        reset to the initial state; on the welcome screen nothing changes. */
    method InactivityTimeout()
      requires Valid()
      modifies this
      ensures Valid()
      ensures old(currentScreen) != WelcomeScreen ==>
        currentScreen == WelcomeScreen && cart == [] && selectedCategory == None
      ensures old(currentScreen) == WelcomeScreen ==>
        currentScreen == old(currentScreen) && cart == old(cart) && selectedCategory == old(selectedCategory)
    {
      if currentScreen != WelcomeScreen {
        currentScreen := WelcomeScreen;
        cart := [];
        selectedCategory := None;
      }
    }
  }
}
