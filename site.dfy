/** The three pages talk only through the shared store. These client
    methods run the pages' handlers in sequence on one store and state what
    reaches the next page. */
module Site {
  import opened Browser
  import Services
  import Login
  import Invoice

  /** Selecting card 1 then card 0 and checking out hands the invoice page
      exactly those two products in that order, totalled at 105% of their
      prices. Purchase then empties the next invoice and leaves the
      remembered user name alone. */
  method CheckoutThenPurchase(cards: seq<Entry>)
    returns (firstLoad: seq<Entry>, total: real, secondLoad: seq<Entry>, remembered: Option<StoredValue>)
    requires |cards| >= 2
    ensures firstLoad == [cards[1], cards[0]]
    ensures total == (cards[1].price + cards[0].price) * 1.05
    ensures secondLoad == []
    ensures remembered == Some(Text(Login.ValidUsername))
  {
    var store := new LocalStorage(map[RememberedUsernameKey := Text(Login.ValidUsername)]);
    var services := new Services.ServicesPage(cards, store);
    services.ToggleSelect(1);
    services.ToggleSelect(0);
    assert services.selected == [1, 0];
    var outcome, redirect := services.Checkout(false);
    assert Services.Payload(cards, [1, 0]) == [cards[1], cards[0]];

    var invoice := new Invoice.InvoicePage(store);
    firstLoad := invoice.items;
    assert Invoice.Sum(firstLoad) == cards[1].price + Invoice.Sum(firstLoad[1..]);
    assert Invoice.Sum(firstLoad[1..]) == cards[0].price + Invoice.Sum(firstLoad[2..]);
    total := invoice.charges.total;

    var receipt, next := invoice.HandlePurchase();
    var reloaded := new Invoice.InvoicePage(store);
    secondLoad := reloaded.items;
    remembered := store.GetItem(RememberedUsernameKey);
  }

  /** Cancelling keeps the payload: the next visit to the invoice page shows
      the same products. */
  method CancelKeepsPayload(cards: seq<Entry>) returns (firstLoad: seq<Entry>, secondLoad: seq<Entry>)
    requires |cards| >= 1
    ensures firstLoad == secondLoad == [cards[0]]
  {
    var store := new LocalStorage(map[]);
    var services := new Services.ServicesPage(cards, store);
    services.ToggleSelect(0);
    var outcome, redirect := services.Checkout(false);
    var invoice := new Invoice.InvoicePage(store);
    firstLoad := invoice.items;
    var back := invoice.HandleCancelExit(true);
    var reloaded := new Invoice.InvoicePage(store);
    secondLoad := reloaded.items;
  }

  /** Starting from a store with no payload, a failed store write at
      checkout leaves nothing for the invoice page, which then shows an
      empty order with zero charges. */
  method FailedCheckoutLeavesEmptyInvoice(cards: seq<Entry>) returns (items: seq<Entry>, charges: Invoice.Charges, redirect: Redirect)
    requires |cards| >= 1
    ensures redirect == Stay
    ensures items == [] && charges == Invoice.Charges(0.0, 0.0, 0.0, 0.0)
  {
    var store := new LocalStorage(map[]);
    var services := new Services.ServicesPage(cards, store);
    services.ToggleSelect(0);
    var outcome;
    outcome, redirect := services.Checkout(true);
    var invoice := new Invoice.InvoicePage(store);
    items := invoice.items;
    charges := invoice.charges;
  }

  /** Logging in with "remember me" makes the next load of the login page
      fill in the user name and tick the box; logging in without it makes
      the next load leave the form as it was. */
  method RememberMeAcrossReloads(user: string, password: string)
    returns (prefilled: string, ticked: bool, afterForget: string)
    requires Login.Trim(user) == Login.ValidUsername && Login.Trim(password) == Login.ValidPassword
    ensures prefilled == Login.ValidUsername && ticked
    ensures afterForget == ""
  {
    var store := new LocalStorage(map[]);
    var page := new Login.LoginPage(store, "", false);
    var o1, r1 := page.HandleLogin(user, password, true);
    var reload := new Login.LoginPage(store, "", false);
    prefilled, ticked := reload.usernameField, reload.rememberMeChecked;
    var o2, r2 := reload.HandleLogin(user, password, false);
    var again := new Login.LoginPage(store, "", false);
    afterForget := again.usernameField;
  }

  /** A failed store write at checkout does not touch the store: a payload
      left by an earlier checkout (one the user cancelled out of, say)
      survives, and the next invoice page shows that old order. */
  method FailedCheckoutKeepsOldPayload(cards: seq<Entry>, earlier: seq<Entry>)
    returns (items: seq<Entry>, redirect: Redirect)
    requires |cards| >= 1
    ensures redirect == Stay
    ensures items == earlier
  {
    var store := new LocalStorage(map[SelectedProductsKey := Products(earlier)]);
    var services := new Services.ServicesPage(cards, store);
    services.ToggleSelect(0);
    var outcome;
    outcome, redirect := services.Checkout(true);
    var invoice := new Invoice.InvoicePage(store);
    items := invoice.items;
  }
}
