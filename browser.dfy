/** The browser boundary the three page scripts share: the local key-value
    store, the product entries written to it, and the navigation requests a
    handler can issue. The store's serialisation (JSON) is abstracted into
    typed values. */
module Browser {

  datatype Option<+T> = None | Some(value: T)

  /** One product as the catalog page reads it from a card and the invoice
      page reads it back: a name and a price (exact, not IEEE). */
  datatype Entry = Entry(name: string, price: real)

  /** What a key of the store holds: a plain string (the remembered user
      name) or a list of product entries (the checkout payload). */
  datatype StoredValue = Text(text: string) | Products(entries: seq<Entry>)

  /** The navigation request a handler issues, if any. */
  datatype Redirect = Stay | ToServices | ToInvoice | ToError

  const RememberedUsernameKey: string := "rememberedUsername"
  const SelectedProductsKey: string := "selectedProducts"

  /** The browser's local storage: one map from keys to values, shared by
      every page of the site. */
  class LocalStorage {
    var items: map<string, StoredValue>

    constructor (initial: map<string, StoredValue>)
      ensures items == initial
    {
      items := initial;
    }

    function GetItem(key: string): (r: Option<StoredValue>)
      reads this
      ensures r.Some? <==> key in items
      ensures r.Some? ==> r.value == items[key]
    {
      if key in items then Some(items[key]) else None
    }

    method SetItem(key: string, v: StoredValue)
      modifies this
      ensures items == old(items)[key := v]
    {
      items := items[key := v];
    }

    method RemoveItem(key: string)
      modifies this
      ensures items == old(items) - {key}
    {
      items := items - {key};
    }
  }
}
