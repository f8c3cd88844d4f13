/** The WooCommerce records the swap action reads and writes, held in memory:
    products as the product lookup returns them, order items, and a
    subscription whose items and notes are updated in place. */
module WooData {

  datatype Option<T> = None | Some(value: T)

  /** A product as the product lookup returns it. A variation is a child of
      a variable product: `parentId` is that base product's id. */
  datatype Product = Product(id: nat, name: string, isVariation: bool, parentId: nat)

  /** The order item types WooCommerce keeps on a subscription. */
  datatype ItemKind = LineItem | Shipping | Fee | Tax | Coupon

  /** Quantity and money of an order item. Amounts stay in their stored
      decimal text: nothing here computes with them. */
  datatype Amounts = Amounts(
    quantity: nat,
    subtotal: string,
    subtotalTax: string,
    total: string,
    totalTax: string,
    taxes: map<string, string>)

  /** An order item: `productId` and `variationId` are its `_product_id`
      and `_variation_id` meta (0 when there is none), `meta` the rest of
      its meta data. */
  datatype Item = Item(
    kind: ItemKind,
    productId: nat,
    variationId: nat,
    name: string,
    meta: map<string, string>,
    amounts: Amounts)

  /** A subscription: its order items, in their stored order, and its
      order notes. Each method is one write of the WooCommerce API,
      addressed by the item's position. */
  class Subscription {
    var items: seq<Item>
    var notes: seq<string>

    constructor (items: seq<Item>)
      ensures this.items == items && notes == []
    {
      this.items := items;
      notes := [];
    }

    /** Deletes one meta key of item i; a key it does not hold is no change. */
    method DeleteItemMeta(i: nat, key: string)
      requires i < |items|
      modifies this
      ensures items == old(items)[i := old(items)[i].(meta := old(items)[i].meta - {key})]
      ensures key !in items[i].meta
      ensures notes == old(notes)
    {
      items := items[i := items[i].(meta := items[i].meta - {key})];
    }

    /** Stores `_product_id` of item i. */
    method SetItemProductId(i: nat, id: nat)
      requires i < |items|
      modifies this
      ensures items == old(items)[i := old(items)[i].(productId := id)]
      ensures notes == old(notes)
    {
      items := items[i := items[i].(productId := id)];
    }

    /** Stores `_variation_id` of item i. */
    method SetItemVariationId(i: nat, id: nat)
      requires i < |items|
      modifies this
      ensures items == old(items)[i := old(items)[i].(variationId := id)]
      ensures notes == old(notes)
    {
      items := items[i := items[i].(variationId := id)];
    }

    /** Renames item i. */
    method SetItemName(i: nat, name: string)
      requires i < |items|
      modifies this
      ensures items == old(items)[i := old(items)[i].(name := name)]
      ensures notes == old(notes)
    {
      items := items[i := items[i].(name := name)];
    }

    /** Appends an order note; the items are untouched. */
    method AddOrderNote(note: string)
      modifies this
      ensures notes == old(notes) + [note]
      ensures items == old(items)
    {
      notes := notes + [note];
    }
  }
}
