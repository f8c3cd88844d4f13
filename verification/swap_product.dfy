/** The "Swap Product" subscription action: on every line item of a
    subscription that carries the swap-out product, store the swap-in
    product instead, clear the cached "Items" meta of the shipping lines,
    and leave one audit note when some line was swapped. */
module SwapProduct {
  import opened WooData
  import opened Decimal

  /** The action's two option fields. */
  const SwapOutField := "product_to_swap_out"
  const SwapInField := "product_to_swap_in"

  /** Shipping lines cache a description of the order's contents here. */
  const ItemsMetaKey := "Items"

  /** Pieces of the audit note template
      `AutomateWoo - Swapped out "<name>" (ID: <id>) for "<name>" (ID: <id>)`. */
  const NotePrefix := "AutomateWoo - Swapped out \""
  const IdOpen := "\" (ID: "
  const ForOpen := ") for \""
  const IdClose := ")"

  /** The values stored in a line's `_product_id` and `_variation_id`. */
  datatype LineIds = LineIds(productId: nat, variationId: nat)

  function GetOption(options: map<string, string>, field: string): Option<string> {
    if field in options then Some(options[field]) else None
  }

  /** PHP truthiness of an option value: an unset option, "" and "0" are falsy. */
  predicate IsTruthy(v: Option<string>) {
    v.Some? && v.value != "" && v.value != "0"
  }

  /** Whether run() gets past both of its guards: both options are set and
      truthy, and the product lookup knows both of them. */
  predicate Proceeds(options: map<string, string>, catalog: map<string, Product>) {
    var swapOut := GetOption(options, SwapOutField);
    var swapIn := GetOption(options, SwapInField);
    IsTruthy(swapOut) && IsTruthy(swapIn) && swapOut.value in catalog && swapIn.value in catalog
  }

  /** The ids a swapped line stores for product p: a variation is stored as
      its parent product plus itself as the variation, any other product as
      itself with no variation. `swapInIsVariation` is the outcome of the
      class test that decides between the two. */
  function MainAndVariationIds(p: Product, swapInIsVariation: bool): (r: LineIds)
    ensures r.productId == p.id || r.variationId == p.id
    ensures swapInIsVariation ==> r.productId == p.parentId && r.variationId == p.id
    ensures !swapInIsVariation ==> r.productId == p.id && r.variationId == 0
  {
    if swapInIsVariation then LineIds(p.parentId, p.id) else LineIds(p.id, 0)
  }

  /** The ids stored for the swap-in product when the class test reports
      whether it really is a variation. */
  function TargetIds(p: Product): (r: LineIds)
    ensures p.isVariation ==> r == LineIds(p.parentId, p.id)
    ensures !p.isVariation ==> r == LineIds(p.id, 0)
  {
    MainAndVariationIds(p, p.isVariation)
  }

  /** The ids stored as the class test is written: the class name in it is
      unqualified inside the action's namespace, so it names a class that
      does not exist, the test never holds, and every product, variations
      included, is stored as a plain product. */
  function TargetIdsAsWritten(p: Product): (r: LineIds)
    ensures r.productId == p.id && r.variationId == 0
  {
    MainAndVariationIds(p, false)
  }

  /** A product line that carries the swap-out product, as its product or
      as its variation. */
  predicate IsSwapOutLine(item: Item, swapOutId: nat) {
    item.kind == LineItem && (item.productId == swapOutId || item.variationId == swapOutId)
  }

  predicate HasSwapOutLine(items: seq<Item>, swapOutId: nat) {
    exists k :: 0 <= k < |items| && IsSwapOutLine(items[k], swapOutId)
  }

  /** What one pass of run()'s loop does to one order item. */
  function SwapItem(item: Item, swapOutId: nat, target: LineIds, name: string): (r: Item)
    ensures r.kind == item.kind && r.amounts == item.amounts
    ensures item.kind == Shipping ==>
      ItemsMetaKey !in r.meta && r.meta == item.meta - {ItemsMetaKey} && r == item.(meta := r.meta)
    ensures IsSwapOutLine(item, swapOutId) ==>
      r.productId == target.productId && r.variationId == target.variationId && r.name == name
      && r == item.(productId := r.productId, variationId := r.variationId, name := r.name)
    ensures item.kind != Shipping && !IsSwapOutLine(item, swapOutId) ==> r == item
  {
    match item.kind
    case Shipping => item.(meta := item.meta - {ItemsMetaKey})
    case LineItem =>
      if item.productId == swapOutId || item.variationId == swapOutId
      then item.(productId := target.productId, variationId := target.variationId, name := name)
      else item
    case _ => item
  }

  /** The subscription's items after run()'s loop: the same items in the
      same order, each rewritten on its own by SwapItem. */
  function SwapItems(items: seq<Item>, swapOutId: nat, target: LineIds, name: string): (r: seq<Item>)
    ensures |r| == |items|
    ensures forall i :: 0 <= i < |r| ==> r[i] == SwapItem(items[i], swapOutId, target, name)
  {
    seq(|items|, i requires 0 <= i < |items| => SwapItem(items[i], swapOutId, target, name))
  }

  /** The note text up to the swap-out id. */
  function NoteHead(swapOut: Product): string {
    NotePrefix + swapOut.name + IdOpen
  }

  /** The note text after the swap-out id. */
  function NoteTail(swapIn: Product): string {
    ForOpen + swapIn.name + IdOpen + (NatToString(swapIn.id) + IdClose)
  }

  /** The audit note for swapping `swapOut` for `swapIn`: the template
      filled with both names and both ids in decimal. */
  function NoteText(swapOut: Product, swapIn: Product): (r: string)
    ensures NotePrefix + swapOut.name <= r
    ensures |r| > |NatToString(swapIn.id)| && r[|r| - |NatToString(swapIn.id)| - 1..] == NatToString(swapIn.id) + IdClose
  {
    NoteHead(swapOut) + (NatToString(swapOut.id) + NoteTail(swapIn))
  }

  /** The action, with the option values the workflow gave it and the
      subscription its data layer holds (null when there is none). */
  class SwapProductAction {
    const options: map<string, string>
    const subscription: Subscription?

    constructor (options: map<string, string>, subscription: Subscription?)
      ensures this.options == options && this.subscription == subscription
    {
      this.options := options;
      this.subscription := subscription;
    }

    /** Runs the swap; `catalog` is the product lookup, keyed by option value. */
    method Run(catalog: map<string, Product>)
      modifies subscription
      ensures subscription != null && !Proceeds(options, catalog) ==>
        subscription.items == old(subscription.items) && subscription.notes == old(subscription.notes)
      ensures subscription != null && Proceeds(options, catalog) ==>
        var swapOut := catalog[options[SwapOutField]];
        var swapIn := catalog[options[SwapInField]];
        subscription.items == SwapItems(old(subscription.items), swapOut.id, TargetIds(swapIn), swapIn.name)
        && subscription.notes == old(subscription.notes)
             + (if HasSwapOutLine(old(subscription.items), swapOut.id) then [NoteText(swapOut, swapIn)] else [])
    {
      var sub := subscription;
      var swapOutOption := GetOption(options, SwapOutField);
      var swapInOption := GetOption(options, SwapInField);
      if sub == null || !IsTruthy(swapOutOption) || !IsTruthy(swapInOption) {
        return;
      }
      if swapOutOption.value !in catalog || swapInOption.value !in catalog {
        return;
      }
      var swapOut := catalog[swapOutOption.value];
      var swapIn := catalog[swapInOption.value];

      var didUpdate := false;
      ghost var items0 := sub.items;
      var i := 0;
      // The loop visits every item; only line items and shipping lines are acted on.
      while i < |sub.items|
        invariant 0 <= i <= |sub.items| == |items0|
        invariant sub.notes == old(sub.notes)
        invariant forall k :: 0 <= k < i ==> sub.items[k] == SwapItem(items0[k], swapOut.id, TargetIds(swapIn), swapIn.name)
        invariant forall k :: i <= k < |items0| ==> sub.items[k] == items0[k]
        invariant didUpdate <==> exists k :: 0 <= k < i && IsSwapOutLine(items0[k], swapOut.id)
      {
        var item := sub.items[i];
        if item.kind == Shipping {
          sub.DeleteItemMeta(i, ItemsMetaKey);
        } else if item.kind == LineItem && (item.productId == swapOut.id || item.variationId == swapOut.id) {
          didUpdate := true;
          // The source's class test; see TargetIdsAsWritten for how it is written.
          var swapInIsVariation := swapIn.isVariation;
          var ids := MainAndVariationIds(swapIn, swapInIsVariation);
          sub.SetItemProductId(i, ids.productId);
          sub.SetItemVariationId(i, ids.variationId);
          sub.SetItemName(i, swapIn.name);
        }
        i := i + 1;
      }
      assert sub.items == SwapItems(items0, swapOut.id, TargetIds(swapIn), swapIn.name);
      if didUpdate {
        AddSubscriptionNote(sub, swapOut, swapIn);
      }
    }

    method AddSubscriptionNote(sub: Subscription, swapOut: Product, swapIn: Product)
      modifies sub
      ensures sub.notes == old(sub.notes) + [NoteText(swapOut, swapIn)]
      ensures sub.items == old(sub.items)
    {
      var note := NoteText(swapOut, swapIn);
      sub.AddOrderNote(note);
    }
  }

  /** Running the loop a second time with the same products changes no item. */
  lemma SwapIsIdempotent(items: seq<Item>, swapOutId: nat, target: LineIds, name: string)
    ensures var once := SwapItems(items, swapOutId, target, name);
            SwapItems(once, swapOutId, target, name) == once
  {
    var once := SwapItems(items, swapOutId, target, name);
    var twice := SwapItems(once, swapOutId, target, name);
    forall i | 0 <= i < |once|
      ensures twice[i] == once[i]
    {
      if IsSwapOutLine(items[i], swapOutId) {
        assert once[i].kind == LineItem;
      }
    }
  }

  /** When the stored ids do not name the swap-out product, no line carries
      it any more after the swap. */
  lemma NoSwapOutLineLeft(items: seq<Item>, swapOutId: nat, target: LineIds, name: string)
    requires target.productId != swapOutId && target.variationId != swapOutId
    ensures !HasSwapOutLine(SwapItems(items, swapOutId, target, name), swapOutId)
  {
  }

  /** Swapping a for b and then b for a brings every line that carried a
      back to a, with its amounts and meta as they were. */
  lemma SwapBackRestores(items: seq<Item>, a: Product, b: Product, k: nat)
    requires k < |items| && IsSwapOutLine(items[k], a.id)
    ensures var there := SwapItems(items, a.id, TargetIds(b), b.name);
            var back := SwapItems(there, b.id, TargetIds(a), a.name);
            back[k] == items[k].(productId := TargetIds(a).productId,
                                 variationId := TargetIds(a).variationId, name := a.name)
  {
  }

  /** A line carrying product 42, swapped for variation 51 of product 50:
      as written the variation's own id lands in `_product_id` and the
      variation slot is emptied; the intended rewrite stores 50 and 51. */
  lemma AsWrittenStoresVariationAsProduct()
    ensures var variation := Product(51, "Widget - Blue", true, 50);
            var line := Item(LineItem, 42, 0, "Widget", map[], Amounts(1, "10.00", "0", "10.00", "0", map[]));
            var asWritten := SwapItems([line], 42, TargetIdsAsWritten(variation), variation.name);
            var intended := SwapItems([line], 42, TargetIds(variation), variation.name);
            asWritten[0].productId == 51 && asWritten[0].variationId == 0
            && intended[0].productId == 50 && intended[0].variationId == 51
  {
  }

  /** For any variation with a real id the two readings of the class test
      store different ids. */
  lemma AsWrittenDiffersForVariations(p: Product)
    requires p.isVariation && p.id != 0
    ensures TargetIdsAsWritten(p) != TargetIds(p)
    ensures TargetIds(p).variationId == p.id
  {
  }

  /** Two audit notes naming the same products by name also agree on both
      ids: the note records the ids it was given. */
  lemma {:induction false} NoteRecordsIds(o1: Product, i1: Product, o2: Product, i2: Product)
    requires o1.name == o2.name && i1.name == i2.name
    requires NoteText(o1, i1) == NoteText(o2, i2)
    ensures o1.id == o2.id && i1.id == i2.id
  {
    var head := NoteHead(o1);
    assert NoteHead(o2) == head;
    var d1, d2 := NatToString(o1.id), NatToString(o2.id);
    assert (head + (d1 + NoteTail(i1)))[|head|..] == d1 + NoteTail(i1);
    assert (head + (d2 + NoteTail(i2)))[|head|..] == d2 + NoteTail(i2);
    DigitRunDelimited(d1, NoteTail(i1), d2, NoteTail(i2));
    NatToStringInjective(o1.id, o2.id);
    var mid := ForOpen + i1.name + IdOpen;
    var e1, e2 := NatToString(i1.id), NatToString(i2.id);
    assert (mid + (e1 + IdClose))[|mid|..] == e1 + IdClose;
    assert (mid + (e2 + IdClose))[|mid|..] == e2 + IdClose;
    DigitRunDelimited(e1, IdClose, e2, IdClose);
    NatToStringInjective(i1.id, i2.id);
  }

  /** The worked example: one line of product 42 (quantity 2, 20.00 plus
      2.00 tax) swapped for the simple product 99 "Widget B". */
  method SwapWidgetExample()
  {
    var amounts := Amounts(2, "20.00", "2.00", "20.00", "2.00", map[]);
    var sub := new Subscription([Item(LineItem, 42, 0, "Widget A", map[], amounts)]);
    var action := new SwapProductAction(map[SwapOutField := "42", SwapInField := "99"], sub);
    var catalog := map["42" := Product(42, "Widget A", false, 0), "99" := Product(99, "Widget B", false, 0)];
    assert HasSwapOutLine(sub.items, 42) by {
      assert IsSwapOutLine(sub.items[0], 42);
    }
    action.Run(catalog);
    assert sub.items == [Item(LineItem, 99, 0, "Widget B", map[], amounts)];
    WidgetNoteText();
    assert sub.notes == ["AutomateWoo - Swapped out \"" + "Widget A" + "\" (ID: " + "42"
                         + ") for \"" + "Widget B" + "\" (ID: " + "99" + ")"];
  }

  lemma WidgetIdsInDecimal()
    ensures NatToString(42) == "42" && NatToString(99) == "99"
  {
    assert NatToString(42) == NatToString(4) + [DigitChar(2)];
    assert NatToString(99) == NatToString(9) + [DigitChar(9)];
  }

  /** The note the worked example leaves, piece by piece. */
  lemma WidgetNoteText()
    ensures NoteText(Product(42, "Widget A", false, 0), Product(99, "Widget B", false, 0))
      == "AutomateWoo - Swapped out \"" + "Widget A" + "\" (ID: " + "42"
         + ") for \"" + "Widget B" + "\" (ID: " + "99" + ")"
  {
    WidgetIdsInDecimal();
  }
}
