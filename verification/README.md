# Swap Product subscription action — Dafny model

This project models the "Swap Product" action of the AutomateWoo
Subscription extension. Given a subscription and two product options
("product to swap out", "product to swap in"), the action does the following:

- It returns silently when the subscription or either option is missing or
  falsy, or when either product cannot be looked up.
- It makes one pass over the subscription's `line_item` and `shipping` items.
  - On each shipping line it deletes the cached `Items` meta.
  - On each product line that carries the swap-out product, as its product or
    as its variation, it stores the swap-in product's ids in `_product_id` and
    `_variation_id` and renames the line to the swap-in product's name.
- If at least one line was swapped, it appends one audit note:
  `AutomateWoo - Swapped out "<name>" (ID: <id>) for "<name>" (ID: <id>)`.

Files:

- `woo_data.dfy` (module `WooData`) holds the WooCommerce records:
  - `Product`, `Item`, `ItemKind` and `Amounts` are values.
  - `Subscription` is a class whose `items` and `notes` are updated in place.
    Each of its methods is one WooCommerce write the action makes.
- `swap_product.dfy` (module `SwapProduct`) holds the action:
  - `SwapProductAction.Run` is the loop, with its invariants.
  - `SwapProductAction.AddSubscriptionNote` appends the note.
  - The specification functions are `SwapItem`, `SwapItems`, `TargetIds` and
    `NoteText`, and the lemmas about them sit beside them.
- `decimal.dfy` (module `Decimal`) renders an id as decimal text, the way
  `%s` does inside the note, and proves that the rendering can be read back.

The model has three inputs besides the subscription:

- The workflow's option values are a `map<string, string>`. A missing option,
  `""` and `"0"` are falsy, as in PHP.
- The product lookup is a `map<string, Product>` keyed by option value. A key
  that is not there is a failed lookup.
- A missing subscription is a `null` reference.

## Model

| member | source | states |
|---|---|---|
| `Decimal.NatToString` | includes/class-action-subscription-swap-product.php:145-152 | an id is printed as a non-empty run of decimal digits with no leading zero |
| `Decimal.ParseNatToString` | includes/class-action-subscription-swap-product.php:149-151 | reading a printed id back gives the id, so the note loses no id information |
| `WooData.Subscription.DeleteItemMeta` | includes/class-action-subscription-swap-product.php:103 | deletes one meta key of one item; every other item, every other field and the notes stay as they were |
| `WooData.Subscription.SetItemProductId` | includes/class-action-subscription-swap-product.php:121 | writes `_product_id` of one item and nothing else |
| `WooData.Subscription.SetItemVariationId` | includes/class-action-subscription-swap-product.php:122 | writes `_variation_id` of one item and nothing else |
| `WooData.Subscription.SetItemName` | includes/class-action-subscription-swap-product.php:125 | renames one item and changes nothing else |
| `WooData.Subscription.AddOrderNote` | includes/class-action-subscription-swap-product.php:153 | appends the note to the notes and leaves the items alone |
| `SwapProduct.MainAndVariationIds` | includes/class-action-subscription-swap-product.php:116-118 | when the class test says "variation", the line stores the parent id and the product's own id as the variation; otherwise it stores the product's id and 0. Either way the stored pair names the product |
| `SwapProduct.TargetIds` | includes/class-action-subscription-swap-product.php:113-118 | the intended ids: a variation is stored as (parent id, own id), any other product as (own id, 0) |
| `SwapProduct.TargetIdsAsWritten` | includes/class-action-subscription-swap-product.php:114-118 | the ids as the code is written: the class test never holds, so every product, variations included, is stored as (own id, 0) |
| `SwapProduct.SwapItem` | includes/class-action-subscription-swap-product.php:99-128 | kind, quantity, totals and taxes never change. A shipping line loses only its `Items` meta. A line item carrying the swap-out product gets the target ids and name and keeps everything else. Every other item is returned unchanged |
| `SwapProduct.SwapItems` | includes/class-action-subscription-swap-product.php:99-129 | the number and order of items are kept, and each item is rewritten on its own by `SwapItem` |
| `SwapProduct.NoteText` | includes/class-action-subscription-swap-product.php:145-152 | the note begins with `AutomateWoo - Swapped out "` and the swap-out name, and ends with the swap-in id in decimal followed by `)` |
| `SwapProduct.SwapProductAction.Run` | includes/class-action-subscription-swap-product.php:79-135 | if the subscription is missing, an option is falsy or a lookup fails, items and notes are unchanged. Otherwise the items become `SwapItems` of the old items, and exactly one note `NoteText(out, in)` is appended if and only if some old line item carried the swap-out product. Shipping lines alone add no note, and several matches still add one note |
| `SwapProduct.SwapProductAction.AddSubscriptionNote` | includes/class-action-subscription-swap-product.php:144-154 | appends exactly `NoteText(out, in)` and leaves the items alone |
| `SwapProduct.SwapIsIdempotent` | includes/class-action-subscription-swap-product.php:99-129 | running the rewrite twice with the same products gives the same items as running it once |
| `SwapProduct.NoSwapOutLineLeft` | includes/class-action-subscription-swap-product.php:108-126 | when the stored ids do not name the swap-out product, no line item carries it after the swap |
| `SwapProduct.SwapBackRestores` | includes/class-action-subscription-swap-product.php:109-125 | swapping a for b and then b for a returns every line that carried a to a's ids and name, with its amounts and meta untouched |
| `SwapProduct.AsWrittenStoresVariationAsProduct` | includes/class-action-subscription-swap-product.php:114-122 | example: variation 51 of product 50 swapped in. As written the line stores (51, 0); intended is (50, 51) |
| `SwapProduct.AsWrittenDiffersForVariations` | includes/class-action-subscription-swap-product.php:114-118 | for every variation with a non-zero id, the as-written ids differ from the intended ones |
| `SwapProduct.NoteRecordsIds` | includes/class-action-subscription-swap-product.php:145-152 | two notes with the same product names and the same text also have the same two ids |
| `SwapProduct.WidgetIdsInDecimal` | includes/class-action-subscription-swap-product.php:149-151 | ids 42 and 99 are printed as `42` and `99` |
| `SwapProduct.WidgetNoteText` | includes/class-action-subscription-swap-product.php:145-152 | the note for swapping 42 "Widget A" for 99 "Widget B" is `AutomateWoo - Swapped out "Widget A" (ID: 42) for "Widget B" (ID: 99)` |

`SwapProduct.SwapWidgetExample` is a client of `Run`. Its subscription has one
line of product 42 with quantity 2, 20.00 and 2.00 tax. It checks, from
`Run`'s contract alone, that after the run this line carries product 99
"Widget B" with the same amounts, and that exactly that one note was added.

On the swap-back property: the in-place rewrite also moves lines that carried b
before the first swap over to a. It also renames the restored lines to a's
current name. So only the lines that carried a are restored.

## Left out

- `load_fields`, `get_swap_out_product_select_field`, `get_swap_in_product_select_field` and `load_admin_details` are not modelled. They only define the admin form fields and translated labels.
- The plugin header file and the filter that registers the action are not modelled. They are wiring with no logic.
- Translation through `__()` is not modelled. The note template is its English text.
- `$item->save()` is not modelled; the meta writes count as persisted. Whether a save writes the item object's in-memory product ids back over them depends on WooCommerce internals that are not part of this model.
- `wc_delete_order_item_meta` is called with its delete-all flag set. In WordPress's metadata API that flag removes the key from every order item, not only this one. The model deletes the key from the shipping line only, because the WordPress metadata layer is not part of this model.
- Items are addressed by position in the subscription's item list, not by WooCommerce item id.
- `wc_get_product` is a map lookup keyed by the option value. How WooCommerce normalises an id string before lookup is not modelled.
- Quantity, totals and taxes are kept as opaque stored values and never computed with, as the action never touches them.
- The remove-and-re-add strategy is not modelled: the modelled source does not use it. That strategy has per-line notes, tax-breakdown copying and total recalculation.
- The comment at line 113 and the class test at line 114 disagree about variations. `Run` follows the comment, storing a variation as its parent plus itself; the as-written behaviour is under Findings.

## Findings

| source | as written | input that shows it | evidently intended | confidence | as-written member | corrected member |
|---|---|---|---|---|---|---|
| includes/class-action-subscription-swap-product.php:114 | `instanceof WC_Product_Variation` is unqualified inside `namespace to51\AW_Action` (line 3), with no `use` for it. PHP resolves it to `to51\AW_Action\WC_Product_Variation`, a class that does not exist, so the test is always false | swap in variation 51 of product 50 for product 42: the line stores `_product_id` 51 and `_variation_id` 0 | store `_product_id` 50 and `_variation_id` 51, as the comment at line 113 says | high; not executed | `SwapProduct.TargetIdsAsWritten` (shown by `SwapProduct.AsWrittenStoresVariationAsProduct`) | `SwapProduct.TargetIds` |
