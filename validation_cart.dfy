/** The cart schemas (validation/cart.ts): adding a menu item with its
    chosen options, and changing a line's quantity. */
module CartRules {
  import opened Wrappers
  import opened Schema
  import opened Joi
  import ShoppingCart

  datatype ChoiceBody = ChoiceBody(optionGroupId: Option<string>, optionIds: Option<seq<string>>)

  datatype CartBody = CartBody(quantity: Option<int>, menuItemId: Option<string>, options: Option<seq<ChoiceBody>>)

  datatype QuantityBody = QuantityBody(quantity: Option<int>)

  predicate ChoiceAccepted(c: ChoiceBody, f: Formats) {
    && FormatKey(c.optionGroupId, true, f.uuid)
    && c.optionIds.Some?
    && forall i :: 0 <= i < |c.optionIds.value| ==> FormatKey(Some(c.optionIds.value[i]), true, f.uuid)
  }

  /** cartRequestSchema: a quantity of at least one, a menu item, and at
      least one group of chosen options. */
  predicate CartAccepted(b: CartBody, f: Formats) {
    && IntKey(b.quantity, true, 1, None)
    && FormatKey(b.menuItemId, true, f.uuid)
    && b.options.Some? && |b.options.value| >= 1
    && forall i :: 0 <= i < |b.options.value| ==> ChoiceAccepted(b.options.value[i], f)
  }

  predicate QuantityAccepted(b: QuantityBody) {
    IntKey(b.quantity, true, 1, None)
  }

  function ChoiceOf(c: ChoiceBody, f: Formats): ShoppingCart.GroupChoice
    requires ChoiceAccepted(c, f)
  {
    ShoppingCart.GroupChoice(c.optionGroupId.value, c.optionIds.value)
  }

  /** The request the cart service receives once the body passes. */
  function CartRequestOf(b: CartBody, f: Formats): (r: ShoppingCart.CartRequest)
    requires CartAccepted(b, f)
    ensures |r.options| == |b.options.value| >= 1
    ensures forall i :: 0 <= i < |r.options| ==> r.options[i] == ChoiceOf(b.options.value[i], f)
  {
    var cs := b.options.value;
    ShoppingCart.CartRequest(b.menuItemId.value, b.quantity.value,
      seq(|cs|, i requires 0 <= i < |cs| && ChoiceAccepted(cs[i], f) => ChoiceOf(cs[i], f)))
  }

  /** Every line of the cart has at least one unit. */
  predicate QuantitiesPositive(items: seq<CartItem>) {
    forall i :: 0 <= i < |items| ==> items[i].quantity >= 1
  }

  /** A cart line added from an accepted body has at least one unit, and
      every chosen option id is in the uuid format. */
  lemma AcceptedLinePositive(b: CartBody, f: Formats, itemId: Id, cartId: Id)
    requires CartAccepted(b, f)
    ensures var r := CartRequestOf(b, f);
      && CartItem(itemId, r.menuItemId, cartId, r.quantity).quantity >= 1
      && forall i, j :: 0 <= i < |r.options| && 0 <= j < |r.options[i].optionIds| ==>
           f.uuid(r.options[i].optionIds[j])
  {
    var r := CartRequestOf(b, f);
    forall i, j | 0 <= i < |r.options| && 0 <= j < |r.options[i].optionIds|
      ensures f.uuid(r.options[i].optionIds[j])
    {
      assert ChoiceAccepted(b.options.value[i], f);
      assert r.options[i].optionIds == b.options.value[i].optionIds.value;
      assert FormatKey(Some(r.options[i].optionIds[j]), true, f.uuid);
    }
  }

  /** Changing a quantity with an accepted body keeps every cart line at
      one unit or more. */
  lemma AcceptedQuantityKeepsPositive(items: seq<CartItem>, id: Id, b: QuantityBody)
    requires QuantityAccepted(b) && QuantitiesPositive(items)
    ensures QuantitiesPositive(ShoppingCart.SetQuantity(items, id, b.quantity.value))
  {
    var r := ShoppingCart.SetQuantity(items, id, b.quantity.value);
    forall i | 0 <= i < |r| ensures r[i].quantity >= 1 {
      assert items[i].quantity >= 1;
    }
  }

  /** A body without any group of options is refused, and so is a zero or
      negative quantity. */
  lemma CartRefusals(b: CartBody, q: QuantityBody, f: Formats)
    ensures b.options == Some([]) ==> !CartAccepted(b, f)
    ensures (b.quantity.Some? && b.quantity.value < 1) || b.quantity.None? ==> !CartAccepted(b, f)
    ensures q.quantity.Some? && q.quantity.value < 1 ==> !QuantityAccepted(q)
  {
  }
}
