/**
 * The order-item editor: a form over the quantity and special instructions of one order item,
 * filled once from the fetched item, with dirty tracking, validation, a digits-only filter on
 * the quantity field and the update request its button sends.
 */
module EditOrderItem {
  import opened Wrappers
  import opened KotlinText
  import opened Model
  import OrderItemViewModels

  /** isValid() of the form: the quantity is not blank and toIntOrNull reads it as a number > 0. */
  function QuantityIsValid(quantity: string): (valid: bool)
    ensures valid <==> PositiveIntText(quantity)
  {
    PositiveIntTextIff(quantity);
    !IsBlank(quantity) && ToIntOrNull(quantity).Some? && ToIntOrNull(quantity).value > 0
  }

  /**
   * isError of the quantity field: non-empty text that does not read as a number > 0. An empty
   * field is invalid but shows no error; every other invalid text shows one.
   */
  function QuantityIsError(value: string): (error: bool)
    ensures error <==> value != "" && !QuantityIsValid(value)
  {
    value != "" && (ToIntOrNull(value).None? || ToIntOrNull(value).value <= 0)
  }

  /**
   * The quantity field's filter: an edit is taken only if it is empty or matches ^\d+$, that
   * is, exactly when every character is an ASCII digit.
   */
  function AcceptsQuantityInput(newValue: string): (accepted: bool)
    ensures accepted <==> forall i :: 0 <= i < |newValue| ==> IsDigit(newValue[i])
  {
    newValue == "" || MatchesDigits(newValue)
  }

  /**
   * Behind the filter the field only ever holds digits, and then the only texts flagged as
   * errors are those denoting zero and those too large for an Int.
   */
  lemma FilteredQuantityError(value: string)
    requires AllDigits(value)
    ensures QuantityIsError(value) <==> value != "" && (DigitsValue(value) == 0 || DigitsValue(value) > INT_MAX)
  {
    if value != "" {
      assert value[0] != '+' && value[0] != '-' by { assert IsDigit(value[0]); }
    }
  }

  /** Snapshot of the form's six mutable fields. */
  datatype OrderItemForm = OrderItemForm(
    quantity: string,
    specialInstructions: string,
    originalQuantity: string,
    originalSpecialInstructions: string,
    isLoading: bool,
    isInitialized: bool)

  /** hasChanges: quantity or instructions differ from the values the form was filled with. */
  predicate HasChanges(f: OrderItemForm)
  {
    f.quantity != f.originalQuantity || f.specialInstructions != f.originalSpecialInstructions
  }

  /** The update button's enabled state; it is never enabled while the quantity shows an error. */
  function UpdateEnabled(f: OrderItemForm): (enabled: bool)
    ensures enabled ==> !QuantityIsError(f.quantity) && f.quantity != "" && !f.isLoading
  {
    !f.isLoading && HasChanges(f) && QuantityIsValid(f.quantity)
  }

  /** The form as initializeFrom leaves it. */
  function InitializedFrom(f: OrderItemForm, item: OrderItem): (g: OrderItemForm)
    ensures !HasChanges(g) && !UpdateEnabled(g) && g.isInitialized && g.isLoading == f.isLoading
    ensures g.quantity == IntToString(item.quantity)
    ensures g.specialInstructions == item.specialInstructions
    ensures item.quantity > 0 ==> QuantityIsValid(g.quantity)
  {
    ParseIntToString(item.quantity, INT_MIN, INT_MAX);
    var text := IntToString(item.quantity);
    OrderItemForm(text, item.specialInstructions, text, item.specialInstructions, f.isLoading, true)
  }

  /** The arguments handleUpdateOrderItem passes to updateOrderItem. */
  datatype UpdateRequest = UpdateRequest(orderId: Int32, menuItemId: Int32, item: OrderItem)

  /**
   * The copy the update sends: the new quantity and the trimmed instructions, the subtotal
   * recomputed, and order id, menu item id, name and price as they were.
   */
  function UpdatedItem(item: OrderItem, quantity: Int32, instructions: string): (r: OrderItem)
    ensures r.orderId == item.orderId && r.menuItemId == item.menuItemId
    ensures r.menuItemName == item.menuItemName && r.menuItemPrice == item.menuItemPrice
    ensures r.quantity == quantity && r.specialInstructions == Trim(instructions)
    ensures r.subtotal == Subtotal(item.menuItemPrice, quantity)
  {
    item.(quantity := quantity, specialInstructions := Trim(instructions),
          subtotal := Subtotal(item.menuItemPrice, quantity))
  }

  /** The form's state holder: each field is one remembered MutableState. */
  class OrderItemFormState {
    var quantity: string
    var specialInstructions: string
    var originalQuantity: string
    var originalSpecialInstructions: string
    var isLoading: bool
    var isInitialized: bool

    function Form(): OrderItemForm
      reads this
    {
      OrderItemForm(quantity, specialInstructions, originalQuantity, originalSpecialInstructions,
                    isLoading, isInitialized)
    }

    /** The remembered initial state: empty texts, not loading, not yet filled. */
    constructor ()
      ensures Form() == OrderItemForm("", "", "", "", false, false)
    {
      quantity, specialInstructions := "", "";
      originalQuantity, originalSpecialInstructions := "", "";
      isLoading, isInitialized := false, false;
    }

    method InitializeFrom(item: OrderItem)
      modifies this
      ensures Form() == InitializedFrom(old(Form()), item)
    {
      quantity := IntToString(item.quantity);
      specialInstructions := item.specialInstructions;
      originalQuantity := IntToString(item.quantity);
      originalSpecialInstructions := item.specialInstructions;
      isInitialized := true;
    }

    /**
     * The effect keyed on the fetched item: the form is filled from the first non-null item
     * only, so a later item never overwrites the user's edits.
     */
    method OnOrderItemChanged(item: Option<OrderItem>)
      modifies this
      ensures item.Some? && !old(isInitialized) ==> Form() == InitializedFrom(old(Form()), item.value)
      ensures item.None? || old(isInitialized) ==> Form() == old(Form())
    {
      if item.Some? && !isInitialized {
        InitializeFrom(item.value);
      }
    }

    /** The quantity field's onValueChange behind its filter: a rejected edit leaves the field as it was. */
    method OnQuantityChange(newValue: string)
      modifies this
      ensures Form() == old(Form()).(quantity := if AcceptsQuantityInput(newValue) then newValue else old(quantity))
    {
      if newValue == "" || MatchesDigits(newValue) {
        quantity := newValue;
      }
    }

    method OnSpecialInstructionsChange(newValue: string)
      modifies this
      ensures Form() == old(Form()).(specialInstructions := newValue)
    {
      specialInstructions := newValue;
    }

    /**
     * handleUpdateOrderItem: nothing happens on an invalid form; otherwise loading starts and
     * the updated copy of the item is sent under the route's ids, narrowed to Int.
     */
    method HandleUpdateOrderItem(orderId: Int64, menuItemId: Int64, item: OrderItem)
      returns (request: Option<UpdateRequest>)
      modifies this
      ensures !QuantityIsValid(old(quantity)) ==> request.None? && Form() == old(Form())
      ensures QuantityIsValid(old(quantity)) ==>
        && Form() == old(Form()).(isLoading := true)
        && request == Some(UpdateRequest(LongToInt(orderId), LongToInt(menuItemId),
                             UpdatedItem(item, ToIntOrNull(quantity).value, specialInstructions)))
    {
      if !QuantityIsValid(quantity) {
        return None;
      }
      var quantityValue := ToIntOrNull(quantity);
      if quantityValue.None? {
        return None;
      }
      isLoading := true;
      var updated := UpdatedItem(item, quantityValue.value, specialInstructions);
      request := Some(UpdateRequest(LongToInt(orderId), LongToInt(menuItemId), updated));
    }

    /**
     * The effect keyed on the update result: on a non-null result loading stops, the view
     * model's update cell is reset, and the screen navigates back.
     */
    method OnUpdateResult(result: Option<OrderItem>, viewModel: OrderItemViewModels.OrderItemViewModel)
      returns (navigateBack: bool)
      modifies this, viewModel
      ensures navigateBack == result.Some?
      ensures result.Some? ==> Form() == old(Form()).(isLoading := false)
      ensures result.Some? ==> viewModel.Cells() == old(viewModel.Cells()).(updateOrderItemResult := None)
      ensures result.None? ==> Form() == old(Form()) && viewModel.Cells() == old(viewModel.Cells())
    {
      navigateBack := result.Some?;
      if result.Some? {
        isLoading := false;
        viewModel.ResetUpdateOrderItemResult();
      }
    }
  }
}
