/**
 * The bottom sheet that adds a menu item to an order: a menu item picker, a quantity field
 * validated on every keystroke, free-text instructions, and the order item its button creates.
 */
module AddMenuItemToOrder {
  import opened Wrappers
  import opened KotlinText
  import opened Model

  const EMPTY_QUANTITY := "Quantity cannot be empty"
  const NOT_A_NUMBER := "Quantity must be a number"
  const NOT_POSITIVE := "Quantity must be greater than 0"

  /**
   * The message the quantity field shows for a new value: blank, not an Int, not positive,
   * or none. No message exactly when the text is a positive Int.
   */
  function QuantityError(value: string): (message: Option<string>)
    ensures message.None? <==> PositiveIntText(value)
    ensures message == Some(EMPTY_QUANTITY) <==> IsBlank(value)
    ensures message == Some(NOT_A_NUMBER) <==> !IsBlank(value) && ToIntOrNull(value).None?
    ensures message == Some(NOT_POSITIVE) <==> ToIntOrNull(value).Some? && ToIntOrNull(value).value <= 0
  {
    PositiveIntTextIff(value);
    if IsBlank(value) then Some(EMPTY_QUANTITY)
    else if ToIntOrNull(value).None? then Some(NOT_A_NUMBER)
    else if ToIntOrNull(value).value <= 0 then Some(NOT_POSITIVE)
    else None
  }

  /** Snapshot of the sheet's remembered state. */
  datatype Sheet = Sheet(
    selectedMenuItem: Option<MenuItem>,
    quantity: string,
    specialInstructions: string,
    expanded: bool,
    isLoading: bool,
    quantityError: Option<string>)

  /** The remembered initial state: nothing selected, quantity "1", no error. */
  const INITIAL: Sheet := Sheet(None, "1", "", false, false, None)

  /** The error shown is the one computed for the text in the field. */
  predicate Consistent(s: Sheet)
  {
    s.quantityError == QuantityError(s.quantity)
  }

  /**
   * The button's own check before it creates anything: an item is selected and the quantity
   * is one for which the field shows no error.
   */
  function SubmitGuard(s: Sheet): (guard: bool)
    ensures guard <==> s.selectedMenuItem.Some? && QuantityError(s.quantity).None?
  {
    PositiveIntTextIff(s.quantity);
    s.selectedMenuItem.Some? && ToIntOrNull(s.quantity).Some? && ToIntOrNull(s.quantity).value > 0
  }

  /**
   * The button's enabled state; while the shown error matches the field, the button is enabled
   * exactly when the sheet is idle and its click would get past the check.
   */
  function ButtonEnabled(s: Sheet): (enabled: bool)
    ensures Consistent(s) ==> (enabled <==> !s.isLoading && SubmitGuard(s))
  {
    !s.isLoading && s.selectedMenuItem.Some? && s.quantityError.None? && !IsBlank(s.quantity)
  }

  lemma InitialIsConsistent()
    ensures Consistent(INITIAL)
    ensures !ButtonEnabled(INITIAL)
  {
    assert ParseInteger("1", INT_MIN, INT_MAX) == Some(1) by {
      assert IntToString(1) == "1";
      ParseIntToString(1, INT_MIN, INT_MAX);
    }
  }

  /**
   * Whenever the shown error matches the field, an enabled button always gets past its own
   * check, so a click on it creates an order item.
   */
  lemma EnabledButtonSubmits(s: Sheet)
    requires Consistent(s) && ButtonEnabled(s)
    ensures SubmitGuard(s)
  {
    PositiveIntTextIff(s.quantity);
  }

  /**
   * The order item the button creates: the selected menu item's id, name and price, the
   * order id, the parsed quantity, the trimmed instructions and price times quantity.
   */
  function NewOrderItem(orderId: int, menuItem: MenuItem, quantity: Int32, instructions: string): (r: OrderItem)
    ensures r.orderId == orderId && r.menuItemId == menuItem.id
    ensures r.menuItemName == menuItem.name && r.menuItemPrice == menuItem.price
    ensures r.quantity == quantity && r.specialInstructions == Trim(instructions)
    ensures r.subtotal == Subtotal(menuItem.price, quantity)
  {
    OrderItem(menuItem.id, menuItem.name, menuItem.price, orderId, quantity, Trim(instructions),
              Subtotal(menuItem.price, quantity))
  }

  class AddItemSheet {
    var selectedMenuItem: Option<MenuItem>
    var quantity: string
    var specialInstructions: string
    var expanded: bool
    var isLoading: bool
    var quantityError: Option<string>

    function State(): Sheet
      reads this
    {
      Sheet(selectedMenuItem, quantity, specialInstructions, expanded, isLoading, quantityError)
    }

    constructor ()
      ensures State() == INITIAL
    {
      selectedMenuItem, quantity, specialInstructions := None, "1", "";
      expanded, isLoading, quantityError := false, false, None;
    }

    /** The dropdown's onExpandedChange toggles it. */
    method OnExpandedChange()
      modifies this
      ensures State() == old(State()).(expanded := !old(expanded))
    {
      expanded := !expanded;
    }

    method OnDismissRequest()
      modifies this
      ensures State() == old(State()).(expanded := false)
    {
      expanded := false;
    }

    /** Picking an entry selects it and closes the dropdown. */
    method SelectMenuItem(menuItem: MenuItem)
      modifies this
      ensures State() == old(State()).(selectedMenuItem := Some(menuItem), expanded := false)
    {
      selectedMenuItem := Some(menuItem);
      expanded := false;
    }

    /** Every edit is kept, and its error message is recomputed, so the two stay consistent. */
    method OnQuantityChange(newValue: string)
      modifies this
      ensures State() == old(State()).(quantity := newValue, quantityError := QuantityError(newValue))
      ensures Consistent(State())
    {
      quantity := newValue;
      if IsBlank(newValue) {
        quantityError := Some(EMPTY_QUANTITY);
      } else if ToIntOrNull(newValue).None? {
        quantityError := Some(NOT_A_NUMBER);
      } else if ToIntOrNull(newValue).value <= 0 {
        quantityError := Some(NOT_POSITIVE);
      } else {
        quantityError := None;
      }
    }

    method OnSpecialInstructionsChange(newValue: string)
      modifies this
      ensures State() == old(State()).(specialInstructions := newValue)
    {
      specialInstructions := newValue;
    }

    /**
     * The button's onClick: without a selection or a positive quantity nothing happens;
     * otherwise loading starts and the new order item goes to createOrderItem.
     */
    method Submit(orderId: int) returns (created: Option<OrderItem>)
      modifies this
      ensures !SubmitGuard(old(State())) ==> created.None? && State() == old(State())
      ensures SubmitGuard(old(State())) ==>
        && State() == old(State()).(isLoading := true)
        && created == Some(NewOrderItem(orderId, old(selectedMenuItem).value,
                                        ToIntOrNull(old(quantity)).value, old(specialInstructions)))
    {
      var qty := ToIntOrNull(quantity);
      if selectedMenuItem.Some? && qty.Some? && qty.value > 0 {
        isLoading := true;
        created := Some(NewOrderItem(orderId, selectedMenuItem.value, qty.value, specialInstructions));
      } else {
        created := None;
      }
    }

    /**
     * The effect keyed on createOrderItemResult: once it is non-null, loading stops, the
     * selection, quantity and instructions return to their initial values, and the caller is
     * told the item was added. The error message and the dropdown are left as they were.
     */
    method OnCreateResult(result: Option<OrderItem>) returns (added: bool)
      modifies this
      ensures added == result.Some?
      ensures result.Some? ==> State() == old(State()).(isLoading := false, selectedMenuItem := None,
                                                       quantity := "1", specialInstructions := "")
      ensures result.Some? ==> State().(expanded := INITIAL.expanded, quantityError := INITIAL.quantityError) == INITIAL
      ensures result.Some? && old(quantityError).None? ==> Consistent(State())
      ensures result.None? ==> State() == old(State())
    {
      added := result.Some?;
      if result.Some? {
        isLoading := false;
        selectedMenuItem := None;
        quantity := "1";
        specialInstructions := "";
        InitialIsConsistent();
      }
    }
  }
}
