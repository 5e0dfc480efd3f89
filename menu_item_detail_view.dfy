/**
 * The menu-item editor: a form over name, description and price text, filled once from the
 * fetched menu item, with dirty tracking, validation, a decimal-shaped price filter and the
 * update request its button sends.
 */
module MenuItemDetail {
  import opened Wrappers
  import opened KotlinText
  import opened Model

  /** The price text denotes a positive price. */
  predicate PositivePrice(price: string, doubles: DoubleText)
  {
    doubles.parse(price).Some? && doubles.parse(price).value > 0.0
  }

  /**
   * isError of the price field, which tests isNotEmpty where isValid tests isNotBlank: an empty
   * field shows no error, a field of only whitespace always shows it, and any other text shows
   * it exactly when it is not a positive price.
   */
  function PriceIsError(value: string, doubles: DoubleText): (error: bool)
    ensures value == "" ==> !error
    ensures IsBlank(value) && value != "" ==> error
    ensures !IsBlank(value) ==> (error <==> !PositivePrice(value, doubles))
  {
    value != "" && (doubles.parse(value).None? || doubles.parse(value).value <= 0.0)
  }

  /**
   * The price field's filter: an edit is taken only if it is empty or matches ^\d*\.?\d*$,
   * that is, exactly when it is made of digits and at most one '.'.
   */
  function AcceptsPriceInput(newValue: string): (accepted: bool)
    ensures accepted <==>
      && (forall i :: 0 <= i < |newValue| ==> IsDigit(newValue[i]) || newValue[i] == '.')
      && (forall i, j :: 0 <= i < j < |newValue| && newValue[i] == '.' ==> newValue[j] != '.')
  {
    MatchesDecimalIff(newValue);
    newValue == "" || MatchesDecimal(newValue)
  }

  /** Snapshot of the form's eight mutable fields. */
  datatype MenuItemForm = MenuItemForm(
    name: string,
    description: string,
    price: string,
    originalName: string,
    originalDescription: string,
    originalPrice: string,
    isLoading: bool,
    isInitialized: bool)

  /** hasChanges: some field differs from the value the form was filled with. */
  predicate HasChanges(f: MenuItemForm)
  {
    f.name != f.originalName || f.description != f.originalDescription || f.price != f.originalPrice
  }

  /**
   * isValid(): name, description and price are not blank and the price is positive; a valid
   * form never shows the price error.
   */
  function IsValid(f: MenuItemForm, doubles: DoubleText): (valid: bool)
    ensures valid <==> && !IsBlank(f.name) && !IsBlank(f.description) && !IsBlank(f.price)
                       && !PriceIsError(f.price, doubles)
  {
    !IsBlank(f.name) && !IsBlank(f.description) && !IsBlank(f.price) && PositivePrice(f.price, doubles)
  }

  /** The update button's enabled state; it is never enabled while the price shows an error. */
  function UpdateEnabled(f: MenuItemForm, doubles: DoubleText): (enabled: bool)
    ensures enabled ==> !PriceIsError(f.price, doubles) && PositivePrice(f.price, doubles)
  {
    !f.isLoading && HasChanges(f) && IsValid(f, doubles)
  }

  /**
   * The update button is enabled exactly when the form is idle, changed, has non-blank name,
   * description and price, and shows no price error; in particular an error on the price field
   * blocks the update, and a blank price blocks it without an error being shown.
   */
  lemma UpdateEnabledIff(f: MenuItemForm, doubles: DoubleText)
    ensures UpdateEnabled(f, doubles) <==>
      && !f.isLoading && HasChanges(f)
      && !IsBlank(f.name) && !IsBlank(f.description) && !IsBlank(f.price)
      && !PriceIsError(f.price, doubles)
    ensures PriceIsError(f.price, doubles) ==> !UpdateEnabled(f, doubles)
    ensures f.price == "" ==> !PriceIsError(f.price, doubles) && !UpdateEnabled(f, doubles)
  {
  }

  /** The form as initializeFrom leaves it; the price text is Double.toString of the price. */
  function InitializedFrom(f: MenuItemForm, menuItem: MenuItem, doubles: DoubleText): (g: MenuItemForm)
    ensures !HasChanges(g) && !UpdateEnabled(g, doubles) && g.isInitialized && g.isLoading == f.isLoading
    ensures g.name == menuItem.name && g.description == menuItem.description
    ensures g.price == doubles.render(menuItem.price)
  {
    var priceText := doubles.render(menuItem.price);
    MenuItemForm(menuItem.name, menuItem.description, priceText,
                 menuItem.name, menuItem.description, priceText, f.isLoading, true)
  }

  /** The arguments handleUpdateMenuItem passes to updateMenuItem. */
  datatype UpdateRequest = UpdateRequest(id: Int32, item: MenuItem)

  /** The item the update sends: the route's id, trimmed name and description, the parsed price. */
  function UpdatedMenuItem(menuItemId: Int64, name: string, description: string, price: real): (r: MenuItem)
    ensures r.id == menuItemId && r.price == price
    ensures r.name == Trim(name) && r.description == Trim(description)
  {
    MenuItem(Trim(description), menuItemId, Trim(name), price)
  }

  /** The form's state holder: each field is one remembered MutableState. */
  class MenuItemFormState {
    var name: string
    var description: string
    var price: string
    var originalName: string
    var originalDescription: string
    var originalPrice: string
    var isLoading: bool
    var isInitialized: bool
    /** toDoubleOrNull and Double.toString. */
    const doubles: DoubleText

    function Form(): MenuItemForm
      reads this
    {
      MenuItemForm(name, description, price, originalName, originalDescription, originalPrice,
                   isLoading, isInitialized)
    }

    /** The remembered initial state: empty texts, not loading, not yet filled. */
    constructor (doubles: DoubleText)
      ensures Form() == MenuItemForm("", "", "", "", "", "", false, false)
      ensures this.doubles == doubles
    {
      name, description, price := "", "", "";
      originalName, originalDescription, originalPrice := "", "", "";
      isLoading, isInitialized := false, false;
      this.doubles := doubles;
    }

    method InitializeFrom(menuItem: MenuItem)
      modifies this
      ensures Form() == InitializedFrom(old(Form()), menuItem, doubles)
    {
      var priceText := doubles.render(menuItem.price);
      name, description, price := menuItem.name, menuItem.description, priceText;
      originalName, originalDescription, originalPrice := menuItem.name, menuItem.description, priceText;
      isInitialized := true;
    }

    /**
     * The effect keyed on the fetched menu item: the form is filled from the first non-null
     * item only, so a later item never overwrites the user's edits.
     */
    method OnMenuItemChanged(menuItem: Option<MenuItem>)
      modifies this
      ensures menuItem.Some? && !old(isInitialized) ==> Form() == InitializedFrom(old(Form()), menuItem.value, doubles)
      ensures menuItem.None? || old(isInitialized) ==> Form() == old(Form())
    {
      if menuItem.Some? && !isInitialized {
        InitializeFrom(menuItem.value);
      }
    }

    method OnNameChange(newValue: string)
      modifies this
      ensures Form() == old(Form()).(name := newValue)
    {
      name := newValue;
    }

    method OnDescriptionChange(newValue: string)
      modifies this
      ensures Form() == old(Form()).(description := newValue)
    {
      description := newValue;
    }

    /** The price field's onValueChange behind its filter: a rejected edit leaves the field as it was. */
    method OnPriceChange(newValue: string)
      modifies this
      ensures Form() == old(Form()).(price := if AcceptsPriceInput(newValue) then newValue else old(price))
    {
      if newValue == "" || MatchesDecimal(newValue) {
        price := newValue;
      }
    }

    /**
     * handleUpdateMenuItem: nothing happens on an invalid form; otherwise loading starts and
     * the item goes out under the route's id, narrowed to Int for the call.
     */
    method HandleUpdateMenuItem(menuItemId: Int64) returns (request: Option<UpdateRequest>)
      modifies this
      ensures !IsValid(old(Form()), doubles) ==> request.None? && Form() == old(Form())
      ensures IsValid(old(Form()), doubles) ==>
        && Form() == old(Form()).(isLoading := true)
        && request == Some(UpdateRequest(LongToInt(menuItemId),
                             UpdatedMenuItem(menuItemId, name, description, doubles.parse(price).value)))
    {
      if !(!IsBlank(name) && !IsBlank(description) && !IsBlank(price) && PositivePrice(price, doubles)) {
        return None;
      }
      var priceValue := doubles.parse(price);
      if priceValue.None? {
        return None;
      }
      isLoading := true;
      var updated := UpdatedMenuItem(menuItemId, name, description, priceValue.value);
      request := Some(UpdateRequest(LongToInt(menuItemId), updated));
    }

    /**
     * The effect keyed on the update result: on a non-null result loading stops, the view
     * model's update cell is to be reset, and the screen navigates back.
     */
    method OnUpdateResult(result: Option<MenuItem>) returns (resetResult: bool, navigateBack: bool)
      modifies this
      ensures resetResult == navigateBack == result.Some?
      ensures result.Some? ==> Form() == old(Form()).(isLoading := false)
      ensures result.None? ==> Form() == old(Form())
    {
      resetResult, navigateBack := result.Some?, result.Some?;
      if result.Some? {
        isLoading := false;
      }
    }
  }
}
