/**
 * The bottom sheet that creates a menu item: three free-text fields, a button enabled by the
 * same check its click repeats, and the record it sends.
 */
module CreateMenuItem {
  import opened Wrappers
  import opened KotlinText
  import opened Model
  import MenuItemDetail

  /** Snapshot of the sheet's remembered state. */
  datatype Sheet = Sheet(name: string, description: string, price: string, isLoading: bool)

  const INITIAL: Sheet := Sheet("", "", "", false)

  /**
   * The click handler's nested check: three non-blank fields, then a positive parsed price.
   * The creator accepts exactly the texts the editor calls valid.
   */
  function SubmitGuard(s: Sheet, doubles: DoubleText): (guard: bool)
    ensures guard <==>
      MenuItemDetail.IsValid(MenuItemDetail.MenuItemForm(s.name, s.description, s.price, "", "", "", false, false), doubles)
  {
    if !IsBlank(s.name) && !IsBlank(s.description) && !IsBlank(s.price) then
      var priceValue := doubles.parse(s.price);
      priceValue.Some? && priceValue.value > 0.0
    else
      false
  }

  /**
   * The button's enabled expression, written out on its own: it is the click handler's guard
   * plus not loading.
   */
  function ButtonEnabled(s: Sheet, doubles: DoubleText): (enabled: bool)
    ensures enabled <==> !s.isLoading && SubmitGuard(s, doubles)
  {
    && !s.isLoading
    && !IsBlank(s.name)
    && !IsBlank(s.description)
    && !IsBlank(s.price)
    && doubles.parse(s.price).Some?
    && doubles.parse(s.price).value > 0.0
  }

  /** The item the sheet creates: id 0 for the backend to assign, name and description untrimmed. */
  function NewMenuItem(name: string, description: string, price: real): (r: MenuItem)
    ensures r.id == 0 && r.name == name && r.description == description && r.price == price
  {
    MenuItem(description, 0, name, price)
  }

  /**
   * Unlike the editor, the creator does not trim: a name with surrounding blanks is sent as
   * typed here but trimmed when the same text is saved from the editor.
   */
  lemma CreatorKeepsBlanksEditorTrims(menuItemId: Int64, name: string, description: string, price: real)
    requires name != [] && IsWhitespace(name[0])
    ensures NewMenuItem(name, description, price).name != MenuItemDetail.UpdatedMenuItem(menuItemId, name, description, price).name
  {
    var trimmed := Trim(name);
    assert trimmed == [] || !IsWhitespace(trimmed[0]);
  }

  class CreateMenuItemSheet {
    var name: string
    var description: string
    var price: string
    var isLoading: bool
    /** toDoubleOrNull. */
    const doubles: DoubleText

    function State(): Sheet
      reads this
    {
      Sheet(name, description, price, isLoading)
    }

    constructor (doubles: DoubleText)
      ensures State() == INITIAL && this.doubles == doubles
    {
      name, description, price, isLoading := "", "", "", false;
      this.doubles := doubles;
    }

    method OnNameChange(newValue: string)
      modifies this
      ensures State() == old(State()).(name := newValue)
    {
      name := newValue;
    }

    method OnDescriptionChange(newValue: string)
      modifies this
      ensures State() == old(State()).(description := newValue)
    {
      description := newValue;
    }

    /** No filter on this price field: every edit is kept. */
    method OnPriceChange(newValue: string)
      modifies this
      ensures State() == old(State()).(price := newValue)
    {
      price := newValue;
    }

    /** The button's onClick: past the guard loading starts and the new item goes to createMenuItem. */
    method Submit() returns (created: Option<MenuItem>)
      modifies this
      ensures !SubmitGuard(old(State()), doubles) ==> created.None? && State() == old(State())
      ensures SubmitGuard(old(State()), doubles) ==>
        && State() == old(State()).(isLoading := true)
        && created == Some(NewMenuItem(name, description, doubles.parse(price).value))
    {
      created := None;
      if !IsBlank(name) && !IsBlank(description) && !IsBlank(price) {
        var priceValue := doubles.parse(price);
        if priceValue.Some? && priceValue.value > 0.0 {
          isLoading := true;
          created := Some(NewMenuItem(name, description, priceValue.value));
        }
      }
    }

    /**
     * The effect keyed on createMenuItemResult: once it is non-null the sheet returns to its
     * initial state, the caller is told, and the result cell is to be reset.
     */
    method OnCreateResult(result: Option<MenuItem>) returns (created: bool, resetResult: bool)
      modifies this
      ensures created == resetResult == result.Some?
      ensures result.Some? ==> State() == INITIAL
      ensures result.None? ==> State() == old(State())
    {
      created, resetResult := result.Some?, result.Some?;
      if result.Some? {
        isLoading := false;
        name, description, price := "", "", "";
      }
    }
  }
}
