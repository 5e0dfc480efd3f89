/**
 * The bottom sheet that creates an order from a table number typed as free text.
 */
module CreateOrder {
  import opened Wrappers
  import opened KotlinText
  import opened Model
  import OrderViewModels

  /**
   * What one click does: nothing on blank text, otherwise loading starts and either the new
   * order is sent or String.toInt() throws on text that is not an Int.
   */
  datatype SubmitOutcome = Ignored | Sent(order: Order) | Crashed

  /** The order the sheet builds: id 0, PENDING, no creation time, the parsed table number. */
  function NewOrder(tableNumber: Int32): (o: Order)
    ensures o.id == 0 && o.status == PENDING && o.orderTime.None? && o.tableNumber == tableNumber
  {
    Order(0, None, PENDING, tableNumber)
  }

  /** The click on given text; String.toInt() accepts exactly what toIntOrNull() accepts. */
  function SubmitOutcomeFor(tableNum: string): (r: SubmitOutcome)
    ensures r.Ignored? <==> IsBlank(tableNum)
    ensures r.Crashed? <==> !IsBlank(tableNum) && ToIntOrNull(tableNum).None?
    ensures r.Sent? ==> ToIntOrNull(tableNum) == Some(r.order.tableNumber as int)
    ensures r.Sent? ==> r.order == NewOrder(r.order.tableNumber)
  {
    if IsBlank(tableNum) then Ignored
    else match ToIntOrNull(tableNum)
      case None => Crashed
      case Some(n) => Sent(NewOrder(n))
  }

  /** Two inputs that pass the guard and crash: letters, and a digit string with a leading blank. */
  lemma CrashExamples()
    ensures SubmitOutcomeFor("abc") == Crashed
    ensures SubmitOutcomeFor(" 12") == Crashed
  {
    assert "abc"[0] == 'a' && !IsWhitespace('a') && !IsDigit('a');
    assert " 12"[1] == '1';
    assert !IsBlank(" 12");
    assert ToIntOrNull(" 12").None? by {
      assert !IsDigit(' ');
    }
  }

  /** Text that is a table number round-trips into the order sent. */
  lemma SendsRenderedTableNumber(n: Int32)
    ensures SubmitOutcomeFor(IntToString(n)) == Sent(NewOrder(n))
  {
    ParseIntToString(n, INT_MIN, INT_MAX);
    assert !IsBlank(IntToString(n)) by {
      var s := IntToString(n);
      if n >= 0 { assert IsDigit(s[0]); } else { assert s[0] == '-'; }
    }
  }

  /** Snapshot of the sheet's remembered state. */
  datatype Sheet = Sheet(tableNum: string, isLoading: bool)

  /**
   * The button's enabled state: not loading and some non-blank text. A click on an enabled
   * button is never ignored: it either sends an order or crashes.
   */
  function ButtonEnabled(s: Sheet): (enabled: bool)
    ensures enabled <==> !s.isLoading && !SubmitOutcomeFor(s.tableNum).Ignored?
  {
    !s.isLoading && !IsBlank(s.tableNum)
  }

  class CreateOrderSheet {
    var tableNum: string
    var isLoading: bool

    function State(): Sheet
      reads this
    {
      Sheet(tableNum, isLoading)
    }

    constructor ()
      ensures State() == Sheet("", false)
    {
      tableNum, isLoading := "", false;
    }

    /** No filter on the table number field: every edit is kept. */
    method OnTableNumChange(newValue: string)
      modifies this
      ensures State() == old(State()).(tableNum := newValue)
    {
      tableNum := newValue;
    }

    /** The button's onClick: loading is set before the text is converted, so a crash leaves it set. */
    method Submit() returns (outcome: SubmitOutcome)
      modifies this
      ensures outcome == SubmitOutcomeFor(old(tableNum))
      ensures State() == old(State()).(isLoading := old(isLoading) || !IsBlank(old(tableNum)))
    {
      if IsBlank(tableNum) {
        return Ignored;
      }
      isLoading := true;
      var tableNumber := ToIntOrNull(tableNum);
      if tableNumber.None? {
        return Crashed;
      }
      outcome := Sent(NewOrder(tableNumber.value));
    }

    /**
     * The effect keyed on createOrderResult: once it is non-null loading stops, the text is
     * cleared, the caller is told, and the view model's result cell is reset.
     */
    method OnCreateResult(result: Option<Order>, viewModel: OrderViewModels.OrderViewModel) returns (created: bool)
      modifies this, viewModel
      ensures created == result.Some?
      ensures result.Some? ==> State() == Sheet("", false)
      ensures result.Some? ==> viewModel.Cells() == old(viewModel.Cells()).(createOrderResult := None)
      ensures result.None? ==> State() == old(State()) && viewModel.Cells() == old(viewModel.Cells())
    {
      created := result.Some?;
      if result.Some? {
        isLoading := false;
        tableNum := "";
        viewModel.ResetCreateOrderResult();
      }
    }
  }
}
