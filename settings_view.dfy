/**
 * The "delete all data" cascade of the settings screen: a confirmation dialog and a
 * deletion-step counter that sequences three bulk deletes, each requested only after the
 * previous one has reported a result.
 */
module Settings {
  import opened Wrappers

  /** The three bulk deletes the screen asks the view models for. */
  datatype Collection = OrderItems | Orders | MenuItems

  /**
   * What can happen on the screen: the "Delete All Data" button, the dialog's two callbacks,
   * and the three effects that observe the bulk-delete result cells (None is a null value).
   */
  datatype Event =
    | DeleteAllClicked
    | Confirmed
    | Dismissed
    | OrderItemsDeleted(orderItemsResult: Option<string>)
    | OrdersDeleted(ordersResult: Option<string>)
    | MenuItemsDeleted(menuItemsResult: Option<string>)

  /** The screen's two mutable cells and the bulk deletes requested so far, oldest first. */
  datatype Screen = Screen(showDeleteAllDialog: bool, deletionStep: int, requested: seq<Collection>)

  const Initial: Screen := Screen(false, 0, [])

  /**
   * Deletes are requested in cascade order: every Orders request comes right after an
   * OrderItems request, and every MenuItems request right after an Orders request.
   */
  predicate InCascadeOrder(log: seq<Collection>)
  {
    forall i :: 0 <= i < |log| ==> RequestedInTurn(log, i)
  }

  /** The request at position i is an OrderItems one, or comes right after the one it follows. */
  predicate RequestedInTurn(log: seq<Collection>, i: nat)
    requires i < |log|
  {
    && (log[i] == Orders ==> i > 0 && log[i - 1] == OrderItems)
    && (log[i] == MenuItems ==> i > 0 && log[i - 1] == Orders)
  }

  /**
   * The screen invariant: the step is 0..3, the requests are in cascade order, and the last
   * request is the one the step is waiting on (step 0: none yet, or the cascade finished).
   */
  predicate Valid(s: Screen)
  {
    && 0 <= s.deletionStep <= 3
    && InCascadeOrder(s.requested)
    && (s.deletionStep == 0 ==> s.requested == [] || s.requested[|s.requested| - 1] == MenuItems)
    && (s.deletionStep == 1 ==> s.requested != [] && s.requested[|s.requested| - 1] == OrderItems)
    && (s.deletionStep == 2 ==> s.requested != [] && s.requested[|s.requested| - 1] == Orders)
    && (s.deletionStep == 3 ==> s.requested != [] && s.requested[|s.requested| - 1] == MenuItems)
  }

  /** A request may be appended when it is the next one of the cascade. */
  lemma ExtendInCascadeOrder(log: seq<Collection>, c: Collection)
    requires InCascadeOrder(log)
    requires c == Orders ==> log != [] && log[|log| - 1] == OrderItems
    requires c == MenuItems ==> log != [] && log[|log| - 1] == Orders
    ensures InCascadeOrder(log + [c])
  {
    var log' := log + [c];
    forall i | 0 <= i < |log'| ensures RequestedInTurn(log', i) {
      if i < |log| {
        assert RequestedInTurn(log, i);
        assert log'[i] == log[i];
        if i > 0 { assert log'[i - 1] == log[i - 1]; }
      } else if c != OrderItems {
        assert log'[i - 1] == log[|log| - 1];
      }
    }
  }

  /**
   * One event. The button opens the dialog; confirming sets step 1, requests the order-item
   * delete and closes the dialog; dismissing only closes it; each result effect advances the
   * step and requests the next delete only at its own step and only for a non-null result.
   * The invariant is preserved and at most one delete is requested per event.
   */
  function Next(s: Screen, e: Event): (r: Screen)
    ensures Valid(s) ==> Valid(r)
    ensures || r.requested == s.requested
            || (|r.requested| == |s.requested| + 1 && r.requested[..|s.requested|] == s.requested)
    ensures |r.requested| > |s.requested| && r.requested[|r.requested| - 1] == OrderItems <==> e.Confirmed?
  {
    match e
    case DeleteAllClicked => s.(showDeleteAllDialog := true)
    case Confirmed =>
      assert InCascadeOrder(s.requested) ==> InCascadeOrder(s.requested + [OrderItems]) by {
        if InCascadeOrder(s.requested) { ExtendInCascadeOrder(s.requested, OrderItems); }
      }
      assert (s.requested + [OrderItems])[..|s.requested|] == s.requested;
      Screen(false, 1, s.requested + [OrderItems])
    case Dismissed => s.(showDeleteAllDialog := false)
    case OrderItemsDeleted(result) =>
      if s.deletionStep == 1 && result.Some? then
        assert Valid(s) ==> InCascadeOrder(s.requested + [Orders]) by {
          if Valid(s) { ExtendInCascadeOrder(s.requested, Orders); }
        }
        assert (s.requested + [Orders])[..|s.requested|] == s.requested;
        s.(deletionStep := 2, requested := s.requested + [Orders])
      else s
    case OrdersDeleted(result) =>
      if s.deletionStep == 2 && result.Some? then
        assert Valid(s) ==> InCascadeOrder(s.requested + [MenuItems]) by {
          if Valid(s) { ExtendInCascadeOrder(s.requested, MenuItems); }
        }
        assert (s.requested + [MenuItems])[..|s.requested|] == s.requested;
        s.(deletionStep := 3, requested := s.requested + [MenuItems])
      else s
    case MenuItemsDeleted(result) =>
      if s.deletionStep == 3 && result.Some? then s.(deletionStep := 0) else s
  }

  /** The screen after a sequence of events. */
  function Run(s: Screen, events: seq<Event>): Screen
    decreases |events|
  {
    if events == [] then s else Run(Next(s, events[0]), events[1..])
  }

  /** From the initial screen, every sequence of events keeps the invariant: the step stays in 0..3. */
  lemma {:induction false} RunKeepsValid(s: Screen, events: seq<Event>)
    requires Valid(s)
    ensures Valid(Run(s, events))
    ensures 0 <= Run(s, events).deletionStep <= 3
    decreases |events|
  {
    if events != [] {
      RunKeepsValid(Next(s, events[0]), events[1..]);
    }
  }

  /**
   * Each bulk delete is requested at most once per confirmation: between two requests for
   * orders, or two for menu items, there is a request for order items, which only a
   * confirmation makes.
   */
  lemma AtMostOncePerConfirmation(log: seq<Collection>, i: nat, j: nat)
    requires InCascadeOrder(log)
    requires i < j < |log| && log[i] == log[j] && log[i] != OrderItems
    ensures OrderItems in log[i + 1..j]
  {
    assert RequestedInTurn(log, j);
    if log[j] == Orders {
      assert log[j - 1] == OrderItems;
      assert log[i + 1..j][j - 1 - (i + 1)] == OrderItems;
    } else {
      assert log[j - 1] == Orders;
      assert RequestedInTurn(log, j - 1);
      assert log[j - 2] == OrderItems;
      assert log[i + 1..j][j - 2 - (i + 1)] == OrderItems;
    }
  }

  /**
   * The step moves forward only by a confirmation (from 0) or on a non-null result for the
   * delete the step is waiting on.
   */
  lemma StepAdvancesOnlyOnResult(s: Screen, e: Event)
    requires Valid(s)
    requires Next(s, e).deletionStep == s.deletionStep + 1
    ensures s.deletionStep == 1 ==> e.OrderItemsDeleted? && e.orderItemsResult.Some?
    ensures s.deletionStep == 2 ==> e.OrdersDeleted? && e.ordersResult.Some?
    ensures s.deletionStep == 0 ==> e.Confirmed?
  {
  }

  /** Dismissing closes the dialog and leaves the step and the requests alone. */
  lemma DismissKeepsStep(s: Screen)
    ensures Next(s, Dismissed) == s.(showDeleteAllDialog := false)
  {
  }

  /** A complete run: confirm, then the three results arrive, and everything is deleted in order. */
  lemma FullCascade(a: string, b: string, c: string)
    ensures Run(Initial, [DeleteAllClicked, Confirmed, OrderItemsDeleted(Some(a)),
                          OrdersDeleted(Some(b)), MenuItemsDeleted(Some(c))])
            == Screen(false, 0, [OrderItems, Orders, MenuItems])
  {
    var events := [DeleteAllClicked, Confirmed, OrderItemsDeleted(Some(a)),
                   OrdersDeleted(Some(b)), MenuItemsDeleted(Some(c))];
    var s1 := Next(Initial, events[0]);
    var s2 := Next(s1, events[1]);
    var s3 := Next(s2, events[2]);
    var s4 := Next(s3, events[3]);
    var s5 := Next(s4, events[4]);
    assert Run(s5, events[5..]) == s5;
    assert Run(s4, events[4..]) == s5 by { assert events[4..][1..] == events[5..]; }
    assert Run(s3, events[3..]) == s5 by { assert events[3..][1..] == events[4..]; }
    assert Run(s2, events[2..]) == s5 by { assert events[2..][1..] == events[3..]; }
    assert Run(s1, events[1..]) == s5 by { assert events[1..][1..] == events[2..]; }
    assert s5 == Screen(false, 0, [OrderItems, Orders, MenuItems]);
  }

  /**
   * The screen's state holder: the two remembered cells, and the bulk deletes the callbacks
   * have asked the view models for. The dialog callbacks exist only while the dialog is shown.
   */
  class SettingsView {
    var showDeleteAllDialog: bool
    var deletionStep: int
    var requested: seq<Collection>

    function State(): Screen
      reads this
    {
      Screen(showDeleteAllDialog, deletionStep, requested)
    }

    constructor ()
      ensures State() == Initial && Valid(State())
    {
      showDeleteAllDialog, deletionStep, requested := false, 0, [];
    }

    method OnDeleteAllClick()
      modifies this
      ensures State() == Next(old(State()), DeleteAllClicked)
      ensures showDeleteAllDialog
    {
      showDeleteAllDialog := true;
    }

    method OnConfirm()
      requires showDeleteAllDialog
      modifies this
      ensures State() == Next(old(State()), Confirmed)
      ensures deletionStep == 1 && !showDeleteAllDialog
      ensures requested == old(requested) + [OrderItems]
    {
      deletionStep := 1;
      requested := requested + [OrderItems];
      showDeleteAllDialog := false;
    }

    method OnDismiss()
      requires showDeleteAllDialog
      modifies this
      ensures State() == Next(old(State()), Dismissed)
      ensures !showDeleteAllDialog && deletionStep == old(deletionStep) && requested == old(requested)
    {
      showDeleteAllDialog := false;
    }

    method OnOrderItemsDeleted(result: Option<string>)
      modifies this
      ensures State() == Next(old(State()), OrderItemsDeleted(result))
    {
      if deletionStep == 1 && result.Some? {
        deletionStep := 2;
        requested := requested + [Orders];
      }
    }

    method OnOrdersDeleted(result: Option<string>)
      modifies this
      ensures State() == Next(old(State()), OrdersDeleted(result))
    {
      if deletionStep == 2 && result.Some? {
        deletionStep := 3;
        requested := requested + [MenuItems];
      }
    }

    method OnMenuItemsDeleted(result: Option<string>)
      modifies this
      ensures State() == Next(old(State()), MenuItemsDeleted(result))
    {
      if deletionStep == 3 && result.Some? {
        deletionStep := 0;
      }
    }
  }
}
