/**
 * The app's navigation destinations: their route patterns and titles, the list shown in the
 * bottom bar, and the builders that fill a pattern's {placeholders} with ids.
 */
module Navigation {
  import opened Wrappers
  import opened KotlinText

  datatype NavItem = Orders | MenuItem | Settings | OrderDetail | MenuItemDetail | EditOrderItem
  {
    /** The route pattern, with a {name} placeholder per argument. */
    function Route(): string
    {
      match this
      case Orders => "orders"
      case MenuItem => "menuItem"
      case Settings => "settings"
      case OrderDetail => "orderDetail/{orderId}"
      case MenuItemDetail => "menuItemDetail/{menuItemId}"
      case EditOrderItem => "editOrderItem/{orderId}/{menuItemId}"
    }

    function Title(): string
    {
      match this
      case Orders => "Orders"
      case MenuItem => "Menu Items"
      case Settings => "Settings"
      case OrderDetail => "Order Detail"
      case MenuItemDetail => "Menu Item Detail"
      case EditOrderItem => "Edit Order Item"
    }
  }

  /** The companion's list of top-level destinations. */
  const ALL: seq<NavItem> := [Orders, MenuItem, Settings]

  /** The top-level destinations are the three without arguments, in bar order, with distinct routes. */
  lemma AllDestinations()
    ensures |ALL| == 3 && ALL[0] == Orders && ALL[1] == MenuItem && ALL[2] == Settings
    ensures forall i, j :: 0 <= i < j < |ALL| ==> ALL[i].Route() != ALL[j].Route()
    ensures forall i :: 0 <= i < |ALL| ==> '{' !in ALL[i].Route()
  {
    assert "orders"[0] != "menuItem"[0] && "orders"[1] != "settings"[1] && "menuItem"[0] != "settings"[0];
  }

  /**
   * A pattern with its placeholders replaced, left to right, by the arguments; a '{' with no
   * '}' after it, or with no argument left, stays as it is.
   */
  function Fill(pattern: string, args: seq<string>): string
    decreases |pattern|
  {
    if pattern == [] then []
    else if pattern[0] == '{' && '}' in pattern && args != [] then
      args[0] + Fill(pattern[IndexOf(pattern, '}') + 1..], args[1..])
    else
      [pattern[0]] + Fill(pattern[1..], args)
  }

  /** Text without '{' is copied unchanged. */
  lemma {:induction false} FillLiteral(literal: string, rest: string, args: seq<string>)
    requires '{' !in literal
    ensures Fill(literal + rest, args) == literal + Fill(rest, args)
  {
    if literal != [] {
      var p := literal + rest;
      assert p[0] == literal[0] && p[1..] == literal[1..] + rest;
      assert literal[0] != '{';
      assert Fill(p, args) == [literal[0]] + Fill(literal[1..] + rest, args);
      FillLiteral(literal[1..], rest, args);
      assert literal == [literal[0]] + literal[1..];
      assert Fill(p, args) == [literal[0]] + (literal[1..] + Fill(rest, args));
    } else {
      assert literal + rest == rest;
    }
  }

  /** A placeholder is replaced by the next argument. */
  lemma FillPlaceholder(name: string, rest: string, args: seq<string>)
    requires '}' !in name && args != []
    ensures Fill("{" + name + "}" + rest, args) == args[0] + Fill(rest, args[1..])
  {
    var p := "{" + name + "}" + rest;
    assert p[|name| + 1] == '}';
    assert p[..|name| + 1] == "{" + name;
    assert IndexOf(p, '}') == |name| + 1;
    assert p[|name| + 2..] == rest;
  }

  /** OrderDetail.createRoute(orderId: Int): "orderDetail/" and the decimal id. */
  function OrderDetailRoute(orderId: Int32): string
  {
    "orderDetail/" + IntToString(orderId)
  }

  /** MenuItemDetail.createRoute(menuItemId: Long). */
  function MenuItemDetailRoute(menuItemId: Int64): string
  {
    "menuItemDetail/" + IntToString(menuItemId)
  }

  /** EditOrderItem.createRoute(orderId: Long, menuItemId: Long). */
  function EditOrderItemRoute(orderId: Int64, menuItemId: Int64): string
  {
    "editOrderItem/" + IntToString(orderId) + "/" + IntToString(menuItemId)
  }

  /** A pattern with a literal head and one trailing placeholder. */
  lemma FillSinglePlaceholder(head: string, name: string, arg: string)
    requires '{' !in head && '}' !in name
    ensures Fill(head + ("{" + name + "}" + ""), [arg]) == head + arg
  {
    FillPlaceholder(name, "", [arg]);
    FillLiteral(head, "{" + name + "}" + "", [arg]);
  }

  /** Each builder's result is its destination's pattern filled with the decimal argument. */
  lemma OrderDetailRouteFillsPattern(orderId: Int32)
    ensures OrderDetailRoute(orderId) == Fill(OrderDetail.Route(), [IntToString(orderId)])
  {
    assert OrderDetail.Route() == "orderDetail/" + ("{" + "orderId" + "}" + "");
    FillSinglePlaceholder("orderDetail/", "orderId", IntToString(orderId));
  }

  lemma MenuItemDetailRouteFillsPattern(menuItemId: Int64)
    ensures MenuItemDetailRoute(menuItemId) == Fill(MenuItemDetail.Route(), [IntToString(menuItemId)])
  {
    assert MenuItemDetail.Route() == "menuItemDetail/" + ("{" + "menuItemId" + "}" + "");
    FillSinglePlaceholder("menuItemDetail/", "menuItemId", IntToString(menuItemId));
  }

  lemma EditOrderItemRouteFillsPattern(orderId: Int64, menuItemId: Int64)
    ensures EditOrderItemRoute(orderId, menuItemId) ==
            Fill(EditOrderItem.Route(), [IntToString(orderId), IntToString(menuItemId)])
  {
    var o, m := IntToString(orderId), IntToString(menuItemId);
    FillEditPattern(o, m);
    Regroup("editOrderItem/", o, "/", m);
  }

  /** Regrouping a four-part concatenation. */
  lemma Regroup(a: string, b: string, c: string, d: string)
    ensures a + b + c + d == a + (b + c + d)
  {
  }

  /** The order-item pattern filled with two arbitrary texts. */
  lemma FillEditPattern(o: string, m: string)
    ensures Fill(EditOrderItem.Route(), [o, m]) == "editOrderItem/" + (o + "/" + m)
  {
    var head := "{orderId}" + ("/" + "{menuItemId}");
    assert EditOrderItem.Route() == "editOrderItem/" + head;
    FillTwoPlaceholders(o, m);
    FillLiteral("editOrderItem/", head, [o, m]);
  }

  /** The argument part of the order-item pattern. */
  lemma FillTwoPlaceholders(o: string, m: string)
    ensures Fill("{orderId}" + ("/" + "{menuItemId}"), [o, m]) == o + "/" + m
  {
    var tail := "{" + "menuItemId" + "}" + "";
    assert tail == "{menuItemId}";
    FillPlaceholder("menuItemId", "", [m]);
    FillLiteral("/", tail, [m]);
    var middle := "/" + tail;
    assert "{orderId}" + ("/" + "{menuItemId}") == "{" + "orderId" + "}" + middle;
    FillPlaceholder("orderId", middle, [o, m]);
    assert [o, m][1..] == [m];
  }

  /**
   * Splitting an order-item route on '/' gives the destination name and the two ids in order,
   * and each id reads back with toLongOrNull.
   */
  lemma EditOrderItemRouteSplits(orderId: Int64, menuItemId: Int64)
    ensures var parts := Split(EditOrderItemRoute(orderId, menuItemId), '/');
      && parts == ["editOrderItem", IntToString(orderId), IntToString(menuItemId)]
      && ToLongOrNull(parts[1]) == Some(orderId as int)
      && ToLongOrNull(parts[2]) == Some(menuItemId as int)
  {
    var o, m := IntToString(orderId), IntToString(menuItemId);
    var parts := ["editOrderItem", o, m];
    IntToStringChars(orderId, '/');
    IntToStringChars(menuItemId, '/');
    assert Join(parts, '/') == "editOrderItem" + "/" + (o + "/" + m) by {
      assert parts[1..] == [o, m] && [o, m][1..] == [m];
      assert Join([m], '/') == m;
      assert Join([o, m], '/') == o + "/" + m;
    }
    assert "editOrderItem" + "/" + (o + "/" + m) == EditOrderItemRoute(orderId, menuItemId);
    SplitJoin(parts, '/');
    ParseIntToString(orderId, LONG_MIN, LONG_MAX);
    ParseIntToString(menuItemId, LONG_MIN, LONG_MAX);
  }

  /** The same for the one-argument routes: a name and an id that reads back. */
  lemma DetailRoutesSplit(orderId: Int32, menuItemId: Int64)
    ensures var parts := Split(OrderDetailRoute(orderId), '/');
      parts == ["orderDetail", IntToString(orderId)] && ToIntOrNull(parts[1]) == Some(orderId as int)
    ensures var parts := Split(MenuItemDetailRoute(menuItemId), '/');
      parts == ["menuItemDetail", IntToString(menuItemId)] && ToLongOrNull(parts[1]) == Some(menuItemId as int)
  {
    var o, m := IntToString(orderId), IntToString(menuItemId);
    IntToStringChars(orderId, '/');
    IntToStringChars(menuItemId, '/');
    assert Join(["orderDetail", o], '/') == OrderDetailRoute(orderId) by {
      assert ["orderDetail", o][1..] == [o];
    }
    assert Join(["menuItemDetail", m], '/') == MenuItemDetailRoute(menuItemId) by {
      assert ["menuItemDetail", m][1..] == [m];
    }
    SplitJoin(["orderDetail", o], '/');
    SplitJoin(["menuItemDetail", m], '/');
    ParseIntToString(orderId, INT_MIN, INT_MAX);
    ParseIntToString(menuItemId, LONG_MIN, LONG_MAX);
  }
}
