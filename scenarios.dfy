/** Worked examples of the statements and of the execution policy. */
module Scenarios {
  import opened Wrappers
  import opened Text
  import opened SchemaStatements

  /** One column on each side, no options. */
  lemma OrdersName()
    ensures ConstraintName("orders", Scalar("customer_id"), Scalar("id"), None) == "orders_customer_id_id"
  {
  }

  /** Two columns on each side: every column name joins the derived name. */
  lemma LineItemsName()
    ensures ConstraintName("line_items", Many(["order_id", "sku"]), Many(["id", "sku"]), None)
         == "line_items_order_id_sku_id_sku"
  {
    assert Join(["order_id", "sku"], "_") == "order_id_sku";
    assert Join(["id", "sku"], "_") == "id_sku";
  }

  /** A client of the execution policy: the standard DROP is refused, so the
      fallback runs; when that is refused too and no hook exists, its error is
      raised; an error outside StandardError stops at the first DROP and is raised
      even with a hook. */
  method RemoveScenario()
  {
    var refused := DbError("syntax error", true);
    var mysql: Executor := q => if q == DropQuery("orders", "fk") then Some(refused) else None;
    var attempted, outcome := ExecuteRemove("orders", Scalar("customer_id"), Scalar("id"),
                                            Options(Some("fk"), None, None), false, mysql);
    DropQueriesDiffer("orders", "fk");
    assert attempted == [DropQuery("orders", "fk"), DropFallbackQuery("orders", "fk")];
    assert outcome == Ok;

    var nothing: Executor := q => Some(refused);
    attempted, outcome := ExecuteRemove("orders", Scalar("customer_id"), Scalar("id"),
                                        Options(Some("fk"), None, None), false, nothing);
    assert |attempted| == 2 && outcome == Raised(refused);

    attempted, outcome := ExecuteRemove("orders", Scalar("customer_id"), Scalar("id"),
                                        Options(Some("fk"), None, None), true, nothing);
    assert outcome == Reported(refused);

    // An Interrupt is no StandardError: no fallback, and the hook does not see it.
    var interrupt := DbError("Interrupt", false);
    var interrupted: Executor := q => Some(interrupt);
    attempted, outcome := ExecuteRemove("orders", Scalar("customer_id"), Scalar("id"),
                                        Options(Some("fk"), None, None), true, interrupted);
    assert attempted == [DropQuery("orders", "fk")] && outcome == Raised(interrupt);
  }
}
