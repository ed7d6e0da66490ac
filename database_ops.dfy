/** `DatabaseService` of api/services/database_ops.py over an in-memory copy
  * of the receipts and line_items tables. Each SQL statement may raise
  * (a lost connection, a constraint); which one does is an input to the
  * operation, so every failure path is explicit. Fresh line-item ids come
  * from a counter in place of `uuid.uuid4()`. */
module DatabaseOps {
  import opened Wrappers
  import opened Uuids
  import opened Schemas

  /** The contents of both tables, and the next unused line-item id. */
  datatype Store = Store(receipts: map<Uuid, ReceiptRow>, lineItems: seq<LineItemRow>, nextItemId: nat)

  /** The counter is above every line-item id in use and no two line items
    * share an id. */
  predicate ValidStore(st: Store)
  {
    && (forall k :: 0 <= k < |st.lineItems| ==> st.lineItems[k].id < st.nextItemId)
    && (forall k, m :: 0 <= k < m < |st.lineItems| ==> st.lineItems[k].id != st.lineItems[m].id)
  }

  /** The message PostgreSQL raises when the primary key is already taken. */
  const DUPLICATE_KEY_ERROR: string := "duplicate key value violates unique constraint \"receipts_pkey\""

  /** Which statement of `save_receipt_data` raises, counting the receipts
    * UPDATE as statement 0 and the insert of item k as statement k + 1. */
  datatype StatementFault = StatementFault(statement: nat, message: string)

  /** The row `create_initial_receipt` inserts. */
  function InitialReceipt(id: Uuid, imageUrl: string): (row: ReceiptRow)
    ensures row.id == id && row.imageUrl == imageUrl && row.status == Pending
    ensures row.merchantName.None? && row.purchaseDate.None? && row.totalAmount.None? && row.taxAmount.None?
  {
    ReceiptRow(id, imageUrl, None, None, None, None, Pending)
  }

  /** The UPDATE of `update_receipt_status`: the row with that id, if any,
    * gets the new status. */
  function WithReceiptStatus(st: Store, id: Uuid, status: ReceiptStatus): Store
  {
    if id in st.receipts then st.(receipts := st.receipts[id := st.receipts[id].(status := status)]) else st
  }

  /** The receipts UPDATE of `save_receipt_data`. */
  function WithSavedFields(st: Store, id: Uuid, e: ReceiptExtraction): Store
  {
    if id in st.receipts then
      var row := st.receipts[id];
      st.(receipts := st.receipts[id := row.(merchantName := Some(e.merchantName), purchaseDate := Some(e.purchaseDate),
                                             totalAmount := Some(e.totalAmount), taxAmount := Some(e.taxAmount),
                                             status := Complete)])
    else st
  }

  /** The line_items row inserted for one extracted item. */
  function ItemRow(itemId: LineItemId, receiptId: Uuid, item: LineItemExtraction): LineItemRow
  {
    LineItemRow(itemId, receiptId, item.description, item.category, item.quantity, item.unitPrice, item.totalPrice)
  }

  /** The rows inserted for `items`, with consecutive ids from `start`. */
  function ItemRows(start: nat, receiptId: Uuid, items: seq<LineItemExtraction>): (rows: seq<LineItemRow>)
    ensures |rows| == |items|
  {
    seq(|items|, k requires 0 <= k < |items| => ItemRow(start + k, receiptId, items[k]))
  }

  /** The tables after the first `k` statements of `save_receipt_data`. */
  function AfterStatements(st: Store, id: Uuid, e: ReceiptExtraction, k: nat): Store
    requires k <= |e.lineItems| + 1
  {
    if k == 0 then st
    else
      WithSavedFields(st, id, e).(lineItems := st.lineItems + ItemRows(st.nextItemId, id, e.lineItems[..k - 1]),
                                  nextItemId := st.nextItemId + (k - 1))
  }

  /** The tables after a `save_receipt_data` in which nothing raised. */
  function SaveReceipt(st: Store, id: Uuid, e: ReceiptExtraction): Store
  {
    AfterStatements(st, id, e, |e.lineItems| + 1)
  }

  /** `update_receipt_status` changes the status of its own row and nothing
    * else; a missing id changes nothing. */
  lemma WithReceiptStatusFacts(st: Store, id: Uuid, status: ReceiptStatus)
    ensures var r := WithReceiptStatus(st, id, status);
      && r.lineItems == st.lineItems && r.nextItemId == st.nextItemId
      && r.receipts.Keys == st.receipts.Keys
      && (forall k :: k in st.receipts && k != id ==> r.receipts[k] == st.receipts[k])
      && (id in st.receipts ==> r.receipts[id] == st.receipts[id].(status := status))
      && (id !in st.receipts ==> r == st)
  {
  }

  /** A complete save fills in the four extracted fields, sets the status to
    * complete, keeps every other receipt, and appends one row per item in
    * list order, each pointing at the receipt and copying the item. */
  lemma {:induction false} SaveReceiptFacts(st: Store, id: Uuid, e: ReceiptExtraction)
    requires id in st.receipts
    ensures var r := SaveReceipt(st, id, e);
      && r.receipts.Keys == st.receipts.Keys
      && (forall k :: k in st.receipts && k != id ==> r.receipts[k] == st.receipts[k])
      && r.receipts[id].id == st.receipts[id].id && r.receipts[id].imageUrl == st.receipts[id].imageUrl
      && r.receipts[id].merchantName == Some(e.merchantName)
      && r.receipts[id].purchaseDate == Some(e.purchaseDate)
      && r.receipts[id].totalAmount == Some(e.totalAmount)
      && r.receipts[id].taxAmount == Some(e.taxAmount)
      && r.receipts[id].status == Complete
      && |r.lineItems| == |st.lineItems| + |e.lineItems|
      && r.lineItems[..|st.lineItems|] == st.lineItems
      && (forall k :: 0 <= k < |e.lineItems| ==>
            var row := r.lineItems[|st.lineItems| + k];
            && row.receiptId == id
            && row.description == e.lineItems[k].description
            && row.category == e.lineItems[k].category
            && row.quantity == e.lineItems[k].quantity
            && row.unitPrice == e.lineItems[k].unitPrice
            && row.totalPrice == e.lineItems[k].totalPrice)
  {
    var r := SaveReceipt(st, id, e);
    assert e.lineItems[..|e.lineItems|] == e.lineItems;
    assert r.lineItems == st.lineItems + ItemRows(st.nextItemId, id, e.lineItems);
    forall k | 0 <= k < |e.lineItems|
      ensures r.lineItems[|st.lineItems| + k] == ItemRow(st.nextItemId + k, id, e.lineItems[k])
    {
    }
  }

  /** Statement i + 1 of a save inserts item i with the next id. */
  lemma AfterNextStatement(st: Store, id: Uuid, e: ReceiptExtraction, i: nat)
    requires i < |e.lineItems|
    ensures var before := AfterStatements(st, id, e, i + 1);
      AfterStatements(st, id, e, i + 2)
      == before.(lineItems := before.lineItems + [ItemRow(before.nextItemId, id, e.lineItems[i])],
                 nextItemId := before.nextItemId + 1)
  {
    assert e.lineItems[..i + 1] == e.lineItems[..i] + [e.lineItems[i]];
    assert ItemRows(st.nextItemId, id, e.lineItems[..i + 1])
        == ItemRows(st.nextItemId, id, e.lineItems[..i]) + [ItemRow(st.nextItemId + i, id, e.lineItems[i])];
  }

  /** Every prefix of a save keeps the ids fresh and distinct: each new row
    * takes the counter, which then moves past it. */
  lemma {:induction false} AfterStatementsValid(st: Store, id: Uuid, e: ReceiptExtraction, k: nat)
    requires ValidStore(st) && k <= |e.lineItems| + 1
    ensures ValidStore(AfterStatements(st, id, e, k))
  {
    if k > 0 {
      var r := AfterStatements(st, id, e, k);
      var n := |st.lineItems|;
      var added := ItemRows(st.nextItemId, id, e.lineItems[..k - 1]);
      assert r.lineItems == st.lineItems + added;
      assert forall j :: 0 <= j < |added| ==> added[j].id == st.nextItemId + j;
      forall a | 0 <= a < |r.lineItems|
        ensures r.lineItems[a].id < r.nextItemId
      {
        if a >= n {
          assert r.lineItems[a] == added[a - n];
        }
      }
      forall a, b | 0 <= a < b < |r.lineItems|
        ensures r.lineItems[a].id != r.lineItems[b].id
      {
        if b >= n {
          assert r.lineItems[b] == added[b - n];
          if a >= n {
            assert r.lineItems[a] == added[a - n];
          } else {
            assert r.lineItems[a] == st.lineItems[a];
          }
        } else {
          assert r.lineItems[a] == st.lineItems[a] && r.lineItems[b] == st.lineItems[b];
        }
      }
    }
  }

  /** The two tables, updated in place by the three operations. */
  class ReceiptTables {
    var receipts: map<Uuid, ReceiptRow>
    var lineItems: seq<LineItemRow>
    var nextItemId: nat

    function Contents(): Store
      reads this
    {
      Store(receipts, lineItems, nextItemId)
    }

    /** The fresh-id invariant of the line items. */
    predicate Valid()
      reads this
    {
      ValidStore(Contents())
    }

    constructor (initial: Store)
      requires ValidStore(initial)
      ensures Contents() == initial && Valid()
    {
      receipts := initial.receipts;
      lineItems := initial.lineItems;
      nextItemId := initial.nextItemId;
    }

    /** `create_initial_receipt`: one INSERT in its own transaction. */
    method CreateInitialReceipt(id: Uuid, imageUrl: string, fault: Option<string>) returns (err: Option<string>)
      modifies this
      ensures fault.Some? ==> err == fault && Contents() == old(Contents())
      ensures fault.None? && id in old(receipts) ==> err == Some(DUPLICATE_KEY_ERROR) && Contents() == old(Contents())
      ensures fault.None? && id !in old(receipts) ==>
                err.None? && Contents() == old(Contents()).(receipts := old(receipts)[id := InitialReceipt(id, imageUrl)])
      ensures old(Valid()) ==> Valid()
    {
      if fault.Some? {
        return fault;
      }
      if id in receipts {
        return Some(DUPLICATE_KEY_ERROR);
      }
      receipts := receipts[id := InitialReceipt(id, imageUrl)];
      err := None;
    }

    /** `update_receipt_status`: one UPDATE in its own transaction. */
    method UpdateReceiptStatus(id: Uuid, status: ReceiptStatus, fault: Option<string>) returns (err: Option<string>)
      modifies this
      ensures err == fault
      ensures fault.Some? ==> Contents() == old(Contents())
      ensures fault.None? ==> Contents() == WithReceiptStatus(old(Contents()), id, status)
      ensures old(Valid()) ==> Valid()
    {
      if fault.Some? {
        return fault;
      }
      if id in receipts {
        receipts := receipts[id := receipts[id].(status := status)];
      }
      err := None;
    }

    /** One INSERT INTO line_items, numbered by the counter. */
    method InsertLineItem(id: Uuid, item: LineItemExtraction)
      modifies this
      ensures receipts == old(receipts)
      ensures lineItems == old(lineItems) + [ItemRow(old(nextItemId), id, item)]
      ensures nextItemId == old(nextItemId) + 1
    {
      lineItems := lineItems + [ItemRow(nextItemId, id, item)];
      nextItemId := nextItemId + 1;
    }

    /** `save_receipt_data`: the receipts UPDATE, then one INSERT per item.
      * It opens no transaction, so a statement that raises leaves the
      * earlier ones applied. */
    method SaveReceiptData(id: Uuid, e: ReceiptExtraction, fault: Option<StatementFault>) returns (err: Option<string>)
      modifies this
      ensures err.None? <==> fault.None? || fault.value.statement > |e.lineItems|
      ensures err.None? ==> Contents() == SaveReceipt(old(Contents()), id, e)
      ensures err.Some? ==> err == Some(fault.value.message)
                            && Contents() == AfterStatements(old(Contents()), id, e, fault.value.statement)
      ensures old(Valid()) ==> Valid()
    {
      ghost var st := Contents();
      if fault.Some? && fault.value.statement == 0 {
        return Some(fault.value.message);
      }
      if id in receipts {
        var row := receipts[id];
        receipts := receipts[id := row.(merchantName := Some(e.merchantName), purchaseDate := Some(e.purchaseDate),
                                        totalAmount := Some(e.totalAmount), taxAmount := Some(e.taxAmount),
                                        status := Complete)];
      }
      assert e.lineItems[..0] == [];
      assert Contents() == AfterStatements(st, id, e, 1);
      var i := 0;
      while i < |e.lineItems| && !(fault.Some? && fault.value.statement == i + 1)
        invariant 0 <= i <= |e.lineItems|
        invariant fault.Some? ==> fault.value.statement == 0 || fault.value.statement > i
        invariant Contents() == AfterStatements(st, id, e, i + 1)
      {
        InsertLineItem(id, e.lineItems[i]);
        AfterNextStatement(st, id, e, i);
        i := i + 1;
      }
      if ValidStore(st) {
        AfterStatementsValid(st, id, e, i + 1);
      }
      err := if i < |e.lineItems| then Some(fault.value.message) else None;
    }

    /** `save_receipt_data` inside `conn.transaction()`, as the persistence
      * stage calls it: a statement that raises rolls back all the others. */
    method SaveReceiptDataInTransaction(id: Uuid, e: ReceiptExtraction, fault: Option<StatementFault>) returns (err: Option<string>)
      modifies this
      ensures err.None? <==> fault.None? || fault.value.statement > |e.lineItems|
      ensures err.None? ==> Contents() == SaveReceipt(old(Contents()), id, e)
      ensures err.Some? ==> err == Some(fault.value.message) && Contents() == old(Contents())
      ensures old(Valid()) ==> Valid()
    {
      var savedReceipts, savedItems, savedNext := receipts, lineItems, nextItemId;
      err := SaveReceiptData(id, e, fault);
      if err.Some? {
        receipts, lineItems, nextItemId := savedReceipts, savedItems, savedNext;
      }
    }
  }
}
