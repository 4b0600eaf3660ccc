/**
 * The `Order` record and the `OrderManagement` store with its file
 * `orderId,customerId,medicineId,quantity`. Creating an order offers the ids
 * of the other two stores as choices and parses the chosen text back.
 */
module Orders {
  import opened Wrappers
  import opened JavaStrings
  import opened LineFiles
  import opened Medicines
  import opened Customers

  datatype Order = Order(orderId: Int32, customerId: Int32, medicineId: Int32, quantity: Int32)

  /** The line `saveOrders` writes for o. */
  function OrderLine(o: Order): string
  {
    IntToString(o.orderId) + "," + IntToString(o.customerId) + "," + IntToString(o.medicineId) + "," + IntToString(o.quantity)
  }

  /** The loader's reading of a split line: four ints, each piece indexed before it is parsed; later pieces are ignored. */
  function ParseOrderFields(parts: seq<string>): (r: Result<Order, FieldError>)
    ensures r.Ok? <==> |parts| >= 4 && forall k :: 0 <= k < 4 ==> ParseInt(parts[k]).Some?
    ensures r.Ok? ==> r.value == Order(ParseInt(parts[0]).value, ParseInt(parts[1]).value, ParseInt(parts[2]).value, ParseInt(parts[3]).value)
    ensures r.Err? && r.error.IndexOutOfBounds? ==>
      r.error.index == |parts| < 4 && forall k :: 0 <= k < |parts| ==> ParseInt(parts[k]).Some?
    ensures r.Err? && r.error.NumberFormat? ==>
      && r.error.index < |parts| && ParseInt(parts[r.error.index]).None?
      && forall k :: 0 <= k < r.error.index ==> ParseInt(parts[k]).Some?
  {
    if |parts| < 1 then Err(IndexOutOfBounds(0))
    else match ParseInt(parts[0])
      case None => Err(NumberFormat(0))
      case Some(orderId) =>
        if |parts| < 2 then Err(IndexOutOfBounds(1))
        else match ParseInt(parts[1])
          case None => Err(NumberFormat(1))
          case Some(customerId) =>
            if |parts| < 3 then Err(IndexOutOfBounds(2))
            else match ParseInt(parts[2])
              case None => Err(NumberFormat(2))
              case Some(medicineId) =>
                if |parts| < 4 then Err(IndexOutOfBounds(3))
                else match ParseInt(parts[3])
                  case None => Err(NumberFormat(3))
                  case Some(quantity) => Ok(Order(orderId, customerId, medicineId, quantity))
  }

  /** One iteration of the `loadOrders` loop. */
  function ParseOrderLine(line: string): Result<Order, FieldError>
  {
    ParseOrderFields(Split(line))
  }

  /** `Integer.parseInt` of a combo box's selected item; None (null, an empty box) raises NumberFormatException. */
  function ParseSelected(item: Option<string>): Option<Int32>
  {
    match item
    case None => None
    case Some(text) => ParseInt(text)
  }

  /** The parse-before-append step of `createOrder`: all four numbers must parse. */
  function ParseOrderInput(orderIdText: string, customerItem: Option<string>, medicineItem: Option<string>, quantityText: string): (r: Option<Order>)
    ensures r.Some? <==>
      && ParseInt(orderIdText).Some? && ParseInt(quantityText).Some?
      && customerItem.Some? && ParseInt(customerItem.value).Some?
      && medicineItem.Some? && ParseInt(medicineItem.value).Some?
    ensures r.Some? ==> r.value == Order(ParseInt(orderIdText).value, ParseInt(customerItem.value).value,
                                         ParseInt(medicineItem.value).value, ParseInt(quantityText).value)
  {
    match (ParseInt(orderIdText), ParseSelected(customerItem), ParseSelected(medicineItem), ParseInt(quantityText))
    case (Some(orderId), Some(customerId), Some(medicineId), Some(quantity)) => Some(Order(orderId, customerId, medicineId, quantity))
    case _ => None
  }

  /** An order's line splits into exactly its four written numbers. */
  lemma OrderLineParts(o: Order)
    ensures Split(OrderLine(o)) == [IntToString(o.orderId), IntToString(o.customerId), IntToString(o.medicineId), IntToString(o.quantity)]
  {
    var fs := [IntToString(o.orderId), IntToString(o.customerId), IntToString(o.medicineId), IntToString(o.quantity)];
    JoinFour(fs[0], fs[1], fs[2], fs[3]);
    SplitJoinRoundTrip(fs);
  }

  /** Every order's line reads back as that order: its four pieces are comma-free and non-empty. */
  lemma OrderLineRoundTrip(o: Order)
    ensures ParseOrderLine(OrderLine(o)) == Ok(o)
  {
    OrderLineParts(o);
    ParseIntOfIntToString(o.orderId);
    ParseIntOfIntToString(o.customerId);
    ParseIntOfIntToString(o.medicineId);
    ParseIntOfIntToString(o.quantity);
  }

  /** The order file always reloads as the list that was saved. */
  lemma OrderFileRoundTrip(os: seq<Order>)
    ensures ParseLines(Serialize(os, OrderLine), ParseOrderLine) == Loading(os, None)
  {
    forall i | 0 <= i < |os| ensures ParseOrderLine(OrderLine(os[i])) == Ok(os[i]) {
      OrderLineRoundTrip(os[i]);
    }
    LoadAfterSave(os, OrderLine, ParseOrderLine);
  }

  /** The store: the two stores it reads ids from, the in-memory list, and the file at its path. */
  class OrderManagement {
    const medicineManagement: MedicineManagement
    const customerManagement: CustomerManagement
    var orderList: seq<Order>
    var file: File

    /** A store with an empty list, over the given file; `loadOrders` is LoadOrders. */
    constructor (medicineManagement: MedicineManagement, customerManagement: CustomerManagement, file: File)
      ensures this.medicineManagement == medicineManagement && this.customerManagement == customerManagement
      ensures orderList == [] && this.file == file
    {
      this.medicineManagement := medicineManagement;
      this.customerManagement := customerManagement;
      orderList := [];
      this.file := file;
    }

    /** `loadOrders`: as LoadMedicines, over order lines. */
    method LoadOrders() returns (failure: Option<LineError>)
      modifies this`orderList
      ensures file.None? ==> orderList == old(orderList) && failure.None?
      ensures file.Some? ==>
        var r := ParseLines(file.value, ParseOrderLine);
        orderList == old(orderList) + r.records && failure == r.failure
    {
      failure := None;
      if file.None? {
        return;
      }
      var lines := file.value;
      var i := 0;
      while i < |lines|
        invariant 0 <= i <= |lines|
        invariant ParseLines(lines[..i], ParseOrderLine).failure.None?
        invariant orderList == old(orderList) + ParseLines(lines[..i], ParseOrderLine).records
      {
        ParseLinesNext(lines, i, ParseOrderLine);
        var parsed := ParseOrderLine(lines[i]);
        if parsed.Err? {
          failure := Some(LineError(i, parsed.error));
          ParseLinesStops(lines, i + 1, ParseOrderLine);
          return;
        }
        orderList := orderList + [parsed.value];
        i := i + 1;
      }
      assert lines[..i] == lines;
    }

    /** `saveOrders`: replaces the file by one line per order in list order, or leaves it when it cannot be opened. */
    method SaveOrders(writable: bool)
      modifies this`file
      ensures file == if writable then Some(Serialize(orderList, OrderLine)) else old(file)
    {
      if !writable {
        return;
      }
      var written: seq<string> := [];
      var i := 0;
      while i < |orderList|
        invariant 0 <= i <= |orderList|
        invariant written == Serialize(orderList[..i], OrderLine)
      {
        SerializeNext(orderList, i, OrderLine);
        written := written + [OrderLine(orderList[i])];
        i := i + 1;
      }
      assert orderList[..i] == orderList;
      file := Some(written);
    }

    /**
     * `createOrder` once the dialog is confirmed. The combo boxes hold the id
     * texts of the current customers and medicines; a pick is the selected
     * position, and an empty box selects nothing. The order records the ids of
     * the picked customer and medicine, without any check that they still
     * exist, and is appended and saved; if any number fails to parse nothing
     * changes.
     */
    method CreateOrder(orderIdText: string, customerPick: nat, medicinePick: nat, quantityText: string, writable: bool)
      returns (created: Option<Order>)
      requires customerManagement.customerList != [] ==> customerPick < |customerManagement.customerList|
      requires medicineManagement.medicineList != [] ==> medicinePick < |medicineManagement.medicineList|
      modifies this
      ensures created.Some? <==>
        && customerManagement.customerList != [] && medicineManagement.medicineList != []
        && ParseInt(orderIdText).Some? && ParseInt(quantityText).Some?
      ensures created.Some? ==> created.value == Order(
        ParseInt(orderIdText).value,
        customerManagement.customerList[customerPick].id,
        medicineManagement.medicineList[medicinePick].id,
        ParseInt(quantityText).value)
      ensures created.Some? ==>
        && orderList == old(orderList) + [created.value]
        && file == if writable then Some(Serialize(orderList, OrderLine)) else old(file)
      ensures created.None? ==> orderList == old(orderList) && file == old(file)
    {
      var customerIds := customerManagement.GetCustomerIds();
      var medicineIds := medicineManagement.GetMedicineIds();
      var customerItem := if customerIds.Length == 0 then None else Some(customerIds[customerPick]);
      var medicineItem := if medicineIds.Length == 0 then None else Some(medicineIds[medicinePick]);
      created := ParseOrderInput(orderIdText, customerItem, medicineItem, quantityText);
      if created.Some? {
        orderList := orderList + [created.value];
        SaveOrders(writable);
      }
    }
  }
}
