/** Runs of the stores, each derived from the stores' contracts alone. */
module Scenarios {
  import opened Wrappers
  import opened JavaStrings
  import opened PriceText
  import opened LineFiles
  import opened Medicines
  import opened Customers
  import opened Orders

  const Jane := Customer(10, "Jane Doe", "555-0101")
  const JaneOrder := Order(100, 10, 1, 3)

  /** Prices as Double.toString writes them: at least one fraction digit, no trailing zero after it. */
  lemma PriceTexts()
    ensures PriceToString(500) == "5.0" && PriceToString(725) == "7.25"
    ensures PriceToString(5) == "0.05" && PriceToString(-150) == "-1.5"
  {
    assert FractionText(0) == "0" && FractionText(25) == "25";
    assert FractionText(5) == "05" && FractionText(50) == "5";
  }

  /** The customer file holding Jane. */
  lemma JaneLine()
    ensures Serialize([Jane], CustomerLine) == ["10,Jane Doe,555-0101"]
  {
    SerializeOne(Jane, CustomerLine);
    assert IntToString(10) == "10";
    assert CustomerLine(Jane) == "10,Jane Doe,555-0101";
  }

  /** The order file holding order 100 of customer 10 for 3 of medicine 1. */
  lemma JaneOrderLine()
    ensures Serialize([JaneOrder], OrderLine) == ["100,10,1,3"]
  {
    SerializeOne(JaneOrder, OrderLine);
    assert IntToString(1) == "1" && IntToString(10) == "10" && IntToString(100) == "100" && IntToString(3) == "3";
    assert OrderLine(JaneOrder) == "100,10,1,3";
  }

  /**
   * A store started on a saved medicine file whose names hold no comma lists
   * the saved medicines in order, and offers their ids as texts that parse back
   * to them.
   */
  method LoadSavedMedicines(saved: seq<Medicine>) returns (medicines: seq<Medicine>, ids: seq<string>, failure: Option<LineError>)
    requires forall i :: 0 <= i < |saved| ==> ',' !in saved[i].name
    ensures failure == None
    ensures medicines == saved
    ensures |ids| == |saved|
    ensures forall i :: 0 <= i < |ids| ==> ids[i] == IntToString(saved[i].id) && ParseInt(ids[i]) == Some(saved[i].id)
  {
    MedicineFileRoundTrip(saved);
    var store := new MedicineManagement(Some(Serialize(saved, MedicineLine)));
    failure := store.LoadMedicines();
    medicines := store.medicineList;
    assert medicines == saved;
    var idArray := store.GetMedicineIds();
    ids := idArray[..];
  }

  /**
   * A customer typed into the add dialog of an empty store is saved as its one
   * line, and a store reloaded from that file lists exactly that customer
   * (for Jane, the file of JaneLine).
   */
  method AddCustomerThenReload(c: Customer) returns (file: File, reloaded: seq<Customer>)
    requires ',' !in c.name && ',' !in c.contact && c.contact != ""
    ensures file == Some([CustomerLine(c)])
    ensures reloaded == [c]
  {
    ParseIntOfIntToString(c.id);
    var store := new CustomerManagement(None);
    var added := store.AddCustomer(IntToString(c.id), c.name, c.contact, true);
    SerializeOne(c, CustomerLine);
    CustomerFileRoundTrip([c]);
    file := store.file;
    var again := new CustomerManagement(file);
    var failure := again.LoadCustomers();
    reloaded := again.customerList;
  }

  /** Two customers with the same id are both kept, in the order they were added. */
  method DuplicateIdsKept() returns (customers: seq<Customer>)
    ensures customers == [Customer(7, "Ann", "111"), Customer(7, "Bob", "222")]
  {
    var store := new CustomerManagement(None);
    assert ParseInt("7") == Some(7);
    var first := store.AddCustomer("7", "Ann", "111", true);
    var second := store.AddCustomer("7", "Bob", "222", true);
    customers := store.customerList;
  }

  /**
   * A quantity that is not a number rejects the medicine: the list stays as the
   * load of the file left it, and the file is unchanged.
   */
  method RejectNonNumericQuantity(file: File) returns (added: Option<Medicine>, loaded: seq<Medicine>, medicines: seq<Medicine>, after: File)
    ensures loaded == if file.None? then [] else ParseLines(file.value, ParseMedicineLine).records
    ensures added == None && medicines == loaded && after == file
  {
    var store := new MedicineManagement(file);
    var failure := store.LoadMedicines();
    loaded := store.medicineList;
    assert ParseInt("ten") == None;
    added := store.AddMedicine("3", "Cough Syrup", "ten", "4.5", true);
    medicines := store.medicineList;
    after := store.file;
  }

  /** Two empty stores into which m and c are typed through the add dialogs. */
  method OneOfEach(m: Medicine, c: Customer) returns (medicines: MedicineManagement, customers: CustomerManagement)
    ensures medicines.medicineList == [m] && customers.customerList == [c]
  {
    ParseIntOfIntToString(m.id);
    ParseIntOfIntToString(m.quantity);
    ParsePriceOfPriceToString(m.priceCents);
    ParseIntOfIntToString(c.id);
    medicines := new MedicineManagement(None);
    customers := new CustomerManagement(None);
    var addedMedicine := medicines.AddMedicine(IntToString(m.id), m.name, IntToString(m.quantity), PriceToString(m.priceCents), true);
    var addedCustomer := customers.AddCustomer(IntToString(c.id), c.name, c.contact, true);
  }

  /**
   * With one medicine and one customer on record, an order for them is saved
   * as its one line, with the ids taken from the stores' id lists, and
   * reloading that file reproduces it (for JaneOrder, the file of JaneOrderLine).
   */
  method CreateOrderThenReload(m: Medicine, c: Customer, orderId: Int32, quantity: Int32)
    returns (created: Option<Order>, file: File, reloaded: seq<Order>)
    ensures created == Some(Order(orderId, c.id, m.id, quantity))
    ensures file == Some([OrderLine(created.value)])
    ensures reloaded == [created.value]
  {
    var medicines, customers := OneOfEach(m, c);
    ParseIntOfIntToString(orderId);
    ParseIntOfIntToString(quantity);
    var store := new OrderManagement(medicines, customers, None);
    created := store.CreateOrder(IntToString(orderId), 0, 0, IntToString(quantity), true);
    OrderFileRoundTrip(store.orderList);
    file := store.file;
    var again := new OrderManagement(medicines, customers, file);
    var failure := again.LoadOrders();
    reloaded := again.orderList;
  }
}
