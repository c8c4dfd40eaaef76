/** The dump file of the order queue (internal/repositories/file/avro.go): one list of records,
    written and read as a whole. */
module DumpFile {
  import opened Digits
  import opened Orders

  // ------------------------------------------------------------------- records

  /** A field of a decoded record; the codec may hand a long back as either integer type. */
  datatype AvroValue = Text(text: string) | Long(n: int) | Int(n: int)

  type Record = map<string, AvroValue>

  function StatusText(s: Status): string {
    match s
    case New => "NEW"
    case Processing => "PROCESSING"
    case Invalid => "INVALID"
    case Processed => "PROCESSED"
  }

  /** The fields of a restored order; its status is whatever text the file has. */
  datatype Restored = Restored(id: string, user: string, status: string, accrual: int)

  function Fields(o: Order): Restored {
    Restored(o.id, o.user, StatusText(o.status), o.accrual)
  }

  function ModelToAvro(o: Order): Record {
    map["number" := Text(o.id), "user_id" := Text(o.user),
        "status" := Text(StatusText(o.status)), "accrual" := Long(o.accrual)]
  }

  /** A text field: the zero value when missing, an error when it is not a text. */
  function TextField(r: Record, name: string): Option<string> {
    if name !in r then Some("")
    else match r[name]
         case Text(text) => Some(text)
         case Long(_) => None
         case Int(_) => None
  }

  /** The accrual field: the zero value when missing or not a number. */
  function NumberField(r: Record, name: string): int {
    if name !in r then 0
    else match r[name]
         case Long(n) => n
         case Int(n) => n
         case Text(_) => 0
  }

  function AvroToModel(r: Record): Option<Restored> {
    match TextField(r, "number")
    case None => None
    case Some(id) =>
      match TextField(r, "user_id")
      case None => None
      case Some(user) =>
        match TextField(r, "status")
        case None => None
        case Some(status) => Some(Restored(id, user, status, NumberField(r, "accrual")))
  }

  /** What a record reads as, for any record: a text field that is missing is empty, and an
      accrual that is missing or no number is 0; a text field of another type is an error. */
  lemma AnyRecordReads(r: Record)
    ensures AvroToModel(r).None?
            <==> exists name :: name in ["number", "user_id", "status"] && name in r && !r[name].Text?
    ensures AvroToModel(r).Some? ==>
              var o := AvroToModel(r).value;
              && o.id == (if "number" in r then r["number"].text else "")
              && o.user == (if "user_id" in r then r["user_id"].text else "")
              && o.status == (if "status" in r then r["status"].text else "")
              && o.accrual == (if "accrual" in r && !r["accrual"].Text? then r["accrual"].n else 0)
  {
    var names := ["number", "user_id", "status"];
    assert names[0] in names && names[1] in names && names[2] in names;
  }

  /** What Save writes of an order. */
  lemma RecordHoldsTheOrder(o: Order)
    ensures var r := ModelToAvro(o);
            && r.Keys == {"number", "user_id", "status", "accrual"}
            && r["number"] == Text(o.id) && r["user_id"] == Text(o.user) && r["accrual"] == Long(o.accrual)
            && r["status"] == match o.status
                              case New => Text("NEW")
                              case Processing => Text("PROCESSING")
                              case Invalid => Text("INVALID")
                              case Processed => Text("PROCESSED")
  {
    assert "number" != "user_id" && "number" != "status" && "number" != "accrual";
    assert "user_id" != "status" && "user_id" != "accrual" && "status" != "accrual";
  }

  /** Number, owner, status and accrual survive the file, so a restored task still mirrors
      its row; and different orders stay different. */
  lemma RecordRoundTrip(o: Order)
    ensures AvroToModel(ModelToAvro(o)) == Some(Fields(o))
  {
    assert "number" != "user_id" && "number" != "status" && "number" != "accrual";
    assert "user_id" != "status" && "user_id" != "accrual" && "status" != "accrual";
  }

  lemma FieldsDetermineTheOrder(a: Order, b: Order)
    requires Fields(a) == Fields(b)
    ensures a == b
  {
    assert |StatusText(New)| == 3 && |StatusText(Processing)| == 10;
    assert |StatusText(Invalid)| == 7 && |StatusText(Processed)| == 9;
  }

  // ------------------------------------------------------- outcomes of the operations

  /** Save: all written; the file cannot be created; the write stops after some records. */
  datatype SaveOutcome = Saved | OpenFails | CutAfter(records: nat)

  /** Restore and Erase at start-up. An unreadable header is taken for an empty file. */
  datatype BootOutcome = Restores | RestoreFails | HeaderUnreadable | EraseFails

  function FileAfterSave<T>(file: seq<T>, orders: seq<T>, save: SaveOutcome): seq<T> {
    match save
    case Saved => orders
    case OpenFails => file
    case CutAfter(n) => if n < |orders| then orders[..n] else orders
  }

  /** What stays in the file and what goes on the stack. */
  function AfterRestore<T>(file: seq<T>, boot: BootOutcome): (seq<T>, seq<T>) {
    match boot
    case Restores => ([], file)
    case HeaderUnreadable => ([], [])
    case RestoreFails => (file, [])
    case EraseFails => (file, [])
  }

  // ------------------------------------------------------------------- the program

  function Records(orders: seq<Order>): seq<Record> {
    seq(|orders|, i requires 0 <= i < |orders| => ModelToAvro(orders[i]))
  }

  function AllFields(orders: seq<Order>): seq<Restored> {
    seq(|orders|, i requires 0 <= i < |orders| => Fields(orders[i]))
  }

  /** The records read as orders, one by one. */
  ghost predicate Decodes(records: seq<Record>, found: seq<Restored>) {
    && |found| == |records|
    && forall i :: 0 <= i < |records| ==> AvroToModel(records[i]) == Some(found[i])
  }

  /** What was saved decodes, and to nothing but the orders' fields. */
  lemma SavedOrdersComeBack(orders: seq<Order>, found: seq<Restored>)
    ensures Decodes(Records(orders), found) <==> found == AllFields(orders)
    ensures forall i :: 0 <= i < |orders| ==> AvroToModel(Records(orders)[i]).Some?
  {
    forall i | 0 <= i < |orders|
      ensures AvroToModel(Records(orders)[i]) == Some(AllFields(orders)[i])
    {
      RecordRoundTrip(orders[i]);
    }
    if Decodes(Records(orders), found) {
      assert forall i :: 0 <= i < |orders| ==> Some(found[i]) == Some(AllFields(orders)[i]);
    }
  }

  class AvroFileStorage {
    var records: seq<Record>

    /** The file holds exactly these orders. */
    ghost predicate Holds(orders: seq<Order>)
      reads this
    {
      records == Records(orders)
    }

    constructor ()
      ensures Holds([])
    {
      records := [];
    }

    method Save(orders: seq<Order>, save: SaveOutcome) returns (ok: bool)
      modifies this
      ensures records == FileAfterSave(old(records), Records(orders), save)
      ensures save == Saved ==> ok && Holds(orders)
      ensures save == OpenFails ==> !ok && records == old(records)
      ensures save.CutAfter? && save.records < |orders| ==> !ok && records == Records(orders)[..save.records]
      ensures save.CutAfter? && save.records >= |orders| ==> !ok && records == Records(orders)
    {
      if save.OpenFails? {
        return false;
      }
      var dataToWrite: seq<Record> := [];
      for i := 0 to |orders|
        invariant dataToWrite == Records(orders[..i])
      {
        assert orders[..i + 1] == orders[..i] + [orders[i]];
        dataToWrite := dataToWrite + [ModelToAvro(orders[i])];
      }
      assert orders[..|orders|] == orders;
      records := FileAfterSave(records, dataToWrite, save);
      ok := save.Saved?;
    }

    /** The records of the file as orders, in order, if each of them decodes, and a failure if
        one does not; `fails` and `unreadable` are the file's fate. */
    method Restore(fails: bool, unreadable: bool) returns (r: Option<seq<Restored>>)
      ensures fails ==> r == None
      ensures !fails && unreadable ==> r == Some([])
      ensures !fails && !unreadable ==>
                && (r.None? <==> exists i :: 0 <= i < |records| && AvroToModel(records[i]).None?)
                && (r.Some? ==> Decodes(records, r.value))
    {
      if fails {
        return None;
      }
      if unreadable {
        return Some([]);
      }
      var found: seq<Restored> := [];
      for i := 0 to |records|
        invariant Decodes(records[..i], found)
      {
        var order := AvroToModel(records[i]);
        if order.None? {
          return None;
        }
        found := found + [order.value];
      }
      assert records[..|records|] == records;
      r := Some(found);
    }

    method Erase(fails: bool) returns (ok: bool)
      modifies this
      ensures ok == !fails
      ensures records == if fails then old(records) else []
    {
      if fails {
        return false;
      }
      records := [];
      ok := true;
    }
  }
}
