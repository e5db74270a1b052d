/** The inventory tables: items, the movement ledger and the parts of work orders. */
module Stock {
  import opened Common
  import opened Money

  datatype Item = Item(
    sku: string,
    name: string,
    categoryId: Option<Id>,
    stock: int,
    costPrice: real,
    customsCost: Option<real>,
    unitPrice: real,
    minStock: int,
    isImported: bool)

  datatype MovementType = IN | OUT | ADJUSTMENT

  datatype Movement = Movement(
    itemId: Id,
    kind: MovementType,
    quantity: nat,
    orderId: Option<Id>,
    unitCost: Option<real>)

  datatype Part = Part(orderId: Id, itemId: Id, quantity: nat, unitPrice: real)

  /** One movement: IN adds, OUT takes, ADJUSTMENT sets. */
  function Replayed(stock: int, m: Movement, id: Id): int {
    if m.itemId != id then stock
    else match m.kind
      case IN => stock + m.quantity
      case OUT => stock - m.quantity
      case ADJUSTMENT => m.quantity
  }

  /** The stock an item ends with when the movements are replayed on an initial stock. */
  function Replay(stock: int, movements: seq<Movement>, id: Id): int {
    if |movements| == 0 then stock
    else Replayed(Replay(stock, movements[..|movements| - 1], id), movements[|movements| - 1], id)
  }

  lemma {:induction false} ReplayConcat(stock: int, a: seq<Movement>, b: seq<Movement>, id: Id)
    ensures Replay(stock, a + b, id) == Replay(Replay(stock, a, id), b, id)
  {
    if |b| == 0 {
      assert a + b == a;
    } else {
      var n := |b| - 1;
      assert (a + b)[..|a + b| - 1] == a + b[..n];
      ReplayConcat(stock, a, b[..n], id);
    }
  }

  /** Value that the movements brought in minus the value they took out. */
  ghost function LedgerValue(movements: seq<Movement>, id: Id): real {
    if |movements| == 0 then 0.0
    else
      var m := movements[|movements| - 1];
      var before := LedgerValue(movements[..|movements| - 1], id);
      if m.itemId != id || m.unitCost == None || m.kind == ADJUSTMENT then before
      else if m.kind == IN then before + Worth(m.quantity, m.unitCost.value)
      else before - Worth(m.quantity, m.unitCost.value)
  }

  lemma {:induction false} LedgerValueConcat(a: seq<Movement>, b: seq<Movement>, id: Id)
    ensures LedgerValue(a + b, id) == LedgerValue(a, id) + LedgerValue(b, id)
  {
    if |b| == 0 {
      assert a + b == a;
    } else {
      var n := |b| - 1;
      assert (a + b)[..|a + b| - 1] == a + b[..n];
      LedgerValueConcat(a, b[..n], id);
    }
  }

  lemma NothingMoved(movements: seq<Movement>, id: Id)
    ensures LedgerValue(movements[|movements|..], id) == 0.0
  {
  }

  /** Units of an item that movements of one kind carry. */
  function MovedUnits(movements: seq<Movement>, kind: MovementType, id: Id): nat {
    if |movements| == 0 then 0
    else
      var m := movements[|movements| - 1];
      MovedUnits(movements[..|movements| - 1], kind, id) + if m.itemId == id && m.kind == kind then m.quantity else 0
  }

  /** Units of an item that the parts of an order carry. */
  function PartUnits(parts: seq<Part>, orderId: Id, id: Id): nat {
    if |parts| == 0 then 0
    else
      var p := parts[|parts| - 1];
      PartUnits(parts[..|parts| - 1], orderId, id) + if p.itemId == id && p.orderId == orderId then p.quantity else 0
  }
}
