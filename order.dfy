/**
 * The `order_status` choice table behind `Order.status`, its field
 * declaration (one character wide, default `'1'`), and the tagged enumeration
 * of the seven order states with its code/label mapping.
 */
module Order {
  import opened Wrappers
  import opened ChoiceTable

  /** `order_status`, in declaration order. */
  const OrderStatus: Choices := [
    ("1", "Pateiktas"),
    ("2", "Surenkamas"),
    ("3", "Paruoštas"),
    ("4", "Perduotas pristatymui"),
    ("5", "Vėluoja"),
    ("6", "Užbaigtas"),
    ("7", "Atšauktas")
  ]

  /** `status`: one character wide, neither `null` nor `blank`, default `'1'`. */
  const StatusField: CharField := CharField(1, OrderStatus, Some("1"), false, false)

  datatype Status = Submitted | Assembling | Ready | OutForDelivery | Delayed | Completed | Cancelled

  function StatusCode(s: Status): string
  {
    match s
    case Submitted => "1"
    case Assembling => "2"
    case Ready => "3"
    case OutForDelivery => "4"
    case Delayed => "5"
    case Completed => "6"
    case Cancelled => "7"
  }

  function StatusLabel(s: Status): string
  {
    match s
    case Submitted => "Pateiktas"
    case Assembling => "Surenkamas"
    case Ready => "Paruoštas"
    case OutForDelivery => "Perduotas pristatymui"
    case Delayed => "Vėluoja"
    case Completed => "Užbaigtas"
    case Cancelled => "Atšauktas"
  }

  /** The state a stored code denotes, or `None` for a code outside the table. */
  function ParseStatus(code: string): Option<Status>
  {
    if code == "1" then Some(Submitted)
    else if code == "2" then Some(Assembling)
    else if code == "3" then Some(Ready)
    else if code == "4" then Some(OutForDelivery)
    else if code == "5" then Some(Delayed)
    else if code == "6" then Some(Completed)
    else if code == "7" then Some(Cancelled)
    else None
  }

  /** Position of a state in `order_status`. */
  function StatusIndex(s: Status): (i: nat)
    ensures i < |OrderStatus| && OrderStatus[i] == (StatusCode(s), StatusLabel(s))
  {
    match s
    case Submitted => 0
    case Assembling => 1
    case Ready => 2
    case OutForDelivery => 3
    case Delayed => 4
    case Completed => 5
    case Cancelled => 6
  }

  /** Decoding a state's code gives the state back, and its table label is its label. */
  lemma StatusRoundTrip(s: Status)
    ensures ParseStatus(StatusCode(s)) == Some(s)
    ensures Label(OrderStatus, StatusCode(s)) == Some(StatusLabel(s))
  {
    assert ParseStatus(StatusCode(s)) == Some(s) by {
      match s
      case Submitted =>
      case Assembling =>
      case Ready =>
      case OutForDelivery =>
      case Delayed =>
      case Completed =>
      case Cancelled =>
    }
    StatusFieldWellDeclared();
    assert OrderStatus[StatusIndex(s)] == (StatusCode(s), StatusLabel(s));
  }

  /** A code decodes exactly when the table lists it, and then it is that state's code. */
  lemma ParseStatusAgrees(code: string)
    ensures ParseStatus(code).Some? <==> HasCode(OrderStatus, code)
    ensures ParseStatus(code).Some? ==> StatusCode(ParseStatus(code).value) == code
  {
    if HasCode(OrderStatus, code) {
      var i :| 0 <= i < |OrderStatus| && OrderStatus[i].0 == code;
    }
    if ParseStatus(code).Some? {
      assert OrderStatus[StatusIndex(ParseStatus(code).value)].0 == code;
    }
  }

  /**
   * `order_status` has seven distinct codes of exactly one character, so each
   * fits `max_length=1`, and the default `'1'` is one of them: a new order is
   * Submitted. The required field admits no empty value.
   */
  lemma StatusFieldWellDeclared()
    ensures WellDeclared(StatusField)
    ensures |OrderStatus| == 7
    ensures forall i :: 0 <= i < |OrderStatus| ==> |OrderStatus[i].0| == 1
    ensures StatusField.default == Some(StatusCode(Submitted))
    ensures !Admits(StatusField, None) && !Admits(StatusField, Some(""))
  {
    assert OrderStatus[0].0 == "1";
  }
}
