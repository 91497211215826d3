/** Value types shared by the detection pipeline, the session logger and the
    application: an optional value, and the run-time kinds of the values that
    travel in feature dictionaries. */
module Values {

  /** An optional value: a dictionary lookup that may miss, an oracle that may fail. */
  datatype Option<+T> = None | Some(value: T) {

    /** The value, or `default` when there is none (Python's `dict.get(key, default)`). */
    function GetOr(default: T): T {
      match this
      case Some(v) => v
      case None => default
    }
  }

  /** The value stored under one key of a feature dictionary, by its run-time kind.
      - `VInt`, `VFloat`, `VStr`, `VBool`, `VNone`: Python's primitive kinds
        (numpy's float64 is a float subclass and so is a `VFloat`);
      - `VList`: a Python list;
      - `VArray`: a numpy array, whose `tolist()` yields `items`;
      - `VIterable`: any other non-string iterable (a tuple, a set, a generator, ...):
        `list(v)` yields `elements`, or raises when `elements` is `None`;
        `str(v)` yields `text`, or raises when `text` is `None`;
      - `VObject`: any other object (a numpy integer scalar, say): `str(v)` yields
        `text`, or raises when `text` is `None`. */
  datatype Value =
    | VInt(i: int)
    | VFloat(f: real)
    | VStr(s: string)
    | VBool(b: bool)
    | VNone
    | VList(items: seq<Value>)
    | VArray(items: seq<Value>)
    | VIterable(elements: Option<seq<Value>>, text: Option<string>)
    | VObject(text: Option<string>)

  /** The decimal digit for 0 <= d <= 9. */
  function Digit(d: nat): (c: char)
    requires d < 10
    ensures '0' <= c <= '9'
    ensures (c as int) - ('0' as int) == d
  {
    ('0' as int + d) as char
  }

  /** Python's `str(n)` for a non-negative integer: its decimal digits. */
  function NatToDecimal(n: nat): (s: string)
    ensures |s| >= 1
    ensures forall i :: 0 <= i < |s| ==> '0' <= s[i] <= '9'
    decreases n
  {
    if n < 10 then [Digit(n)] else NatToDecimal(n / 10) + [Digit(n % 10)]
  }

  /** The number a string of decimal digits denotes. */
  function DecimalValue(s: string): nat
    requires forall i :: 0 <= i < |s| ==> '0' <= s[i] <= '9'
  {
    if s == [] then 0
    else 10 * DecimalValue(s[..|s| - 1]) + ((s[|s| - 1] as int) - ('0' as int))
  }

  /** The decimal text of a count denotes that count: nothing is lost when a
      count is stored as its string form. */
  lemma {:induction false} DecimalRoundTrip(n: nat)
    ensures DecimalValue(NatToDecimal(n)) == n
    decreases n
  {
    var s := NatToDecimal(n);
    if n >= 10 {
      DecimalRoundTrip(n / 10);
      assert s[..|s| - 1] == NatToDecimal(n / 10);
    }
  }
}
