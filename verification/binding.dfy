/** Bound values and the type-dispatch binder `setValueForStatement`.

    A value handed to the assemblers is a Java `Object`; only the class it
    is an instance of decides how it is bound. The model closes that set:
    instances of the five classes the binder recognises (subclasses of
    `java.sql.Date` and `BigDecimal` included, as `instanceof` accepts
    them), plus `Other` for everything else (`Long`, `Boolean`, `null`, ...). Payloads are kept as the data the
    driver receives; their arithmetic is never used. */
module Binding {

  newtype int32 = x: int | -0x8000_0000 <= x < 0x8000_0000
  newtype int64 = x: int | -0x8000_0000_0000_0000 <= x < 0x8000_0000_0000_0000

  datatype Option<T> = None | Some(value: T)

  datatype Value =
    | Text(s: string)                        // java.lang.String
    | Real(bits: bv64)                       // java.lang.Double, its IEEE 754 bit pattern
    | Int(i: int32)                          // java.lang.Integer
    | Date(millis: int64)                    // java.sql.Date, milliseconds since the epoch
    | Decimal(unscaled: int, scale: int32)   // java.math.BigDecimal
    | Other(className: string)               // any other runtime class, or null

  /** One `PreparedStatement` setter call, with its 1-based parameter index. */
  datatype SetterCall =
    | SetString(index: int, s: string)
    | SetDouble(index: int, bits: bv64)
    | SetInt(index: int, i: int32)
    | SetDate(index: int, millis: int64)
    | SetBigDecimal(index: int, unscaled: int, scale: int32)

  /** The value a setter call transmits to the driver. */
  function Transmitted(call: SetterCall): Value {
    match call
    case SetString(_, s) => Text(s)
    case SetDouble(_, bits) => Real(bits)
    case SetInt(_, i) => Int(i)
    case SetDate(_, millis) => Date(millis)
    case SetBigDecimal(_, unscaled, scale) => Decimal(unscaled, scale)
  }

  /** The `instanceof` chain: String, Double, Integer, Date, BigDecimal.
      The five classes are unrelated, so at most one test succeeds and the
      order of the tests never changes the outcome. Any other class falls
      through every test and nothing is bound. */
  function SetValueForStatement(index: int, value: Value): (r: Option<SetterCall>)
    ensures r.None? <==> value.Other?
    ensures r.Some? ==> r.value.index == index && Transmitted(r.value) == value
  {
    match value
    case Text(s) => Some(SetString(index, s))
    case Real(bits) => Some(SetDouble(index, bits))
    case Int(i) => Some(SetInt(index, i))
    case Date(millis) => Some(SetDate(index, millis))
    case Decimal(unscaled, scale) => Some(SetBigDecimal(index, unscaled, scale))
    case Other(_) => None
  }

  /** A value the assembler hands to the binder, at a 1-based position. */
  datatype Bind = Bind(position: int, value: Value)

  predicate Supported(binds: seq<Bind>) {
    forall i :: 0 <= i < |binds| ==> !binds[i].value.Other?
  }

  /** `binds` hands `values` to the binder at positions offset+1, offset+2, ... */
  predicate BoundInOrder(binds: seq<Bind>, values: seq<Value>, offset: int) {
    && |binds| == |values|
    && forall i :: 0 <= i < |binds| ==> binds[i] == Bind(offset + i + 1, values[i])
  }

  /** The setter calls a statement receives when every bind goes through
      `setValueForStatement`, in order. */
  function Issue(binds: seq<Bind>): (calls: seq<SetterCall>)
    ensures |calls| <= |binds|
    ensures Supported(binds) ==> |calls| == |binds|
    ensures Supported(binds) ==> forall i :: 0 <= i < |calls| ==>
      calls[i].index == binds[i].position && Transmitted(calls[i]) == binds[i].value
    ensures !Supported(binds) ==> |calls| < |binds|
    decreases |binds|
  {
    if |binds| == 0 then []
    else
      var first := match SetValueForStatement(binds[0].position, binds[0].value)
        case Some(call) => [call]
        case None => [];
      first + Issue(binds[1..])
  }

  /** A setter call transmits `b`: same position, same value. */
  predicate Sets(call: SetterCall, b: Bind) {
    call.index == b.position && Transmitted(call) == b.value
  }

  /** `call` transmits one of the supported binds of `binds`. */
  predicate FromSupported(binds: seq<Bind>, call: SetterCall) {
    exists i :: 0 <= i < |binds| && !binds[i].value.Other? && Sets(call, binds[i])
  }

  /** Some call of `calls` transmits `b`. */
  predicate SetBy(calls: seq<SetterCall>, b: Bind) {
    exists j :: 0 <= j < |calls| && Sets(calls[j], b)
  }

  /** An unsupported value costs only its own position: every setter call
      transmits some supported bind, and every supported bind gets a setter
      call, since the binder runs once per bind. */
  lemma {:induction false} IssueCoversSupported(binds: seq<Bind>)
    ensures forall j :: 0 <= j < |Issue(binds)| ==> FromSupported(binds, Issue(binds)[j])
    ensures forall i :: 0 <= i < |binds| && !binds[i].value.Other? ==> SetBy(Issue(binds), binds[i])
    decreases |binds|
  {
    if |binds| == 0 {
      assert Issue(binds) == [];
    } else {
      var rest := binds[1..];
      IssueCoversSupported(rest);
      var calls, tail := Issue(binds), Issue(rest);
      var r := SetValueForStatement(binds[0].position, binds[0].value);
      var first: seq<SetterCall> := if r.Some? then [r.value] else [];
      assert calls == first + tail;
      forall j | 0 <= j < |calls|
        ensures FromSupported(binds, calls[j])
      {
        if j < |first| {
          assert calls[j] == r.value;
          assert !binds[0].value.Other? && Sets(calls[j], binds[0]);
        } else {
          assert calls[j] == tail[j - |first|];
          assert FromSupported(rest, tail[j - |first|]);
          var k :| 0 <= k < |rest| && !rest[k].value.Other? && Sets(tail[j - |first|], rest[k]);
          assert rest[k] == binds[k + 1];
        }
      }
      forall i | 0 <= i < |binds| && !binds[i].value.Other?
        ensures SetBy(calls, binds[i])
      {
        if i == 0 {
          assert first == [r.value] && calls[0] == r.value;
          assert Sets(calls[0], binds[0]);
        } else {
          assert binds[i] == rest[i - 1];
          assert SetBy(tail, rest[i - 1]);
          var k :| 0 <= k < |tail| && Sets(tail[k], rest[i - 1]);
          assert calls[|first| + k] == tail[k];
        }
      }
    }
  }
}
