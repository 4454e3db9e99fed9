/**
 * Normalisation of duplicate receipt keys on a transaction (`canonicalize`).
 *
 * Some payment gateways put the same receipt entry under two spellings,
 * `token` and `Token`. The lower-case spelling is the canonical one: an
 * upper-case duplicate with the same value is dropped, a lone upper-case
 * entry is renamed, and two different values are an error.
 */
module Receipts {
  import opened Common

  /** The scalar values a receipt entry can hold. */
  datatype Json = Null | Bool(b: bool) | Int(i: int) | Text(s: string)

  /** Python truthiness of a value: null, false, 0 and "" are false. */
  predicate Truthy(v: Json) {
    match v
    case Null => false
    case Bool(b) => b
    case Int(i) => i != 0
    case Text(s) => s != ""
  }

  /** Truthiness of `dict.get(key)`: a missing key reads as None, which is false. */
  predicate TruthyEntry(v: Option<Json>) {
    v.Some? && Truthy(v.value)
  }

  /** Python `==` on receipt values: `True == 1` and `False == 0` hold across the two types. */
  predicate PyEq(a: Json, b: Json) {
    match (a, b)
    case (Bool(x), Int(n)) => n == (if x then 1 else 0)
    case (Int(n), Bool(x)) => n == (if x then 1 else 0)
    case _ => a == b
  }

  function Get(receipt: map<string, Json>, key: string): Option<Json> {
    if key in receipt then Some(receipt[key]) else None
  }

  function ToUpper(c: char): char {
    if 'a' <= c <= 'z' then (c as int - 'a' as int + 'A' as int) as char else c
  }

  function ToLower(c: char): char {
    if 'A' <= c <= 'Z' then (c as int - 'A' as int + 'a' as int) as char else c
  }

  function LowerAll(s: string): (r: string)
    ensures |r| == |s|
    ensures forall i :: 0 <= i < |s| ==> r[i] == ToLower(s[i])
  {
    if s == [] then [] else [ToLower(s[0])] + LowerAll(s[1..])
  }

  /** Python `str.capitalize` on ASCII text: first character upper case, the rest lower case. */
  function Capitalize(s: string): (r: string)
    ensures |r| == |s|
    ensures |s| > 0 ==> r[0] == ToUpper(s[0])
    ensures forall i :: 1 <= i < |s| ==> r[i] == ToLower(s[i])
  {
    if s == [] then [] else [ToUpper(s[0])] + LowerAll(s[1..])
  }

  datatype CanonicalizeError = DifferentValues(transactionId: int, upperKey: string, lowerKey: string)

  /** What `canonicalize` does to a non-empty receipt, for the lower-case key `field`. */
  function CanonicalReceipt(id: int, receipt: map<string, Json>, field: string)
    : (r: Result<map<string, Json>, CanonicalizeError>)
    ensures r.Ok? ==> !TruthyEntry(Get(r.value, Capitalize(field)))
    ensures r.Ok? ==> r.value.Keys <= receipt.Keys + {field}
    ensures r.Err? ==> r.error == DifferentValues(id, Capitalize(field), field)
  {
    var upper := Capitalize(field);
    var lower, up := Get(receipt, field), Get(receipt, upper);
    if TruthyEntry(lower) && TruthyEntry(up) then
      if PyEq(lower.value, up.value) then Ok(receipt - {upper})
      else Err(DifferentValues(id, upper, field))
    else if TruthyEntry(up) then
      Ok((receipt - {upper})[field := up.value])
    else
      Ok(receipt)
  }

  /**
   * The receipt of a transaction after `canonicalize`. `None` stands for a
   * missing or null receipt; it and an empty receipt are left alone.
   */
  function CanonicalTransaction(id: int, receipt: Option<map<string, Json>>, field: string)
    : (r: Result<Option<map<string, Json>>, CanonicalizeError>)
    ensures receipt.None? || receipt.value == map[] ==> r == Ok(receipt)
    ensures r.Ok? ==> r.value.Some? == receipt.Some?
    ensures r.Ok? && r.value.Some? ==> !TruthyEntry(Get(r.value.value, Capitalize(field)))
  {
    if receipt.Some? && |receipt.value| > 0 then
      match CanonicalReceipt(id, receipt.value, field)
      case Ok(r) => Ok(Some(r))
      case Err(e) => Err(e)
    else Ok(receipt)
  }

  /** A transaction record whose receipt dictionary `canonicalize` edits in place. */
  class Transaction {
    const id: int
    var receipt: Option<map<string, Json>>

    constructor (id: int, receipt: Option<map<string, Json>>)
      ensures this.id == id && this.receipt == receipt
    {
      this.id := id;
      this.receipt := receipt;
    }
  }

  /**
   * `canonicalize(transaction, field)`: pops the upper-case duplicate or moves
   * it to the lower-case key; raises, leaving the receipt as it was, when the
   * two values differ.
   */
  method Canonicalize(t: Transaction, field: string) returns (r: Outcome<CanonicalizeError>)
    modifies t
    ensures match CanonicalTransaction(t.id, old(t.receipt), field)
            case Ok(receipt) => r == Pass && t.receipt == receipt
            case Err(e) => r == Fail(e) && t.receipt == old(t.receipt)
  {
    var upper := Capitalize(field);
    if t.receipt.Some? && |t.receipt.value| > 0 {
      var receipt := t.receipt.value;
      var valueLower := Get(receipt, field);
      var valueUpper := Get(receipt, upper);
      if TruthyEntry(valueLower) && TruthyEntry(valueUpper) {
        if PyEq(valueLower.value, valueUpper.value) {
          t.receipt := Some(receipt - {upper});
        } else {
          return Fail(DifferentValues(t.id, upper, field));
        }
      } else if TruthyEntry(valueUpper) {
        var moved := valueUpper.value;
        t.receipt := Some(receipt - {upper});
        t.receipt := Some(t.receipt.value[field := moved]);
      }
    }
    r := Pass;
  }

  // ---------------------------------------------------------------------------
  // The three-way rule and what it leaves untouched.

  /** Both spellings present with equal values: the upper-case one goes, the lower-case one stays. */
  lemma EqualDuplicateDropsUpper(id: int, receipt: map<string, Json>, field: string)
    requires field != Capitalize(field)
    requires TruthyEntry(Get(receipt, field)) && TruthyEntry(Get(receipt, Capitalize(field)))
    requires PyEq(receipt[field], receipt[Capitalize(field)])
    ensures CanonicalReceipt(id, receipt, field).Ok?
    ensures var r := CanonicalReceipt(id, receipt, field).value;
            Capitalize(field) !in r && field in r && r[field] == receipt[field]
  {
  }

  /** The call raises exactly when both spellings hold truthy values that differ. */
  lemma ConflictIffDifferent(id: int, receipt: map<string, Json>, field: string)
    ensures CanonicalReceipt(id, receipt, field).Err?
        <==> (TruthyEntry(Get(receipt, field)) && TruthyEntry(Get(receipt, Capitalize(field)))
              && !PyEq(receipt[field], receipt[Capitalize(field)]))
  {
  }

  /** Only the upper-case spelling is truthy: its value moves to the lower-case key. */
  lemma LoneUpperIsRenamed(id: int, receipt: map<string, Json>, field: string)
    requires !TruthyEntry(Get(receipt, field)) && TruthyEntry(Get(receipt, Capitalize(field)))
    ensures CanonicalReceipt(id, receipt, field).Ok?
    ensures var r := CanonicalReceipt(id, receipt, field).value;
            Capitalize(field) !in r && field in r && r[field] == receipt[Capitalize(field)]
  {
  }

  /** No upper-case value to act on: the receipt is unchanged. */
  lemma NoUpperNoChange(id: int, receipt: map<string, Json>, field: string)
    requires !TruthyEntry(Get(receipt, Capitalize(field)))
    ensures CanonicalReceipt(id, receipt, field) == Ok(receipt)
  {
  }

  /** Keys other than the two spellings keep their presence and their value. */
  lemma OtherKeysUntouched(id: int, receipt: map<string, Json>, field: string, k: string)
    requires k != field && k != Capitalize(field)
    requires CanonicalReceipt(id, receipt, field).Ok?
    ensures var r := CanonicalReceipt(id, receipt, field).value;
            (k in r <==> k in receipt) && (k in r ==> r[k] == receipt[k])
  {
  }

  /** Canonicalising twice is the same as canonicalising once. */
  lemma CanonicalIdempotent(id: int, receipt: map<string, Json>, field: string)
    requires CanonicalReceipt(id, receipt, field).Ok?
    ensures var r := CanonicalReceipt(id, receipt, field).value;
            CanonicalReceipt(id, r, field) == Ok(r)
  {
    var upper := Capitalize(field);
    var r := CanonicalReceipt(id, receipt, field).value;
    assert !TruthyEntry(Get(r, upper));
  }
}
