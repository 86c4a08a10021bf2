/**
 * How the expense handlers turn the client's `expense_type` and `payment_type`
 * strings into the stored name and its mirroring integer flag.
 */
module Normalise {
  import opened Base

  /** `str.lower()` on the ASCII letters. */
  function LowerChar(c: char): char {
    if 'A' <= c <= 'Z' then (c as int + 32) as char else c
  }

  function Lower(s: string): (r: string)
    ensures |r| == |s| && forall i :: 0 <= i < |s| ==> r[i] == LowerChar(s[i])
  {
    if s == [] then [] else [LowerChar(s[0])] + Lower(s[1..])
  }

  predicate IsLowerWord(w: string) {
    forall i :: 0 <= i < |w| ==> 'a' <= w[i] <= 'z'
  }

  /** `s` spells the lower-case word `w` with any mix of upper- and lower-case letters. */
  predicate SpellsIgnoringCase(s: string, w: string) {
    |s| == |w| && forall i :: 0 <= i < |s| ==> s[i] == w[i] || s[i] as int == w[i] as int - 32
  }

  lemma LowerIsCaseInsensitiveMatch(s: string, w: string)
    requires IsLowerWord(w)
    ensures Lower(s) == w <==> SpellsIgnoringCase(s, w)
  {
    if SpellsIgnoringCase(s, w) {
      assert forall i :: 0 <= i < |s| ==> Lower(s)[i] == w[i];
    }
  }

  /** A stored `expense_type` with its flag: 0 for "Purchase", 1 for "Others". */
  datatype ExpenseTypeField = ExpenseTypeField(name: string, flag: int)

  predicate ExpenseTypeAgrees(name: string, flag: int) {
    (flag == 0 && name == "Purchase") || (flag == 1 && name == "Others")
  }

  /** The rule both create and update apply to a supplied `expense_type`. */
  function NormaliseExpenseType(raw: string): (r: ExpenseTypeField)
    ensures ExpenseTypeAgrees(r.name, r.flag)
    ensures r.flag == 0 <==> SpellsIgnoringCase(raw, "purchase")
  {
    LowerIsCaseInsensitiveMatch(raw, "purchase");
    if Lower(raw) == "purchase" then ExpenseTypeField("Purchase", 0) else ExpenseTypeField("Others", 1)
  }

  /** "Purchase" itself is recognised. */
  lemma PurchaseIsPurchase()
    ensures NormaliseExpenseType("Purchase") == ExpenseTypeField("Purchase", 0)
  {
    assert SpellsIgnoringCase("Purchase", "purchase");
  }

  /** Normalising a stored name gives it back: the labels are fixed points. */
  lemma ExpenseTypeIdempotent(raw: string)
    ensures NormaliseExpenseType(NormaliseExpenseType(raw).name) == NormaliseExpenseType(raw)
  {
    var r := NormaliseExpenseType(raw);
    if r.flag == 0 {
      assert SpellsIgnoringCase("Purchase", "purchase");
    } else {
      assert !SpellsIgnoringCase("Others", "purchase");
    }
  }

  /** A stored `payment_type` with its nullable flag: 0 for "Cash", 1 for "UPI". */
  datatype PaymentTypeField = PaymentTypeField(name: Option<string>, flag: Option<int>)

  predicate PaymentTypeAgrees(name: Option<string>, flag: Option<int>) {
    || (flag == Some(0) && name == Some("Cash"))
    || (flag == Some(1) && name == Some("UPI"))
    || (flag == None && name == None)
  }

  /** Create: "cash" and "upi" in any case are recognised; anything else, absent included, stores nothing. */
  function PaymentTypeOnCreate(raw: Option<string>): (r: PaymentTypeField)
    ensures PaymentTypeAgrees(r.name, r.flag)
    ensures r.flag == Some(0) <==> raw.Some? && SpellsIgnoringCase(raw.value, "cash")
    ensures r.flag == Some(1) <==> raw.Some? && SpellsIgnoringCase(raw.value, "upi")
  {
    match raw
    case None => PaymentTypeField(None, None)
    case Some(p) =>
      LowerIsCaseInsensitiveMatch(p, "cash");
      LowerIsCaseInsensitiveMatch(p, "upi");
      if Lower(p) == "cash" then PaymentTypeField(Some("Cash"), Some(0))
      else if Lower(p) == "upi" then PaymentTypeField(Some("UPI"), Some(1))
      else PaymentTypeField(None, None)
  }

  /** Update: a supplied value that is not "cash" in some case is taken as UPI. */
  function PaymentTypeOnUpdate(raw: string): (r: PaymentTypeField)
    ensures PaymentTypeAgrees(r.name, r.flag) && r.flag.Some?
    ensures r.flag == Some(0) <==> SpellsIgnoringCase(raw, "cash")
  {
    LowerIsCaseInsensitiveMatch(raw, "cash");
    if Lower(raw) == "cash" then PaymentTypeField(Some("Cash"), Some(0))
    else PaymentTypeField(Some("UPI"), Some(1))
  }

  /** The two paths agree exactly on the recognised spellings; elsewhere create stores nothing and update stores UPI. */
  lemma PaymentPathsDiffer(raw: string)
    ensures PaymentTypeOnUpdate(raw) == PaymentTypeOnCreate(Some(raw))
            <==> SpellsIgnoringCase(raw, "cash") || SpellsIgnoringCase(raw, "upi")
    ensures !SpellsIgnoringCase(raw, "cash") && !SpellsIgnoringCase(raw, "upi")
            ==> PaymentTypeOnCreate(Some(raw)).flag == None && PaymentTypeOnUpdate(raw).flag == Some(1)
  {
  }
}
