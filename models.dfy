/**
 * The rows of the database: users, admins, vendors and the expense row that
 * each of the three company tables stores, with its column defaults.
 */
module Models {
  import opened Base
  import opened Dates
  import opened Normalise

  /** `approved` defaults to false and `role` to "user"; `email` is unique. */
  datatype User = User(id: nat, username: string, email: string, passwordHash: string,
                       approved: bool, role: string, createdAt: nat)

  /** An admin row carries no `approved` attribute. */
  datatype Admin = Admin(id: nat, username: string, email: string, passwordHash: string, createdAt: nat)

  /** `name` is unique. */
  datatype Vendor = Vendor(id: nat, name: string, createdAt: nat)

  /** What an identity dependency hands to a handler: a User row or an Admin row. */
  datatype Principal = AsUser(user: User) | AsAdmin(admin: Admin) {
    /** `hasattr(current_user, "approved")`: only User rows have the attribute. */
    predicate HasApprovedAttribute()
      ensures HasApprovedAttribute() <==> exists u :: this == AsUser(u)
      ensures !HasApprovedAttribute() <==> exists a :: this == AsAdmin(a)
    {
      AsUser?
    }

    /** `getattr(current_user, "username", None)`: both kinds of row have one. */
    function Username(): (r: string)
      ensures AsUser? ==> r == user.username
      ensures AsAdmin? ==> r == admin.username
    {
      if AsUser? then user.username else admin.username
    }

    function Email(): string { if AsUser? then user.email else admin.email }
  }

  /** The writable columns of an expense table, as the keys of a payload or change-set dict. */
  datatype Column =
    | CompanyName | GstNumber | ExpenseType | ExpenseTypeFlag | DateColumn
    | InvoiceNumber | VendorName | InvoiceAmount | Purpose | PurchasedBy
    | InvoiceCopy | Qrcode | AmountPaidBy | PaymentType | PaymentTypeFlag
    | AmountPaid | PaymentScreenshot | SubmittedBy | Status

  /** Every writable column, so that a change set can be built over a finite domain. */
  const AllColumns: set<Column> :=
    {CompanyName, GstNumber, ExpenseType, ExpenseTypeFlag, DateColumn,
     InvoiceNumber, VendorName, InvoiceAmount, Purpose, PurchasedBy,
     InvoiceCopy, Qrcode, AmountPaidBy, PaymentType, PaymentTypeFlag,
     AmountPaid, PaymentScreenshot, SubmittedBy, Status}

  lemma AllColumnsComplete(c: Column)
    ensures c in AllColumns
  {
  }

  /** A value in a payload dict: None, a string, an integer or a date. */
  datatype Value = Null | Text(text: string) | Num(num: int) | Day(date: Date)

  /** A `dict` from column name to value, as `Model(**payload)` and `setattr` consume it. */
  type ChangeSet = map<Column, Value>

  /** The value a column can hold: `company_name`, `expense_type`, its flag and `date` are NOT NULL. */
  predicate Fits(c: Column, v: Value) {
    match c
    case CompanyName => v.Text?
    case ExpenseType => v.Text?
    case ExpenseTypeFlag => v.Num?
    case DateColumn => v.Day?
    case PaymentTypeFlag => v.Null? || v.Num?
    case _ => v.Null? || v.Text?
  }

  predicate WellTyped(m: ChangeSet) {
    forall c :: c in m ==> Fits(c, m[c])
  }

  function TextOrNull(o: Option<string>): Value {
    if o.Some? then Text(o.value) else Null
  }

  function NumOrNull(o: Option<int>): Value {
    if o.Some? then Num(o.value) else Null
  }

  function OptText(v: Value): Option<string> {
    if v.Text? then Some(v.text) else None
  }

  function OptNum(v: Value): Option<int> {
    if v.Num? then Some(v.num) else None
  }

  /**
   * One row of an expense table: its id, its creation time and the columns
   * that were given a value. A column never given one holds its default.
   */
  datatype Expense = Expense(id: nat, createdAt: nat, columns: ChangeSet)

  /** The column defaults of the model: `expense_type_flag` 0, `status` "Pending", NULL elsewhere. */
  function ColumnDefault(c: Column): (v: Value)
    ensures v.Null? <==> c != ExpenseTypeFlag && c != Status
    ensures Fits(c, v) <==> c != CompanyName && c != ExpenseType && c != DateColumn
  {
    match c
    case ExpenseTypeFlag => Num(0)
    case Status => Text("Pending")
    case _ => Null
  }

  /** `getattr(row, column)`. */
  function Get(e: Expense, c: Column): (v: Value)
    ensures Insertable(e.columns) ==> Fits(c, v)
  {
    if c in e.columns then e.columns[c] else ColumnDefault(c)
  }

  /** `setattr(row, column, value)`: that one column changes, nothing else does. */
  function Set(e: Expense, c: Column, v: Value): (r: Expense)
    requires Fits(c, v)
    ensures r.id == e.id && r.createdAt == e.createdAt
    ensures Insertable(e.columns) ==> Insertable(r.columns)
    ensures Get(r, c) == v
    ensures forall d :: d != c ==> Get(r, d) == Get(e, d)
  {
    e.(columns := e.columns[c := v])
  }

  /** A payload `Model(**payload)` can insert: typed, with the NOT NULL columns without default present. */
  predicate Insertable(p: ChangeSet) {
    WellTyped(p) && CompanyName in p && ExpenseType in p && DateColumn in p
  }

  /** The row `Model(**payload)` builds: supplied columns as given, the rest at their defaults. */
  function FromPayload(id: nat, createdAt: nat, p: ChangeSet): (r: Expense)
    requires Insertable(p)
    ensures r.id == id && r.createdAt == createdAt
    ensures forall c {:trigger Get(r, c)} :: c in p ==> Get(r, c) == p[c]
    ensures forall c {:trigger Get(r, c)} :: c !in p ==> Get(r, c) == ColumnDefault(c)
  {
    Expense(id, createdAt, p)
  }

  /** The row after `setattr(row, k, v)` for every `k, v` in the change set. */
  function Patched(e: Expense, changes: ChangeSet): (r: Expense)
    requires WellTyped(changes)
    ensures r.id == e.id && r.createdAt == e.createdAt
    ensures Insertable(e.columns) ==> Insertable(r.columns)
    ensures forall c {:trigger Get(r, c)} :: c in changes ==> Get(r, c) == changes[c]
    ensures forall c {:trigger Get(r, c)} :: c !in changes ==> Get(r, c) == Get(e, c)
  {
    e.(columns := e.columns + changes)
  }

  /** Each flag agrees with its string column. */
  predicate FlagsAgree(e: Expense) {
    && Get(e, ExpenseType).Text? && Get(e, ExpenseTypeFlag).Num?
    && ExpenseTypeAgrees(Get(e, ExpenseType).text, Get(e, ExpenseTypeFlag).num)
    && PaymentTypeAgrees(OptText(Get(e, PaymentType)), OptNum(Get(e, PaymentTypeFlag)))
  }
}
