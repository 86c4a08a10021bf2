/**
 * The expense endpoints: saved uploads, the create payload, the update
 * change set with its admin gate, delete, detail, file paths and vendors.
 * Every handler here runs after `get_current_user` has resolved the caller,
 * so each takes the resolved principal.
 */
module ExpenseRouter {
  import opened Base
  import opened Dates
  import opened Normalise
  import opened Models
  import opened Crud

  const InvoiceDir := "uploads/invoices"
  const QrcodeDir := "uploads/qrcodes"
  const ScreenshotDir := "uploads/screenshots"

  const UnknownCompany := HttpError(400, "Unknown company")
  const BadCreateDate := HttpError(400, "Invalid date format, use YYYY-MM-DD or DD-MM-YYYY")
  const BadUpdateDate := HttpError(400, "Invalid date format")
  const AdminRequired := HttpError(403, "Admin privileges required")
  const ExpenseNotFound := HttpError(404, "Expense not found")
  const UpdateFailed := HttpError(500, "Failed to update")
  const VendorExists := HttpError(400, "Vendor already exists")

  // ----- Uploads -----

  /** A file part of the form; an empty `filename` also stands for a missing one. */
  datatype Upload = Upload(filename: string)

  /** The `{utcnow}_{urandom hex}` stems generated for the three uploads of one request. */
  datatype Stamps = Stamps(invoice: string, qrcode: string, screenshot: string)

  function LastIndexOf(s: string, c: char): (r: Option<nat>)
    ensures r.Some? ==> r.value < |s| && s[r.value] == c && c !in s[r.value + 1..]
    ensures r.None? ==> c !in s
  {
    if s == [] then None
    else if s[|s| - 1] == c then Some(|s| - 1)
    else
      var r := LastIndexOf(s[..|s| - 1], c);
      assert s == s[..|s| - 1] + [s[|s| - 1]];
      if r.Some? then
        assert s[r.value + 1..] == s[..|s| - 1][r.value + 1..] + [s[|s| - 1]];
        r
      else r
  }

  /**
   * `d` is where `os.path.splitext` splits `p` on POSIX: the last dot of the
   * string, with no `/` after it, and some character other than a dot
   * between the start of its path component and the dot.
   */
  predicate SplitDot(p: string, d: int) {
    && 0 <= d < |p| && p[d] == '.'
    && '.' !in p[d + 1..] && '/' !in p[d + 1..]
    && exists i :: 0 <= i < d && p[i] != '.' && '/' !in p[i..d]
  }

  /** Where the last path component starts, given the last `/`. */
  function ComponentStart(sep: Option<nat>): nat {
    match sep case None => 0 case Some(k) => k + 1
  }

  /**
   * With `dot` the last dot and `sep` the last slash, `dot` is the only
   * candidate split point, and it is one exactly when the component before
   * it holds a character other than a dot.
   */
  lemma SplitDotAtLast(p: string, dot: nat, sep: Option<nat>)
    requires dot < |p| && p[dot] == '.' && '.' !in p[dot + 1..]
    requires sep.Some? ==> sep.value < |p| && p[sep.value] == '/' && '/' !in p[sep.value + 1..]
    requires sep.None? ==> '/' !in p
    ensures forall d :: SplitDot(p, d) ==> d == dot
    ensures SplitDot(p, dot) <==>
              var start := ComponentStart(sep);
              start <= dot && exists i :: start <= i < dot && p[i] != '.'
  {
    var start := ComponentStart(sep);
    // Every position from `start` on holds something other than `/`.
    assert forall k :: start <= k < |p| ==> p[k] != '/' by {
      forall k | start <= k < |p| ensures p[k] != '/' {
        if sep.Some? {
          assert p[k] == p[sep.value + 1..][k - sep.value - 1];
        } else {
          assert p[k] in p;
        }
      }
    }
    if start <= dot && exists i :: start <= i < dot && p[i] != '.' {
      var i :| start <= i < dot && p[i] != '.';
      assert '/' !in p[i..dot] by {
        forall j | 0 <= j < dot - i ensures p[i..dot][j] != '/' {
          assert p[i..dot][j] == p[i + j];
        }
      }
      var tail := p[dot + 1..];
      assert '/' !in tail by {
        forall j | 0 <= j < |tail| ensures tail[j] != '/' {
          assert tail[j] == p[dot + 1 + j];
        }
      }
      assert SplitDot(p, dot);
    }
  }

  /**
   * `os.path.splitext(filename)[1]` on POSIX: from the last dot of the last
   * path component, unless that component is only dots up to there.
   */
  function Extension(p: string): (ext: string)
    ensures ext == [] || (ext[0] == '.' && '/' !in ext && '.' !in ext[1..])
    ensures |ext| <= |p| && ext == p[|p| - |ext|..]
  {
    match LastIndexOf(p, '.')
    case None => ""
    case Some(dot) =>
      var start := ComponentStart(LastIndexOf(p, '/'));
      if start <= dot && exists i :: start <= i < dot && p[i] != '.' then
        p[dot..]
      else ""
  }

  /** The extension is non-empty exactly when `p` has a split point, and is then the suffix from it. */
  lemma ExtensionSplits(p: string)
    ensures Extension(p) != [] <==> exists d :: SplitDot(p, d)
    ensures forall d :: SplitDot(p, d) ==> Extension(p) == p[d..]
  {
    match LastIndexOf(p, '.')
    case None =>
      forall d | 0 <= d < |p| ensures p[d] != '.' { assert p[d] in p; }
    case Some(dot) =>
      SplitDotAtLast(p, dot, LastIndexOf(p, '/'));
  }

  /**
   * `save_upload_file`: a path under `folder` exactly when a file with a
   * non-empty name was sent; the name is the stem followed by the upload's
   * extension.
   */
  function SaveUploadFile(file: Option<Upload>, folder: string, stem: string): (r: Option<string>)
    ensures r.Some? <==> file.Some? && file.value.filename != ""
    ensures r.Some? ==> var ext := Extension(file.value.filename);
                        && |r.value| == |folder| + 1 + |stem| + |ext|
                        && r.value[..|folder| + 1] == folder + "/"
                        && r.value[|folder| + 1..|folder| + 1 + |stem|] == stem
                        && r.value[|folder| + 1 + |stem|..] == ext
  {
    if file.None? || file.value.filename == "" then None
    else Some(folder + "/" + stem + Extension(file.value.filename))
  }

  /** The paths the handler writes, in the order it saves them. */
  function Written(invoice: Option<string>, qrcode: Option<string>, screenshot: Option<string>): (r: seq<string>)
    ensures |r| <= 3
    ensures forall p :: p in r <==> Some(p) in [invoice, qrcode, screenshot]
  {
    (if invoice.Some? then [invoice.value] else [])
    + (if qrcode.Some? then [qrcode.value] else [])
    + (if screenshot.Some? then [screenshot.value] else [])
  }

  // ----- Create -----

  /** The form fields of `POST /create`. */
  datatype CreateForm = CreateForm(
    companyName: string, gstNumber: Option<string>, expenseType: string, date: string,
    invoiceNumber: Option<string>, vendorName: Option<string>, invoiceAmount: Option<string>,
    purpose: Option<string>, purchasedBy: Option<string>,
    amountPaidBy: Option<string>, paymentType: Option<string>, amountPaid: Option<string>,
    status: Option<string>,
    invoiceCopy: Option<Upload>, qrcode: Option<Upload>, paymentScreenshot: Option<Upload>)

  /** What a create request leads to: the payload handed to the store and the files written. */
  datatype CreatePlan = CreatePlan(payload: ChangeSet, written: seq<string>)

  /** The value the create handler's dict literal gives column `c`. */
  function BaseValue(form: CreateForm, username: string, d: Date,
                     invoice: Option<string>, qrcode: Option<string>, screenshot: Option<string>,
                     c: Column): (v: Value)
    ensures Fits(c, v)
  {
    match c
    case CompanyName => Text(form.companyName)
    case GstNumber => TextOrNull(form.gstNumber)
    case ExpenseType => Text(NormaliseExpenseType(form.expenseType).name)
    case ExpenseTypeFlag => Num(NormaliseExpenseType(form.expenseType).flag)
    case DateColumn => Day(d)
    case InvoiceNumber => TextOrNull(form.invoiceNumber)
    case VendorName => TextOrNull(form.vendorName)
    case InvoiceAmount => TextOrNull(form.invoiceAmount)
    case Purpose => TextOrNull(form.purpose)
    case PurchasedBy => TextOrNull(form.purchasedBy)
    case InvoiceCopy => TextOrNull(invoice)
    case Qrcode => TextOrNull(qrcode)
    case AmountPaidBy => TextOrNull(form.amountPaidBy)
    case PaymentType => TextOrNull(PaymentTypeOnCreate(form.paymentType).name)
    case PaymentTypeFlag => NumOrNull(PaymentTypeOnCreate(form.paymentType).flag)
    case AmountPaid => TextOrNull(form.amountPaid)
    case PaymentScreenshot => TextOrNull(screenshot)
    case SubmittedBy => Text(username)
    case Status => Null
  }

  /** The dict literal of the create handler: every column but `status`. */
  function BasePayload(form: CreateForm, username: string, d: Date,
                       invoice: Option<string>, qrcode: Option<string>, screenshot: Option<string>): (p: ChangeSet)
    ensures Insertable(p)
    ensures forall c :: c in p <==> c != Status
    ensures forall c :: c in p ==> p[c] == BaseValue(form, username, d, invoice, qrcode, screenshot, c)
  {
    map c: Column | c != Status :: BaseValue(form, username, d, invoice, qrcode, screenshot, c)
  }

  /** The payload with `status` added exactly when the client sent one. */
  function WithClientStatus(p: ChangeSet, status: Option<string>): (r: ChangeSet)
    ensures Insertable(p) ==> Insertable(r)
    ensures Status in r <==> Status in p || status.Some?
    ensures status.Some? ==> r[Status] == Text(status.value)
    ensures forall c :: c != Status ==> (c in r <==> c in p) && (c in p ==> r[c] == p[c])
  {
    if status.Some? then p[Status := Text(status.value)] else p
  }

  /**
   * The outcome of the create handler: 400 for an unknown company, checked
   * first, then 400 for a date neither form parses; otherwise the payload
   * and the files saved.
   */
  function PlanCreate(form: CreateForm, username: string, stamps: Stamps): (r: Result<CreatePlan>)
    ensures r == Err(UnknownCompany) <==> ModelForCompany(form.companyName).None?
    ensures r == Err(BadCreateDate) <==> ModelForCompany(form.companyName).Some? && ParseDate(form.date).None?
    ensures r.Ok? ==> Insertable(r.value.payload)
    ensures r.Ok? ==> (Status in r.value.payload <==> form.status.Some?)
    ensures ModelForCompany(form.companyName).Some? && ParseDate(form.date).Some? ==> r.Ok?
    ensures r.Ok? ==> |r.value.written| <= 3
    ensures r.Ok? ==> r.value.written == Written(SaveUploadFile(form.invoiceCopy, InvoiceDir, stamps.invoice),
                                                 SaveUploadFile(form.qrcode, QrcodeDir, stamps.qrcode),
                                                 SaveUploadFile(form.paymentScreenshot, ScreenshotDir, stamps.screenshot))
  {
    if ModelForCompany(form.companyName).None? then Err(UnknownCompany)
    else
      match ParseDate(form.date)
      case None => Err(BadCreateDate)
      case Some(d) =>
        var invoice := SaveUploadFile(form.invoiceCopy, InvoiceDir, stamps.invoice);
        var qrcode := SaveUploadFile(form.qrcode, QrcodeDir, stamps.qrcode);
        var screenshot := SaveUploadFile(form.paymentScreenshot, ScreenshotDir, stamps.screenshot);
        Ok(CreatePlan(WithClientStatus(BasePayload(form, username, d, invoice, qrcode, screenshot), form.status),
                      Written(invoice, qrcode, screenshot)))
  }

  /** Every column but `status` of the stored row holds the value the dict literal gave it. */
  lemma StoredColumn(form: CreateForm, username: string, d: Date,
                     invoice: Option<string>, qrcode: Option<string>, screenshot: Option<string>,
                     id: nat, c: Column)
    requires c != Status
    ensures var base := BasePayload(form, username, d, invoice, qrcode, screenshot);
            Get(StoredRow(id, WithClientStatus(base, form.status)), c)
            == BaseValue(form, username, d, invoice, qrcode, screenshot, c)
  {
    var base := BasePayload(form, username, d, invoice, qrcode, screenshot);
    StoredKeeps(id, WithClientStatus(base, form.status), c);
  }

  /** The stored row of a create payload, in terms of the handler's inputs. */
  lemma StoredRowOf(form: CreateForm, username: string, d: Date,
                    invoice: Option<string>, qrcode: Option<string>, screenshot: Option<string>, id: nat)
    ensures var row := StoredRow(id, WithClientStatus(BasePayload(form, username, d, invoice, qrcode, screenshot), form.status));
            && Get(row, CompanyName) == Text(form.companyName)
            && Get(row, ExpenseType) == Text(NormaliseExpenseType(form.expenseType).name)
            && Get(row, ExpenseTypeFlag) == Num(NormaliseExpenseType(form.expenseType).flag)
            && Get(row, DateColumn) == Day(d)
            && Get(row, SubmittedBy) == Text(username)
            && OptText(Get(row, Status)) == (if form.status.Some? then form.status else Some("Pending"))
  {
    var p := WithClientStatus(BasePayload(form, username, d, invoice, qrcode, screenshot), form.status);
    CreatedStatus(id, id, p);
    StoredKeeps(id, p, CompanyName);
    StoredKeeps(id, p, ExpenseType);
    StoredKeeps(id, p, ExpenseTypeFlag);
    StoredKeeps(id, p, DateColumn);
    StoredKeeps(id, p, SubmittedBy);
  }

  /** The stored row's flags agree with their string columns. */
  lemma StoredFlagsAgree(form: CreateForm, username: string, d: Date,
                         invoice: Option<string>, qrcode: Option<string>, screenshot: Option<string>, id: nat)
    ensures FlagsAgree(StoredRow(id, WithClientStatus(BasePayload(form, username, d, invoice, qrcode, screenshot), form.status)))
  {
    var p := WithClientStatus(BasePayload(form, username, d, invoice, qrcode, screenshot), form.status);
    StoredKeeps(id, p, ExpenseType);
    StoredKeeps(id, p, ExpenseTypeFlag);
    StoredKeeps(id, p, PaymentType);
    StoredKeeps(id, p, PaymentTypeFlag);
  }

  /** The stored row records the saved paths of the three uploads. */
  lemma StoredFilesOf(form: CreateForm, username: string, d: Date,
                      invoice: Option<string>, qrcode: Option<string>, screenshot: Option<string>, id: nat)
    ensures var row := StoredRow(id, WithClientStatus(BasePayload(form, username, d, invoice, qrcode, screenshot), form.status));
            && Get(row, InvoiceCopy) == TextOrNull(invoice)
            && Get(row, Qrcode) == TextOrNull(qrcode)
            && Get(row, PaymentScreenshot) == TextOrNull(screenshot)
  {
    var base := BasePayload(form, username, d, invoice, qrcode, screenshot);
    var p := WithClientStatus(base, form.status);
    StoredKeeps(id, p, InvoiceCopy);
    StoredKeeps(id, p, Qrcode);
    StoredKeeps(id, p, PaymentScreenshot);
  }

  /**
   * The row a successful create stores: the normalised fields with agreeing
   * flags, the parsed date, the caller's username, and the client's status or
   * else "Pending".
   */
  lemma CreatedRow(form: CreateForm, username: string, stamps: Stamps, id: nat)
    requires PlanCreate(form, username, stamps).Ok?
    ensures var row := StoredRow(id, PlanCreate(form, username, stamps).value.payload);
            && FlagsAgree(row)
            && Get(row, CompanyName) == Text(form.companyName)
            && Get(row, ExpenseType) == Text(NormaliseExpenseType(form.expenseType).name)
            && Get(row, ExpenseTypeFlag) == Num(NormaliseExpenseType(form.expenseType).flag)
            && Get(row, DateColumn) == Day(ParseDate(form.date).value)
            && Get(row, SubmittedBy) == Text(username)
            && OptText(Get(row, Status)) == (if form.status.Some? then form.status else Some("Pending"))
            && Get(row, InvoiceCopy) == TextOrNull(SaveUploadFile(form.invoiceCopy, InvoiceDir, stamps.invoice))
            && Get(row, Qrcode) == TextOrNull(SaveUploadFile(form.qrcode, QrcodeDir, stamps.qrcode))
            && Get(row, PaymentScreenshot) == TextOrNull(SaveUploadFile(form.paymentScreenshot, ScreenshotDir, stamps.screenshot))
  {
    var d := ParseDate(form.date).value;
    var invoice := SaveUploadFile(form.invoiceCopy, InvoiceDir, stamps.invoice);
    var qrcode := SaveUploadFile(form.qrcode, QrcodeDir, stamps.qrcode);
    var screenshot := SaveUploadFile(form.paymentScreenshot, ScreenshotDir, stamps.screenshot);
    StoredRowOf(form, username, d, invoice, qrcode, screenshot, id);
    StoredFlagsAgree(form, username, d, invoice, qrcode, screenshot, id);
    StoredFilesOf(form, username, d, invoice, qrcode, screenshot, id);
  }

  /**
   * `create_expense`: nothing is saved and nothing is written unless the plan
   * succeeds; then the row is appended to the company's table.
   */
  method CreateExpense(store: Store, who: Principal, form: CreateForm, stamps: Stamps)
    returns (r: Result<Expense>, written: seq<string>)
    requires store.Valid()
    modifies store
    ensures store.Valid()
    ensures PlanCreate(form, who.Username(), stamps).Err? ==>
              r == Err(PlanCreate(form, who.Username(), stamps).error) && written == [] && unchanged(store)
    ensures PlanCreate(form, who.Username(), stamps).Ok? ==>
              var plan := PlanCreate(form, who.Username(), stamps).value;
              var c := ModelForCompany(form.companyName).value;
              && written == plan.written
              && r == Ok(StoredRow(store.clock, plan.payload))
              && store.clock == old(store.clock) + 1
              && store.Table(c) == old(store.Table(c)) + [r.value]
              && (forall d :: d != c ==> store.Table(d) == old(store.Table(d)))
              && store.users == old(store.users) && store.admins == old(store.admins)
              && store.vendors == old(store.vendors)
  {
    if ModelForCompany(form.companyName).None? {
      return Err(UnknownCompany), [];
    }
    var d := ParseDate(form.date);
    if d.None? {
      return Err(BadCreateDate), [];
    }
    var invoice := SaveUploadFile(form.invoiceCopy, InvoiceDir, stamps.invoice);
    var qrcode := SaveUploadFile(form.qrcode, QrcodeDir, stamps.qrcode);
    var screenshot := SaveUploadFile(form.paymentScreenshot, ScreenshotDir, stamps.screenshot);
    written := Written(invoice, qrcode, screenshot);
    var payload := BasePayload(form, who.Username(), d.value, invoice, qrcode, screenshot);
    if form.status.Some? {
      payload := payload[Status := Text(form.status.value)];
    }
    assert payload == PlanCreate(form, who.Username(), stamps).value.payload;
    var row := store.CreateExpense(form.companyName, payload);
    r := Ok(row.value);
  }

  // ----- Update -----

  /** The form fields of `PUT /{company_name}/{expense_id}`; every one may be absent. */
  datatype UpdateForm = UpdateForm(
    expenseType: Option<string>, gstNumber: Option<string>, date: Option<string>,
    invoiceNumber: Option<string>, vendorName: Option<string>, invoiceAmount: Option<string>,
    purpose: Option<string>, purchasedBy: Option<string>,
    amountPaidBy: Option<string>, paymentType: Option<string>, amountPaid: Option<string>,
    invoiceCopy: Option<Upload>, qrcode: Option<Upload>, paymentScreenshot: Option<Upload>,
    allOk: Option<bool>, status: Option<string>)

  /** The fields the handler copies by name, in the order of its loop. */
  const CopiedFields: seq<Column> :=
    [InvoiceNumber, VendorName, InvoiceAmount, Purpose, PurchasedBy, AmountPaid, AmountPaidBy]

  /** `locals().get(name)` for a copied field; None for every other column. */
  function Local(form: UpdateForm, c: Column): (r: Option<string>)
    ensures c !in CopiedFields ==> r.None?
  {
    match c
    case InvoiceNumber => form.invoiceNumber
    case VendorName => form.vendorName
    case InvoiceAmount => form.invoiceAmount
    case Purpose => form.purpose
    case PurchasedBy => form.purchasedBy
    case AmountPaid => form.amountPaid
    case AmountPaidBy => form.amountPaidBy
    case _ => None
  }

  /** The update's date is given and neither form parses it. */
  predicate BadDate(form: UpdateForm) {
    form.date.Some? && ParseDate(form.date.value).None?
  }

  /** The status an update writes: `allOk` decides when it is given, else a supplied `status`. */
  function NewStatus(form: UpdateForm): (r: Option<string>)
    ensures form.allOk == Some(true) ==> r == Some("Completed")
    ensures form.allOk == Some(false) ==> r == Some("Pending")
    ensures form.allOk.None? ==> r == form.status
  {
    if form.allOk.Some? then Some(if form.allOk.value then "Completed" else "Pending") else form.status
  }

  function TextOf(o: Option<string>): Option<Value> {
    if o.Some? then Some(Text(o.value)) else None
  }

  /**
   * What the change set of an update holds for column `c`, None where the
   * handler leaves the column out. The company name is never changed, and
   * `submitted_by` is stamped only for a non-empty username.
   */
  function Intended(form: UpdateForm, username: string, stamps: Stamps, c: Column): Option<Value> {
    match c
    case CompanyName => None
    case ExpenseType =>
      if form.expenseType.Some? then Some(Text(NormaliseExpenseType(form.expenseType.value).name)) else None
    case ExpenseTypeFlag =>
      if form.expenseType.Some? then Some(Num(NormaliseExpenseType(form.expenseType.value).flag)) else None
    case GstNumber => TextOf(form.gstNumber)
    case DateColumn =>
      if form.date.Some? && ParseDate(form.date.value).Some? then Some(Day(ParseDate(form.date.value).value)) else None
    case InvoiceNumber => TextOf(form.invoiceNumber)
    case VendorName => TextOf(form.vendorName)
    case InvoiceAmount => TextOf(form.invoiceAmount)
    case Purpose => TextOf(form.purpose)
    case PurchasedBy => TextOf(form.purchasedBy)
    case AmountPaid => TextOf(form.amountPaid)
    case AmountPaidBy => TextOf(form.amountPaidBy)
    case PaymentType =>
      if form.paymentType.Some? then TextOf(PaymentTypeOnUpdate(form.paymentType.value).name) else None
    case PaymentTypeFlag =>
      if form.paymentType.Some? then Some(NumOrNull(PaymentTypeOnUpdate(form.paymentType.value).flag)) else None
    case InvoiceCopy => TextOf(SaveUploadFile(form.invoiceCopy, InvoiceDir, stamps.invoice))
    case Qrcode => TextOf(SaveUploadFile(form.qrcode, QrcodeDir, stamps.qrcode))
    case PaymentScreenshot => TextOf(SaveUploadFile(form.paymentScreenshot, ScreenshotDir, stamps.screenshot))
    case Status => TextOf(NewStatus(form))
    case SubmittedBy => if username != "" then Some(Text(username)) else None
  }

  /** The change set an update with a parsable date (or none) applies, column by column as `Intended` says. */
  function IntendedChanges(form: UpdateForm, username: string, stamps: Stamps): (r: ChangeSet)
    ensures WellTyped(r)
    ensures forall c :: c in r <==> Intended(form, username, stamps, c).Some?
    ensures forall c :: c in r ==> r[c] == Intended(form, username, stamps, c).value
  {
    map c: Column | Intended(form, username, stamps, c).Some? :: Intended(form, username, stamps, c).value
  }

  /** The files an update writes: those of its uploads that have a name. */
  function UpdateWritten(form: UpdateForm, stamps: Stamps): seq<string> {
    Written(SaveUploadFile(form.invoiceCopy, InvoiceDir, stamps.invoice),
            SaveUploadFile(form.qrcode, QrcodeDir, stamps.qrcode),
            SaveUploadFile(form.paymentScreenshot, ScreenshotDir, stamps.screenshot))
  }

  /** `changes` agrees with `Intended` on the columns in `done` and holds nothing else. */
  ghost predicate Agrees(changes: ChangeSet, form: UpdateForm, username: string, stamps: Stamps, done: set<Column>) {
    && (forall c :: c in changes <==> c in done && Intended(form, username, stamps, c).Some?)
    && (forall c :: c in changes ==> changes[c] == Intended(form, username, stamps, c).value)
  }

  /** Writing column `c` with its intended value extends the agreement to `c`. */
  lemma Assign(changes: ChangeSet, form: UpdateForm, username: string, stamps: Stamps, done: set<Column>,
               c: Column, v: Value)
    requires Agrees(changes, form, username, stamps, done) && Intended(form, username, stamps, c) == Some(v)
    ensures Agrees(changes[c := v], form, username, stamps, done + {c})
  {
  }

  /** Leaving out a column the update does not touch extends the agreement to it. */
  lemma Skip(changes: ChangeSet, form: UpdateForm, username: string, stamps: Stamps, done: set<Column>, c: Column)
    requires Agrees(changes, form, username, stamps, done) && Intended(form, username, stamps, c).None?
    ensures Agrees(changes, form, username, stamps, done + {c})
  {
  }

  /** The columns settled before the copy loop. */
  const EarlyColumns: set<Column> := {CompanyName, ExpenseTypeFlag, ExpenseType, GstNumber, DateColumn}

  /** The columns settled by the copy loop. */
  const CopiedColumns: set<Column> := set i | 0 <= i < |CopiedFields| :: CopiedFields[i]

  /** The columns settled after it, before the status. */
  const LateColumns: set<Column> := {PaymentTypeFlag, PaymentType, InvoiceCopy, Qrcode, PaymentScreenshot}

  /** `expense_type`, `gst_number` and `date`, in that order; a bad date stops the update here. */
  method EarlyChanges(form: UpdateForm, username: string, stamps: Stamps) returns (r: Result<ChangeSet>)
    ensures BadDate(form) <==> r.Err?
    ensures r.Err? ==> r.error == BadUpdateDate
    ensures r.Ok? ==> Agrees(r.value, form, username, stamps, EarlyColumns)
  {
    var changes: ChangeSet := map[];
    ghost var done: set<Column> := {CompanyName};
    if form.expenseType.Some? {
      var e := NormaliseExpenseType(form.expenseType.value);
      Assign(changes, form, username, stamps, done, ExpenseTypeFlag, Num(e.flag));
      changes, done := changes[ExpenseTypeFlag := Num(e.flag)], done + {ExpenseTypeFlag};
      Assign(changes, form, username, stamps, done, ExpenseType, Text(e.name));
      changes, done := changes[ExpenseType := Text(e.name)], done + {ExpenseType};
    } else {
      Skip(changes, form, username, stamps, done, ExpenseTypeFlag);
      Skip(changes, form, username, stamps, done + {ExpenseTypeFlag}, ExpenseType);
      done := done + {ExpenseTypeFlag, ExpenseType};
    }
    if form.gstNumber.Some? {
      Assign(changes, form, username, stamps, done, GstNumber, Text(form.gstNumber.value));
      changes := changes[GstNumber := Text(form.gstNumber.value)];
    } else {
      Skip(changes, form, username, stamps, done, GstNumber);
    }
    done := done + {GstNumber};
    if form.date.Some? {
      var d := ParseDate(form.date.value);
      if d.None? {
        return Err(BadUpdateDate);
      }
      Assign(changes, form, username, stamps, done, DateColumn, Day(d.value));
      changes := changes[DateColumn := Day(d.value)];
    } else {
      Skip(changes, form, username, stamps, done, DateColumn);
    }
    done := done + {DateColumn};
    assert done == EarlyColumns;
    r := Ok(changes);
  }

  /** Each copied field is intended exactly when its form field was supplied. */
  lemma CopiedIntended(form: UpdateForm, username: string, stamps: Stamps, k: nat)
    requires k < |CopiedFields|
    ensures Intended(form, username, stamps, CopiedFields[k]) == TextOf(Local(form, CopiedFields[k]))
  {
  }

  /** `for local_field in (...): if val is not None: changes[local_field] = val`. */
  method CopyChanges(changes0: ChangeSet, form: UpdateForm, username: string, stamps: Stamps) returns (changes: ChangeSet)
    requires Agrees(changes0, form, username, stamps, EarlyColumns)
    ensures Agrees(changes, form, username, stamps, EarlyColumns + CopiedColumns)
  {
    changes := changes0;
    ghost var done := EarlyColumns;
    var k := 0;
    while k < |CopiedFields|
      invariant 0 <= k <= |CopiedFields|
      invariant done == EarlyColumns + set i | 0 <= i < k :: CopiedFields[i]
      invariant Agrees(changes, form, username, stamps, done)
    {
      var field := CopiedFields[k];
      var value := Local(form, field);
      CopiedIntended(form, username, stamps, k);
      if value.Some? {
        Assign(changes, form, username, stamps, done, field, Text(value.value));
        changes := changes[field := Text(value.value)];
      } else {
        Skip(changes, form, username, stamps, done, field);
      }
      done := done + {field};
      k := k + 1;
    }
  }

  /** `payment_type`: a supplied value sets the name and the flag together. */
  method PaymentChanges(changes0: ChangeSet, form: UpdateForm, username: string, stamps: Stamps, ghost done0: set<Column>)
    returns (changes: ChangeSet)
    requires Agrees(changes0, form, username, stamps, done0)
    ensures Agrees(changes, form, username, stamps, done0 + {PaymentTypeFlag, PaymentType})
  {
    changes := changes0;
    if form.paymentType.Some? {
      var pay := PaymentTypeOnUpdate(form.paymentType.value);
      Assign(changes, form, username, stamps, done0, PaymentTypeFlag, NumOrNull(pay.flag));
      changes := changes[PaymentTypeFlag := NumOrNull(pay.flag)];
      Assign(changes, form, username, stamps, done0 + {PaymentTypeFlag}, PaymentType, Text(pay.name.value));
      changes := changes[PaymentType := Text(pay.name.value)];
    } else {
      Skip(changes, form, username, stamps, done0, PaymentTypeFlag);
      Skip(changes, form, username, stamps, done0 + {PaymentTypeFlag}, PaymentType);
    }
    assert done0 + {PaymentTypeFlag} + {PaymentType} == done0 + {PaymentTypeFlag, PaymentType};
  }

  /**
   * One upload: saved only when the part was sent, and its path, when the
   * save gives one, goes into its column.
   */
  method FileChange(changes0: ChangeSet, form: UpdateForm, username: string, stamps: Stamps, ghost done0: set<Column>,
                    c: Column, file: Option<Upload>, folder: string, stem: string)
    returns (changes: ChangeSet, path: Option<string>)
    requires Agrees(changes0, form, username, stamps, done0)
    requires Intended(form, username, stamps, c) == TextOf(SaveUploadFile(file, folder, stem))
    ensures path == SaveUploadFile(file, folder, stem)
    ensures Agrees(changes, form, username, stamps, done0 + {c})
    ensures path.None? ==> changes == changes0
  {
    path := None;
    if file.Some? {
      path := SaveUploadFile(file, folder, stem);
    }
    changes := changes0;
    if path.Some? {
      Assign(changes, form, username, stamps, done0, c, Text(path.value));
      changes := changes[c := Text(path.value)];
    } else {
      Skip(changes, form, username, stamps, done0, c);
    }
  }

  /** The intended value of each upload column is its saved path. */
  lemma InvoiceIntended(form: UpdateForm, username: string, stamps: Stamps)
    ensures Intended(form, username, stamps, InvoiceCopy) == TextOf(SaveUploadFile(form.invoiceCopy, InvoiceDir, stamps.invoice))
  {
  }

  lemma QrcodeIntended(form: UpdateForm, username: string, stamps: Stamps)
    ensures Intended(form, username, stamps, Qrcode) == TextOf(SaveUploadFile(form.qrcode, QrcodeDir, stamps.qrcode))
  {
  }

  lemma ScreenshotIntended(form: UpdateForm, username: string, stamps: Stamps)
    ensures Intended(form, username, stamps, PaymentScreenshot)
            == TextOf(SaveUploadFile(form.paymentScreenshot, ScreenshotDir, stamps.screenshot))
  {
  }

  /** The three uploads, each saved only when given; returns the files written. */
  method UploadChanges(changes0: ChangeSet, form: UpdateForm, username: string, stamps: Stamps, ghost done0: set<Column>)
    returns (changes: ChangeSet, written: seq<string>)
    requires Agrees(changes0, form, username, stamps, done0)
    ensures Agrees(changes, form, username, stamps, done0 + {InvoiceCopy} + {Qrcode} + {PaymentScreenshot})
    ensures written == UpdateWritten(form, stamps)
  {
    var invoice, qrcode, screenshot;
    InvoiceIntended(form, username, stamps);
    changes, invoice := FileChange(changes0, form, username, stamps, done0, InvoiceCopy,
                                   form.invoiceCopy, InvoiceDir, stamps.invoice);
    QrcodeIntended(form, username, stamps);
    changes, qrcode := FileChange(changes, form, username, stamps, done0 + {InvoiceCopy}, Qrcode,
                                  form.qrcode, QrcodeDir, stamps.qrcode);
    ScreenshotIntended(form, username, stamps);
    changes, screenshot := FileChange(changes, form, username, stamps, done0 + {InvoiceCopy} + {Qrcode}, PaymentScreenshot,
                                      form.paymentScreenshot, ScreenshotDir, stamps.screenshot);
    written := Written(invoice, qrcode, screenshot);
  }

  /** `allOk` over `status`, then `submitted_by` for a non-empty username. */
  method FinalChanges(changes0: ChangeSet, form: UpdateForm, username: string, stamps: Stamps, ghost done0: set<Column>)
    returns (changes: ChangeSet)
    requires Agrees(changes0, form, username, stamps, done0) && AllColumns - {Status, SubmittedBy} <= done0
    ensures changes == IntendedChanges(form, username, stamps)
  {
    changes := changes0;
    ghost var done := done0;
    if form.allOk.Some? {
      var s := if form.allOk.value then "Completed" else "Pending";
      Assign(changes, form, username, stamps, done, Status, Text(s));
      changes := changes[Status := Text(s)];
    } else if form.status.Some? {
      Assign(changes, form, username, stamps, done, Status, Text(form.status.value));
      changes := changes[Status := Text(form.status.value)];
    } else {
      Skip(changes, form, username, stamps, done, Status);
    }
    done := done + {Status};
    if username != "" {
      Assign(changes, form, username, stamps, done, SubmittedBy, Text(username));
      changes := changes[SubmittedBy := Text(username)];
    } else {
      Skip(changes, form, username, stamps, done, SubmittedBy);
    }
    done := done + {SubmittedBy};
    AgreesEverywhere(changes, form, username, stamps, done);
  }

  /**
   * The change-set construction of `update_expense`: 400 for a date neither
   * form parses, raised before any file is saved; otherwise exactly the
   * supplied fields, as `Intended` gives them.
   */
  method BuildChanges(form: UpdateForm, username: string, stamps: Stamps)
    returns (r: Result<ChangeSet>, written: seq<string>)
    ensures BadDate(form) ==> r == Err(BadUpdateDate) && written == []
    ensures !BadDate(form) ==> r == Ok(IntendedChanges(form, username, stamps)) && written == UpdateWritten(form, stamps)
  {
    var early := EarlyChanges(form, username, stamps);
    if early.Err? {
      return Err(early.error), [];
    }
    var changes := CopyChanges(early.value, form, username, stamps);
    changes := PaymentChanges(changes, form, username, stamps, EarlyColumns + CopiedColumns);
    changes, written := UploadChanges(changes, form, username, stamps,
                                      EarlyColumns + CopiedColumns + {PaymentTypeFlag, PaymentType});
    ColumnsCovered();
    changes := FinalChanges(changes, form, username, stamps, EarlyColumns + CopiedColumns + LateColumns);
    r := Ok(changes);
  }

  /** The three groups of steps settle every column but `status` and `submitted_by`. */
  lemma ColumnsCovered()
    ensures AllColumns - {Status, SubmittedBy} <= EarlyColumns + CopiedColumns + LateColumns
  {
    assert CopiedFields[0] == InvoiceNumber && CopiedFields[1] == VendorName && CopiedFields[2] == InvoiceAmount;
    assert CopiedFields[3] == Purpose && CopiedFields[4] == PurchasedBy;
    assert CopiedFields[5] == AmountPaid && CopiedFields[6] == AmountPaidBy;
  }

  /** Agreement on every column is equality with the intended change set. */
  lemma AgreesEverywhere(changes: ChangeSet, form: UpdateForm, username: string, stamps: Stamps, done: set<Column>)
    requires Agrees(changes, form, username, stamps, done) && AllColumns <= done
    ensures changes == IntendedChanges(form, username, stamps)
  {
    var target := IntendedChanges(form, username, stamps);
    forall c ensures c in changes <==> c in target {
      AllColumnsComplete(c);
    }
    assert changes.Keys == target.Keys;
  }

  /** A supplied `allOk` decides the status: whatever `status` says is ignored. */
  lemma AllOkOverridesStatus(form: UpdateForm, username: string, stamps: Stamps, status: Option<string>)
    requires form.allOk.Some?
    ensures var changes := IntendedChanges(form, username, stamps);
            && Status in changes
            && changes[Status] == Text(if form.allOk.value then "Completed" else "Pending")
            && changes == IntendedChanges(form.(status := status), username, stamps)
  {
    var changes, other := IntendedChanges(form, username, stamps), IntendedChanges(form.(status := status), username, stamps);
    assert Intended(form, username, stamps, Status) == Some(Text(if form.allOk.value then "Completed" else "Pending"));
    forall c ensures Intended(form, username, stamps, c) == Intended(form.(status := status), username, stamps, c) {
    }
    assert changes.Keys == other.Keys;
  }

  /** The form with nothing supplied. */
  const NothingSupplied := UpdateForm(None, None, None, None, None, None, None, None, None, None, None,
                                      None, None, None, None, None)

  /** Only supplied fields enter the change set: with nothing supplied it holds `submitted_by` alone, and only for a non-empty username. */
  lemma NothingSuppliedChangesNothing(username: string, stamps: Stamps)
    ensures IntendedChanges(NothingSupplied, username, stamps)
            == if username != "" then map[SubmittedBy := Text(username)] else map[]
  {
    var changes := IntendedChanges(NothingSupplied, username, stamps);
    var expected: ChangeSet := if username != "" then map[SubmittedBy := Text(username)] else map[];
    forall c ensures c in changes <==> c in expected {
      assert Intended(NothingSupplied, username, stamps, c).Some? <==> c == SubmittedBy && username != "";
    }
    assert changes.Keys == expected.Keys;
  }

  /** An update never touches the company name and copies each copied field exactly when it was supplied. */
  lemma ChangesFollowSuppliedFields(form: UpdateForm, username: string, stamps: Stamps, c: Column)
    ensures CompanyName !in IntendedChanges(form, username, stamps)
    ensures c in CopiedFields ==>
              (c in IntendedChanges(form, username, stamps) <==> Local(form, c).Some?)
              && (Local(form, c).Some? ==> IntendedChanges(form, username, stamps)[c] == Text(Local(form, c).value))
    ensures (SubmittedBy in IntendedChanges(form, username, stamps)) <==> username != ""
  {
    if c in CopiedFields {
      var k :| 0 <= k < |CopiedFields| && CopiedFields[k] == c;
      CopiedIntended(form, username, stamps, k);
    }
  }

  /** An update writes each flag together with its string column, and in agreement with it. */
  lemma ChangesPairFlags(form: UpdateForm, username: string, stamps: Stamps)
    ensures var ch := IntendedChanges(form, username, stamps);
            && (ExpenseType in ch <==> ExpenseTypeFlag in ch)
            && (ExpenseType in ch ==> ExpenseTypeAgrees(OptText(ch[ExpenseType]).value, OptNum(ch[ExpenseTypeFlag]).value))
            && (PaymentType in ch <==> PaymentTypeFlag in ch)
            && (PaymentType in ch ==> PaymentTypeAgrees(OptText(ch[PaymentType]), OptNum(ch[PaymentTypeFlag])))
  {
    var ch := IntendedChanges(form, username, stamps);
    assert ExpenseType in ch <==> form.expenseType.Some?;
    assert ExpenseTypeFlag in ch <==> form.expenseType.Some?;
    assert PaymentType in ch <==> form.paymentType.Some?;
    assert PaymentTypeFlag in ch <==> form.paymentType.Some?;
  }

  /** Applying an update's change set keeps every flag in agreement with its string column. */
  lemma PatchKeepsFlagsAgree(e: Expense, form: UpdateForm, username: string, stamps: Stamps)
    requires FlagsAgree(e)
    ensures FlagsAgree(Patched(e, IntendedChanges(form, username, stamps)))
  {
    var ch := IntendedChanges(form, username, stamps);
    ChangesPairFlags(form, username, stamps);
    var r := Patched(e, ch);
    if ExpenseType in ch {
      assert Get(r, ExpenseType) == ch[ExpenseType] && Get(r, ExpenseTypeFlag) == ch[ExpenseTypeFlag];
    } else {
      assert Get(r, ExpenseType) == Get(e, ExpenseType) && Get(r, ExpenseTypeFlag) == Get(e, ExpenseTypeFlag);
    }
    if PaymentType in ch {
      assert Get(r, PaymentType) == ch[PaymentType] && Get(r, PaymentTypeFlag) == ch[PaymentTypeFlag];
    } else {
      assert Get(r, PaymentType) == Get(e, PaymentType) && Get(r, PaymentTypeFlag) == Get(e, PaymentTypeFlag);
    }
  }

  // ----- Endpoints -----

  /**
   * `update_expense`: 403 for a caller with an `approved` attribute, before any
   * lookup; then 404 for a missing expense; then 400 for a bad date. The 500
   * branch is never taken.
   */
  method UpdateExpense(store: Store, who: Principal, companyName: string, id: int, form: UpdateForm, stamps: Stamps)
    returns (r: Result<Expense>, written: seq<string>)
    requires store.Valid()
    modifies store
    ensures store.Valid()
    ensures r.Err? ==> r.error != UpdateFailed && written == [] && unchanged(store)
    ensures who.HasApprovedAttribute() ==> r == Err(AdminRequired)
    ensures !who.HasApprovedAttribute() && old(store.GetExpense(companyName, id)).None? ==> r == Err(ExpenseNotFound)
    ensures !who.HasApprovedAttribute() && old(store.GetExpense(companyName, id)).Some? ==>
              if BadDate(form) then r == Err(BadUpdateDate)
              else
                var c := ModelForCompany(companyName).value;
                var i := ExpenseIndex(old(store.Table(c)), id).value;
                && written == UpdateWritten(form, stamps)
                && r == Ok(Patched(old(store.GetExpense(companyName, id)).value, IntendedChanges(form, who.Username(), stamps)))
                && store.Table(c) == old(store.Table(c))[i := r.value]
                && (forall d :: d != c ==> store.Table(d) == old(store.Table(d)))
                && store.users == old(store.users) && store.admins == old(store.admins)
                && store.vendors == old(store.vendors) && store.clock == old(store.clock)
  {
    written := [];
    if who.HasApprovedAttribute() {
      return Err(AdminRequired), [];
    }
    var found := store.GetExpense(companyName, id);
    if found.None? {
      return Err(ExpenseNotFound), [];
    }
    var changes;
    changes, written := BuildChanges(form, who.Username(), stamps);
    if changes.Err? {
      return Err(changes.error), [];
    }
    var updated := store.UpdateExpense(companyName, id, changes.value);
    if updated.None? {
      return Err(UpdateFailed), [];
    }
    r := Ok(updated.value);
  }

  /** `delete_expense`: 403 for a caller with an `approved` attribute, before any lookup; 404 when nothing matches. */
  method DeleteExpense(store: Store, who: Principal, companyName: string, id: int) returns (r: Result<string>)
    requires store.Valid()
    modifies store
    ensures store.Valid()
    ensures r.Err? ==> unchanged(store)
    ensures who.HasApprovedAttribute() ==> r == Err(AdminRequired)
    ensures !who.HasApprovedAttribute() && old(store.GetExpense(companyName, id)).None? ==> r == Err(ExpenseNotFound)
    ensures !who.HasApprovedAttribute() && old(store.GetExpense(companyName, id)).Some? ==>
              var c := ModelForCompany(companyName).value;
              var i := ExpenseIndex(old(store.Table(c)), id).value;
              && r == Ok("Expense deleted")
              && store.Table(c) == old(store.Table(c))[..i] + old(store.Table(c))[i + 1..]
              && (forall d :: d != c ==> store.Table(d) == old(store.Table(d)))
              && store.users == old(store.users) && store.admins == old(store.admins)
              && store.vendors == old(store.vendors) && store.clock == old(store.clock)
  {
    if who.HasApprovedAttribute() {
      return Err(AdminRequired);
    }
    var ok := store.DeleteExpense(companyName, id);
    if !ok {
      return Err(ExpenseNotFound);
    }
    r := Ok("Expense deleted");
  }

  /** `get_expense_detail`. */
  function GetExpenseDetail(store: Store, companyName: string, id: int): (r: Result<Expense>)
    reads store
    ensures r == Err(ExpenseNotFound) <==> store.GetExpense(companyName, id).None?
    ensures r.Ok? ==> ModelForCompany(companyName).Some?
                      && r.value in store.Table(ModelForCompany(companyName).value) && r.value.id == id
    ensures ModelForCompany(companyName).Some? ==>
              forall e :: e in store.Table(ModelForCompany(companyName).value) && e.id == id ==>
                r.Ok? && (store.Valid() ==> r.value == e)
  {
    match store.GetExpense(companyName, id)
    case None => Err(ExpenseNotFound)
    case Some(e) => Ok(e)
  }

  /** The three stored file paths `get_expense_files` returns. */
  datatype ExpenseFiles = ExpenseFiles(invoiceCopy: Option<string>, qrcode: Option<string>, paymentScreenshot: Option<string>)

  /** `get_expense_files`: the stored paths of the one matching row, or 404. */
  function GetExpenseFiles(store: Store, companyName: string, id: int): (r: Result<ExpenseFiles>)
    reads store
    ensures r == Err(ExpenseNotFound) <==> store.GetExpense(companyName, id).None?
    ensures r.Ok? ==> exists e :: e in store.Table(ModelForCompany(companyName).value) && e.id == id
                        && r.value == ExpenseFiles(OptText(Get(e, InvoiceCopy)), OptText(Get(e, Qrcode)), OptText(Get(e, PaymentScreenshot)))
    ensures ModelForCompany(companyName).Some? ==>
              forall e :: e in store.Table(ModelForCompany(companyName).value) && e.id == id ==>
                r.Ok? && (store.Valid() ==>
                  r.value == ExpenseFiles(OptText(Get(e, InvoiceCopy)), OptText(Get(e, Qrcode)), OptText(Get(e, PaymentScreenshot))))
  {
    match store.GetExpense(companyName, id)
    case None => Err(ExpenseNotFound)
    case Some(e) => Ok(ExpenseFiles(OptText(Get(e, InvoiceCopy)), OptText(Get(e, Qrcode)), OptText(Get(e, PaymentScreenshot))))
  }

  /** `add_vendor`: 400 for a name already taken, exact match; otherwise a new vendor. */
  method AddVendor(store: Store, name: string) returns (r: Result<Vendor>)
    requires store.Valid()
    modifies store
    ensures store.Valid()
    ensures (exists v :: v in old(store.vendors) && v.name == name) ==> r == Err(VendorExists) && unchanged(store)
    ensures (forall v :: v in old(store.vendors) ==> v.name != name) ==>
              && r.Ok? && r.value.name == name
              && store.vendors == old(store.vendors) + [r.value]
              && store.users == old(store.users) && store.admins == old(store.admins)
              && forall c :: store.Table(c) == old(store.Table(c))
  {
    if VendorByName(store.vendors, name).Some? {
      return Err(VendorExists);
    }
    var v := store.CreateVendor(name);
    r := Ok(v);
  }

  /** The date of the example expense, in its ISO spelling. */
  lemma FifteenthOfJanuary()
    ensures ParseDate("2024-01-15") == Some(Date(2024, 1, 15))
  {
    var d := Date(2024, 1, 15);
    IsoRoundTrip(d);
    Pad4Of2024();
    Pad2Of(1);
    assert FormatIso(d) == "2024-01-15";
  }

  /** Whatever the row held, an update carrying `allOk` leaves it "Completed" or "Pending" as `allOk` says. */
  lemma AllOkSetsStatus(e: Expense, form: UpdateForm, username: string, stamps: Stamps)
    requires form.allOk.Some?
    ensures Get(Patched(e, IntendedChanges(form, username, stamps)), Status)
            == Text(if form.allOk.value then "Completed" else "Pending")
  {
    var ch := IntendedChanges(form, username, stamps);
    AllOkOverridesStatus(form, username, stamps, form.status);
    assert Get(Patched(e, ch), Status) == ch[Status];
  }

  /** The example expense: a "Purchase" dated 2024-01-15 with no files and no status. */
  function PurchaseForm(c: Company): CreateForm {
    CreateForm(RegisteredName(c), None, "Purchase", "2024-01-15", None, None, None, None, None,
               None, None, None, None, None, None, None)
  }

  /** The example expense is stored with flag 0, status "Pending" and no invoice. */
  lemma PurchaseCreated(c: Company, username: string, stamps: Stamps, id: nat)
    ensures PlanCreate(PurchaseForm(c), username, stamps).Ok?
    ensures var row := StoredRow(id, PlanCreate(PurchaseForm(c), username, stamps).value.payload);
            && Get(row, ExpenseType) == Text("Purchase") && Get(row, ExpenseTypeFlag) == Num(0)
            && Get(row, DateColumn) == Day(Date(2024, 1, 15)) && Get(row, Status) == Text("Pending")
            && Get(row, InvoiceCopy) == Null
  {
    var form := PurchaseForm(c);
    FifteenthOfJanuary();
    ModelForCompanyExact(RegisteredName(c), c);
    assert ParseDate(form.date) == Some(Date(2024, 1, 15));
    CreatedRow(form, username, stamps, id);
    PurchaseIsPurchase();
    assert NormaliseExpenseType(form.expenseType) == ExpenseTypeField("Purchase", 0);
  }
}
