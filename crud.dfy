/**
 * The record store: the user, admin and vendor tables, the three company
 * expense tables, the company-name dispatch and the CRUD operations over them.
 */
module Crud {
  import opened Base
  import opened Models

  // ----- Company dispatch -----

  /** The three companies, each with its own expense table. */
  datatype Company = Thinksonic | Thinkmachines | Thinkplast

  /** The exact key of `_company_model_map` (written in two parts so that the verifier can index it). */
  function RegisteredName(c: Company): string {
    match c
    case Thinksonic => "Thinksonic" + " Global Solutions Pvt Ltd"
    case Thinkmachines => "Thinkmachines" + " Industries & Automation Pvt Ltd"
    case Thinkplast => "Thinkplast" + " Integrated Molding & Engineering Pvt Ltd"
  }

  /** `get_model_for_company`: a dict lookup, so only the exact registered name selects a table. */
  function ModelForCompany(name: string): (r: Option<Company>)
    ensures r.Some? ==> RegisteredName(r.value) == name
    ensures r.None? ==> forall c: Company :: RegisteredName(c) != name
  {
    if name == RegisteredName(Thinksonic) then Some(Thinksonic)
    else if name == RegisteredName(Thinkmachines) then Some(Thinkmachines)
    else if name == RegisteredName(Thinkplast) then Some(Thinkplast)
    else None
  }

  /** Dispatch is the inverse of the registered names: each name selects its own table and no other. */
  lemma ModelForCompanyExact(name: string, c: Company)
    ensures ModelForCompany(name) == Some(c) <==> name == RegisteredName(c)
  {
    assert RegisteredName(Thinksonic)[5] == 's';
    assert RegisteredName(Thinkmachines)[5] == 'm';
    assert RegisteredName(Thinkplast)[5] == 'p';
  }

  /** No case folding and no trimming. */
  lemma ModelForCompanyIsCaseSensitive()
    ensures ModelForCompany("thinksonic global solutions pvt ltd") == None
    ensures ModelForCompany("Thinksonic Global Solutions Pvt Ltd ") == None
  {
    var lower := "thinksonic global solutions pvt ltd";
    assert lower[0] == 't';
    assert RegisteredName(Thinksonic)[0] == 'T';
    assert RegisteredName(Thinkmachines)[0] == 'T';
    assert RegisteredName(Thinkplast)[0] == 'T';
    var padded := "Thinksonic Global Solutions Pvt Ltd ";
    assert |padded| != |RegisteredName(Thinksonic)|;
    assert padded[5] == 's';
    assert RegisteredName(Thinkmachines)[5] == 'm';
    assert RegisteredName(Thinkplast)[5] == 'p';
  }

  // ----- Lookups: `query(...).filter(...).first()` -----

  /** The position of the first row satisfying `p`. */
  function IndexWhere<T>(rows: seq<T>, p: T -> bool): (r: Option<nat>)
    ensures r.Some? ==> r.value < |rows| && p(rows[r.value])
    ensures r.Some? ==> forall j :: 0 <= j < r.value ==> !p(rows[j])
    ensures r.None? ==> forall j :: 0 <= j < |rows| ==> !p(rows[j])
  {
    if rows == [] then None
    else if p(rows[0]) then Some(0)
    else
      match IndexWhere(rows[1..], p)
      case None => None
      case Some(i) => Some(i + 1)
  }

  function UserIndex(users: seq<User>, id: int): Option<nat> {
    IndexWhere(users, (u: User) => u.id == id)
  }

  function ExpenseIndex(rows: seq<Expense>, id: int): Option<nat> {
    IndexWhere(rows, (e: Expense) => e.id == id)
  }

  /** `get_user_by_email`. */
  function UserByEmail(users: seq<User>, email: string): (r: Option<User>)
    ensures r.Some? ==> r.value in users && r.value.email == email
    ensures r.None? <==> forall u :: u in users ==> u.email != email
  {
    match IndexWhere(users, (u: User) => u.email == email)
    case None => None
    case Some(i) => Some(users[i])
  }

  /** `get_admin_by_email`. */
  function AdminByEmail(admins: seq<Admin>, email: string): (r: Option<Admin>)
    ensures r.Some? ==> r.value in admins && r.value.email == email
    ensures r.None? <==> forall a :: a in admins ==> a.email != email
  {
    match IndexWhere(admins, (a: Admin) => a.email == email)
    case None => None
    case Some(i) => Some(admins[i])
  }

  /** `get_vendor_by_name`: exact string equality. */
  function VendorByName(vendors: seq<Vendor>, name: string): (r: Option<Vendor>)
    ensures r.Some? ==> r.value in vendors && r.value.name == name
    ensures r.None? <==> forall v :: v in vendors ==> v.name != name
  {
    match IndexWhere(vendors, (v: Vendor) => v.name == name)
    case None => None
    case Some(i) => Some(vendors[i])
  }

  // ----- Orderings -----

  /** The rows last-inserted first. */
  function Reverse<T>(s: seq<T>): (r: seq<T>)
    ensures |r| == |s| && forall i :: 0 <= i < |s| ==> r[i] == s[|s| - 1 - i]
    ensures multiset(r) == multiset(s)
  {
    if s == [] then []
    else
      assert s == [s[0]] + s[1..];
      Reverse(s[1..]) + [s[0]]
  }

  /** `.offset(skip).limit(limit)`. */
  function Window<T>(s: seq<T>, skip: nat, limit: nat): (r: seq<T>)
    ensures |r| == Min(limit, if skip <= |s| then |s| - skip else 0)
    ensures forall i :: 0 <= i < |r| ==> r[i] == s[skip + i]
  {
    var rest := if skip <= |s| then s[skip..] else [];
    if limit <= |rest| then rest[..limit] else rest
  }

  /** `ORDER BY created_at DESC OFFSET skip LIMIT limit` over a table kept in insertion order. */
  function NewestPage(rows: seq<Expense>, skip: nat, limit: nat): (r: seq<Expense>)
    ensures |r| == Min(limit, if skip <= |rows| then |rows| - skip else 0)
    ensures forall i :: 0 <= i < |r| ==> r[i] == rows[|rows| - 1 - (skip + i)]
  {
    Window(Reverse(rows), skip, limit)
  }

  /** A page of a chronological table runs from newest to oldest. */
  lemma NewestFirst(rows: seq<Expense>, skip: nat, limit: nat, clock: nat)
    requires Chronological(rows, ExpenseId, ExpenseCreatedAt, clock)
    ensures var r := NewestPage(rows, skip, limit);
            forall i, j :: 0 <= i < j < |r| ==> r[i].createdAt > r[j].createdAt
  {
    var r := NewestPage(rows, skip, limit);
    forall i, j | 0 <= i < j < |r| ensures r[i].createdAt > r[j].createdAt {
      assert ExpenseCreatedAt(rows[|rows| - 1 - (skip + j)]) < ExpenseCreatedAt(rows[|rows| - 1 - (skip + i)]);
    }
  }

  /** `ORDER BY name`, compared code point by code point. */
  predicate NameLeq(a: string, b: string)
    ensures a <= b ==> NameLeq(a, b)
  {
    a == [] || (b != [] && (a[0] < b[0] || (a[0] == b[0] && NameLeq(a[1..], b[1..]))))
  }

  lemma {:induction false} NameLeqTotal(a: string, b: string)
    ensures NameLeq(a, b) || NameLeq(b, a)
  {
    if a != [] && b != [] && a[0] == b[0] {
      NameLeqTotal(a[1..], b[1..]);
    }
  }

  predicate SortedByName(s: seq<Vendor>) {
    forall i :: 0 < i < |s| ==> NameLeq(s[i - 1].name, s[i].name)
  }

  function InsertByName(v: Vendor, s: seq<Vendor>): (r: seq<Vendor>)
    requires SortedByName(s)
    ensures SortedByName(r) && multiset(r) == multiset(s) + multiset{v}
    ensures r[0] == v || (s != [] && r[0] == s[0])
  {
    if s == [] || NameLeq(v.name, s[0].name) then [v] + s
    else
      NameLeqTotal(v.name, s[0].name);
      assert s == [s[0]] + s[1..];
      [s[0]] + InsertByName(v, s[1..])
  }

  function SortByName(s: seq<Vendor>): (r: seq<Vendor>)
    ensures SortedByName(r) && multiset(r) == multiset(s)
  {
    if s == [] then []
    else
      assert s == [s[0]] + s[1..];
      InsertByName(s[0], SortByName(s[1..]))
  }

  // ----- Table invariants -----

  /** Ids and creation times both grow with insertion order and never pass the store's clock. */
  ghost predicate Chronological<T>(rows: seq<T>, id: T -> nat, createdAt: T -> nat, clock: nat) {
    && (forall i, j :: 0 <= i < j < |rows| ==> id(rows[i]) < id(rows[j]) && createdAt(rows[i]) < createdAt(rows[j]))
    && (forall i :: 0 <= i < |rows| ==> id(rows[i]) <= clock && createdAt(rows[i]) <= clock)
  }

  /** Every company has a table and every table is chronological. */
  ghost predicate TablesChronological(expenses: map<Company, seq<Expense>>, clock: nat) {
    forall c: Company :: c in expenses && Chronological(expenses[c], ExpenseId, ExpenseCreatedAt, clock)
  }

  lemma TablesAppend(expenses: map<Company, seq<Expense>>, c: Company, row: Expense, clock: nat)
    requires TablesChronological(expenses, clock)
    requires row.id == clock + 1 && row.createdAt == clock + 1
    ensures TablesChronological(expenses[c := expenses[c] + [row]], clock + 1)
    ensures forall d :: d != c ==> d in expenses && expenses[c := expenses[c] + [row]][d] == expenses[d]
  {
    var updated := expenses[c := expenses[c] + [row]];
    forall d: Company
      ensures d in updated && Chronological(updated[d], ExpenseId, ExpenseCreatedAt, clock + 1)
    {
      if d == c {
        ChronologicalAppend(expenses[c], row, ExpenseId, ExpenseCreatedAt, clock);
      }
    }
  }

  /** A unique column. */
  ghost predicate UniqueKey<T, K>(rows: seq<T>, key: T -> K) {
    forall i, j :: 0 <= i < j < |rows| ==> key(rows[i]) != key(rows[j])
  }

  function UserId(u: User): nat { u.id }
  function UserCreatedAt(u: User): nat { u.createdAt }
  function UserEmail(u: User): string { u.email }
  function AdminId(a: Admin): nat { a.id }
  function AdminCreatedAt(a: Admin): nat { a.createdAt }
  function AdminEmail(a: Admin): string { a.email }
  function VendorId(v: Vendor): nat { v.id }
  function VendorCreatedAt(v: Vendor): nat { v.createdAt }
  function NameOfVendor(v: Vendor): string { v.name }
  function ExpenseId(e: Expense): nat { e.id }
  function ExpenseCreatedAt(e: Expense): nat { e.createdAt }

  lemma ChronologicalAppend<T>(rows: seq<T>, x: T, id: T -> nat, createdAt: T -> nat, clock: nat)
    requires Chronological(rows, id, createdAt, clock)
    requires id(x) == clock + 1 && createdAt(x) == clock + 1
    ensures Chronological(rows + [x], id, createdAt, clock + 1)
  {
  }

  lemma ChronologicalRemove<T>(rows: seq<T>, i: nat, id: T -> nat, createdAt: T -> nat, clock: nat)
    requires Chronological(rows, id, createdAt, clock) && i < |rows|
    ensures Chronological(rows[..i] + rows[i + 1..], id, createdAt, clock)
  {
    var r := rows[..i] + rows[i + 1..];
    assert forall k :: 0 <= k < |r| ==> r[k] == rows[if k < i then k else k + 1];
  }

  lemma UniqueAppend<T, K>(rows: seq<T>, x: T, key: T -> K)
    requires UniqueKey(rows, key)
    requires forall i :: 0 <= i < |rows| ==> key(rows[i]) != key(x)
    ensures UniqueKey(rows + [x], key)
  {
  }

  lemma UniqueRemove<T, K>(rows: seq<T>, i: nat, key: T -> K)
    requires UniqueKey(rows, key) && i < |rows|
    ensures UniqueKey(rows[..i] + rows[i + 1..], key)
  {
    var r := rows[..i] + rows[i + 1..];
    assert forall k :: 0 <= k < |r| ==> r[k] == rows[if k < i then k else k + 1];
  }

  /** With unique ids, the first row with an id is the only one. */
  lemma ChronologicalIdsUnique<T>(rows: seq<T>, id: T -> nat, createdAt: T -> nat, clock: nat, i: nat, j: nat)
    requires Chronological(rows, id, createdAt, clock)
    requires i < |rows| && j < |rows| && id(rows[i]) == id(rows[j])
    ensures i == j
  {
  }

  /** In a chronological table, the row at `i` is the only one with its id. */
  lemma OnlyRowWithId(rows: seq<Expense>, clock: nat, i: nat)
    requires i < |rows|
    ensures Chronological(rows, ExpenseId, ExpenseCreatedAt, clock) ==>
              forall e :: e in rows && e.id == rows[i].id ==> e == rows[i]
  {
    if Chronological(rows, ExpenseId, ExpenseCreatedAt, clock) {
      forall e | e in rows && e.id == rows[i].id
        ensures e == rows[i]
      {
        var j :| 0 <= j < |rows| && rows[j] == e;
        ChronologicalIdsUnique(rows, ExpenseId, ExpenseCreatedAt, clock, i, j);
      }
    }
  }

  /** Two rows with the same value in a unique column are the same row. */
  lemma UniqueKeyIndex<T, K>(rows: seq<T>, key: T -> K, i: nat, j: nat)
    requires UniqueKey(rows, key)
    requires i < |rows| && j < |rows| && key(rows[i]) == key(rows[j])
    ensures i == j
  {
  }

  lemma ChronologicalReplace<T>(rows: seq<T>, i: nat, x: T, id: T -> nat, createdAt: T -> nat, clock: nat)
    requires Chronological(rows, id, createdAt, clock) && i < |rows|
    requires id(x) == id(rows[i]) && createdAt(x) == createdAt(rows[i])
    ensures Chronological(rows[i := x], id, createdAt, clock)
  {
  }

  lemma UniqueReplace<T, K>(rows: seq<T>, i: nat, x: T, key: T -> K)
    requires UniqueKey(rows, key) && i < |rows| && key(x) == key(rows[i])
    ensures UniqueKey(rows[i := x], key)
  {
  }

  // ----- Create-expense payload default -----

  /** `payload.setdefault("status", "Pending")`. */
  function WithDefaultStatus(p: ChangeSet): (r: ChangeSet)
    ensures Insertable(p) ==> Insertable(r)
    ensures Status in r && r[Status] == if Status in p then p[Status] else Text("Pending")
    ensures forall c :: c != Status ==> (c in r <==> c in p) && (c in p ==> r[c] == p[c])
  {
    if Status in p then p else p[Status := Text("Pending")]
  }

  /** The row `create_expense` inserts under `id`: `Model(**payload)` after `payload.setdefault("status", "Pending")`. */
  function StoredRow(id: nat, p: ChangeSet): (r: Expense)
    requires Insertable(p)
    ensures r.id == id && r.createdAt == id
  {
    FromPayload(id, id, WithDefaultStatus(p))
  }

  /**
   * The stored row holds the payload's columns as given, `status` "Pending"
   * when the payload has none, and the other columns at their defaults.
   */
  lemma StoredRowColumns(id: nat, p: ChangeSet)
    requires Insertable(p)
    ensures forall c {:trigger Get(StoredRow(id, p), c)} :: c in p ==> Get(StoredRow(id, p), c) == p[c]
    ensures Status !in p ==> Get(StoredRow(id, p), Status) == Text("Pending")
    ensures forall c {:trigger Get(StoredRow(id, p), c)} :: c !in p && c != Status ==> Get(StoredRow(id, p), c) == ColumnDefault(c)
  {
    var full := WithDefaultStatus(p);
    assert Status in full;
    assert forall c :: c in p ==> c in full && full[c] == p[c];
    assert forall c :: c !in p && c != Status ==> c !in full;
  }

  /** Every column but `status` of the stored row holds what the payload gave it, or its default. */
  lemma StoredKeeps(id: nat, p: ChangeSet, c: Column)
    requires Insertable(p) && c != Status
    ensures Get(StoredRow(id, p), c) == if c in p then p[c] else ColumnDefault(c)
  {
    assert c in WithDefaultStatus(p) <==> c in p;
  }

  /** The created row keeps a supplied status and is "Pending" only when none was supplied. */
  lemma CreatedStatus(id: nat, createdAt: nat, p: ChangeSet)
    requires Insertable(p)
    ensures OptText(Get(FromPayload(id, createdAt, WithDefaultStatus(p)), Status))
            == if Status in p then OptText(p[Status]) else Some("Pending")
  {
    assert Status in WithDefaultStatus(p);
  }

  /** The setdefault changes nothing a reader sees: the column default of `status` is "Pending" as well. */
  lemma DefaultStatusMatchesColumnDefault(id: nat, createdAt: nat, p: ChangeSet)
    requires Insertable(p)
    ensures forall c {:trigger Get(FromPayload(id, createdAt, p), c)} ::
      Get(FromPayload(id, createdAt, WithDefaultStatus(p)), c) == Get(FromPayload(id, createdAt, p), c)
  {
    var a, b := FromPayload(id, createdAt, WithDefaultStatus(p)), FromPayload(id, createdAt, p);
    forall c ensures Get(a, c) == Get(b, c) {
      if c != Status {
        assert c in WithDefaultStatus(p) <==> c in p;
      }
    }
  }

  /** `for k, v in changes.items(): setattr(inst, k, v)`. */
  method ApplyChanges(e: Expense, changes: ChangeSet) returns (r: Expense)
    requires WellTyped(changes)
    ensures r == Patched(e, changes)
  {
    r := e;
    var pending := changes.Keys;
    ghost var done: ChangeSet := map[];
    while pending != {}
      invariant pending <= changes.Keys
      invariant done.Keys == changes.Keys - pending
      invariant forall k :: k in done ==> done[k] == changes[k]
      invariant r == e.(columns := e.columns + done)
      decreases pending
    {
      var k :| k in pending;
      r := Set(r, k, changes[k]);
      done := done[k := changes[k]];
      pending := pending - {k};
    }
    assert done == changes;
  }

  // ----- The store -----

  /**
   * The database as the handlers see it. Every insert takes the next value of
   * `clock` as its id and creation time.
   */
  class Store {
    var users: seq<User>
    var admins: seq<Admin>
    var vendors: seq<Vendor>
    /** The three expense tables, keyed as `_company_model_map` keys them. */
    var expenses: map<Company, seq<Expense>>
    var clock: nat

    function Table(c: Company): seq<Expense>
      reads this
    {
      if c in expenses then expenses[c] else []
    }

    ghost predicate Valid()
      reads this
    {
      && Chronological(users, UserId, UserCreatedAt, clock) && UniqueKey(users, UserEmail)
      && Chronological(admins, AdminId, AdminCreatedAt, clock) && UniqueKey(admins, AdminEmail)
      && Chronological(vendors, VendorId, VendorCreatedAt, clock) && UniqueKey(vendors, NameOfVendor)
      && TablesChronological(expenses, clock)
    }

    constructor ()
      ensures Valid() && clock == 0
      ensures users == [] && admins == [] && vendors == []
      ensures forall c: Company :: Table(c) == []
    {
      users, admins, vendors := [], [], [];
      expenses := map[Thinksonic := [], Thinkmachines := [], Thinkplast := []];
      new;
      forall c: Company ensures c in expenses && expenses[c] == [] {
        match c
        case Thinksonic =>
        case Thinkmachines =>
        case Thinkplast =>
      }
      clock := 0;
    }

    lemma ClockAdvance()
      requires Valid()
      ensures forall c: Company :: Chronological(expenses[c], ExpenseId, ExpenseCreatedAt, clock + 1)
      ensures Chronological(users, UserId, UserCreatedAt, clock + 1)
      ensures Chronological(admins, AdminId, AdminCreatedAt, clock + 1)
      ensures Chronological(vendors, VendorId, VendorCreatedAt, clock + 1)
    {
    }

    // ----- users and admins -----

    /** `create_user`: a new row, unapproved and with role "user". */
    method CreateUser(username: string, email: string, passwordHash: string) returns (u: User)
      requires Valid() && UserByEmail(users, email).None?
      modifies this
      ensures Valid() && clock == old(clock) + 1
      ensures u == User(clock, username, email, passwordHash, false, "user", clock)
      ensures users == old(users) + [u]
      ensures admins == old(admins) && vendors == old(vendors) && forall c :: Table(c) == old(Table(c))
    {
      ClockAdvance();
      u := User(clock + 1, username, email, passwordHash, false, "user", clock + 1);
      ChronologicalAppend(users, u, UserId, UserCreatedAt, clock);
      UniqueAppend(users, u, UserEmail);
      users := users + [u];
      clock := clock + 1;
    }

    /** `create_admin`. */
    method CreateAdmin(username: string, email: string, passwordHash: string) returns (a: Admin)
      requires Valid() && AdminByEmail(admins, email).None?
      modifies this
      ensures Valid() && clock == old(clock) + 1
      ensures a == Admin(clock, username, email, passwordHash, clock)
      ensures admins == old(admins) + [a]
      ensures users == old(users) && vendors == old(vendors) && forall c :: Table(c) == old(Table(c))
    {
      ClockAdvance();
      a := Admin(clock + 1, username, email, passwordHash, clock + 1);
      ChronologicalAppend(admins, a, AdminId, AdminCreatedAt, clock);
      UniqueAppend(admins, a, AdminEmail);
      admins := admins + [a];
      clock := clock + 1;
    }

    /** `get_all_users`: every user, newest first. */
    function GetAllUsers(): (r: seq<User>)
      reads this
      requires Valid()
      ensures multiset(r) == multiset(users)
      ensures forall i, j :: 0 <= i < j < |r| ==> r[i].createdAt > r[j].createdAt
    {
      var r := Reverse(users);
      assert forall i, j :: 0 <= i < j < |r| ==> UserCreatedAt(r[j]) < UserCreatedAt(r[i]) by {
        forall i, j | 0 <= i < j < |r| ensures UserCreatedAt(r[j]) < UserCreatedAt(r[i]) {
          assert r[i] == users[|users| - 1 - i] && r[j] == users[|users| - 1 - j];
        }
      }
      r
    }

    /** `approve_user`: sets `approved` on the user with that id and on no other row. */
    method ApproveUser(userId: int) returns (ok: bool)
      requires Valid()
      modifies this
      ensures Valid() && clock == old(clock)
      ensures match UserIndex(old(users), userId)
              case None => !ok && unchanged(this)
              case Some(i) => ok && users == old(users)[i := old(users)[i].(approved := true)]
      ensures admins == old(admins) && vendors == old(vendors) && forall c :: Table(c) == old(Table(c))
    {
      var i := UserIndex(users, userId);
      if i.None? {
        return false;
      }
      var u := users[i.value];
      ChronologicalReplace(users, i.value, u.(approved := true), UserId, UserCreatedAt, clock);
      UniqueReplace(users, i.value, u.(approved := true), UserEmail);
      users := users[i.value := u.(approved := true)];
      ok := true;
    }

    /** `delete_user`: removes the user with that id and no other row. */
    method DeleteUser(userId: int) returns (ok: bool)
      requires Valid()
      modifies this
      ensures Valid() && clock == old(clock)
      ensures match UserIndex(old(users), userId)
              case None => !ok && unchanged(this)
              case Some(i) => ok && users == old(users)[..i] + old(users)[i + 1..]
      ensures admins == old(admins) && vendors == old(vendors) && forall c :: Table(c) == old(Table(c))
    {
      var i := UserIndex(users, userId);
      if i.None? {
        return false;
      }
      ChronologicalRemove(users, i.value, UserId, UserCreatedAt, clock);
      UniqueRemove(users, i.value, UserEmail);
      users := users[..i.value] + users[i.value + 1..];
      ok := true;
    }

    // ----- vendors -----

    /** `get_all_vendors`: every vendor, ordered by name. */
    function GetAllVendors(): (r: seq<Vendor>)
      reads this
      ensures SortedByName(r) && multiset(r) == multiset(vendors)
    {
      SortByName(vendors)
    }

    /** `create_vendor`; the unique index on `name` refuses a duplicate. */
    method CreateVendor(name: string) returns (v: Vendor)
      requires Valid() && VendorByName(vendors, name).None?
      modifies this
      ensures Valid() && clock == old(clock) + 1
      ensures v == Vendor(clock, name, clock)
      ensures vendors == old(vendors) + [v]
      ensures users == old(users) && admins == old(admins) && forall c :: Table(c) == old(Table(c))
    {
      ClockAdvance();
      v := Vendor(clock + 1, name, clock + 1);
      ChronologicalAppend(vendors, v, VendorId, VendorCreatedAt, clock);
      UniqueAppend(vendors, v, NameOfVendor);
      vendors := vendors + [v];
      clock := clock + 1;
    }

    // ----- expenses -----

    /** `create_expense`: None is the ValueError for an unknown company, raised before anything is written. */
    method CreateExpense(companyName: string, payload: ChangeSet) returns (r: Option<Expense>)
      requires Valid() && Insertable(payload)
      modifies this
      ensures Valid()
      ensures users == old(users) && admins == old(admins) && vendors == old(vendors)
      ensures ModelForCompany(companyName).None? ==>
                r.None? && clock == old(clock) && forall c :: Table(c) == old(Table(c))
      ensures ModelForCompany(companyName).Some? ==>
                var c := ModelForCompany(companyName).value;
                && clock == old(clock) + 1
                && r == Some(StoredRow(clock, payload))
                && Table(c) == old(Table(c)) + [r.value]
                && forall d :: d != c ==> Table(d) == old(Table(d))
    {
      var m := ModelForCompany(companyName);
      if m.None? {
        return None;
      }
      var c := m.value;
      var row := StoredRow(clock + 1, payload);
      ClockAdvance();
      TablesAppend(expenses, c, row, clock);
      expenses, clock := expenses[c := expenses[c] + [row]], clock + 1;
      r := Some(row);
    }

    /** `list_expenses_for_company`: newest first, then `skip` rows dropped, then at most `limit` kept. */
    function ListExpensesForCompany(companyName: string, limit: nat, skip: nat): (r: seq<Expense>)
      reads this
      requires Valid()
      ensures ModelForCompany(companyName).None? ==> r == []
      ensures ModelForCompany(companyName).Some? ==>
                var rows := Table(ModelForCompany(companyName).value);
                && |r| == Min(limit, if skip <= |rows| then |rows| - skip else 0)
                && forall i :: 0 <= i < |r| ==> r[i] == rows[|rows| - 1 - (skip + i)]
      ensures forall i, j :: 0 <= i < j < |r| ==> r[i].createdAt > r[j].createdAt
    {
      match ModelForCompany(companyName)
      case None => []
      case Some(c) =>
        assert Chronological(expenses[c], ExpenseId, ExpenseCreatedAt, clock);
        NewestFirst(Table(c), skip, limit, clock);
        NewestPage(Table(c), skip, limit)
    }

    /** `get_expense`: None for an unknown company or an unknown id. */
    function GetExpense(companyName: string, id: int): (r: Option<Expense>)
      reads this
      ensures ModelForCompany(companyName).None? ==> r.None?
      ensures ModelForCompany(companyName).Some? ==>
                var rows := Table(ModelForCompany(companyName).value);
                && (r.Some? <==> exists e :: e in rows && e.id == id)
                && (r.Some? ==> r.value in rows && r.value.id == id)
                && (Valid() && r.Some? ==> forall e :: e in rows && e.id == id ==> e == r.value)
    {
      match ModelForCompany(companyName)
      case None => None
      case Some(c) =>
        match ExpenseIndex(Table(c), id)
        case None => None
        case Some(i) =>
          OnlyRowWithId(Table(c), clock, i);
          Some(Table(c)[i])
    }

    /** `update_expense`: the change set is applied to the one matching row; every other row stays. */
    method UpdateExpense(companyName: string, id: int, changes: ChangeSet) returns (r: Option<Expense>)
      requires Valid() && WellTyped(changes)
      modifies this
      ensures Valid()
      ensures users == old(users) && admins == old(admins) && vendors == old(vendors) && clock == old(clock)
      ensures r.None? ==> unchanged(this)
      ensures r.None? <==> old(GetExpense(companyName, id)).None?
      ensures r.Some? ==>
                var c := ModelForCompany(companyName).value;
                var i := ExpenseIndex(old(Table(c)), id).value;
                && r.value == Patched(old(Table(c))[i], changes)
                && Table(c) == old(Table(c))[i := r.value]
                && forall d :: d != c ==> Table(d) == old(Table(d))
    {
      var m := ModelForCompany(companyName);
      if m.None? {
        return None;
      }
      var rows := expenses[m.value];
      var i := ExpenseIndex(rows, id);
      if i.None? {
        return None;
      }
      var row := ApplyChanges(rows[i.value], changes);
      ChronologicalReplace(rows, i.value, row, ExpenseId, ExpenseCreatedAt, clock);
      expenses := expenses[m.value := rows[i.value := row]];
      r := Some(row);
    }

    /** `delete_expense`: removes the one matching row, or reports false and changes nothing. */
    method DeleteExpense(companyName: string, id: int) returns (ok: bool)
      requires Valid()
      modifies this
      ensures Valid()
      ensures users == old(users) && admins == old(admins) && vendors == old(vendors) && clock == old(clock)
      ensures ok <==> old(GetExpense(companyName, id)).Some?
      ensures !ok ==> unchanged(this)
      ensures ok ==>
                var c := ModelForCompany(companyName).value;
                var i := ExpenseIndex(old(Table(c)), id).value;
                && Table(c) == old(Table(c))[..i] + old(Table(c))[i + 1..]
                && forall d :: d != c ==> Table(d) == old(Table(d))
    {
      var m := ModelForCompany(companyName);
      if m.None? {
        return false;
      }
      var rows := expenses[m.value];
      var i := ExpenseIndex(rows, id);
      if i.None? {
        return false;
      }
      ChronologicalRemove(rows, i.value, ExpenseId, ExpenseCreatedAt, clock);
      expenses := expenses[m.value := rows[..i.value] + rows[i.value + 1..]];
      ok := true;
    }
  }
}
