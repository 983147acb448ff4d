/** Role rules of the management dashboard (dashboard.js): the permission
    table, the role read from the page path, which data a role loads and from
    which endpoint, and the lookup tables that turn codes into display text. */
module DashboardRoles {
  import opened Base
  import opened Text

  const Admin: string := "admin"
  const Owner: string := "owner"
  const Employee: string := "employee"
  const Player: string := "player"

  predicate IsManagingRole(role: string)
  {
    role == Admin || role == Owner || role == Employee
  }

  /** Seniority of the managing roles; every other role ranks 0. */
  function Rank(role: string): nat
  {
    if role == Admin then 3 else if role == Owner then 2 else if role == Employee then 1 else 0
  }

  // ---------------------------------------------------------------------
  // hasPermission
  // ---------------------------------------------------------------------

  /** `roleHierarchy[requiredRole]`: the user roles listed for a required role. */
  function HierarchyEntry(requiredRole: string): Option<seq<string>>
  {
    if requiredRole == Admin then Some([Admin, Owner, Employee])
    else if requiredRole == Owner then Some([Owner, Employee])
    else if requiredRole == Employee then Some([Employee])
    else None
  }

  /** `hasPermission(requiredRole)` as written, with `this.currentUser?.role`
      as `userRole`. The table lists for each role the roles BELOW it, so a
      user passes when they rank at most as high as the required role. */
  function HasPermission(requiredRole: string, userRole: Option<string>): (r: bool)
    ensures userRole.None? ==> !r
    ensures !IsManagingRole(requiredRole) ==> !r
    ensures userRole.Some? ==> (r <==> 0 < Rank(userRole.value) <= Rank(requiredRole))
  {
    var entry := HierarchyEntry(requiredRole);
    entry.Some? && userRole.Some? && userRole.value in entry.value
  }

  /** The table nests: whoever is admitted for `employee` is admitted for
      `owner`, and whoever is admitted for `owner` is admitted for `admin`. */
  lemma HierarchyNests(userRole: Option<string>)
    ensures HasPermission(Employee, userRole) ==> HasPermission(Owner, userRole)
    ensures HasPermission(Owner, userRole) ==> HasPermission(Admin, userRole)
  {
  }

  /** The discrepancy: on the admin page an employee passes the check, while
      an admin is refused on the employee page. */
  lemma HasPermissionInverted()
    ensures HasPermission(Admin, Some(Employee))
    ensures !HasPermission(Employee, Some(Admin))
  {
  }

  /** The evidently intended check: a user passes when they rank at least as
      high as the required role. */
  function HasPermissionIntended(requiredRole: string, userRole: Option<string>): (r: bool)
    ensures userRole.None? ==> !r
    ensures !IsManagingRole(requiredRole) ==> !r
    ensures userRole.Some? ==> (r <==> 0 < Rank(requiredRole) <= Rank(userRole.value))
  {
    var entry := HierarchyEntry(requiredRole);
    entry.Some? && userRole.Some? && IsManagingRole(userRole.value)
      && Rank(userRole.value) >= Rank(requiredRole)
  }

  /** Under the intended check every managing user may open their own page,
      an admin may open every page, and no lower role may open a higher one. */
  lemma IntendedPermissionProperties(requiredRole: string, userRole: string)
    ensures IsManagingRole(userRole) ==> HasPermissionIntended(userRole, Some(userRole))
    ensures IsManagingRole(requiredRole) ==> HasPermissionIntended(requiredRole, Some(Admin))
    ensures HasPermissionIntended(Admin, Some(userRole)) ==> userRole == Admin
    ensures userRole == Player ==> !HasPermissionIntended(requiredRole, Some(userRole))
  {
  }

  // ---------------------------------------------------------------------
  // Role from the page path (the start-up handler)
  // ---------------------------------------------------------------------

  /** The role the page runs as: the first of `admin`, `owner`, `employee`
      that the path contains, otherwise `player`. */
  function RoleFromPath(path: string): (role: string)
    ensures role == Admin || role == Owner || role == Employee || role == Player
    ensures role == Admin <==> Contains(path, "admin")
    ensures role == Owner <==> !Contains(path, "admin") && Contains(path, "owner")
    ensures role == Employee <==>
      !Contains(path, "admin") && !Contains(path, "owner") && Contains(path, "employee")
    ensures role == Player <==>
      !Contains(path, "admin") && !Contains(path, "owner") && !Contains(path, "employee")
  {
    if Contains(path, "admin") then Admin
    else if Contains(path, "owner") then Owner
    else if Contains(path, "employee") then Employee
    else Player
  }

  /** A path that names a managing role anywhere runs the dashboard as a
      managing role, whatever text surrounds the name. */
  lemma RoleFromPathNamed(prefix: string, role: string, suffix: string)
    requires IsManagingRole(role)
    ensures IsManagingRole(RoleFromPath(prefix + role + suffix))
    ensures Rank(RoleFromPath(prefix + role + suffix)) >= Rank(role)
  {
    ContainsPrefix(role, suffix);
    ContainsInSuffix(prefix, role + suffix, role);
    assert prefix + role + suffix == prefix + (role + suffix);
  }

  // ---------------------------------------------------------------------
  // Loaders and endpoints
  // ---------------------------------------------------------------------

  /** The data loaders started by `loadInitialData`. */
  datatype Loader =
    | Stadiums | Bookings | Payments
    | Users | PendingManagers | ActivityLogs
    | TimeSlots | Notifications

  /** The loaders a role starts, in the order they are pushed. */
  function InitialLoaders(role: string): (ls: seq<Loader>)
    ensures |ls| >= 3 && ls[..3] == [Stadiums, Bookings, Payments]
    ensures Users in ls <==> role == Admin
    ensures PendingManagers in ls <==> role == Admin
    ensures ActivityLogs in ls <==> role == Admin
    ensures TimeSlots in ls <==> role == Admin || role == Owner
    ensures Notifications in ls <==> role == Admin || role == Owner
    ensures forall i, j :: 0 <= i < j < |ls| ==> ls[i] != ls[j]
  {
    [Stadiums, Bookings, Payments]
      + (if role == Admin then [Users, PendingManagers, ActivityLogs] else [])
      + (if role == Owner || role == Admin then [TimeSlots, Notifications] else [])
  }

  /** `loadStadiums`: admins use the admin endpoint, every other role the owner one. */
  function StadiumsEndpoint(role: string): (e: string)
    ensures e == "/api/admin/stadiums" <==> role == Admin
    ensures e == "/api/admin/stadiums" || e == "/api/owner/stadiums"
  {
    if role == Admin then "/api/admin/stadiums" else "/api/owner/stadiums"
  }

  /** `loadPayments`: the same split as for stadiums. */
  function PaymentsEndpoint(role: string): (e: string)
    ensures e == "/api/admin/payments" <==> role == Admin
    ensures e == "/api/admin/payments" || e == "/api/owner/payments"
  {
    if role == Admin then "/api/admin/payments" else "/api/owner/payments"
  }

  /** `loadBookings`: a generic endpoint, overridden by at most one of three
      role tests. */
  function BookingsEndpoint(role: string): (e: string)
    ensures IsManagingRole(role) ==> e == "/api/" + role + "/bookings"
    ensures !IsManagingRole(role) ==> e == "/api/bookings"
  {
    var e0 := "/api/bookings";
    var e1 := if role == Admin then "/api/admin/bookings" else e0;
    var e2 := if role == Owner then "/api/owner/bookings" else e1;
    if role == Employee then "/api/employee/bookings" else e2
  }

  const TimeSlotsBase: string := "/api/time-slots"
  const TimeSlotsPrefix: string := "/api/time-slots/"
  const DateQuery: string := "?date="

  /** Both arguments of `loadTimeSlots` are truthy: a non-zero id and a
      non-empty date. */
  predicate SlotsForStadium(stadiumId: Option<int>, date: Option<string>)
  {
    stadiumId.Some? && stadiumId.value != 0 && date.Some? && date.value != ""
  }

  /** `loadTimeSlots(stadiumId, date)`: the generic endpoint unless both
      arguments are truthy, in which case the per-stadium endpoint with the
      date as query. */
  function TimeSlotsEndpoint(stadiumId: Option<int>, date: Option<string>): (e: string)
    ensures e == TimeSlotsBase <==> !SlotsForStadium(stadiumId, date)
    ensures SlotsForStadium(stadiumId, date) ==>
      |e| > |TimeSlotsPrefix| && e[..|TimeSlotsPrefix|] == TimeSlotsPrefix
  {
    if SlotsForStadium(stadiumId, date) then
      TimeSlotsPrefix + IntString(stadiumId.value) + DateQuery + date.value
    else TimeSlotsBase
  }

  /** The per-stadium endpoint carries both arguments back: the path segment
      after the prefix reads back (as `parseInt` does) to the stadium id, and
      the text after the `?date=` query key is the date. */
  lemma TimeSlotsEndpointReadBack(stadiumId: int, date: string)
    requires SlotsForStadium(Some(stadiumId), Some(date))
    ensures var e := TimeSlotsEndpoint(Some(stadiumId), Some(date));
      ParseInt(e[|TimeSlotsPrefix|..]) == Some(stadiumId)
      && |e| >= |date| + |DateQuery|
      && e[|e| - |date| - |DateQuery|..|e| - |date|] == DateQuery
      && e[|e| - |date|..] == date
  {
    var e := TimeSlotsEndpoint(Some(stadiumId), Some(date));
    var tail := DateQuery + date;
    assert e == TimeSlotsPrefix + (IntString(stadiumId) + tail);
    assert e[|TimeSlotsPrefix|..] == IntString(stadiumId) + tail;
    assert !IsDigit(tail[0]);
    ParseIntOfIntString(stadiumId, tail);
    assert e == (TimeSlotsPrefix + IntString(stadiumId)) + DateQuery + date;
  }

  // ---------------------------------------------------------------------
  // Lookup tables with fallbacks
  // ---------------------------------------------------------------------

  /** `getStatusBadgeClass`. */
  const BadgeClasses: map<string, string> := map[
    "confirmed" := "bg-success", "pending" := "bg-warning",
    "cancelled" := "bg-danger", "completed" := "bg-info",
    "booked_confirmed" := "bg-success", "booked_unconfirmed" := "bg-warning",
    "played" := "bg-info", "missed" := "bg-danger"]

  /** `getStatusText`. */
  const StatusTexts: map<string, string> := map[
    "confirmed" := "مؤكد", "pending" := "قيد الانتظار",
    "cancelled" := "ملغي", "completed" := "مكتمل",
    "booked_confirmed" := "مؤكد", "booked_unconfirmed" := "بانتظار التأكيد",
    "played" := "تم اللعب", "missed" := "لم يحضر"]

  /** `getPaymentStatusText`. */
  const PaymentStatusTexts: map<string, string> := map[
    "paid" := "مدفوع", "pending" := "قيد الانتظار",
    "failed" := "فاشل", "refunded" := "تم الاسترجاع"]

  /** `getRoleText`. */
  const RoleTexts: map<string, string> := map[
    "admin" := "مسؤول", "owner" := "مدير", "employee" := "موظف", "player" := "لاعب"]

  /** `table[key] || fallback`; no table holds an empty text, so `||` only
      falls back for a missing key. */
  function Lookup(table: map<string, string>, key: string, fallback: string): string
  {
    if key in table then table[key] else fallback
  }

  function StatusBadgeClass(status: string): (c: string)
    ensures c == "bg-secondary" <==> status !in BadgeClasses
    ensures c in {"bg-success", "bg-warning", "bg-danger", "bg-info", "bg-secondary"}
  {
    Lookup(BadgeClasses, status, "bg-secondary")
  }

  /** An unknown status is shown as its own code. */
  function StatusText(status: string): (t: string)
    ensures t == status <==> status !in StatusTexts
  {
    Lookup(StatusTexts, status, status)
  }

  function PaymentStatusText(status: string): (t: string)
    ensures t == status <==> status !in PaymentStatusTexts
  {
    Lookup(PaymentStatusTexts, status, status)
  }

  function RoleText(role: string): (t: string)
    ensures t == role <==> role !in RoleTexts
  {
    Lookup(RoleTexts, role, role)
  }

  /** The badge and the label agree on which statuses are known: a status gets
      the neutral badge exactly when it is shown as its raw code. */
  lemma BadgeAndTextAgree(status: string)
    ensures StatusBadgeClass(status) == "bg-secondary" <==> StatusText(status) == status
  {
    assert BadgeClasses.Keys == StatusTexts.Keys;
  }

  /** `getDeleteMessage(type, name)`. */
  function DeleteMessage(kind: string, name: string): (m: string)
    ensures kind == "stadium" || kind == "user" ==> Contains(m, "\"" + name + "\"")
    ensures kind != "stadium" && kind != "user" && kind != "booking" && kind != "payment" ==>
      m == "هل أنت متأكد من الحذف؟"
  {
    var quoted := "\"" + name + "\"";
    if kind == "stadium" then
      var m := "هل أنت متأكد من حذف الملعب " + quoted + "؟ سيتم حذف جميع البيانات المرتبطة به.";
      QuotedNameOccurs("هل أنت متأكد من حذف الملعب ", quoted, "؟ سيتم حذف جميع البيانات المرتبطة به.");
      m
    else if kind == "user" then
      QuotedNameOccurs("هل أنت متأكد من حذف المستخدم ", quoted, "؟");
      "هل أنت متأكد من حذف المستخدم " + quoted + "؟"
    else if kind == "booking" then "هل أنت متأكد من حذف الحجز؟"
    else if kind == "payment" then "هل أنت متأكد من حذف سجل الدفع؟"
    else "هل أنت متأكد من الحذف؟"
  }

  lemma QuotedNameOccurs(before: string, quoted: string, after: string)
    ensures Contains(before + quoted + after, quoted)
  {
    ContainsPrefix(quoted, after);
    ContainsInSuffix(before, quoted + after, quoted);
    assert before + quoted + after == before + (quoted + after);
  }
}
