/** The admin user table: the records fetched from the `users` collection,
    the per-record role and status updates, the summary counts and the
    labels and buttons each row shows. */
module AdminUsers {
  import opened JsValues
  import opened Session
  import Seqs

  /** The fields a user document stores; the time stamps are left out. A
      stored `id` field is possible and, when present, wins over the
      document id. */
  datatype UserFields = UserFields(
    id: Option<string>,
    uid: string,
    name: string,
    email: string,
    gender: string,
    role: string,
    status: string)

  /** A document of the query snapshot. */
  datatype UserDoc = UserDoc(docId: string, data: UserFields)

  /** A row of the table. */
  datatype UserData = UserData(
    id: string,
    uid: string,
    name: string,
    email: string,
    gender: string,
    role: string,
    status: string)

  /** `{ id: doc.id, ...doc.data() }`: the spread comes last, so a stored
      `id` overrides the document id. */
  function ToUser(doc: UserDoc): (u: UserData)
    ensures doc.data.id.None? ==> u.id == doc.docId
    ensures doc.data.id.Some? ==> u.id == doc.data.id.value
    ensures u.uid == doc.data.uid && u.name == doc.data.name && u.email == doc.data.email
    ensures u.gender == doc.data.gender && u.role == doc.data.role && u.status == doc.data.status
  {
    var d := doc.data;
    UserData(d.id.GetOr(doc.docId), d.uid, d.name, d.email, d.gender, d.role, d.status)
  }

  /** The `forEach` loop of `fetchUsers`: one row per document, in the
      snapshot's order (newest first, as the query asks). */
  method CollectUsers(docs: seq<UserDoc>) returns (userList: seq<UserData>)
    ensures |userList| == |docs|
    ensures forall i :: 0 <= i < |docs| ==> userList[i] == ToUser(docs[i])
  {
    userList := [];
    var k := 0;
    while k < |docs|
      invariant 0 <= k <= |docs|
      invariant |userList| == k
      invariant forall i :: 0 <= i < k ==> userList[i] == ToUser(docs[i])
    {
      userList := userList + [ToUser(docs[k])];
      k := k + 1;
    }
  }

  // ------------------------------------------------------------ updates

  /** `prev.map(u => u.id === userId ? { ...u, role: newRole } : u)`. */
  function WithRole(users: seq<UserData>, userId: string, newRole: string): (r: seq<UserData>)
    ensures |r| == |users|
    ensures forall i :: 0 <= i < |r| ==> r[i] == users[i].(role := r[i].role)
    ensures forall i :: 0 <= i < |r| ==> r[i].role == if users[i].id == userId then newRole else users[i].role
  {
    if users == [] then []
    else
      var u := users[0];
      [if u.id == userId then u.(role := newRole) else u] + WithRole(users[1..], userId, newRole)
  }

  /** `prev.map(u => u.id === userId ? { ...u, status: newStatus } : u)`. */
  function WithStatus(users: seq<UserData>, userId: string, newStatus: string): (r: seq<UserData>)
    ensures |r| == |users|
    ensures forall i :: 0 <= i < |r| ==> r[i] == users[i].(status := r[i].status)
    ensures forall i :: 0 <= i < |r| ==> r[i].status == if users[i].id == userId then newStatus else users[i].status
  {
    if users == [] then []
    else
      var u := users[0];
      [if u.id == userId then u.(status := newStatus) else u] + WithStatus(users[1..], userId, newStatus)
  }

  /** A second status update of the same user overrides the first. */
  lemma WithStatusTwice(users: seq<UserData>, userId: string, first: string, second: string)
    ensures WithStatus(WithStatus(users, userId, first), userId, second) == WithStatus(users, userId, second)
  {
    var a := WithStatus(WithStatus(users, userId, first), userId, second);
    var b := WithStatus(users, userId, second);
    assert forall i :: 0 <= i < |a| ==> a[i] == b[i];
  }

  /** Banning a user who is active and then lifting the ban gives the table
      back as it was. */
  lemma BanThenUnban(users: seq<UserData>, userId: string)
    requires forall i :: 0 <= i < |users| && users[i].id == userId ==> users[i].status == "active"
    ensures WithStatus(WithStatus(users, userId, "banned"), userId, "active") == users
  {
    var a := WithStatus(WithStatus(users, userId, "banned"), userId, "active");
    assert forall i :: 0 <= i < |a| ==> a[i] == users[i];
  }

  // ------------------------------------------------------------- counts

  predicate IsAdminRow(u: UserData) {
    u.role == "admin"
  }

  predicate IsBannedRow(u: UserData) {
    u.status == "banned"
  }

  /** `users.filter(u => u.role === 'admin').length`. */
  function AdminCount(users: seq<UserData>): (n: nat)
    ensures n <= |users|
    ensures n == 0 <==> forall i :: 0 <= i < |users| ==> users[i].role != "admin"
    ensures n == |users| <==> forall i :: 0 <= i < |users| ==> users[i].role == "admin"
  {
    var admins := Seqs.Filter(users, IsAdminRow);
    Seqs.FilterFullIffAllKept(users, IsAdminRow);
    assert admins != [] ==> admins[0] in admins;
    assert forall i :: 0 <= i < |users| ==> users[i] in users;
    |admins|
  }

  /** `users.filter(u => u.status === 'banned').length`. */
  function BannedCount(users: seq<UserData>): (n: nat)
    ensures n <= |users|
    ensures n == 0 <==> forall i :: 0 <= i < |users| ==> users[i].status != "banned"
    ensures n == |users| <==> forall i :: 0 <= i < |users| ==> users[i].status == "banned"
  {
    var banned := Seqs.Filter(users, IsBannedRow);
    Seqs.FilterFullIffAllKept(users, IsBannedRow);
    assert banned != [] ==> banned[0] in banned;
    assert forall i :: 0 <= i < |users| ==> users[i] in users;
    |banned|
  }

  /** Changing roles leaves the banned count as it was. */
  lemma {:induction false} RoleUpdateKeepsBannedCount(users: seq<UserData>, userId: string, newRole: string)
    ensures BannedCount(WithRole(users, userId, newRole)) == BannedCount(users)
  {
    if users != [] {
      RoleUpdateKeepsBannedCount(users[1..], userId, newRole);
      assert WithRole(users, userId, newRole)[1..] == WithRole(users[1..], userId, newRole);
    }
  }

  /** Changing statuses leaves the admin count as it was. */
  lemma {:induction false} StatusUpdateKeepsAdminCount(users: seq<UserData>, userId: string, newStatus: string)
    ensures AdminCount(WithStatus(users, userId, newStatus)) == AdminCount(users)
  {
    if users != [] {
      StatusUpdateKeepsAdminCount(users[1..], userId, newStatus);
      assert WithStatus(users, userId, newStatus)[1..] == WithStatus(users[1..], userId, newStatus);
    }
  }

  /** Making someone an admin never lowers the admin count. */
  lemma {:induction false} PromotionRaisesAdminCount(users: seq<UserData>, userId: string)
    ensures AdminCount(WithRole(users, userId, "admin")) >= AdminCount(users)
  {
    if users != [] {
      PromotionRaisesAdminCount(users[1..], userId);
      assert WithRole(users, userId, "admin")[1..] == WithRole(users[1..], userId, "admin");
    }
  }

  // ---------------------------------------------------- labels, buttons

  /** The action named in the status confirm prompt. */
  function ActionName(newStatus: string): (a: string)
    ensures a == "차단" <==> newStatus == "banned"
    ensures a == "차단" || a == "활동 재개"
  {
    if newStatus == "banned" then "차단" else "활동 재개"
  }

  /** The gender cell: anything but "M", a missing value included, reads
      as female. */
  function GenderLabel(gender: string): (l: string)
    ensures l == "남성" <==> gender == "M"
    ensures l == "남성" || l == "여성"
  {
    if gender == "M" then "남성" else "여성"
  }

  /** The status badge: only "active" reads as normal. */
  function StatusLabel(status: string): (l: string)
    ensures l == "정상" <==> status == "active"
    ensures l == "정상" || l == "차단됨"
  {
    if status == "active" then "정상" else "차단됨"
  }

  /** The row's class name: only a banned row is highlighted, and a
      highlighted row always carries the 차단됨 badge. */
  function RowClass(status: string): (c: string)
    ensures c == "row-banned" <==> status == "banned"
    ensures c == "row-banned" ==> StatusLabel(status) == "차단됨"
    ensures c == "row-banned" || c == ""
  {
    if status == "banned" then "row-banned" else ""
  }

  /** The action button of a row: its caption and the status it asks for. */
  datatype Offer = Offer(caption: string, newStatus: string)

  function OfferedAction(status: string): (o: Offer)
    ensures status == "active" <==> o.newStatus == "banned"
    ensures o.newStatus == "banned" || o.newStatus == "active"
  {
    if status == "active" then Offer("차단", "banned") else Offer("해제", "active")
  }

  /** An active user is offered a ban, named 차단 on the button and in the
      prompt; anyone else is offered reinstatement. Taking the offer shows
      the other badge and offers the opposite action next. */
  lemma OfferToggles(status: string)
    ensures ActionName(OfferedAction(status).newStatus) == "차단" <==> status == "active"
    ensures status == "active" ==> OfferedAction(status).caption == ActionName(OfferedAction(status).newStatus)
    ensures StatusLabel(OfferedAction(status).newStatus) != StatusLabel(status) || status !in ["active", "banned"]
    ensures OfferedAction(OfferedAction(status).newStatus).newStatus == (if status == "active" then "active" else "banned")
  {
  }

  /** A status that is neither "active" nor "banned" shows the 차단됨 badge
      and the 해제 button, yet the row is not highlighted and the user is not
      in the banned count. */
  lemma UnknownStatusLooksBannedButIsNotCounted(u: UserData)
    requires u.status != "active" && u.status != "banned"
    ensures StatusLabel(u.status) == "차단됨" && OfferedAction(u.status).caption == "해제"
    ensures RowClass(u.status) == "" && BannedCount([u]) == 0
  {
  }

  // -------------------------------------------------------------- page

  /** The fetch effect runs when the session has a user, whatever its role:
      every admin session fetches, and so does every other one. */
  predicate ShouldFetch(session: Option<SessionUser>)
    ensures IsAdminSession(session) ==> ShouldFetch(session)
    ensures ShouldFetch(session) <==> session.Some?
  {
    session.Some?
  }

  /** The page's state: the `users` table and the `loading` flag. */
  class UserManagement {
    var users: seq<UserData>
    var loading: bool

    constructor ()
      ensures users == [] && loading
    {
      users := [];
      loading := true;
    }

    /** `fetchUsers`: `snapshot` is the query's result, `None` when it
        throws; on failure the table stays as it was. */
    method FetchUsers(snapshot: Option<seq<UserDoc>>)
      modifies this
      ensures !loading
      ensures snapshot.None? ==> users == old(users)
      ensures snapshot.Some? ==> |users| == |snapshot.value|
      ensures snapshot.Some? ==> forall i :: 0 <= i < |users| ==> users[i] == ToUser(snapshot.value[i])
    {
      loading := true;
      if snapshot.Some? {
        var userList := CollectUsers(snapshot.value);
        users := userList;
      }
      loading := false;
    }

    /** `handleRoleUpdate`: `confirmed` is the answer to the prompt and
        `remoteOk` whether the stored document was updated; the table is
        patched only after both. Returns whether a failure alert shows. */
    method HandleRoleUpdate(userId: string, newRole: string, confirmed: bool, remoteOk: bool)
      returns (alerted: bool)
      modifies this`users
      ensures confirmed && remoteOk ==> users == WithRole(old(users), userId, newRole)
      ensures !(confirmed && remoteOk) ==> users == old(users)
      ensures alerted <==> confirmed && !remoteOk
    {
      alerted := false;
      if !confirmed {
        return;
      }
      if remoteOk {
        users := WithRole(users, userId, newRole);
      } else {
        alerted := true;
      }
    }

    /** `handleStatusUpdate`, with the same inputs as the role update. */
    method HandleStatusUpdate(userId: string, newStatus: string, confirmed: bool, remoteOk: bool)
      returns (alerted: bool)
      modifies this`users
      ensures confirmed && remoteOk ==> users == WithStatus(old(users), userId, newStatus)
      ensures !(confirmed && remoteOk) ==> users == old(users)
      ensures alerted <==> confirmed && !remoteOk
    {
      alerted := false;
      if !confirmed {
        return;
      }
      if remoteOk {
        users := WithStatus(users, userId, newStatus);
      } else {
        alerted := true;
      }
    }
  }

  /** Fetching a snapshot and banning one active user through the row's
      button: the total and the admin count stay, every row keeps its
      place, and the user's rows are now banned. */
  method BanFromTable(docs: seq<UserDoc>, k: nat)
    returns (before: seq<UserData>, after: seq<UserData>)
    requires k < |docs| && docs[k].data.status == "active"
    ensures |after| == |before| == |docs|
    ensures AdminCount(after) == AdminCount(before)
    ensures after[k].status == "banned" && after[k] == before[k].(status := "banned")
    ensures forall i :: 0 <= i < |after| ==> after[i].id == before[i].id && after[i].role == before[i].role
    ensures forall i :: 0 <= i < |after| && before[i].id != before[k].id ==> after[i] == before[i]
    ensures forall i :: 0 <= i < |after| && before[i].id == before[k].id ==> after[i] == before[i].(status := "banned")
  {
    var page := new UserManagement();
    page.FetchUsers(Some(docs));
    before := page.users;
    var offer := OfferedAction(before[k].status);
    var _ := page.HandleStatusUpdate(before[k].id, offer.newStatus, true, true);
    after := page.users;
    StatusUpdateKeepsAdminCount(before, before[k].id, offer.newStatus);
  }
}
