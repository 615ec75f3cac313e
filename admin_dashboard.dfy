/**
 * The approval queue of components/admin-dashboard.tsx: members who
 * registered wait in `pendingUsers` until an administrator approves them
 * (they move to `approvedUsers` with no roles) or rejects them (they are
 * dropped). The statistics cards show the sizes of the lists.
 */
module AdminDashboard {
  import opened Common

  datatype PendingUser = PendingUser(
    id: string, name: string, nickname: string, department: string, studentId: string,
    bio: string, discordConnected: bool, registeredAt: string)

  datatype ApprovedUser = ApprovedUser(
    id: string, name: string, nickname: string, department: string, roles: seq<string>, approvedAt: string)

  datatype DiscordUser = DiscordUser(id: string, discordId: string, discordName: string, joinedAt: string, registered: bool)

  /** `users.find(u => u.id === id)`: the first entry with that id, if any. */
  function Find(users: seq<PendingUser>, id: string): (r: Option<PendingUser>)
    ensures r.None? <==> forall u :: u in users ==> u.id != id
    ensures r.Some? ==> exists i :: 0 <= i < |users| && users[i] == r.value && r.value.id == id &&
                          forall j :: 0 <= j < i ==> users[j].id != id
  {
    if users == [] then None
    else if users[0].id == id then Some(users[0])
    else
      var r := Find(users[1..], id);
      assert forall u :: u in users[1..] ==> u in users;
      if r.Some? then
        var i :| 0 <= i < |users[1..]| && users[1..][i] == r.value && r.value.id == id &&
                 forall j :: 0 <= j < i ==> users[1..][j].id != id;
        assert users[i + 1] == r.value;
        r
      else r
  }

  /** `users.filter(u => u.id !== id)`. */
  function Without(users: seq<PendingUser>, id: string): (r: seq<PendingUser>)
    ensures |r| <= |users|
    ensures forall u :: u in r <==> u in users && u.id != id
  {
    if users == [] then []
    else if users[0].id == id then Without(users[1..], id)
    else [users[0]] + Without(users[1..], id)
  }

  /** Filtering distributes over concatenation, so the remaining entries keep their relative order. */
  lemma {:induction false} WithoutAppend(a: seq<PendingUser>, b: seq<PendingUser>, id: string)
    ensures Without(a + b, id) == Without(a, id) + Without(b, id)
  {
    if a == [] {
      assert a + b == b;
    } else {
      assert (a + b)[0] == a[0];
      assert (a + b)[1..] == a[1..] + b;
      WithoutAppend(a[1..], b, id);
    }
  }

  /** Filtering by an id no entry has changes nothing. */
  lemma {:induction false} WithoutAbsent(users: seq<PendingUser>, id: string)
    requires forall u :: u in users ==> u.id != id
    ensures Without(users, id) == users
  {
    if users != [] {
      assert users[0] in users;
      assert forall u :: u in users[1..] ==> u in users;
      WithoutAbsent(users[1..], id);
    }
  }

  /** Filtering by an id some entry has makes the list strictly shorter. */
  lemma {:induction false} WithoutPresentShrinks(users: seq<PendingUser>, id: string)
    requires exists u :: u in users && u.id == id
    ensures |Without(users, id)| < |users|
  {
    if users[0].id != id {
      var u :| u in users && u.id == id;
      assert u in users[1..];
      WithoutPresentShrinks(users[1..], id);
    }
  }

  /** `new Date().toISOString().split("T")[0]`: the date part of an ISO timestamp. */
  function DatePart(iso: string): (r: string)
    ensures r <= iso && 'T' !in r
    ensures r == iso || iso[|r|] == 'T'
  {
    BeforeFirst(iso, 'T')
  }

  /** The approved entry made from a pending one: same identity fields, no roles, today's date. */
  function ApprovedFrom(u: PendingUser, today: string): (r: ApprovedUser)
    ensures r.id == u.id && r.name == u.name && r.nickname == u.nickname && r.department == u.department
    ensures r.roles == [] && r.approvedAt == today
  {
    ApprovedUser(u.id, u.name, u.nickname, u.department, [], today)
  }

  /** The values shown by the four statistics cards. */
  datatype Stats = Stats(pending: nat, approved: nat, discordUnregistered: nat, roles: nat)

  const MockDiscordUsers: seq<DiscordUser> := [
    DiscordUser("1", "newuser#1111", "新規ユーザー", "2024-01-16", false),
    DiscordUser("2", "another#2222", "未登録メンバー", "2024-01-15", false)]

  const AvailableRoles: seq<string> :=
    ["1年生", "2年生", "3年生", "4年生", "Web班", "イベント班", "広報班", "代表", "副代表", "会計", "書記"]

  const MockPendingUsers: seq<PendingUser> := [
    PendingUser("1", "鈴木 一郎", "すずいち", "情報工学部", "B1234568", "新入生です！よろしくお願いします。", true, "2024-01-15"),
    PendingUser("2", "高橋 美咲", "みさき", "経済学部", "E2023456", "イベント企画に興味があります！", false, "2024-01-14")]

  const MockApprovedUsers: seq<ApprovedUser> := [
    ApprovedUser("1", "田中 太郎", "たなたろ", "情報工学部", ["2年生", "Web班", "副代表"], "2024-01-10"),
    ApprovedUser("2", "佐藤 花子", "さとはな", "経済学部", ["3年生", "イベント班", "代表"], "2024-01-08")]

  /** The dashboard's state: the two lists it updates. */
  class Dashboard {
    var pendingUsers: seq<PendingUser>
    var approvedUsers: seq<ApprovedUser>

    constructor ()
      ensures pendingUsers == MockPendingUsers && approvedUsers == MockApprovedUsers
    {
      pendingUsers := MockPendingUsers;
      approvedUsers := MockApprovedUsers;
    }

    /**
     * `approveUser(userId)`, with `nowIso` the current time as an ISO string:
     * if some pending entry has the id, every entry with it leaves the queue
     * and one approved entry, made from the first of them, is appended;
     * otherwise nothing changes.
     */
    method ApproveUser(userId: string, nowIso: string)
      modifies this
      ensures match Find(old(pendingUsers), userId)
        case None => pendingUsers == old(pendingUsers) && approvedUsers == old(approvedUsers)
        case Some(u) =>
          && pendingUsers == Without(old(pendingUsers), userId)
          && approvedUsers == old(approvedUsers) + [ApprovedFrom(u, DatePart(nowIso))]
    {
      var user := Find(pendingUsers, userId);
      if user.Some? {
        pendingUsers := Without(pendingUsers, userId);
        approvedUsers := approvedUsers + [ApprovedFrom(user.value, DatePart(nowIso))];
      }
    }

    /** `rejectUser(userId)`: every pending entry with the id is dropped. */
    method RejectUser(userId: string)
      modifies this
      ensures pendingUsers == Without(old(pendingUsers), userId)
      ensures approvedUsers == old(approvedUsers)
    {
      pendingUsers := Without(pendingUsers, userId);
    }

    function CurrentStats(): (r: Stats)
      reads this
      ensures r.pending == |pendingUsers| && r.approved == |approvedUsers|
      ensures r.discordUnregistered == |MockDiscordUsers| && r.roles == |AvailableRoles|
    {
      Stats(|pendingUsers|, |approvedUsers|, |MockDiscordUsers|, |AvailableRoles|)
    }
  }

  /** Approving an id that is pending moves it: the queue shrinks and the approved list grows by one. */
  lemma ApproveMoves(pending: seq<PendingUser>, approved: seq<ApprovedUser>, id: string, today: string)
    requires Find(pending, id).Some?
    ensures var u := Find(pending, id).value;
      && |Without(pending, id)| < |pending|
      && (forall v :: v in Without(pending, id) ==> v.id != id)
      && |approved + [ApprovedFrom(u, today)]| == |approved| + 1
      && (approved + [ApprovedFrom(u, today)])[|approved|].id == id
  {
    WithoutPresentShrinks(pending, id);
  }
}
