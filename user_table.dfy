/** The front end's role permissions and its in-memory user table (frontend/lib/auth.ts):
    which actions each role may take, and the table of demo users that `createUser` adds to
    and `deleteUser` removes from. The table is keyed by lower-cased user name. It is a plain
    JavaScript object, so `Object.values` lists the users whose key is an array index (such as
    "7") first, in ascending numeric order, and the others in insertion order. The id of a new
    user comes from the clock and is a parameter. */
module UserTable {
  import opened Wrappers
  import opened Text
  import opened Sequences

  datatype Role = Admin | Editor | Viewer

  /** The actions each role may take. */
  function Permissions(role: Role): seq<string> {
    match role
    case Admin => ["view", "upload", "delete", "audit", "chat", "documents"]
    case Editor => ["view", "chat", "documents"]
    case Viewer => ["view", "chat", "documents"]
  }

  /** `hasPermission(role, action)`. */
  predicate HasPermission(role: Role, action: string) {
    action in Permissions(role)
  }

  /** Only an admin may upload, delete or read the audit log; editors and viewers may do
      exactly the same things; every role may view, chat and open documents. */
  lemma PermissionRules(role: Role, action: string)
    ensures action in {"upload", "delete", "audit"} ==> (HasPermission(role, action) <==> role == Admin)
    ensures HasPermission(Editor, action) <==> HasPermission(Viewer, action)
    ensures action in {"view", "chat", "documents"} ==> HasPermission(role, action)
    ensures HasPermission(role, action) ==> HasPermission(Admin, action)
  {
  }

  datatype UserInfo = UserInfo(id: string, username: string, role: Role, name: string, email: Option<string>)
  datatype Account = Account(password: string, user: UserInfo)

  /** The outcome of `createUser` on table `t`: the error, or the new user and the new table. */
  function Created(t: map<string, Account>, username: string, password: string, role: Role,
                   name: string, id: string): (Result<UserInfo, string>, map<string, Account>)
  {
    var key := Lower(username);
    if key in t then (Failure("Username already exists"), t)
    else
      var user := UserInfo(id, key, role, name, None);
      (Success(user), t[key := Account(password, user)])
  }

  /** Creating fails exactly when the lower-cased name is taken, and then changes nothing;
      otherwise the user is stored under the lower-cased name with the given role and name,
      the table gains exactly that one entry, and no other entry changes. */
  lemma CreatedSpec(t: map<string, Account>, username: string, password: string, role: Role, name: string, id: string)
    ensures var (r, t') := Created(t, username, password, role, name, id);
      (r.Failure? <==> Lower(username) in t) &&
      (r.Failure? ==> t' == t && r.error == "Username already exists") &&
      (r.Success? ==>
        r.value.username == Lower(username) && r.value.role == role && r.value.name == name &&
        t'.Keys == t.Keys + {Lower(username)} && |t'| == |t| + 1 &&
        t'[Lower(username)] == Account(password, r.value) &&
        forall k :: k in t ==> t'[k] == t[k])
  {
    var key := Lower(username);
    if key !in t {
      assert t[key := Account(password, UserInfo(id, key, role, name, None))].Keys == t.Keys + {key};
    }
  }

  /** The outcome of `deleteUser` on table `t`: whether a user was removed, and the new table. */
  function Deleted(t: map<string, Account>, username: string): (bool, map<string, Account>) {
    if username == "admin" then (false, t)
    else if Lower(username) in t then (true, t - {Lower(username)})
    else (false, t)
  }

  /** Deleting answers true exactly when the name is not literally "admin" and a user is
      stored under its lower-cased form; only that entry goes. */
  lemma DeletedSpec(t: map<string, Account>, username: string)
    ensures var (ok, t') := Deleted(t, username);
      (ok <==> username != "admin" && Lower(username) in t) &&
      (ok ==> t'.Keys == t.Keys - {Lower(username)} && forall k :: k in t' ==> t'[k] == t[k]) &&
      (!ok ==> t' == t)
  {
  }

  /** The admin guard compares the name as given, but the table is searched by lower-cased
      name, so "Admin" deletes the admin account that "admin" cannot. */
  lemma AdminGuardIsCaseSensitive(t: map<string, Account>)
    requires "admin" in t
    ensures Deleted(t, "admin") == (false, t)
    ensures Deleted(t, "Admin") == (true, t - {"admin"})
  {
    assert Lower("Admin") == "admin";
  }

  /** A key that JavaScript objects list first: the decimal text, with no leading zero, of a
      whole number below 2^32 - 1 (an array index). */
  predicate IsArrayIndex(k: string) {
    k != [] && (forall i :: 0 <= i < |k| ==> IsDigit(k[i])) &&
    NatToString(ParseNat(k)) == k && ParseNat(k) < 0xFFFF_FFFF
  }

  /** A key listed in insertion order. */
  predicate IsNamedKey(k: string) {
    !IsArrayIndex(k)
  }

  /** The number an array-index key stands for. */
  function IndexValue(k: string): nat {
    if forall i :: 0 <= i < |k| ==> IsDigit(k[i]) then ParseNat(k) else 0
  }

  /** The sort key that puts array indices in ascending order under a descending sort. */
  function AscendingIndex(k: string): int {
    -(IndexValue(k) as int)
  }

  /** The order in which `Object.values` lists a record whose keys were added in the order
      `order`: the array indices first, by ascending value, then the other keys as added. */
  function Listing(order: seq<string>): seq<string> {
    SortDesc(Filter(order, IsArrayIndex), AscendingIndex) + Filter(order, IsNamedKey)
  }

  /** The listing holds the same keys; every array index comes before every other key, the
      indices in ascending numeric order; and the other keys keep the order they were added
      in. */
  lemma ListingSpec(order: seq<string>)
    ensures multiset(Listing(order)) == multiset(order) && |Listing(order)| == |order|
    ensures forall i, j :: 0 <= i < j < |Listing(order)| && IsArrayIndex(Listing(order)[j]) ==>
      IsArrayIndex(Listing(order)[i]) && IndexValue(Listing(order)[i]) <= IndexValue(Listing(order)[j])
    ensures Filter(Listing(order), IsNamedKey) == Filter(order, IsNamedKey)
  {
    SortedPartitionSpec(order, IsArrayIndex, IsNamedKey, AscendingIndex);
  }

  /** Every key of the listing is a key of the record. */
  lemma ListingKeys(order: seq<string>, keys: set<string>)
    requires forall k :: k in keys <==> k in order
    ensures |Listing(order)| == |order|
    ensures forall i :: 0 <= i < |Listing(order)| ==> Listing(order)[i] in keys
  {
    ListingSpec(order);
    forall i | 0 <= i < |Listing(order)|
      ensures Listing(order)[i] in keys
    {
      assert Listing(order)[i] in multiset(Listing(order));
    }
  }

  /** A key that is not an array index is listed after all the keys before it. */
  lemma ListingAppendNamed(order: seq<string>, k: string)
    requires IsNamedKey(k)
    ensures Listing(order + [k]) == Listing(order) + [k]
  {
    FilterAppend(order, [k], IsArrayIndex);
    FilterAppend(order, [k], IsNamedKey);
    assert [k][1..] == [];
    assert Filter(order + [k], IsArrayIndex) == Filter(order, IsArrayIndex);
  }

  /** A user named "7" is listed before the demo accounts, although it was added after them. */
  lemma NumericNameListedFirst()
    ensures Listing(["admin", "editor", "viewer", "7"]) == ["7", "admin", "editor", "viewer"]
  {
    var demo := ["admin", "editor", "viewer"];
    DemoNamesNamed();
    SevenIsIndex();
    FilterAppend(demo, ["7"], IsArrayIndex);
    FilterAppend(demo, ["7"], IsNamedKey);
    assert demo + ["7"] == ["admin", "editor", "viewer", "7"];
    assert SortDesc(["7"], AscendingIndex) == Insert("7", [], AscendingIndex) == ["7"];
  }

  lemma DemoNamesNamed()
    ensures Filter(["admin", "editor", "viewer"], IsArrayIndex) == []
    ensures Filter(["admin", "editor", "viewer"], IsNamedKey) == ["admin", "editor", "viewer"]
  {
    var demo := ["admin", "editor", "viewer"];
    assert !IsDigit("admin"[0]) && !IsDigit("editor"[0]) && !IsDigit("viewer"[0]);
    assert forall i :: 0 <= i < 3 ==> IsNamedKey(demo[i]);
    FilterNone(demo, IsArrayIndex);
  }

  lemma SevenIsIndex()
    ensures Filter(["7"], IsArrayIndex) == ["7"] && Filter(["7"], IsNamedKey) == []
  {
    assert ParseNat("7") == 7;
    assert NatToString(7) == "7";
    assert IsArrayIndex("7");
    assert ["7"][1..] == [];
  }

  /** `Object.values(users).map((u) => u.user)` for the record `m` whose keys were added in the
      order `order`. */
  function ListedUsers(m: map<string, Account>, order: seq<string>): (r: seq<UserInfo>)
    requires forall k :: k in m <==> k in order
    ensures |r| == |Listing(order)| == |order|
    ensures forall i :: 0 <= i < |r| ==> Listing(order)[i] in m && r[i] == m[Listing(order)[i]].user
  {
    var l := Listing(order);
    ListingKeys(order, m.Keys);
    seq(|l|, i requires 0 <= i < |l| && l[i] in m => m[l[i]].user)
  }

  /** A user added under a key that is not an array index is listed last. */
  lemma ListedAfterNamed(m: map<string, Account>, order: seq<string>, k: string, a: Account)
    requires forall x :: x in m <==> x in order
    requires k !in m && IsNamedKey(k)
    ensures ListedUsers(m[k := a], order + [k]) == ListedUsers(m, order) + [a.user]
  {
    var before := ListedUsers(m, order);
    var after := ListedUsers(m[k := a], order + [k]);
    ListingAppendNamed(order, k);
    assert |after| == |before| + 1;
    forall j | 0 <= j < |before|
      ensures after[j] == before[j]
    {
      assert Listing(order)[j] in m;
    }
  }

  /** A user added under any new key is listed once more than before, somewhere. */
  lemma ListedAfterCreate(m: map<string, Account>, order: seq<string>, k: string, a: Account)
    requires forall x :: x in m <==> x in order
    requires k !in m
    ensures |ListedUsers(m[k := a], order + [k])| == |ListedUsers(m, order)| + 1
    ensures a.user in ListedUsers(m[k := a], order + [k])
  {
    var l := Listing(order + [k]);
    ListingSpec(order + [k]);
    assert k in multiset(l);
    var i :| 0 <= i < |l| && l[i] == k;
    assert ListedUsers(m[k := a], order + [k])[i] == a.user;
  }

  /** The module-level `users` record: accounts by lower-cased name, and the names in the order
      they were added, from which `Listing` gives the order `Object.values` lists them in. */
  class Users {
    var accounts: map<string, Account>
    var order: seq<string>

    ghost predicate Valid()
      reads this
    {
      Distinct(order) && (forall k :: k in accounts <==> k in order)
    }

    /** The three demo accounts. */
    constructor ()
      ensures Valid()
      ensures order == ["admin", "editor", "viewer"]
      ensures accounts["admin"].user.role == Admin && accounts["editor"].user.role == Editor
      ensures accounts["viewer"].user.role == Viewer
    {
      accounts := map[
        "admin" := Account("admin123", UserInfo("1", "admin", Admin, "Admin User", Some("admin@company.com"))),
        "editor" := Account("editor123", UserInfo("2", "editor", Editor, "Editor User", Some("editor@company.com"))),
        "viewer" := Account("viewer123", UserInfo("3", "viewer", Viewer, "Viewer User", Some("viewer@company.com")))];
      order := ["admin", "editor", "viewer"];
    }

    /** `getAllUsers()`: every user, in the order `Object.values` lists the record's keys. */
    function AllUsers(): (r: seq<UserInfo>)
      requires Valid()
      reads this
      ensures r == ListedUsers(accounts, order)
    {
      ListedUsers(accounts, order)
    }

    /** `createUser(username, password, role, name)` with `id` as the new user's id. */
    method CreateUser(username: string, password: string, role: Role, name: string, id: string)
      returns (r: Result<UserInfo, string>)
      requires Valid()
      modifies this
      ensures Valid()
      ensures (r, accounts) == Created(old(accounts), username, password, role, name, id)
      ensures r.Failure? ==> order == old(order)
      ensures r.Success? ==> order == old(order) + [Lower(username)]
      ensures r.Success? ==> |AllUsers()| == |old(AllUsers())| + 1 && r.value in AllUsers()
      ensures r.Success? && IsNamedKey(Lower(username)) ==> AllUsers() == old(AllUsers()) + [r.value]
    {
      var key := Lower(username);
      if key in accounts {
        r := Failure("Username already exists");
      } else {
        var user := UserInfo(id, key, role, name, None);
        var a := Account(password, user);
        ListedAfterCreate(accounts, order, key, a);
        if IsNamedKey(key) {
          ListedAfterNamed(accounts, order, key, a);
        }
        accounts := accounts[key := a];
        order := order + [key];
        r := Success(user);
      }
    }

    /** `deleteUser(username)`. */
    method DeleteUser(username: string) returns (ok: bool)
      requires Valid()
      modifies this
      ensures Valid()
      ensures (ok, accounts) == Deleted(old(accounts), username)
      ensures order == if ok then Filter(old(order), k => k != Lower(username)) else old(order)
      ensures ok ==> |AllUsers()| == |old(AllUsers())| - 1
    {
      ok := false;
      var key := Lower(username);
      if username != "admin" && key in accounts {
        FilterSpec(order, k => k != key);
        FilterDistinct(order, k => k != key);
        FilterDropsOne(order, key);
        accounts := accounts - {key};
        order := Filter(order, k => k != key);
        ok := true;
      }
    }
  }

  /** Removing a key listed once shortens the list by one. */
  lemma {:induction false} FilterDropsOne(s: seq<string>, key: string)
    requires Distinct(s) && key in s
    ensures |Filter(s, k => k != key)| == |s| - 1
  {
    if s[0] == key {
      assert forall j :: 1 <= j < |s| ==> s[1..][j - 1] == s[j] && s[j] != key;
      FilterUnchanged(s[1..], key);
    } else {
      assert Distinct(s[1..]);
      FilterDropsOne(s[1..], key);
    }
  }

  /** Removing a key that is not listed leaves the list as it is. */
  lemma {:induction false} FilterUnchanged(s: seq<string>, key: string)
    requires key !in s
    ensures Filter(s, k => k != key) == s
  {
    if s != [] {
      FilterUnchanged(s[1..], key);
    }
  }
}
