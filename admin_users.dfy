/** The user management page of frontend/app/admin/users/page.tsx: the
    search filter, deletion by id, the status badge, and the redirect of a
    visitor who is not signed in. The users are the page's fixed mock list. */
module AdminUsers {
  import opened Common

  datatype User = User(id: string, email: string, username: string, joinDate: string, status: string, portfolio: string)

  const MockUsers: seq<User> := [
    User("1", "Yassinebnj@example.com", "Yassinebnjdoe", "2024-01-15", "active", "$45,230"),
    User("2", "jane@example.com", "janesmith", "2024-02-20", "active", "$32,100"),
    User("3", "bob@example.com", "bobwilson", "2024-01-10", "suspended", "$18,500"),
    User("4", "alice@example.com", "alicejones", "2023-12-05", "active", "$67,890"),
    User("5", "charlie@example.com", "charliebrown", "2024-03-01", "inactive", "$5,200")
  ]

  /** `Array.prototype.filter`. */
  function Filter(s: seq<User>, P: User -> bool): (r: seq<User>)
    ensures |r| <= |s|
    ensures forall u :: u in r <==> u in s && P(u)
  {
    if s == [] then [] else (if P(s[0]) then [s[0]] else []) + Filter(s[1..], P)
  }

  /** Filtering works element by element, so it keeps the order of what it keeps. */
  lemma {:induction false} FilterDistributes(a: seq<User>, b: seq<User>, P: User -> bool)
    ensures Filter(a + b, P) == Filter(a, P) + Filter(b, P)
  {
    if a != [] {
      assert (a + b)[0] == a[0] && (a + b)[1..] == a[1..] + b;
      FilterDistributes(a[1..], b, P);
      var h := if P(a[0]) then [a[0]] else [];
      assert Filter(a + b, P) == h + (Filter(a[1..], P) + Filter(b, P));
    } else {
      assert a + b == b;
    }
  }

  lemma {:induction false} FilterAll(s: seq<User>, P: User -> bool)
    requires forall u :: u in s ==> P(u)
    ensures Filter(s, P) == s
  {
    if s != [] {
      assert forall u :: u in s[1..] ==> u in s;
      FilterAll(s[1..], P);
    }
  }

  /** The search: the lower-cased email or username contains the lower-cased term. */
  predicate Matches(term: string, u: User)
  {
    Contains(Lower(u.email), Lower(term)) || Contains(Lower(u.username), Lower(term))
  }

  function FilteredUsers(users: seq<User>, term: string): (r: seq<User>)
    ensures forall u :: u in r <==> u in users && Matches(term, u)
  {
    Filter(users, (u: User) => Matches(term, u))
  }

  /** An empty search keeps everyone, in order. */
  lemma EmptySearchKeepsAll(users: seq<User>)
    ensures FilteredUsers(users, "") == users
  {
    forall u | u in users ensures Matches("", u) {
      ContainsEmpty(Lower(u.email));
    }
    FilterAll(users, (u: User) => Matches("", u));
  }

  /** The search ignores the case of the term. */
  lemma SearchIgnoresCase(users: seq<User>, term: string)
    ensures FilteredUsers(users, Upper(term)) == FilteredUsers(users, term)
  {
    assert Lower(Upper(term)) == Lower(term) by {
      assert forall i :: 0 <= i < |term| ==> LowerChar(UpperChar(term[i])) == LowerChar(term[i]);
    }
    FilterCongruent(users, (u: User) => Matches(Upper(term), u), (u: User) => Matches(term, u));
  }

  lemma {:induction false} FilterCongruent(s: seq<User>, P: User -> bool, Q: User -> bool)
    requires forall u :: P(u) == Q(u)
    ensures Filter(s, P) == Filter(s, Q)
  {
    if s != [] {
      FilterCongruent(s[1..], P, Q);
    }
  }

  /** `users.filter((user) => user.id !== id)`. */
  function DeleteUser(users: seq<User>, id: string): (r: seq<User>)
    ensures forall u :: u in r <==> u in users && u.id != id
  {
    Filter(users, (u: User) => u.id != id)
  }

  /** Deleting an id that is not there changes nothing; deleting twice is
      deleting once. */
  lemma DeleteIdempotent(users: seq<User>, id: string)
    ensures DeleteUser(DeleteUser(users, id), id) == DeleteUser(users, id)
    ensures (forall u :: u in users ==> u.id != id) ==> DeleteUser(users, id) == users
  {
    FilterAll(DeleteUser(users, id), (u: User) => u.id != id);
    if forall u :: u in users ==> u.id != id {
      FilterAll(users, (u: User) => u.id != id);
    }
  }

  /** `getStatusColor`. */
  function StatusColor(status: string): (c: string)
    ensures status == "active" ==> c == "bg-green-500/20 text-green-400"
    ensures status == "suspended" ==> c == "bg-red-500/20 text-red-400"
    ensures status != "active" && status != "suspended" ==> c == "bg-gray-500/20 text-gray-400"
  {
    if status == "active" then "bg-green-500/20 text-green-400"
    else if status == "suspended" then "bg-red-500/20 text-red-400"
    else if status == "inactive" then "bg-gray-500/20 text-gray-400"
    else "bg-gray-500/20 text-gray-400"
  }

  /** `status.charAt(0).toUpperCase() + status.slice(1)`. */
  function StatusLabel(status: string): (t: string)
    ensures |t| == |status|
    ensures status != [] ==> t[0] == UpperChar(status[0]) && t[1..] == status[1..]
  {
    if status == [] then "" else [UpperChar(status[0])] + status[1..]
  }

  lemma MockLabels()
    ensures StatusLabel("active") == "Active" && StatusLabel("suspended") == "Suspended"
    ensures StatusLabel("inactive") == "Inactive"
  {
  }

  /** What the page shows: `null`, with a redirect to the admin login, for a
      visitor who is not signed in; else the filtered table. */
  datatype View = Redirected(target: string) | Table(rows: seq<User>)

  function Render(isAuthenticated: bool, users: seq<User>, term: string): (v: View)
    ensures !isAuthenticated <==> v == Redirected("/admin/login")
    ensures isAuthenticated ==> v == Table(FilteredUsers(users, term))
  {
    if !isAuthenticated then Redirected("/admin/login") else Table(FilteredUsers(users, term))
  }

  class UsersPage {
    var users: seq<User>
    var searchTerm: string

    constructor ()
      ensures users == MockUsers && searchTerm == ""
    {
      users := MockUsers;
      searchTerm := "";
    }

    method SetSearchTerm(term: string)
      modifies this
      ensures searchTerm == term && users == old(users)
    {
      searchTerm := term;
    }

    /** `handleDeleteUser`. */
    method HandleDeleteUser(id: string)
      modifies this
      ensures users == DeleteUser(old(users), id) && searchTerm == old(searchTerm)
    {
      users := DeleteUser(users, id);
    }
  }
}
