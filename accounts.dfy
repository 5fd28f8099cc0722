/** The `register` and `login_view` views of backend/core/views.py over
    Django's user table. */
module Accounts {
  import opened Common
  import opened Views

  /** A row of Django's user table. `password` stands for the credential
      `set_password` stores; `isActive` is `is_active`, true for a new user. */
  datatype User = User(username: string, email: string, firstName: string, password: string, isActive: bool)

  /** Python truthiness of an optional request field: present and non-empty. */
  predicate Truthy(v: Option<string>)
  {
    v.Some? && v.value != ""
  }

  /** `username` is unique in Django's user model. */
  predicate UsernamesUnique(users: seq<User>)
  {
    forall i, j :: 0 <= i < j < |users| ==> users[i].username != users[j].username
  }

  predicate UsernameTaken(users: seq<User>, name: string)
  {
    exists i :: 0 <= i < |users| && users[i].username == name
  }

  predicate EmailTaken(users: seq<User>, email: string)
  {
    exists i :: 0 <= i < |users| && users[i].email == email
  }

  /** `email.split('@')[0]`: everything before the first '@'. */
  function LocalPart(email: string): (r: string)
    ensures '@' !in r
    ensures StartsWith(email, r)
    ensures |r| < |email| ==> email[|r|] == '@'
  {
    if email == [] || email[0] == '@' then []
    else
      var rest := LocalPart(email[1..]);
      assert ([email[0]] + rest)[1..] == rest;
      [email[0]] + rest
  }

  /** The `k`-th username `register` tries: the base, then base1, base2, … */
  function Candidate(base: string, k: nat): string
  {
    if k == 0 then base else base + NatToString(k)
  }

  lemma CandidateInjective(base: string, a: nat, b: nat)
    requires Candidate(base, a) == Candidate(base, b)
    ensures a == b
  {
    if a != 0 && b != 0 {
      var sa, sb := NatToString(a), NatToString(b);
      assert (base + sa)[|base|..] == sa && (base + sb)[|base|..] == sb;
      NatToStringInjective(a, b);
    }
  }

  lemma {:induction false} CandidatesCount(base: string, n: nat)
    ensures |set j | 0 <= j < n :: Candidate(base, j)| == n
  {
    if n > 0 {
      var before := set j | 0 <= j < n - 1 :: Candidate(base, j);
      var after := set j | 0 <= j < n :: Candidate(base, j);
      assert after == before + {Candidate(base, n - 1)};
      forall j | 0 <= j < n - 1 ensures Candidate(base, j) != Candidate(base, n - 1) {
        if Candidate(base, j) == Candidate(base, n - 1) { CandidateInjective(base, j, n - 1); }
      }
      CandidatesCount(base, n - 1);
    }
  }

  lemma {:induction false} UsernamesCount(users: seq<User>)
    ensures |set i | 0 <= i < |users| :: users[i].username| <= |users|
  {
    if users != [] {
      var n := |users| - 1;
      var before := set i | 0 <= i < n :: users[..n][i].username;
      var after := set i | 0 <= i < |users| :: users[i].username;
      assert after == before + {users[n].username};
      UsernamesCount(users[..n]);
    }
  }

  lemma {:induction false} SubsetCard<T>(a: set<T>, b: set<T>)
    requires a <= b
    ensures |a| <= |b|
  {
    if a != {} {
      var x :| x in a;
      SubsetCard(a - {x}, b - {x});
    }
  }

  /** At most `|users|` distinct candidates can be taken, so the search for a
      free username ends. */
  lemma TakenCandidatesBound(users: seq<User>, base: string, n: nat)
    requires forall j :: 0 <= j < n ==> UsernameTaken(users, Candidate(base, j))
    ensures n <= |users|
  {
    var cands := set j | 0 <= j < n :: Candidate(base, j);
    var names := set i | 0 <= i < |users| :: users[i].username;
    forall c | c in cands ensures c in names {
      var j :| 0 <= j < n && c == Candidate(base, j);
      assert UsernameTaken(users, c);
      var i :| 0 <= i < |users| && users[i].username == c;
    }
    SubsetCard(cands, names);
    CandidatesCount(base, n);
    UsernamesCount(users);
  }

  /** Django's `authenticate(username=..., password=...)` with the model
      backend: the user with that username whose credential matches, if any,
      and only when that user is active (`user_can_authenticate`). */
  function Authenticate(users: seq<User>, username: string, password: string): (r: Option<nat>)
    ensures r.Some? ==> r.value < |users| && users[r.value].username == username && users[r.value].password == password
    ensures r.Some? ==> users[r.value].isActive
    ensures r.None? <==> forall k :: 0 <= k < |users| ==>
      users[k].username != username || users[k].password != password || !users[k].isActive
  {
    var m := IndicesWhere(users, (u: User) => u.username == username && u.password == password && u.isActive);
    if |m| == 0 then
      assert forall k :: 0 <= k < |users| ==>
        users[k].username != username || users[k].password != password || !users[k].isActive by {
        forall k | 0 <= k < |users|
          ensures users[k].username != username || users[k].password != password || !users[k].isActive
        {
          assert k !in m;
        }
      }
      None
    else
      assert m[0] in m;
      Some(m[0])
  }

  /** The reply of `login_view`: an error, or the token pair
      `RefreshToken.for_user` issues for the given user. */
  datatype LoginReply = Refused(status: nat, detail: string) | Tokens(user: nat)

  const MissingCredentials: string := "Missing credentials"
  const InvalidCredentials: string := "Invalid credentials"

  /** `POST /api/login/`. */
  function LoginView(users: seq<User>, email: Option<string>, password: Option<string>): (r: LoginReply)
    ensures !(Truthy(email) && Truthy(password)) <==> r == Refused(400, MissingCredentials)
    ensures Truthy(email) && Truthy(password) && !EmailTaken(users, email.value) ==> r == Refused(401, InvalidCredentials)
    ensures (Truthy(email) && Truthy(password) &&
             GetUnique(users, (u: User) => u.email == email.value).MultipleFound?) ==>
            r == Refused(500, ServerError)
    ensures (Truthy(email) && Truthy(password) && GetUnique(users, (u: User) => u.email == email.value).Found? &&
             Authenticate(users, users[GetUnique(users, (u: User) => u.email == email.value).pk].username, password.value).None?) ==>
            r == Refused(401, InvalidCredentials)
    ensures r.Tokens? ==> r.user < |users| && users[r.user].password == password.value && users[r.user].isActive
    ensures r.Tokens? ==> exists k :: 0 <= k < |users| && users[k].email == email.value && users[k].username == users[r.user].username
  {
    if !(Truthy(email) && Truthy(password)) then Refused(400, MissingCredentials)
    else
      match GetUnique(users, (u: User) => u.email == email.value)
      case NotFound => Refused(401, InvalidCredentials)
      case MultipleFound => Refused(500, ServerError)
      case Found(k) =>
        var auth := Authenticate(users, users[k].username, password.value);
        if auth.None? then Refused(401, InvalidCredentials) else Tokens(auth.value)
  }

  /** With unique usernames the tokens are issued to the owner of the email,
      and only when exactly one user has that email, that user is active and
      the password matches. */
  lemma LoginIssuesToEmailOwner(users: seq<User>, email: Option<string>, password: Option<string>)
    requires UsernamesUnique(users)
    ensures var r := LoginView(users, email, password);
            r.Tokens? <==> (Truthy(email) && Truthy(password) &&
              exists k :: 0 <= k < |users| && users[k].email == email.value && users[k].password == password.value &&
                users[k].isActive &&
                forall j :: 0 <= j < |users| && users[j].email == email.value ==> j == k)
    ensures var r := LoginView(users, email, password);
            r.Tokens? ==> users[r.user].email == email.value
  {
    var r := LoginView(users, email, password);
    if Truthy(email) && Truthy(password) {
      var P := (u: User) => u.email == email.value;
      var g := GetUnique(users, P);
      if g.Found? {
        var auth := Authenticate(users, users[g.pk].username, password.value);
        if auth.Some? {
          assert auth.value == g.pk;
        } else {
          assert users[g.pk].username == users[g.pk].username;
        }
      } else if g.MultipleFound? {
        var i, j :| 0 <= i < j < |users| && P(users[i]) && P(users[j]);
      }
    }
  }

  /** A user added by a successful registration can log in with the email
      and password it registered. */
  lemma RegisteredUserCanLogIn(users: seq<User>, row: User)
    requires UsernamesUnique(users + [row])
    requires !EmailTaken(users, row.email)
    requires row.email != "" && row.password != "" && row.isActive
    ensures LoginView(users + [row], Some(row.email), Some(row.password)) == Tokens(|users|)
  {
    var all := users + [row];
    LoginIssuesToEmailOwner(all, Some(row.email), Some(row.password));
    assert all[|users|] == row;
    assert forall j :: 0 <= j < |all| && all[j].email == row.email ==> j == |users|;
    var r := LoginView(all, Some(row.email), Some(row.password));
    assert r.Tokens?;
    assert all[r.user].email == row.email;
  }

  const MissingFields: string := "Missing fields"
  const EmailInUse: string := "Email already in use"
  const UserCreated: string := "User created"

  /** Django's user table as `register` changes it. */
  class UserTable {
    var users: seq<User>

    ghost predicate Valid()
      reads this
    {
      UsernamesUnique(users)
    }

    constructor ()
      ensures Valid() && users == []
    {
      users := [];
    }

    /** `POST /api/register/`: rejects missing fields and a taken email;
        otherwise stores a user under the first free username among the
        email's local part, then that part followed by 1, 2, … */
    method Register(name: Option<string>, email: Option<string>, password: Option<string>)
      returns (status: nat, detail: string)
      requires Valid()
      modifies this
      ensures Valid()
      ensures !(Truthy(name) && Truthy(email) && Truthy(password)) ==>
        status == 400 && detail == MissingFields && users == old(users)
      ensures Truthy(name) && Truthy(email) && Truthy(password) && EmailTaken(old(users), email.value) ==>
        status == 400 && detail == EmailInUse && users == old(users)
      ensures Truthy(name) && Truthy(email) && Truthy(password) && !EmailTaken(old(users), email.value) ==>
        status == 201 && detail == UserCreated &&
        exists k: nat ::
          users == old(users) + [User(Candidate(LocalPart(email.value), k), email.value, name.value, password.value, true)] &&
          !UsernameTaken(old(users), Candidate(LocalPart(email.value), k)) &&
          forall j :: 0 <= j < k ==> UsernameTaken(old(users), Candidate(LocalPart(email.value), j))
    {
      if !(Truthy(name) && Truthy(email) && Truthy(password)) {
        return 400, MissingFields;
      }
      if EmailTaken(users, email.value) {
        return 400, EmailInUse;
      }
      var base := LocalPart(email.value);
      var username := base;
      var i: nat := 1;
      while UsernameTaken(users, username)
        invariant users == old(users)
        invariant 1 <= i <= |users| + 1
        invariant username == Candidate(base, i - 1)
        invariant forall j :: 0 <= j < i - 1 ==> UsernameTaken(users, Candidate(base, j))
        decreases |users| + 1 - i
      {
        TakenCandidatesBound(users, base, i);
        username := base + NatToString(i);
        i := i + 1;
      }
      var row := User(username, email.value, name.value, password.value, true);
      assert forall k :: 0 <= k < |users| ==> users[k].username != row.username;
      assert UsernamesUnique(users + [row]);
      users := users + [row];
      ghost var k := i - 1;
      assert users == old(users) + [User(Candidate(base, k), email.value, name.value, password.value, true)];
      assert !UsernameTaken(old(users), Candidate(base, k));
      return 201, UserCreated;
    }
  }
}