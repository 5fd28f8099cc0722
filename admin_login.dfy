/** The administrator sign-in of frontend/app/admin/login/page.tsx: the
    credentials are a hard-coded list checked in the browser, and a match is
    recorded in `localStorage`. The clock reading and whether
    `localStorage.setItem` throws are parameters. */
module AdminLogin {
  import opened Common

  datatype Credential = Credential(email: string, password: string)

  const HardcodedAdmins: seq<Credential> := [
    Credential("admin@cryptotrack.com", "admin123"),
    Credential("superadmin@cryptotrack.com", "superadmin123")
  ]

  /** `hardcodedAdmins.find(...)`: the first entry matching both fields. */
  function FindAdmin(admins: seq<Credential>, email: string, password: string): (r: Option<nat>)
    ensures r.None? <==> forall k :: 0 <= k < |admins| ==> !(admins[k].email == email && admins[k].password == password)
    ensures r.Some? ==> r.value < |admins| && admins[r.value] == Credential(email, password)
    ensures r.Some? ==> forall k :: 0 <= k < r.value ==> admins[k] != Credential(email, password)
  {
    if admins == [] then None
    else if admins[0].email == email && admins[0].password == password then Some(0)
    else
      var r := FindAdmin(admins[1..], email, password);
      assert forall k :: 1 <= k < |admins| ==> admins[k] == admins[1..][k - 1];
      if r.Some? then Some(r.value + 1) else None
  }

  /** Sign-in succeeds exactly for the two listed pairs; an administrator's
      email with the other's password fails. */
  lemma OnlyListedPairs(email: string, password: string)
    ensures FindAdmin(HardcodedAdmins, email, password).Some? <==>
      (email == "admin@cryptotrack.com" && password == "admin123") ||
      (email == "superadmin@cryptotrack.com" && password == "superadmin123")
    ensures FindAdmin(HardcodedAdmins, "admin@cryptotrack.com", "superadmin123").None?
  {
    var r := FindAdmin(HardcodedAdmins, email, password);
    if r.Some? {
      assert r.value == 0 || r.value == 1;
    }
    var w := FindAdmin(HardcodedAdmins, "admin@cryptotrack.com", "superadmin123");
    assert HardcodedAdmins[0] != Credential("admin@cryptotrack.com", "superadmin123");
    assert HardcodedAdmins[1].email != "admin@cryptotrack.com" by {
      assert HardcodedAdmins[1].email[0] != "admin@cryptotrack.com"[0];
    }
  }

  datatype AdminSession = AdminSession(email: string, role: string, loginTime: string)

  const InvalidCredentials: string := "Invalid admin credentials"
  const LoginError: string := "An error occurred during login"

  class LoginPage {
    var email: string
    var password: string
    var showPassword: bool
    var isLoading: bool
    var error: string
    /** `localStorage["adminSession"]`. */
    var storedSession: Option<AdminSession>
    /** Where the delayed `router.push` goes. */
    var navigatedTo: Option<string>

    constructor ()
      ensures email == "" && password == "" && !showPassword && !isLoading && error == ""
      ensures storedSession == None && navigatedTo == None
    {
      email, password := "", "";
      showPassword := false;
      isLoading := false;
      error := "";
      storedSession := None;
      navigatedTo := None;
    }

    method SetCredentials(e: string, p: string)
      modifies this
      ensures email == e && password == p
      ensures showPassword == old(showPassword) && isLoading == old(isLoading) && error == old(error)
      ensures storedSession == old(storedSession) && navigatedTo == old(navigatedTo)
    {
      email, password := e, p;
    }

    /** `handleAdminLogin`. On success loading stays on until the page is left. */
    method HandleAdminLogin(now: string, storageThrows: bool)
      modifies this
      ensures email == old(email) && password == old(password) && showPassword == old(showPassword)
      ensures FindAdmin(HardcodedAdmins, email, password).None? ==>
        error == InvalidCredentials && !isLoading &&
        storedSession == old(storedSession) && navigatedTo == old(navigatedTo)
      ensures FindAdmin(HardcodedAdmins, email, password).Some? && storageThrows ==>
        error == LoginError && !isLoading &&
        storedSession == old(storedSession) && navigatedTo == old(navigatedTo)
      ensures FindAdmin(HardcodedAdmins, email, password).Some? && !storageThrows ==>
        error == "" && isLoading &&
        storedSession == Some(AdminSession(email, "admin", now)) && navigatedTo == Some("/admin")
    {
      error := "";
      isLoading := true;
      var adminUser := FindAdmin(HardcodedAdmins, email, password);
      if adminUser.None? {
        error := InvalidCredentials;
        isLoading := false;
        return;
      }
      if storageThrows {
        error := LoginError;
        isLoading := false;
        return;
      }
      storedSession := Some(AdminSession(email, "admin", now));
      navigatedTo := Some("/admin");
    }
  }
}
