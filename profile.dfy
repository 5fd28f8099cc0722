/** The profile page of frontend/app/profile/page.tsx: the form filled from
    the session's user, the edit toggle and `handleSave`, which calls the
    provider's `updateProfile`. That call is an oracle: it returned the
    backend's data (possibly none), or it threw. */
module ProfilePage {
  import opened Common
  import Auth

  datatype UserData = UserData(name: string, email: string, phone: string, country: string, bio: string)

  /** `x || ""` on an optional string field. */
  function OrEmpty(v: Option<string>): (s: string)
    ensures v.Some? ==> s == v.value
    ensures v.None? ==> s == ""
  {
    if v.Some? then v.value else ""
  }

  /** The effect on `[user]`: the form copies the user, with "" for missing
      fields and an empty bio. */
  function FormOf(user: Auth.Profile): (d: UserData)
    ensures d.name == OrEmpty(user.name) && d.email == user.email
    ensures d.phone == OrEmpty(user.phone) && d.country == OrEmpty(user.country) && d.bio == ""
  {
    UserData(OrEmpty(user.name), user.email, OrEmpty(user.phone), OrEmpty(user.country), "")
  }

  /** The body `handleSave` sends: no email field. */
  datatype UpdatePayload = UpdatePayload(fullName: string, phone: string, country: string)

  function PayloadOf(d: UserData): (p: UpdatePayload)
    ensures p.fullName == d.name && p.phone == d.phone && p.country == d.country
  {
    UpdatePayload(d.name, d.phone, d.country)
  }

  /** Any two forms that differ only in email and bio send the same body. */
  lemma PayloadIgnoresEmail(d: UserData, email: string, bio: string)
    ensures PayloadOf(d.(email := email, bio := bio)) == PayloadOf(d)
  {
  }

  datatype SaveOutcome = Saved(data: Option<Auth.Profile>) | SaveThrew

  class Page {
    var userData: UserData
    var isEditing: bool
    var isSaving: bool

    constructor ()
      ensures userData == UserData("", "", "", "", "") && !isEditing && !isSaving
    {
      userData := UserData("", "", "", "", "");
      isEditing := false;
      isSaving := false;
    }

    /** The effect: a signed-in user overwrites the form, no user leaves it. */
    method SyncFromUser(user: Option<Auth.Profile>)
      modifies this
      ensures userData == (if user.Some? then FormOf(user.value) else old(userData))
      ensures isEditing == old(isEditing) && isSaving == old(isSaving)
    {
      if user.Some? {
        userData := FormOf(user.value);
      }
    }

    /** The edit button. */
    method ToggleEditing()
      modifies this
      ensures isEditing == !old(isEditing)
      ensures userData == old(userData) && isSaving == old(isSaving)
    {
      isEditing := !isEditing;
    }

    /** `handleSave`, returning the body it sent. */
    method HandleSave(session: Auth.AuthSession, outcome: SaveOutcome) returns (sent: UpdatePayload)
      modifies this, session
      ensures sent == PayloadOf(old(userData))
      ensures !isSaving && userData == old(userData)
      ensures outcome.Saved? ==> !isEditing
      ensures outcome.SaveThrew? ==> isEditing == old(isEditing)
      ensures outcome.Saved? ==> session.State() == Auth.AfterUpdateProfile(old(session.State()), outcome.data)
      ensures outcome.SaveThrew? ==> session.State() == old(session.State())
    {
      isSaving := true;
      sent := PayloadOf(userData);
      if outcome.Saved? {
        var _ := session.UpdateProfile(outcome.data);
        isEditing := false;
      }
      isSaving := false;
    }
  }
}
