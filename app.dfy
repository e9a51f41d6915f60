/** The application shell: the signed-in user's profile, the role label in
    the header, and which pages the role may open. */
module App {
  import opened Common
  import opened Text

  /** The session's user: its id and e-mail and the optional `role` and
      `name` entries of its metadata. */
  datatype User = User(id: string, email: string, metaRole: Option<string>, metaName: Option<string>)

  datatype Profile = Profile(id: string, email: string, role: string, name: string)

  /** The five pages of the staff navigation, in the order of its buttons. */
  datatype Page = InvoicesListPage | NewInvoicePage | ProductsPage | ProjectsPage | SuppliersPage

  const StaffPages: seq<Page> := [InvoicesListPage, NewInvoicePage, ProductsPage, ProjectsPage, SuppliersPage]

  /** What the shell renders: the login form, or the header with the staff
      navigation and its current page and/or the admin view. */
  datatype Screen = Login | Shell(nav: seq<Page>, shown: Option<Page>, adminView: bool)

  /** `x || fallback` on an optional string: an empty string is falsy too. */
  function OrDefault(x: Option<string>, fallback: string): string {
    if x.Some? && x.value != "" then x.value else fallback
  }

  /** The profile effect: no session, no profile; otherwise id and e-mail
      copied, the role defaulting to "accountant" and the name to the part of
      the e-mail before the first '@'. */
  function DeriveProfile(session: Option<User>): Option<Profile> {
    match session
    case None => None
    case Some(u) => Some(Profile(u.id, u.email, OrDefault(u.metaRole, "accountant"), OrDefault(u.metaName, Before(u.email, '@'))))
  }

  /** The profile copies the user's id and e-mail, always has a non-empty
      role, takes the metadata role and name when they are non-empty, and
      otherwise falls back to "accountant" and the e-mail's local part. */
  lemma DeriveProfileSpec(u: User)
    ensures DeriveProfile(None) == None
    ensures var p := DeriveProfile(Some(u)).value;
      && p.id == u.id && p.email == u.email
      && p.role != ""
      && (u.metaRole.Some? && u.metaRole.value != "" ==> p.role == u.metaRole.value)
      && (u.metaRole.None? || u.metaRole.value == "" ==> p.role == "accountant")
      && (u.metaName.Some? && u.metaName.value != "" ==> p.name == u.metaName.value)
      && (u.metaName.None? || u.metaName.value == "" ==>
            && p.name <= u.email && '@' !in p.name
            && (|p.name| < |u.email| ==> u.email[|p.name|] == '@'))
  {
  }

  /** `roleBg`: the label shown for a role; an unknown role is shown as it
      is. */
  function RoleLabel(role: string): string {
    if role == "data_entry" then "Оператор"
    else if role == "accountant" then "Счетоводител"
    else if role == "admin" then "Администратор"
    else role
  }

  predicate IsStaff(role: string) {
    role == "data_entry" || role == "accountant"
  }

  /** The three known roles get three different labels, none of them a role
      name, and every other role is shown unchanged. */
  lemma RoleLabelSpec(role: string)
    ensures role in {"data_entry", "accountant", "admin"} ==> RoleLabel(role) != role
    ensures role !in {"data_entry", "accountant", "admin"} ==> RoleLabel(role) == role
    ensures RoleLabel("data_entry") != RoleLabel("accountant")
    ensures RoleLabel("accountant") != RoleLabel("admin") && RoleLabel("data_entry") != RoleLabel("admin")
  {
    assert "Оператор"[0] != "Счетоводител"[0];
    assert "Счетоводител"[0] != "Администратор"[0];
    assert "Оператор"[0] != "Администратор"[0];
  }

  /** What the shell renders for a session, a profile and the current page. */
  function ScreenOf(session: Option<User>, profile: Option<Profile>, page: Page): Screen {
    if session.None? then Login
    else
      var staff := profile.Some? && IsStaff(profile.value.role);
      Shell(if staff then StaffPages else [], if staff then Some(page) else None,
            profile.Some? && profile.value.role == "admin")
  }

  /** Page gating once the profile matches the session: data entry and
      accountant users get the five-page navigation and the current page,
      an admin only the admin view, and any other role neither. */
  lemma PageGating(u: User, page: Page)
    ensures var s := ScreenOf(Some(u), DeriveProfile(Some(u)), page);
      var role := DeriveProfile(Some(u)).value.role;
      && s.Shell?
      && (IsStaff(role) ==> s.nav == StaffPages && s.shown == Some(page) && !s.adminView)
      && (role == "admin" ==> s.nav == [] && s.shown == None && s.adminView)
      && (!IsStaff(role) && role != "admin" ==> s.nav == [] && s.shown == None && !s.adminView)
      && (u.metaRole.None? ==> s.nav == StaffPages)
  {
  }

  /** Without a session only the login form is shown. */
  lemma NoSessionShowsLogin(profile: Option<Profile>, page: Page)
    ensures ScreenOf(None, profile, page) == Login
  {
  }

  class AppShell {
    var session: Option<User>
    var profile: Option<Profile>
    var page: Page

    function Screen(): Screen
      reads this
    {
      ScreenOf(session, profile, page)
    }

    /** The shell starts signed out on the invoice list. */
    constructor()
      ensures session == None && profile == None && page == InvoicesListPage
      ensures Screen() == Login
    {
      session, profile, page := None, None, InvoicesListPage;
    }

    /** `getSession` and `onAuthStateChange` both just store the session. */
    method SetSession(s: Option<User>)
      modifies this
      ensures session == s && profile == old(profile) && page == old(page)
    {
      session := s;
    }

    /** The effect that follows each session change. */
    method SyncProfile()
      modifies this
      ensures profile == DeriveProfile(session)
      ensures session == old(session) && page == old(page)
      ensures session.None? ==> Screen() == Login
    {
      profile := DeriveProfile(session);
    }

    /** A navigation button. */
    method Navigate(p: Page)
      modifies this
      ensures page == p && session == old(session) && profile == old(profile)
    {
      page := p;
    }

    /** `handleLogout`: the profile is dropped at once; the session ends when
        the sign-out notification arrives through `SetSession`. */
    method Logout()
      modifies this
      ensures profile == None && session == old(session) && page == old(page)
      ensures session.Some? ==> Screen() == Shell([], None, false)
    {
      profile := None;
    }
  }
}
