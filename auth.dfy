/**
 * The sign-in page: the form validators, where a signed-in user is sent, and
 * the role row written at sign-up. The email check (`z.string().email()`) is
 * a parameter: its pattern is not modelled.
 */
module Auth {
  import opened Wrappers
  import opened Seqs
  import opened Roles
  import opened AnalyticsData
  import VendorAnalytics

  /** The fields of the two forms that can carry an error. */
  datatype Field = Name | Phone | Email | Password | ConfirmPassword

  const EmailMessage := "Please enter a valid email address"
  const PasswordMessage := "Password must be at least 6 characters"
  const NameMessage := "Name must be at least 2 characters"
  const PhoneMessage := "Please enter a valid 10-digit phone number"
  const MismatchMessage := "Passwords do not match"

  predicate IsDigit(c: char)
  {
    '0' <= c <= '9'
  }

  /** The anchored pattern `[0-9]{n}$` read left to right: `n` digits, then the end. */
  function MatchesDigitRun(s: string, n: nat): bool
  {
    if n == 0 then s == []
    else s != [] && IsDigit(s[0]) && MatchesDigitRun(s[1..], n - 1)
  }

  /** The phone schema `/^[0-9]{10}$/`. */
  predicate IsPhone(s: string)
  {
    MatchesDigitRun(s, 10)
  }

  /**
   * A string's JavaScript length: its UTF-16 code units, one per character
   * of the Basic Multilingual Plane and two (a surrogate pair) per character
   * above it.
   */
  function Utf16Length(s: string): (n: nat)
    ensures |s| <= n <= 2 * |s|
    ensures n == |s| <==> forall i :: 0 <= i < |s| ==> s[i] as int < 0x1_0000
  {
    if s == [] then 0
    else (if s[0] as int < 0x1_0000 then 1 else 2) + Utf16Length(s[1..])
  }

  /** The password schema `min(6)`, counted in UTF-16 code units. */
  predicate ValidPassword(s: string)
  {
    Utf16Length(s) >= 6
  }

  /** The name schema `min(2)`, counted in UTF-16 code units. */
  predicate ValidName(s: string)
  {
    Utf16Length(s) >= 2
  }

  /** A name of one character above the Basic Multilingual Plane, such as an emoji, passes `min(2)`. */
  lemma AstralNameValid(c: char)
    requires c as int >= 0x1_0000
    ensures ValidName([c])
  {
    assert [c][1..] == [];
  }

  /** The pattern matches exactly the strings of `n` characters that are all digits. */
  lemma {:induction false} DigitRunIff(s: string, n: nat)
    ensures MatchesDigitRun(s, n) <==> |s| == n && forall i :: 0 <= i < |s| ==> IsDigit(s[i])
    decreases n
  {
    if n > 0 && s != [] {
      DigitRunIff(s[1..], n - 1);
      assert forall i :: 1 <= i < |s| ==> s[i] == s[1..][i - 1];
    }
  }

  /** A phone is valid iff it is exactly ten characters, all of them 0-9. */
  lemma PhoneIffTenDigits(s: string)
    ensures IsPhone(s) <==> |s| == 10 && forall i :: 0 <= i < |s| ==> IsDigit(s[i])
  {
    DigitRunIff(s, 10);
  }

  /**
   * `validateLoginForm`: an error per failing check, filled in one after the
   * other, and success iff no error was recorded.
   */
  method ValidateLoginForm(email: string, password: string, isEmail: string -> bool)
    returns (errors: map<Field, string>, valid: bool)
    ensures Email in errors <==> !isEmail(email)
    ensures Password in errors <==> !ValidPassword(password)
    ensures Email in errors ==> errors[Email] == EmailMessage
    ensures Password in errors ==> errors[Password] == PasswordMessage
    ensures errors.Keys <= {Email, Password}
    ensures valid <==> errors == map[]
    ensures valid <==> isEmail(email) && ValidPassword(password)
  {
    errors := map[];
    if !isEmail(email) {
      errors := errors[Email := EmailMessage];
    }
    if !ValidPassword(password) {
      errors := errors[Password := PasswordMessage];
    }
    valid := |errors.Keys| == 0;
  }

  /**
   * `validateSignupForm`: the name, phone, email and password checks and the
   * confirmation comparison, each recording its own message, and success iff
   * no error was recorded.
   */
  method ValidateSignupForm(
    name: string, phone: string, email: string, password: string, confirm: string, isEmail: string -> bool)
    returns (errors: map<Field, string>, valid: bool)
    ensures Name in errors <==> !ValidName(name)
    ensures Phone in errors <==> !IsPhone(phone)
    ensures Email in errors <==> !isEmail(email)
    ensures Password in errors <==> !ValidPassword(password)
    ensures ConfirmPassword in errors <==> password != confirm
    ensures Name in errors ==> errors[Name] == NameMessage
    ensures Phone in errors ==> errors[Phone] == PhoneMessage
    ensures Email in errors ==> errors[Email] == EmailMessage
    ensures Password in errors ==> errors[Password] == PasswordMessage
    ensures ConfirmPassword in errors ==> errors[ConfirmPassword] == MismatchMessage
    ensures valid <==> errors == map[]
    ensures valid <==>
      ValidName(name) && IsPhone(phone) && isEmail(email) && ValidPassword(password) && password == confirm
  {
    errors := map[];
    if !ValidName(name) {
      errors := errors[Name := NameMessage];
    }
    if !IsPhone(phone) {
      errors := errors[Phone := PhoneMessage];
    }
    if !isEmail(email) {
      errors := errors[Email := EmailMessage];
    }
    if !ValidPassword(password) {
      errors := errors[Password := PasswordMessage];
    }
    if password != confirm {
      errors := errors[ConfirmPassword := MismatchMessage];
    }
    valid := |errors.Keys| == 0;
  }

  /** The `app_role` value as stored. */
  function RoleName(role: AppRole): string
  {
    match role
    case Customer => "customer"
    case VendorStaff => "vendor_staff"
    case Admin => "admin"
  }

  /** `redirectBasedOnRole`: admins to /admin, vendor staff to /vendor, anyone else to /. */
  function RedirectPath(role: string): (path: string)
    ensures path == "/admin" <==> role == "admin"
    ensures path == "/vendor" <==> role == "vendor_staff"
    ensures path == "/" <==> role != "admin" && role != "vendor_staff"
  {
    match role
    case "admin" => "/admin"
    case "vendor_staff" => "/vendor"
    case _ => "/"
  }

  /**
   * Where an open session is sent: by its single role row, or to / when the
   * `.single()` lookup returns no row; nowhere without a session.
   */
  function SessionRedirect(session: Option<string>, roles: seq<RoleRow>, roleFails: bool): (path: Option<string>)
    ensures path.None? <==> session.None?
    ensures path == Some("/admin") <==> session.Some? && RoleOf(roles, session.value, roleFails) == Some(Admin)
    ensures path == Some("/vendor") <==> session.Some? && RoleOf(roles, session.value, roleFails) == Some(VendorStaff)
  {
    if session.None? then None
    else
      match RoleOf(roles, session.value, roleFails)
      case None => Some("/")
      case Some(role) => Some(RedirectPath(RoleName(role)))
  }

  /** The role row inserted after sign-up: vendor staff are bound to outlet 1, everyone else to none. */
  function SignupRoleRow(userId: string, role: AppRole): (row: RoleRow)
    ensures row.userId == userId && row.role == role
    ensures row.outletId == Some(1) <==> role == VendorStaff
    ensures row.outletId.None? <==> role != VendorStaff
  {
    RoleRow(userId, role, if role == VendorStaff then Some(1) else None)
  }

  /**
   * A new user's role row is their single role: once it is added to a table
   * without rows for them, the role checks read back the role chosen at
   * sign-up, and the session is sent to that role's page.
   */
  lemma SignupRoleIsRole(roles: seq<RoleRow>, userId: string, role: AppRole)
    requires forall r :: r in roles ==> r.userId != userId
    ensures SingleRole(roles + [SignupRoleRow(userId, role)], userId, false) == Some(SignupRoleRow(userId, role))
    ensures RoleOf(roles + [SignupRoleRow(userId, role)], userId, false) == Some(role)
    ensures SessionRedirect(Some(userId), roles + [SignupRoleRow(userId, role)], false) == Some(RedirectPath(RoleName(role)))
  {
    var row := SignupRoleRow(userId, role);
    FilterConcat(roles, [row], OfUser(userId));
    FilterKeepsNone(roles, OfUser(userId));
    FilterKeepsAll([row], OfUser(userId));
  }

  /** A new vendor account passes the vendor dashboard's check, for outlet 1. */
  lemma SignupVendorAdmitted(roles: seq<RoleRow>, userId: string)
    requires forall r :: r in roles ==> r.userId != userId
    ensures VendorAnalytics.Gate(Some(userId), roles + [SignupRoleRow(userId, VendorStaff)], false) == Ok(1)
  {
    SignupRoleIsRole(roles, userId, VendorStaff);
  }
}
