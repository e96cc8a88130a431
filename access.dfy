/**
 * The role guard `requireRole`: given what a route allows (one role, a
 * list of roles, or a custom check) and the authenticated user, it either
 * passes the request on or answers 401, 403 or 500. The typed and the
 * plain middleware make the same decision and give the same answers.
 */
module Access {
  import opened Common

  const INVALID_AUTH_TOKEN: string := "INVALID_AUTH_TOKEN"
  const NOT_AUTHENTICATED: string := "User not authenticated"
  const VALIDATION_FAILED: string := "An error occurred while validating user role"
  const INSUFFICIENT_PRIVILEGES: string := "Insufficient privileges"
  const DENIED_PREFIX: string := "Access denied. Allowed roles: "
  const CUSTOM_REQUIREMENT: string := "custom role requirement"
  const REQUIRED_ROLE: string := "required role"

  /** The authenticated user as the guard sees it: its `role` property when
      that is a string, and the names of its properties whose value is
      exactly `true`. */
  datatype Principal = Principal(role: Option<string>, trueFlags: set<string>)

  /** What a custom check does with a user: a truthy or falsy answer, or a
      throw with a message. */
  datatype Verdict = Grant | Deny | Throw(message: string)

  /** The argument of `requireRole`. */
  datatype Requirement =
    | OneRole(role: string)
    | AnyRole(roles: seq<string>)
    | Custom(check: Principal -> Verdict)

  /** The `allowedRoles` entry of a 403 answer: the required role names, or,
      for an empty list, a list holding that empty list. */
  datatype RolesField = Roles(names: seq<string>) | NestedEmptyList

  /** `next()`, or an answer with its status, message, `error` entry (absent
      when `undefined`) and, on 403, its `allowedRoles` entry. */
  datatype Outcome =
    | Next
    | Reply(status: int, message: string, error: Option<string>, allowedRoles: Option<RolesField>)

  predicate IsLower(c: char) { 'a' <= c <= 'z' }

  function Upper(c: char): (u: char)
    ensures !IsLower(u)
  {
    if IsLower(c) then (c as int - 32) as char else c
  }

  /** `s.replace(/_([a-z])/g, upper)`: every underscore followed by a
      lower-case letter, scanning left to right, becomes that letter in
      upper case. */
  function Camel(s: string): (t: string)
    ensures |t| <= |s|
  {
    if s == [] then []
    else if |s| >= 2 && s[0] == '_' && IsLower(s[1]) then [Upper(s[1])] + Camel(s[2..])
    else [s[0]] + Camel(s[1..])
  }

  /** The replacement leaves no underscore before a lower-case letter, and
      starts with what the first match or character gives. */
  lemma {:induction false} CamelLeavesNoSnake(s: string)
    ensures var t := Camel(s);
            && (t == [] <==> s == [])
            && (s != [] ==> t[0] == if |s| >= 2 && s[0] == '_' && IsLower(s[1]) then Upper(s[1]) else s[0])
            && forall i :: 0 <= i < |t| - 1 && t[i] == '_' ==> !IsLower(t[i + 1])
    decreases |s|
  {
    if s == [] {
    } else if |s| >= 2 && s[0] == '_' && IsLower(s[1]) {
      CamelLeavesNoSnake(s[2..]);
      var t := Camel(s);
      assert t == [Upper(s[1])] + Camel(s[2..]);
      forall i | 0 <= i < |t| - 1 && t[i] == '_' ensures !IsLower(t[i + 1]) {
        assert t[i] == Camel(s[2..])[i - 1];
      }
    } else {
      CamelLeavesNoSnake(s[1..]);
      var t := Camel(s);
      assert t == [s[0]] + Camel(s[1..]);
      forall i | 0 <= i < |t| - 1 && t[i] == '_' ensures !IsLower(t[i + 1]) {
        if i > 0 {
          assert t[i] == Camel(s[1..])[i - 1];
        }
      }
    }
  }

  /** The flag a role name stands for: `is`, the first character in upper
      case, and the rest in camel case. */
  function FlagName(role: string): (flag: string)
    ensures |flag| >= 2 && flag[..2] == "is"
    ensures role == [] ==> flag == "is"
    ensures role != [] ==> |flag| >= 3 && flag[2] == Upper(role[0]) && flag[3..] == Camel(role[1..])
  {
    if role == [] then "is" else "is" + [Upper(role[0])] + Camel(role[1..])
  }

  /** A stretch without underscores passes through unchanged. */
  lemma {:induction false} CamelPlainPrefix(a: string, b: string)
    requires forall i :: 0 <= i < |a| ==> a[i] != '_'
    ensures Camel(a + b) == a + Camel(b)
    decreases |a|
  {
    if a != [] {
      var s := a + b;
      assert s[0] == a[0] && a[0] != '_' && s[1..] == a[1..] + b;
      assert Camel(s) == [a[0]] + Camel(a[1..] + b);
      CamelPlainPrefix(a[1..], b);
      assert a + Camel(b) == [a[0]] + (a[1..] + Camel(b));
    } else {
      assert a + b == b && a + Camel(b) == Camel(b);
    }
  }

  lemma CamelOfAdminTail()
    ensures Camel("dmin") == "dmin"
    ensures Camel("_admin") == "Admin"
  {
    CamelPlainPrefix("dmin", "");
    assert "dmin" + "" == "dmin";
    assert "_admin"[0] == '_' && "_admin"[1] == 'a' && "_admin"[2..] == "dmin";
    assert Upper('a') == 'A';
    assert ['A'] + "dmin" == "Admin";
  }

  lemma CamelOfSuperAdminTail()
    ensures Camel("uper_admin") == "uperAdmin"
  {
    CamelOfAdminTail();
    assert "uper_admin" == "uper" + "_admin";
    CamelPlainPrefix("uper", "_admin");
    assert "uper" + "Admin" == "uperAdmin";
  }

  /** The derivation turns the built-in role names into the flags the user
      rows carry: `admin` into `isAdmin`... */
  lemma FlagNameOfAdmin()
    ensures FlagName("admin") == "isAdmin"
  {
    CamelOfAdminTail();
    var r := "admin";
    assert Upper(r[0]) == 'A' && r[1..] == "dmin";
    assert "is" + ['A'] + "dmin" == "isAdmin";
  }

  /** ... and `super_admin` into `isSuperAdmin`. */
  lemma FlagNameOfSuperAdmin()
    ensures FlagName("super_admin") == "isSuperAdmin"
  {
    var r := "super_admin";
    assert Upper(r[0]) == 'S' && r[1..] == "uper_admin" by {
      assert r[0] == 's';
    }
    calc {
      FlagName(r);
      "is" + [Upper(r[0])] + Camel(r[1..]);
      "is" + ['S'] + Camel("uper_admin");
      { CamelOfSuperAdminTail(); }
      "is" + ['S'] + "uperAdmin";
      "isSuperAdmin";
    }
  }

  /** One role of the list: the built-in check when the role has one,
      otherwise a matching `role` property or the derived flag. */
  predicate RolePasses(u: Principal, role: string)
    ensures role == "user" ==> RolePasses(u, role)
    ensures role == "super_admin" ==> (RolePasses(u, role) <==> "isSuperAdmin" in u.trueFlags)
    ensures role == "admin" ==>
              (RolePasses(u, role) <==> "isSuperAdmin" in u.trueFlags || u.role == Some("admin") || "isAdmin" in u.trueFlags)
    ensures role != "super_admin" && role != "admin" && role != "user" ==>
              (RolePasses(u, role) <==> u.role == Some(role) || FlagName(role) in u.trueFlags)
  {
    if role == "super_admin" then "isSuperAdmin" in u.trueFlags
    else if role == "admin" then "isSuperAdmin" in u.trueFlags || u.role == Some("admin") || "isAdmin" in u.trueFlags
    else if role == "user" then true
    else u.role == Some(role) || FlagName(role) in u.trueFlags
  }

  /** `roles.some(...)`. */
  predicate AnyPasses(u: Principal, roles: seq<string>)
    ensures AnyPasses(u, roles) <==> exists r :: r in roles && RolePasses(u, r)
    ensures roles == [] ==> !AnyPasses(u, roles)
    ensures "user" in roles ==> AnyPasses(u, roles)
  {
    exists i :: 0 <= i < |roles| && RolePasses(u, roles[i])
  }

  /** The roles a non-custom requirement lists. */
  function Listed(req: Requirement): seq<string>
    requires !req.Custom?
  {
    match req
    case OneRole(r) => [r]
    case AnyRole(rs) => rs
  }

  /** The 403 answer for a list of roles. */
  function Denial(roles: seq<string>): (o: Outcome)
    ensures o.Reply? && o.status == 403 && o.error == Some(INSUFFICIENT_PRIVILEGES)
    ensures |o.message| >= |DENIED_PREFIX| && o.message[..|DENIED_PREFIX|] == DENIED_PREFIX
    ensures roles != [] ==> o.message == DENIED_PREFIX + Join(roles, " or ") && o.allowedRoles == Some(Roles(roles))
    ensures roles == [] ==> o.message == DENIED_PREFIX + REQUIRED_ROLE && o.allowedRoles == Some(NestedEmptyList)
  {
    if roles != [] then Reply(403, DENIED_PREFIX + Join(roles, " or "), Some(INSUFFICIENT_PRIVILEGES), Some(Roles(roles)))
    else Reply(403, DENIED_PREFIX + REQUIRED_ROLE, Some(INSUFFICIENT_PRIVILEGES), Some(NestedEmptyList))
  }

  /** The guard's decision. `development` says whether a custom check's
      error message is included in the 500 answer. */
  function RequireRole(req: Requirement, user: Option<Principal>, development: bool): (o: Outcome)
    ensures user.None? ==> o == Reply(401, INVALID_AUTH_TOKEN, Some(NOT_AUTHENTICATED), None)
    ensures o.Next? <==> user.Some? && (if req.Custom? then req.check(user.value) == Grant
                                        else AnyPasses(user.value, Listed(req)))
    ensures user.Some? && req.Custom? && req.check(user.value).Throw? ==>
              o == Reply(500, VALIDATION_FAILED, if development then Some(req.check(user.value).message) else None, None)
    ensures user.Some? && req.Custom? && req.check(user.value) == Deny ==>
              o == Reply(403, DENIED_PREFIX + CUSTOM_REQUIREMENT, Some(INSUFFICIENT_PRIVILEGES), Some(Roles([])))
    ensures user.Some? && !req.Custom? && !o.Next? ==> o == Denial(Listed(req))
  {
    if user.None? then Reply(401, INVALID_AUTH_TOKEN, Some(NOT_AUTHENTICATED), None)
    else if req.Custom? then
      match req.check(user.value)
      case Throw(m) => Reply(500, VALIDATION_FAILED, if development then Some(m) else None, None)
      case Grant => Next
      case Deny => Reply(403, DENIED_PREFIX + CUSTOM_REQUIREMENT, Some(INSUFFICIENT_PRIVILEGES), Some(Roles([])))
    else if AnyPasses(user.value, Listed(req)) then Next
    else Denial(Listed(req))
  }

  /** A single role is the one-element list. */
  lemma OneRoleIsSingletonList(role: string, user: Option<Principal>, development: bool)
    ensures RequireRole(OneRole(role), user, development) == RequireRole(AnyRole([role]), user, development)
  {
  }

  /** An empty list admits nobody, and says so with the generic wording. */
  lemma EmptyListDeniesEveryone(u: Principal, development: bool)
    ensures RequireRole(AnyRole([]), Some(u), development)
         == Reply(403, DENIED_PREFIX + REQUIRED_ROLE, Some(INSUFFICIENT_PRIVILEGES), Some(NestedEmptyList))
  {
  }

  /** Listing more roles never takes access away. */
  lemma MoreRolesKeepAccess(u: Principal, roles: seq<string>, more: seq<string>, development: bool)
    requires RequireRole(AnyRole(roles), Some(u), development).Next?
    ensures RequireRole(AnyRole(roles + more), Some(u), development).Next?
    ensures RequireRole(AnyRole(more + roles), Some(u), development).Next?
  {
    var i :| 0 <= i < |roles| && RolePasses(u, roles[i]);
    assert (roles + more)[i] == roles[i];
    assert (more + roles)[|more| + i] == roles[i];
  }

  /** `super_admin` is decided by the flag alone: a user whose `role` is
      `super_admin` but who lacks the flag is refused, while any role
      without a built-in check accepts the matching `role` property. */
  lemma SuperAdminNeedsTheFlag(development: bool)
    ensures !RequireRole(OneRole("super_admin"), Some(Principal(Some("super_admin"), {})), development).Next?
    ensures RequireRole(OneRole("super_admin"), Some(Principal(None, {"isSuperAdmin"})), development).Next?
    ensures RequireRole(OneRole("editor"), Some(Principal(Some("editor"), {})), development).Next?
  {
    assert RolePasses(Principal(Some("editor"), {}), "editor");
    assert RolePasses(Principal(None, {"isSuperAdmin"}), "super_admin");
  }

  /** A super admin passes every built-in role and, through the derived
      flag, a `super_admin` requirement however it is listed. */
  lemma SuperAdminPassesBuiltIns(u: Principal, development: bool)
    requires "isSuperAdmin" in u.trueFlags
    ensures forall r :: r in ["super_admin", "admin", "user"] ==> RolePasses(u, r)
    ensures RequireRole(AnyRole(["admin"]), Some(u), development).Next?
  {
    assert RolePasses(u, ["admin"][0]);
  }
}
