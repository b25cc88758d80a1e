/**
 * The dashboard route guard of middleware.ts.
 *
 * The request path is matched against ^/([^/]+)/dashboard(?:/(admin|user)?)?$;
 * when it matches, the guard decides, from whether a session exists and from
 * the result of the profile lookup, whether to let the request through, send
 * the visitor to the login page, sign them out, or redirect them to the
 * dashboard that belongs to their organisation and role.  The session check
 * and the profile query are inputs here, not calls.
 */
module Middleware {
  import opened Wrappers

  const DashboardWord: string := "/dashboard"
  const DefaultOrg: string := "default-org"

  /** What the optional group after /dashboard may be: absent, a bare slash, /admin or /user. */
  const DashboardTails: set<string> := {"", "/", "/admin", "/user"}

  /** Capture groups 1 and 2 of the regular expression. */
  datatype DashboardMatch = DashboardMatch(orgSlug: string, roleSegment: Option<string>)

  /** The columns `role` and `organization_slug` of the signed-in user's row in `users`; both may be null. */
  datatype Profile = Profile(role: Option<string>, organizationSlug: Option<string>)

  /** How the `users` lookup ended: a row, no row, an error result, or a thrown exception. */
  datatype ProfileLookup = Found(profile: Profile) | NotFound | QueryError | Threw

  /** The four responses the guard can give; both login responses go to /login. */
  datatype Decision =
    | PassThrough
    | LoginRedirect(redirectedFrom: string)
    | SignOutToLogin
    | DashboardRedirect(target: string)

  predicate SlashFree(s: string) {
    forall i :: 0 <= i < |s| ==> s[i] != '/'
  }

  /** Index of the first '/' in s, or |s| when there is none. */
  function FirstSlash(s: string): (k: nat)
    ensures k <= |s|
    ensures forall i :: 0 <= i < k ==> s[i] != '/'
    ensures k < |s| ==> s[k] == '/'
  {
    if s == [] then 0
    else if s[0] == '/' then 0
    else
      FirstSlash(s[1..]) + 1
  }

  /** Group 2 as `match[2] ? match[2] : null` reads it. */
  function RoleOfTail(t: string): Option<string> {
    if t == "/admin" then Some("admin")
    else if t == "/user" then Some("user")
    else None
  }

  /**
   * The regular-expression match of middleware.ts.  Group 1 may not contain
   * '/', so it ends at the first slash after the leading one; the rest of the
   * path must then be /dashboard followed by one of the four tails.
   */
  function ParseDashboardPath(path: string): (m: Option<DashboardMatch>)
    ensures m.Some? ==>
      var s := m.value.orgSlug;
      && s != [] && SlashFree(s)
      && |path| >= |s| + 11
      && path == "/" + s + DashboardWord + path[|s| + 11..]
      && path[|s| + 11..] in DashboardTails
      && m.value.roleSegment == RoleOfTail(path[|s| + 11..])
  {
    if |path| == 0 || path[0] != '/' then None
    else
      var rest := path[1..];
      var k := FirstSlash(rest);
      var tail := rest[k..];
      if k > 0 && |tail| >= 10 && tail[..10] == DashboardWord && tail[10..] in DashboardTails then
        assert path == "/" + rest[..k] + tail[..10] + tail[10..];
        Some(DashboardMatch(rest[..k], RoleOfTail(tail[10..])))
      else
        None
  }

  lemma {:induction false} FirstSlashAfterSlashFree(a: string, b: string)
    requires SlashFree(a)
    requires b != [] && b[0] == '/'
    ensures FirstSlash(a + b) == |a|
  {
    if a != [] {
      assert (a + b)[1..] == a[1..] + b;
      FirstSlashAfterSlashFree(a[1..], b);
    }
  }

  /** Every path of the four documented shapes matches, with the expected groups. */
  lemma ParseDashboardComplete(slug: string, tail: string)
    requires slug != [] && SlashFree(slug)
    requires tail in DashboardTails
    ensures ParseDashboardPath("/" + slug + DashboardWord + tail) == Some(DashboardMatch(slug, RoleOfTail(tail)))
  {
    var path := "/" + slug + DashboardWord + tail;
    var rest := path[1..];
    assert rest == slug + (DashboardWord + tail);
    FirstSlashAfterSlashFree(slug, DashboardWord + tail);
    assert rest[..|slug|] == slug;
    assert rest[|slug|..] == DashboardWord + tail;
  }

  /** The value of `${role}` in a template literal: a null role prints as "null". */
  function RoleText(role: Option<string>): string {
    match role
    case Some(r) => r
    case None => "null"
  }

  /** `profile.organization_slug || orgSlug || 'default-org'`. */
  function EffectiveOrgSlug(profileOrg: Option<string>, pathOrg: Option<string>): (org: string)
    ensures org != ""
    ensures Truthy(profileOrg) ==> org == profileOrg.value
    ensures !Truthy(profileOrg) && Truthy(pathOrg) ==> org == pathOrg.value
    ensures !Truthy(profileOrg) && !Truthy(pathOrg) ==> org == DefaultOrg
  {
    if Truthy(profileOrg) then profileOrg.value
    else if Truthy(pathOrg) then pathOrg.value
    else DefaultOrg
  }

  function ExpectedDashboardPath(org: string, role: Option<string>): string {
    "/" + org + "/dashboard/" + RoleText(role)
  }

  /** The guard's response to a request for `path`. */
  function Decide(path: string, hasSession: bool, lookup: ProfileLookup): (d: Decision)
    ensures ParseDashboardPath(path).None? ==> d == PassThrough
    ensures ParseDashboardPath(path).Some? && !hasSession ==> d == LoginRedirect(path)
    ensures ParseDashboardPath(path).Some? && hasSession && !lookup.Found? ==> d == SignOutToLogin
    ensures d.DashboardRedirect? <==>
      && ParseDashboardPath(path).Some? && hasSession && lookup.Found?
      && ParseDashboardPath(path).value.roleSegment != lookup.profile.role
    ensures d.DashboardRedirect? ==>
      var org := if Truthy(lookup.profile.organizationSlug) then lookup.profile.organizationSlug.value
                 else ParseDashboardPath(path).value.orgSlug;
      d.target == "/" + org + "/dashboard/" + RoleText(lookup.profile.role)
    ensures d == PassThrough <==>
      || ParseDashboardPath(path).None?
      || (hasSession && lookup.Found? && ParseDashboardPath(path).value.roleSegment == lookup.profile.role)
  {
    var m := ParseDashboardPath(path);
    var orgSlug := if m.Some? then Some(m.value.orgSlug) else None;
    var currentRoleSegment := if m.Some? then m.value.roleSegment else None;
    if m.Some? && !hasSession then
      LoginRedirect(path)
    else if hasSession && m.Some? then
      match lookup
      case Found(profile) =>
        var effectiveOrg := EffectiveOrgSlug(profile.organizationSlug, orgSlug);
        if currentRoleSegment != profile.role then
          DashboardRedirect(ExpectedDashboardPath(effectiveOrg, profile.role))
        else
          PassThrough
      case _ => SignOutToLogin
    else
      PassThrough
  }

  /** A slug that contains '/' cannot head a dashboard path: the first slash ends group 1 too early. */
  lemma SlashInSlugNeverMatches(org: string, rt: string)
    requires !SlashFree(org)
    ensures ParseDashboardPath("/" + org + "/dashboard/" + rt).None?
  {
    var path := "/" + org + "/dashboard/" + rt;
    var rest := path[1..];
    assert rest == org + "/dashboard/" + rt;
    var k := FirstSlash(rest);
    var i :| 0 <= i < |org| && org[i] == '/';
    assert rest[i] == '/';
    var tail := rest[k..];
    var j := |org| - k;
    assert tail == org[k..] + "/dashboard/" + rt;
    assert tail[j] == '/';
    if j < 10 {
      // the slash inside the slug falls within the ten characters that must read "/dashboard"
      assert DashboardWord[j] != '/';
      assert |tail| >= 10 ==> tail[..10][j] == '/' && tail[..10] != DashboardWord;
    } else {
      // the whole "/dashboard/" after the slug is left over, longer than any dashboard tail
      assert |tail[10..]| > 6;
      assert tail[10..] !in DashboardTails;
    }
  }

  /** Where a redirect target of the guard leads when it is requested again. */
  lemma ParseExpectedDashboardPath(org: string, role: Option<string>)
    requires org != ""
    ensures ParseDashboardPath(ExpectedDashboardPath(org, role)) ==
      if SlashFree(org) && RoleText(role) in {"", "admin", "user"}
      then Some(DashboardMatch(org, RoleOfTail("/" + RoleText(role))))
      else None
  {
    var rt := RoleText(role);
    var target := ExpectedDashboardPath(org, role);
    if !SlashFree(org) {
      SlashInSlugNeverMatches(org, rt);
    } else {
      var rest := target[1..];
      assert rest == org + ("/dashboard/" + rt);
      FirstSlashAfterSlashFree(org, "/dashboard/" + rt);
      assert rest[..|org|] == org;
      assert rest[|org|..] == "/dashboard/" + rt;
      var tail := rest[|org|..];
      assert tail[..10] == DashboardWord;
      assert tail[10..] == "/" + rt;
      assert ("/" + rt)[1..] == rt;
      SlashRoleTail(rt);
    }
  }

  /** "/" + rt is a dashboard tail exactly for the roles "", "admin" and "user". */
  lemma SlashRoleTail(rt: string)
    ensures "/" + rt in DashboardTails <==> rt in {"", "admin", "user"}
  {
    var t := "/" + rt;
    assert t[1..] == rt;
    if t == "/admin" {
      assert rt == "/admin"[1..];
    } else if t == "/user" {
      assert rt == "/user"[1..];
    } else if t == "/" {
      assert rt == "/"[1..];
    }
  }

  /** A request for a dashboard path built from a non-empty role is let through. */
  lemma ExpectedDashboardPasses(org: string, profile: Profile)
    requires org != ""
    requires profile.role != Some("")
    ensures Decide(ExpectedDashboardPath(org, profile.role), true, Found(profile)) == PassThrough
  {
    var target := ExpectedDashboardPath(org, profile.role);
    ParseExpectedDashboardPath(org, profile.role);
    var rt := RoleText(profile.role);
    if SlashFree(org) && rt in {"", "admin", "user"} {
      assert profile.role == Some(rt);
      assert ParseDashboardPath(target) == Some(DashboardMatch(org, profile.role));
    }
  }

  /**
   * Redirects converge: once the guard sends a signed-in user to their
   * dashboard, a request for that target with the same profile is let
   * through.  The one exception is an empty role (see EmptyRoleRedirectLoops).
   */
  lemma DashboardRedirectConverges(path: string, profile: Profile)
    requires Decide(path, true, Found(profile)).DashboardRedirect?
    requires profile.role != Some("")
    ensures Decide(Decide(path, true, Found(profile)).target, true, Found(profile)) == PassThrough
  {
    var org := EffectiveOrgSlug(profile.organizationSlug, Some(ParseDashboardPath(path).value.orgSlug));
    assert Decide(path, true, Found(profile)).target == ExpectedDashboardPath(org, profile.role);
    ExpectedDashboardPasses(org, profile);
  }

  /** With an empty role the redirect target /org/dashboard/ matches with no role segment, so it redirects to itself. */
  lemma EmptyRoleRedirectLoops(org: string)
    requires org != "" && SlashFree(org)
    ensures
      var profile := Profile(Some(""), Some(org));
      var target := "/" + org + "/dashboard/";
      Decide(target, true, Found(profile)) == DashboardRedirect(target)
  {
    assert "/" + org + "/dashboard/" == "/" + org + DashboardWord + "/";
    ParseDashboardComplete(org, "/");
    assert "/" + org + "/dashboard/" + "" == "/" + org + "/dashboard/";
  }
}
