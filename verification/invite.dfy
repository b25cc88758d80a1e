/**
 * Accepting an organisation invitation (app/invite/page.tsx): the page
 * reads `token` and `org` from the link, checks the invitation, and either
 * reports an error, sends the visitor elsewhere, or makes the signed-in user
 * a member of the organisation and uses up the invitation.
 *
 * The two database tables the page touches are maps, the React state is a
 * pair of fields, and `router.push` records where the page sent the
 * browser.  The clock, the signed-in user and the failures the database
 * calls can report are parameters.
 */
module Invite {
  import opened Wrappers

  /** A row of `organization_invites`, keyed by its token. */
  datatype Invitation = Invitation(organizationSlug: string, role: string, invitedBy: string, expiresAt: int)

  /** The key of `organization_members`: one row per user and organisation. */
  datatype MemberKey = MemberKey(userId: string, organizationSlug: string)

  /** A row of `organization_members`. */
  datatype Membership = Membership(role: string, status: string, invitedBy: string, joinedAt: int)

  /** What `supabase.auth.getUser()` reports. */
  datatype UserLookup = SignedIn(id: string) | SignedOut | AuthFailed(message: string)

  /** A PostgREST error: its code and message. */
  datatype DbError = DbError(code: string, message: string)

  /**
   * The failures the database calls can report besides what the tables
   * themselves determine: the invitation query failing, the membership
   * lookup failing, the insert failing, the delete failing.
   */
  datatype Faults = Faults(
    inviteQueryFails: bool,
    memberLookupError: Option<DbError>,
    insertError: Option<string>,
    deleteFails: bool)

  /** The code PostgREST gives `.single()` when no row matches. */
  const NoRowsCode := "PGRST116"

  function NoFaults(): Faults {
    Faults(false, None, None, false)
  }

  function SignupPath(token: string, org: string): string {
    "/auth/signup?invite=" + token + "&org=" + org
  }

  function DashboardPath(org: string): string {
    "/" + org + "/dashboard"
  }

  /**
   * The end state of one run of `handleInvite`: both tables, the error the
   * page set, if any, and where it sent the browser, if anywhere.
   */
  datatype Outcome = Outcome(
    invites: map<string, Invitation>,
    members: map<MemberKey, Membership>,
    error: Option<string>,
    navigation: Option<string>)

  function Failed(invites: map<string, Invitation>, members: map<MemberKey, Membership>, message: string): Outcome {
    Outcome(invites, members, Some(message), None)
  }

  function Sent(invites: map<string, Invitation>, members: map<MemberKey, Membership>, path: string): Outcome {
    Outcome(invites, members, None, Some(path))
  }

  /** The membership row an accepted invitation creates. */
  function NewMembership(invite: Invitation, now: int): Membership {
    Membership(invite.role, "active", invite.invitedBy, now)
  }

  /** What `handleInvite` does, step by step, with its chain of early exits. */
  function Resolve(invites: map<string, Invitation>, members: map<MemberKey, Membership>,
                   token: Option<string>, org: Option<string>, now: int,
                   user: UserLookup, faults: Faults): Outcome
  {
    if !Truthy(token) || !Truthy(org) then Failed(invites, members, "Invalid invitation link")
    else if faults.inviteQueryFails || token.value !in invites then
      Failed(invites, members, "Invalid or expired invitation")
    else if invites[token.value].expiresAt < now then Failed(invites, members, "Invitation has expired")
    else
      match user
      case AuthFailed(message) => Failed(invites, members, message)
      case SignedOut => Sent(invites, members, SignupPath(token.value, org.value))
      case SignedIn(id) =>
        var key := MemberKey(id, org.value);
        if faults.memberLookupError.Some? && faults.memberLookupError.value.code != NoRowsCode then
          Failed(invites, members, faults.memberLookupError.value.message)
        else if faults.memberLookupError.None? && key in members then
          Sent(invites, members, DashboardPath(org.value))
        else if faults.insertError.Some? then Failed(invites, members, faults.insertError.value)
        else
          var members' := members[key := NewMembership(invites[token.value], now)];
          var invites' := if faults.deleteFails then invites else invites - {token.value};
          Sent(invites', members', DashboardPath(org.value))
  }

  /** A link without a token or an organisation is rejected before any table is read. */
  lemma MissingParameters(invites: map<string, Invitation>, members: map<MemberKey, Membership>,
                          token: Option<string>, org: Option<string>, now: int, user: UserLookup, faults: Faults)
    requires !Truthy(token) || !Truthy(org)
    ensures Resolve(invites, members, token, org, now, user, faults)
         == Outcome(invites, members, Some("Invalid invitation link"), None)
  {
  }

  /**
   * An unknown token is "Invalid or expired invitation"; a known one whose
   * expiry lies strictly before now is "Invitation has expired".  Neither
   * failure touches a table.
   */
  lemma ExpiryCheck(invites: map<string, Invitation>, members: map<MemberKey, Membership>,
                    token: string, org: string, now: int, user: UserLookup)
    requires token != "" && org != ""
    ensures var o := Resolve(invites, members, Some(token), Some(org), now, user, NoFaults());
      && (token !in invites ==> o == Outcome(invites, members, Some("Invalid or expired invitation"), None))
      && (token in invites && invites[token].expiresAt < now ==>
            o == Outcome(invites, members, Some("Invitation has expired"), None))
  {
  }

  /**
   * With a valid invitation, one that expires at this very moment included,
   * and nobody signed in, the page sends the visitor to sign up, carrying
   * the link along, and changes no table.
   */
  lemma SignedOutGoesToSignup(invites: map<string, Invitation>, members: map<MemberKey, Membership>,
                              token: string, org: string, now: int, faults: Faults)
    requires token != "" && org != "" && !faults.inviteQueryFails
    requires token in invites && now <= invites[token].expiresAt
    ensures Resolve(invites, members, Some(token), Some(org), now, SignedOut, faults)
         == Outcome(invites, members, None, Some("/auth/signup?invite=" + token + "&org=" + org))
  {
  }

  /**
   * For a signed-in user with a valid invitation: a lookup error other than
   * "no rows" is reported as it is; an existing membership sends the user to
   * the dashboard with nothing inserted; a failed insert, reached after a
   * lookup that found no row or reported "no rows", is reported and the
   * invitation stays.  None of these touches a table.
   */
  lemma SignedInExits(invites: map<string, Invitation>, members: map<MemberKey, Membership>,
                      token: string, org: string, now: int, id: string, faults: Faults)
    requires token != "" && org != "" && !faults.inviteQueryFails
    requires token in invites && now <= invites[token].expiresAt
    ensures var o := Resolve(invites, members, Some(token), Some(org), now, SignedIn(id), faults);
      && (faults.memberLookupError.Some? && faults.memberLookupError.value.code != NoRowsCode ==>
            o == Outcome(invites, members, Some(faults.memberLookupError.value.message), None))
      && (faults.memberLookupError.None? && MemberKey(id, org) in members ==>
            o == Outcome(invites, members, None, Some("/" + org + "/dashboard")))
      && ((faults.memberLookupError.None? || faults.memberLookupError.value.code == NoRowsCode)
          && (faults.memberLookupError.None? ==> MemberKey(id, org) !in members)
          && faults.insertError.Some? ==>
            o == Outcome(invites, members, Some(faults.insertError.value), None))
  {
  }

  /**
   * Accepting: exactly one membership is added, for the user in the
   * organisation of the link, with the invitation's role and inviter,
   * status "active" and the current time; every other membership stays.
   * The invitation is removed unless the delete fails, which the page only
   * logs; either way the user lands on the organisation's dashboard.
   */
  lemma Accepting(invites: map<string, Invitation>, members: map<MemberKey, Membership>,
                  token: string, org: string, now: int, id: string, faults: Faults)
    requires token != "" && org != "" && !faults.inviteQueryFails
    requires token in invites && now <= invites[token].expiresAt
    requires MemberKey(id, org) !in members
    requires faults.memberLookupError.Some? ==> faults.memberLookupError.value.code == NoRowsCode
    requires faults.insertError.None?
    ensures var o := Resolve(invites, members, Some(token), Some(org), now, SignedIn(id), faults);
      && o.error.None? && o.navigation == Some("/" + org + "/dashboard")
      && MemberKey(id, org) in o.members
      && o.members[MemberKey(id, org)] == Membership(invites[token].role, "active", invites[token].invitedBy, now)
      && o.members.Keys == members.Keys + {MemberKey(id, org)}
      && |o.members.Keys| == |members.Keys| + 1
      && (forall k :: k in members && k != MemberKey(id, org) ==> k in o.members && o.members[k] == members[k])
      && (faults.deleteFails ==> o.invites == invites)
      && (!faults.deleteFails ==> token !in o.invites && o.invites.Keys == invites.Keys - {token})
      && (forall t :: t in invites && t != token ==> t in o.invites && o.invites[t] == invites[t])
  {
  }

  /**
   * The page never compares the invitation's own organisation with the one
   * in the link: an invitation to one organisation makes its holder a member
   * of whichever organisation the link names.
   */
  lemma InvitationOrganisationUnchecked(invites: map<string, Invitation>, members: map<MemberKey, Membership>,
                                        token: string, org: string, now: int, id: string, faults: Faults)
    requires token != "" && org != ""
    requires token in invites && now <= invites[token].expiresAt
    requires invites[token].organizationSlug != org
    requires MemberKey(id, org) !in members
    requires !faults.inviteQueryFails && faults.insertError.None?
    requires faults.memberLookupError.Some? ==> faults.memberLookupError.value.code == NoRowsCode
    ensures var o := Resolve(invites, members, Some(token), Some(org), now, SignedIn(id), faults);
      && MemberKey(id, org) in o.members && MemberKey(id, invites[token].organizationSlug) !in o.members - members.Keys
  {
  }

  /** Whether a run gets as far as inserting the membership. */
  predicate Accepts(invites: map<string, Invitation>, members: map<MemberKey, Membership>,
                    token: Option<string>, org: Option<string>, now: int, user: UserLookup, faults: Faults)
  {
    && Truthy(token) && Truthy(org) && !faults.inviteQueryFails && token.value in invites
    && now <= invites[token.value].expiresAt && user.SignedIn?
    && (faults.memberLookupError.Some? ==> faults.memberLookupError.value.code == NoRowsCode)
    && (faults.memberLookupError.None? ==> MemberKey(user.id, org.value) !in members)
    && faults.insertError.None?
  }

  /**
   * A run that does not get as far as the insert leaves both tables as they
   * were; one that does ends on the organisation's dashboard with no error.
   */
  lemma TablesChangeOnlyOnAcceptance(invites: map<string, Invitation>, members: map<MemberKey, Membership>,
                                     token: Option<string>, org: Option<string>, now: int,
                                     user: UserLookup, faults: Faults)
    ensures var o := Resolve(invites, members, token, org, now, user, faults);
      && (!Accepts(invites, members, token, org, now, user, faults) ==> o.members == members && o.invites == invites)
      && (Accepts(invites, members, token, org, now, user, faults) ==>
            o.error.None? && o.navigation == Some("/" + org.value + "/dashboard"))
  {
  }

  /**
   * The membership table only grows, by at most one row: no run removes or
   * rewrites a membership.  A failed lookup is taken not to hide an existing
   * row of the user in that organisation.
   */
  lemma {:induction false} MembershipsOnlyGrow(invites: map<string, Invitation>, members: map<MemberKey, Membership>,
                                               token: Option<string>, org: Option<string>, now: int,
                                               user: UserLookup, faults: Faults)
    requires faults.memberLookupError.Some? && user.SignedIn? && Truthy(org) ==> MemberKey(user.id, org.value) !in members
    ensures var o := Resolve(invites, members, token, org, now, user, faults);
      && members.Keys <= o.members.Keys
      && (forall k :: k in members ==> o.members[k] == members[k])
      && |o.members.Keys| <= |members.Keys| + 1
  {
    var o := Resolve(invites, members, token, org, now, user, faults);
    TablesChangeOnlyOnAcceptance(invites, members, token, org, now, user, faults);
    if Accepts(invites, members, token, org, now, user, faults) {
      var key := MemberKey(user.id, org.value);
      assert o.members == members[key := NewMembership(invites[token.value], now)];
      assert o.members.Keys == members.Keys + {key};
      assert |members.Keys + {key}| == |members.Keys| + 1;
    }
  }

  /**
   * Following the same link again after joining changes nothing: when the
   * invitation was removed the link is now invalid, and when its removal
   * failed the user is already a member and is only sent to the dashboard.
   */
  lemma {:induction false} SecondVisitAddsNothing(invites: map<string, Invitation>, members: map<MemberKey, Membership>,
                                                  token: string, org: string, now: int, later: int,
                                                  id: string, faults: Faults)
    requires token != "" && org != ""
    requires Resolve(invites, members, Some(token), Some(org), now, SignedIn(id), faults).members != members
    ensures var first := Resolve(invites, members, Some(token), Some(org), now, SignedIn(id), faults);
      var second := Resolve(first.invites, first.members, Some(token), Some(org), later, SignedIn(id), NoFaults());
      && second.members == first.members && second.invites == first.invites
  {
    var first := Resolve(invites, members, Some(token), Some(org), now, SignedIn(id), faults);
    assert MemberKey(id, org) in first.members;
    if !faults.deleteFails {
      assert token !in first.invites;
    }
  }

  /** The invite page: the two tables it reads and writes, its React state, and where it last navigated. */
  class InvitePage {
    var invites: map<string, Invitation>
    var members: map<MemberKey, Membership>
    /** The `error` state; `None` is null. */
    var error: Option<string>
    /** The `loading` state. */
    var loading: bool
    /** The last `router.push`, if any. */
    var navigatedTo: Option<string>

    /** The page as it mounts: loading, no error, no navigation yet. */
    constructor(invites: map<string, Invitation>, members: map<MemberKey, Membership>)
      ensures this.invites == invites && this.members == members
      ensures error == None && loading && navigatedTo == None
    {
      this.invites := invites;
      this.members := members;
      error := None;
      loading := true;
      navigatedTo := None;
    }

    /**
     * `handleInvite`: the tables end as `Resolve` says, the error is set
     * when `Resolve` reports one, the browser is sent where `Resolve` says,
     * and loading is over on every path.
     */
    method HandleInvite(token: Option<string>, org: Option<string>, now: int, user: UserLookup, faults: Faults)
      modifies this
      ensures var o := Resolve(old(invites), old(members), token, org, now, user, faults);
        && invites == o.invites && members == o.members
        && error == (if o.error.Some? then o.error else old(error))
        && navigatedTo == (if o.navigation.Some? then o.navigation else old(navigatedTo))
        && !loading
    {
      if !Truthy(token) || !Truthy(org) {
        error := Some("Invalid invitation link");
        loading := false;
        return;
      }
      var t := token.value;
      var slug := org.value;

      if faults.inviteQueryFails || t !in invites {
        error := Some("Invalid or expired invitation");
        loading := false;
        return;
      }
      var invite := invites[t];
      if invite.expiresAt < now {
        error := Some("Invitation has expired");
        loading := false;
        return;
      }

      match user {
        case AuthFailed(message) =>
          error := Some(message);
        case SignedOut =>
          navigatedTo := Some(SignupPath(t, slug));
        case SignedIn(id) =>
          var key := MemberKey(id, slug);
          var memberError := faults.memberLookupError;
          var existing := memberError.None? && key in members;
          if memberError.Some? && memberError.value.code != NoRowsCode {
            error := Some(memberError.value.message);
          } else if existing {
            navigatedTo := Some(DashboardPath(slug));
          } else if faults.insertError.Some? {
            error := faults.insertError;
          } else {
            members := members[key := NewMembership(invite, now)];
            if !faults.deleteFails {
              invites := invites - {t};
            }
            navigatedTo := Some(DashboardPath(slug));
          }
      }
      loading := false;
    }
  }
}
