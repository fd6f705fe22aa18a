/**
 * The older Patreon agent in the rewards package. It follows the same decision tree as
 * the linking agent with its own behaviour, reproduced here as written:
 *  - registration short-circuits when the stored record reports an active pledge;
 *  - a membership list whose length is not exactly one is rejected;
 *  - `hasNotExpired` answers "now is after the expiry", so a stored record with no
 *    expiry reads as active, and the update and create branches of a member's link
 *    report opposite activeness for the same expiry;
 *  - a member's link compares the clock with the next charge date as Patreon's answer
 *    carries it, a string, which never compares as earlier or later;
 *  - there is no check that the Patreon account is unused by other usernames.
 *
 * The token exchange and the identity request are the function parameters
 * `getTokens` and `getIdentity`; every request made is appended to `requests`.
 */
module LegacyPatreon {
  import opened Common
  import opened PatreonTypes

  /** The token endpoint's answer; `expiresIn` is in seconds. */
  datatype TokenResponse = TokenResponse(accessToken: string, refreshToken: string, expiresIn: int)

  /** The identity endpoint's answer: the Patreon id and, when present, the `included` memberships. */
  datatype IdentityResponse = IdentityResponse(patreonUserId: PatreonId, included: Option<seq<MemberDetails>>)

  datatype PatreonDetails = PatreonDetails(isActivePatreon: bool, amountCents: int)

  datatype RegisterError =
    | SecondPatreonForUser                    // the username holds another Patreon account
    | UnexpectedMembershipCount(count: nat)   // `included` is present but not of length one

  datatype ProviderRequest =
    | TokenRequest(code: string)
    | IdentityRequest(accessToken: string)

  /**
   * `hasNotExpired(expiryDate)`, that is `new Date() > expiryDate`, on a stored expiry:
   * true when `now` is strictly after it, or after the epoch when there is none.
   */
  function HasNotExpired(expiry: Option<Instant>, now: Instant): (notExpired: bool)
    ensures expiry.Some? ==> (notExpired <==> now > expiry.value)
    ensures expiry.None? ==> (notExpired <==> now > 0)
  {
    now > ExpiryInstant(expiry)
  }

  /** `getExistingPatreonDetails`: the stored amount, "active" when `now` is past the stored expiry. */
  function ExistingPatreonDetails(s: Store, usernameLower: Username, now: Instant): (r: Option<PatreonDetails>)
    ensures r.None? <==> usernameLower !in s
    ensures r.Some? ==> r.value.amountCents == s[usernameLower].amountCents
    ensures r.Some? ==> (r.value.isActivePatreon <==> now > ExpiryInstant(s[usernameLower].pledgeExpiry))
  {
    if usernameLower !in s then None
    else Some(PatreonDetails(HasNotExpired(s[usernameLower].pledgeExpiry, now), s[usernameLower].amountCents))
  }

  /** The tokens stored from a token response: the access token expires `expiresIn` seconds after `now`. */
  function StoredTokens(t: TokenResponse, now: Instant): (tokens: Tokens)
    ensures tokens.accessToken == t.accessToken && tokens.refreshToken == t.refreshToken
    ensures tokens.accessTokenExpiry - now == t.expiresIn * 1000
  {
    Tokens(t.accessToken, t.refreshToken, now + t.expiresIn * 1000)
  }

  /** The record a member's registration writes. */
  function MemberRecord(pid: PatreonId, usernameLower: Username, tokens: Tokens, m: MemberDetails, now: Instant): PatreonRecord
  {
    PatreonRecord(pid, usernameLower, tokens, m.entitledAmountCents, PledgeExpiry(m, now))
  }

  /**
   * A member who has not paid gets no expiry, which the update branch reports as an
   * active pledge and the create branch as an inactive one.
   */
  lemma UnpaidMemberActivenessDependsOnBranch(
    before: Store, after: Store, r: Result<PatreonDetails, RegisterError>, usernameLower: Username,
    t: TokenResponse, identity: IdentityResponse, m: MemberDetails, now: Instant)
    requires RegistrationOutcome(before, after, r, usernameLower, t, identity, now)
    requires r.Ok? && identity.included == Some([m])
    requires !HasPaid(m, now) && now > 0
    ensures r.value.isActivePatreon == (usernameLower in before)
  {
  }

  /**
   * A member who has paid and has a next charge date is reported inactive when the record
   * is updated and active when it is created, whatever that date is: the date is still
   * Patreon's unparsed string when it is compared.
   */
  lemma PaidMemberActivenessDependsOnBranch(
    before: Store, after: Store, r: Result<PatreonDetails, RegisterError>, usernameLower: Username,
    t: TokenResponse, identity: IdentityResponse, m: MemberDetails, now: Instant)
    requires RegistrationOutcome(before, after, r, usernameLower, t, identity, now)
    requires r.Ok? && identity.included == Some([m])
    requires HasPaid(m, now) && m.nextChargeDate.Some?
    ensures r.value.isActivePatreon == (usernameLower !in before)
  {
  }

  /** A stored record without an expiry reads as active at every instant after the epoch. */
  lemma NoExpiryReadsActive(s: Store, usernameLower: Username, now: Instant)
    requires usernameLower in s && s[usernameLower].pledgeExpiry.None? && now > 0
    ensures ExistingPatreonDetails(s, usernameLower, now) == Some(PatreonDetails(true, s[usernameLower].amountCents))
  {
  }

  /**
   * What `updateUserPatreon` does with the token response `t` and the identity response
   * `identity`, taking the record collection from `before` to `after` and answering `r`.
   */
  ghost predicate RegistrationOutcome(
    before: Store,
    after: Store,
    r: Result<PatreonDetails, RegisterError>,
    usernameLower: Username,
    t: TokenResponse,
    identity: IdentityResponse,
    now: Instant)
  {
    var tokens := StoredTokens(t, now);
    var existed := usernameLower in before;
    && (r == Err(SecondPatreonForUser)
        <==> existed && before[usernameLower].patreonUserId != identity.patreonUserId)
    && (r.Err? && r.error.UnexpectedMembershipCount?
        <==> !(existed && before[usernameLower].patreonUserId != identity.patreonUserId)
             && identity.included.Some? && |identity.included.value| != 1)
    && (r.Err? ==> after == before)
    && (r.Ok? && identity.included.Some? ==>
          && |identity.included.value| == 1
          && var m := identity.included.value[0];
          var expiry := PledgeExpiry(m, now);
          && after == before[usernameLower := MemberRecord(identity.patreonUserId, usernameLower, tokens, m, now)]
          && r.value.amountCents == m.entitledAmountCents
          && (existed ==> r.value.isActivePatreon == UnparsedExpiryBefore(expiry, now))
          && (!existed ==> r.value.isActivePatreon == !UnparsedExpiryBefore(expiry, now)))
    && (r.Ok? && identity.included.None? && existed ==>
          && after == before[usernameLower := before[usernameLower].(tokens := tokens)]
          && r.value == PatreonDetails(false, 0))
    && (r.Ok? && identity.included.None? && !existed ==>
          && after == before[usernameLower := PatreonRecord(identity.patreonUserId, usernameLower, tokens, 0, None)]
          && r.value == PatreonDetails(false, 0))
  }

  class LegacyPatreonAgent {
    var records: Store
    var requests: seq<ProviderRequest>

    ghost predicate Valid()
      reads this
    {
      KeyedByUsername(records)
    }

    constructor (records: Store)
      requires KeyedByUsername(records)
      ensures Valid() && this.records == records && requests == []
    {
      this.records := records;
      requests := [];
    }

    /**
     * `registerPatreon`: return the stored details, with no request to Patreon, when they
     * report an active pledge; otherwise register through `updateUserPatreon`.
     */
    method RegisterPatreon(
      usernameLower: Username,
      code: string,
      getTokens: string -> TokenResponse,
      getIdentity: string -> IdentityResponse,
      now: Instant)
      returns (r: Result<PatreonDetails, RegisterError>)
      requires Valid()
      modifies this
      ensures Valid()
      ensures var existing := ExistingPatreonDetails(old(records), usernameLower, now);
              existing.Some? && existing.value.isActivePatreon ==>
                r == Ok(existing.value) && records == old(records) && requests == old(requests)
      ensures var existing := ExistingPatreonDetails(old(records), usernameLower, now);
              !(existing.Some? && existing.value.isActivePatreon) ==>
                && requests == old(requests) + [TokenRequest(code), IdentityRequest(getTokens(code).accessToken)]
                && RegistrationOutcome(old(records), records, r, usernameLower, getTokens(code), getIdentity(getTokens(code).accessToken), now)
    {
      var existing := ExistingPatreonDetails(records, usernameLower, now);
      if existing.Some? && existing.value.isActivePatreon {
        return Ok(existing.value);
      }
      r := UpdateUserPatreon(usernameLower, code, getTokens, getIdentity, now);
    }

    /**
     * `updateUserPatreon`: exchange the code, fetch the identity, reject a second Patreon
     * account for the username and any membership count other than one, then update or
     * create the record.
     */
    method UpdateUserPatreon(
      usernameLower: Username,
      code: string,
      getTokens: string -> TokenResponse,
      getIdentity: string -> IdentityResponse,
      now: Instant)
      returns (r: Result<PatreonDetails, RegisterError>)
      requires Valid()
      modifies this
      ensures Valid()
      ensures requests == old(requests) + [TokenRequest(code), IdentityRequest(getTokens(code).accessToken)]
      ensures RegistrationOutcome(old(records), records, r, usernameLower, getTokens(code), getIdentity(getTokens(code).accessToken), now)
    {
      var t := getTokens(code);
      requests := requests + [TokenRequest(code)];
      var identity := getIdentity(t.accessToken);
      requests := requests + [IdentityRequest(t.accessToken)];
      var tokens := StoredTokens(t, now);

      var existing := if usernameLower in records then Some(records[usernameLower]) else None;
      if existing.Some? && existing.value.patreonUserId != identity.patreonUserId {
        return Err(SecondPatreonForUser);
      }

      if identity.included.Some? {
        // A member of the campaign
        var memberships := identity.included.value;
        if |memberships| != 1 {
          return Err(UnexpectedMembershipCount(|memberships|));
        }
        var m := memberships[0];
        var expiry := PledgeExpiry(m, now);
        var update := PatreonRecord(identity.patreonUserId, usernameLower, tokens, m.entitledAmountCents, expiry);
        if existing.Some? {
          records := records[usernameLower := update];    // findOneAndUpdate
          r := Ok(PatreonDetails(UnparsedExpiryBefore(expiry, now), m.entitledAmountCents));
        } else {
          records := records[usernameLower := update];    // create
          r := Ok(PatreonDetails(!UnparsedExpiryBefore(expiry, now), m.entitledAmountCents));
        }
      } else {
        // Not a member: keep the tokens current
        if existing.Some? {
          records := records[usernameLower := existing.value.(tokens := tokens)];
          return Ok(PatreonDetails(false, 0));
        }
        records := records[usernameLower := PatreonRecord(identity.patreonUserId, usernameLower, tokens, 0, None)];
        r := Ok(PatreonDetails(false, 0));
      }
    }
  }

  /**
   * Two usernames registering the same Patreon account are both linked to it: the agent
   * never looks for another holder of the Patreon id.
   */
  method SharedPatreonAccountIsAccepted(
    agent: LegacyPatreonAgent,
    getTokens: string -> TokenResponse,
    getIdentity: string -> IdentityResponse,
    now: Instant)
    returns (first: Result<PatreonDetails, RegisterError>, second: Result<PatreonDetails, RegisterError>)
    requires agent.Valid() && agent.records == map[]
    requires getIdentity(getTokens("codeA").accessToken).patreonUserId == "123"
    requires getIdentity(getTokens("codeB").accessToken).patreonUserId == "123"
    requires getIdentity(getTokens("codeA").accessToken).included.None?
    requires getIdentity(getTokens("codeB").accessToken).included.None?
    modifies agent
    ensures first == Ok(PatreonDetails(false, 0)) && second == Ok(PatreonDetails(false, 0))
    ensures agent.records.Keys == {"alice", "bob"}
    ensures agent.records["alice"].patreonUserId == agent.records["bob"].patreonUserId == "123"
  {
    first := agent.UpdateUserPatreon("alice", "codeA", getTokens, getIdentity, now);
    second := agent.UpdateUserPatreon("bob", "codeB", getTokens, getIdentity, now);
  }
}
