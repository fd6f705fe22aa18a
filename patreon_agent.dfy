/**
 * The Patreon account-linking agent: links a ProAvalon username to the Patreon account
 * behind an OAuth code, and answers whether a linked user is an active patron.
 *
 * The record collection is the field `records`. The controller's token exchange and
 * identity fetch are the function parameters `getTokens` and `getPatronDetails`.
 */
module PatreonLinking {
  import opened Common
  import opened PatreonTypes

  /** What the identity fetch reports: the Patreon account, and its membership if it is a member. */
  datatype PatronDetails = PatronDetails(patreonUserId: PatreonId, member: Option<MemberDetails>)

  /** The agent's answer about a user's pledge. */
  datatype PatreonDetails = PatreonDetails(isActivePatreon: bool, amountCents: int)

  datatype LinkError =
    | SecondPatreonForUser      // the username already holds another Patreon account
    | PatreonUsedByAnotherUser  // the Patreon account already backs another username

  /**
   * `getExistingPatreonDetails`: nothing when the username has no record; otherwise the
   * stored amount, active unless the stored expiry lies strictly before `now`.
   */
  function ExistingPatreonDetails(s: Store, usernameLower: Username, now: Instant): (r: Option<PatreonDetails>)
    ensures r.None? <==> usernameLower !in s
    ensures r.Some? ==> r.value.amountCents == s[usernameLower].amountCents
    ensures r.Some? ==> (r.value.isActivePatreon <==> ExpiryInstant(s[usernameLower].pledgeExpiry) >= now)
  {
    if usernameLower !in s then None
    else
      var rec := s[usernameLower];
      Some(PatreonDetails(!HasExpired(rec.pledgeExpiry, now), rec.amountCents))
  }

  /** The record a member's link writes: new tokens, entitled amount, resolved expiry. */
  function MemberRecord(pid: PatreonId, usernameLower: Username, tokens: Tokens, m: MemberDetails, now: Instant): PatreonRecord
  {
    PatreonRecord(pid, usernameLower, tokens, m.entitledAmountCents, PledgeExpiry(m, now))
  }

  /**
   * What a member's link reports: `!hasExpired` applied to the next charge date straight
   * from Patreon's answer, so a paying member with a next charge date reads as active
   * whatever that date is, and one without an expiry as inactive after the epoch.
   */
  function MemberResult(m: MemberDetails, now: Instant): (r: PatreonDetails)
    ensures r.amountCents == m.entitledAmountCents
    ensures HasPaid(m, now) && m.nextChargeDate.Some? ==> r.isActivePatreon
    ensures PledgeExpiry(m, now).None? ==> (r.isActivePatreon <==> now <= 0)
  {
    PatreonDetails(!UnparsedExpiryBefore(PledgeExpiry(m, now), now), m.entitledAmountCents)
  }

  /** The zero-amount, no-expiry record created for a non-member without a record. */
  function NonMemberRecord(pid: PatreonId, usernameLower: Username, tokens: Tokens): PatreonRecord
  {
    PatreonRecord(pid, usernameLower, tokens, 0, None)
  }

  /** The username already holds a Patreon account other than `pid`. */
  predicate HoldsOtherPatreon(s: Store, usernameLower: Username, pid: PatreonId) {
    usernameLower in s && s[usernameLower].patreonUserId != pid
  }

  /**
   * Reading a username back right after a member's link reports the amount the link
   * returned, and the same activeness except when the member has paid and the next charge
   * date is already past: the stored date is compared as a date, the unparsed one was not.
   */
  lemma MemberLinkReadsBack(s: Store, pid: PatreonId, usernameLower: Username, tokens: Tokens, m: MemberDetails, now: Instant)
    ensures var read := ExistingPatreonDetails(s[usernameLower := MemberRecord(pid, usernameLower, tokens, m, now)], usernameLower, now);
            && read.Some? && read.value.amountCents == MemberResult(m, now).amountCents
            && (read == Some(MemberResult(m, now))
                <==> !(HasPaid(m, now) && m.nextChargeDate.Some? && m.nextChargeDate.value < now))
  {
    var read := ExistingPatreonDetails(s[usernameLower := MemberRecord(pid, usernameLower, tokens, m, now)], usernameLower, now);
    if HasPaid(m, now) && m.nextChargeDate.Some? {
      assert PledgeExpiry(m, now) == m.nextChargeDate;
    } else {
      assert PledgeExpiry(m, now).None?;
    }
  }

  /**
   * Reading a username back right after a non-member's first link reports the same
   * inactive, zero answer the link returned.
   */
  lemma NonMemberFirstLinkReadsBack(s: Store, pid: PatreonId, usernameLower: Username, tokens: Tokens, now: Instant)
    requires now > 0
    ensures ExistingPatreonDetails(s[usernameLower := NonMemberRecord(pid, usernameLower, tokens)], usernameLower, now)
            == Some(PatreonDetails(false, 0))
  {
  }

  /**
   * A non-member re-linking an existing record keeps its stored amount and expiry, so a
   * later read can report an active pledge although the link itself answered inactive.
   */
  lemma NonMemberRelinkKeepsStoredPledge(rec: PatreonRecord, tokens: Tokens, now: Instant)
    requires rec.amountCents == 500 && rec.pledgeExpiry == Some(now + 1)
    ensures var s := map[rec.usernameLower := rec.(tokens := tokens)];
            ExistingPatreonDetails(s, rec.usernameLower, now) == Some(PatreonDetails(true, 500))
  {
  }

  /** The agent, with the record collection it reads and writes. */
  class PatreonAgent {
    var records: Store

    ghost predicate Valid()
      reads this
    {
      WellFormedStore(records)
    }

    /** The agent over the record collection that already exists. */
    constructor (records: Store)
      requires WellFormedStore(records)
      ensures Valid() && this.records == records
    {
      this.records := records;
    }

    /**
     * `linkUserToPatreon`: exchange the code, fetch the identity, enforce one Patreon
     * account per username and one username per Patreon account, then record the
     * membership (or the lack of one).
     */
    method LinkUserToPatreon(
      usernameLower: Username,
      code: string,
      getTokens: string -> Tokens,
      getPatronDetails: string -> PatronDetails,
      now: Instant)
      returns (r: Result<PatreonDetails, LinkError>)
      requires Valid()
      modifies this
      ensures Valid()
      ensures var tokens := getTokens(code);
              var patron := getPatronDetails(tokens.accessToken);
              && (r == Err(SecondPatreonForUser)
                  <==> HoldsOtherPatreon(old(records), usernameLower, patron.patreonUserId))
              && (r == Err(PatreonUsedByAnotherUser)
                  <==> !HoldsOtherPatreon(old(records), usernameLower, patron.patreonUserId)
                       && HeldByOtherUser(old(records), patron.patreonUserId, usernameLower))
              && (r.Err? ==> records == old(records))
              && (r.Ok? && patron.member.Some? ==>
                    && records == old(records)[usernameLower := MemberRecord(patron.patreonUserId, usernameLower, tokens, patron.member.value, now)]
                    && r.value == MemberResult(patron.member.value, now))
              && (r.Ok? && patron.member.None? && usernameLower in old(records) ==>
                    && records == old(records)[usernameLower := old(records)[usernameLower].(tokens := tokens)]
                    && r.value == PatreonDetails(false, 0))
              && (r.Ok? && patron.member.None? && usernameLower !in old(records) ==>
                    && records == old(records)[usernameLower := NonMemberRecord(patron.patreonUserId, usernameLower, tokens)]
                    && r.value == PatreonDetails(false, 0))
      ensures forall v :: v != usernameLower ==>
                (v in records <==> v in old(records)) && (v in records ==> records[v] == old(records)[v])
    {
      var tokens := getTokens(code);
      var patron := getPatronDetails(tokens.accessToken);
      var existing := if usernameLower in records then Some(records[usernameLower]) else None;

      if existing.Some? && existing.value.patreonUserId != patron.patreonUserId {
        return Err(SecondPatreonForUser);
      }

      var inUse := FindOneByPatreonId(records, patron.patreonUserId);
      if inUse.Some? {
        FoundHolderIsUnique(records, patron.patreonUserId, usernameLower, inUse.value);
      }
      if inUse.Some? && inUse.value.usernameLower != usernameLower {
        return Err(PatreonUsedByAnotherUser);
      }

      var details;
      if patron.member.Some? {
        details := UpdateCurrentPatreonMember(existing, patron, usernameLower, tokens, now);
      } else {
        details := UpdateCurrentNonPatreonMember(existing, tokens, usernameLower, patron.patreonUserId);
      }
      r := Ok(details);
    }

    /**
     * `updateCurrentPatreonMember`: update the username's record in place, or create it,
     * with the new tokens, the entitled amount and the resolved pledge expiry.
     */
    method UpdateCurrentPatreonMember(
      existing: Option<PatreonRecord>,
      patron: PatronDetails,
      usernameLower: Username,
      tokens: Tokens,
      now: Instant)
      returns (details: PatreonDetails)
      requires Valid()
      requires patron.member.Some?
      requires existing.Some? <==> usernameLower in records
      requires existing.Some? ==> existing.value == records[usernameLower]
      requires existing.Some? ==> existing.value.patreonUserId == patron.patreonUserId
      requires !HeldByOtherUser(records, patron.patreonUserId, usernameLower)
      modifies this
      ensures Valid()
      ensures records == old(records)[usernameLower := MemberRecord(patron.patreonUserId, usernameLower, tokens, patron.member.value, now)]
      ensures details == MemberResult(patron.member.value, now)
    {
      var m := patron.member.value;
      var expiry := PledgeExpiry(m, now);
      var update := PatreonRecord(patron.patreonUserId, usernameLower, tokens, m.entitledAmountCents, expiry);
      if existing.Some? {
        records := records[usernameLower := update];    // findOneAndUpdate
      } else {
        records := records[usernameLower := update];    // create
      }
      details := PatreonDetails(!UnparsedExpiryBefore(expiry, now), m.entitledAmountCents);
    }

    /**
     * `updateCurrentNonPatreonMember`: rotate only the tokens of an existing record, or
     * create a zero-amount record with no expiry; either way the pledge is inactive.
     */
    method UpdateCurrentNonPatreonMember(
      existing: Option<PatreonRecord>,
      tokens: Tokens,
      usernameLower: Username,
      pid: PatreonId)
      returns (details: PatreonDetails)
      requires Valid()
      requires existing.Some? <==> usernameLower in records
      requires existing.Some? ==> existing.value == records[usernameLower]
      requires existing.Some? ==> existing.value.patreonUserId == pid
      requires !HeldByOtherUser(records, pid, usernameLower)
      modifies this
      ensures Valid()
      ensures existing.Some? ==> records == old(records)[usernameLower := existing.value.(tokens := tokens)]
      ensures existing.None? ==> records == old(records)[usernameLower := NonMemberRecord(pid, usernameLower, tokens)]
      ensures details == PatreonDetails(false, 0)
    {
      if existing.Some? {
        var saved := existing.value.(tokens := tokens);
        records := records[usernameLower := saved];
      } else {
        records := records[usernameLower := NonMemberRecord(pid, usernameLower, tokens)];
      }
      details := PatreonDetails(false, 0);
    }
  }
}
