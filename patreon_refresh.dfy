/**
 * The controller-injected Patreon agent: linking rejects unpaid patrons, and reading a
 * user's details serves a fresh record from the store or, once its pledge has expired,
 * refreshes the tokens, re-fetches the paid details and then saves or deletes the record.
 *
 * The injected controller is a value of `Controller`; every call the agent makes to it is
 * appended to `calls`, so what a mock controller would record is part of the state.
 */
module PatreonRefresh {
  import opened Common
  import opened PatreonTypes

  /** A paid patron as the controller reports it; the controller returns nothing for an unpaid one. */
  datatype PaidPatronDetails = PaidPatronDetails(patreonUserId: PatreonId, amountCents: int, currentPledgeExpiry: Option<Instant>)

  /** The agent's public answer about a user's pledge. */
  datatype PatronDetails = PatronDetails(patreonUserId: PatreonId, isPledgeActive: bool, amountCents: int)

  datatype LinkError =
    | NotPaidPatronError
    | MultiplePatreonsForUserError
    | MultipleUsersForPatreonError

  /** The provider operations the agent is constructed with. */
  datatype Controller = Controller(
    getPatreonUserTokens: string -> Tokens,
    refreshPatreonUserTokens: string -> Tokens,
    getPaidPatronFullDetails: string -> Option<PaidPatronDetails>)

  datatype ProviderCall =
    | GetPatreonUserTokens(code: string)
    | RefreshPatreonUserTokens(refreshToken: string)
    | GetPaidPatronFullDetails(accessToken: string)

  /** The record a paid link writes. */
  function PaidRecord(paid: PaidPatronDetails, usernameLower: Username, tokens: Tokens): PatreonRecord
  {
    PatreonRecord(paid.patreonUserId, usernameLower, tokens, paid.amountCents, paid.currentPledgeExpiry)
  }

  /** The record a refresh that is still paid saves: new tokens, new amount, new expiry, same identity. */
  function RefreshedRecord(rec: PatreonRecord, tokens: Tokens, paid: PaidPatronDetails): (r: PatreonRecord)
    ensures r.patreonUserId == rec.patreonUserId && r.usernameLower == rec.usernameLower
    ensures r.tokens == tokens && r.amountCents == paid.amountCents && r.pledgeExpiry == paid.currentPledgeExpiry
  {
    rec.(tokens := tokens, amountCents := paid.amountCents, pledgeExpiry := paid.currentPledgeExpiry)
  }

  /** The answer served from a stored record whose pledge has not expired. */
  function CachedDetails(rec: PatreonRecord): PatronDetails
  {
    PatronDetails(rec.patreonUserId, true, rec.amountCents)
  }

  class PatreonAgent {
    const controller: Controller
    var records: Store
    var calls: seq<ProviderCall>

    ghost predicate Valid()
      reads this
    {
      WellFormedStore(records)
    }

    /** Constructor injection of the controller. */
    constructor (controller: Controller, records: Store)
      requires WellFormedStore(records)
      ensures Valid()
      ensures this.controller == controller && this.records == records && calls == []
    {
      this.controller := controller;
      this.records := records;
      calls := [];
    }

    /**
     * `linkUserToPatreon`: exchange the code, fetch the paid details with the new access
     * token, reject an unpaid patron, enforce both cardinality rules, then write the record.
     */
    method LinkUserToPatreon(usernameLower: Username, code: string) returns (r: Result<PatronDetails, LinkError>)
      requires Valid()
      modifies this
      ensures Valid()
      ensures var tokens := controller.getPatreonUserTokens(code);
              calls == old(calls) + [GetPatreonUserTokens(code), GetPaidPatronFullDetails(tokens.accessToken)]
      ensures var tokens := controller.getPatreonUserTokens(code);
              var paid := controller.getPaidPatronFullDetails(tokens.accessToken);
              && (r == Err(NotPaidPatronError) <==> paid.None?)
              && (r == Err(MultiplePatreonsForUserError)
                  <==> paid.Some? && usernameLower in old(records)
                       && old(records)[usernameLower].patreonUserId != paid.value.patreonUserId)
              && (r == Err(MultipleUsersForPatreonError)
                  <==> paid.Some? && r != Err(MultiplePatreonsForUserError)
                       && HeldByOtherUser(old(records), paid.value.patreonUserId, usernameLower))
              && (r.Err? ==> records == old(records))
              && (r.Ok? ==>
                    && records == old(records)[usernameLower := PaidRecord(paid.value, usernameLower, tokens)]
                    && r.value == PatronDetails(paid.value.patreonUserId, true, paid.value.amountCents))
    {
      var tokens := controller.getPatreonUserTokens(code);
      calls := calls + [GetPatreonUserTokens(code)];
      var paid := controller.getPaidPatronFullDetails(tokens.accessToken);
      calls := calls + [GetPaidPatronFullDetails(tokens.accessToken)];
      if paid.None? {
        return Err(NotPaidPatronError);
      }

      var existing := if usernameLower in records then Some(records[usernameLower]) else None;
      if existing.Some? && existing.value.patreonUserId != paid.value.patreonUserId {
        return Err(MultiplePatreonsForUserError);
      }

      var inUse := FindOneByPatreonId(records, paid.value.patreonUserId);
      if inUse.Some? {
        FoundHolderIsUnique(records, paid.value.patreonUserId, usernameLower, inUse.value);
      }
      if inUse.Some? && inUse.value.usernameLower != usernameLower {
        return Err(MultipleUsersForPatreonError);
      }

      var details := UpdateCurrentPaidPatreonMember(existing, paid.value, usernameLower, tokens);
      r := Ok(details);
    }

    /** `updateCurrentPaidPatreonMember`: upsert the username's record with the paid details. */
    method UpdateCurrentPaidPatreonMember(
      existing: Option<PatreonRecord>,
      paid: PaidPatronDetails,
      usernameLower: Username,
      tokens: Tokens)
      returns (details: PatronDetails)
      requires Valid()
      requires existing.Some? <==> usernameLower in records
      requires existing.Some? ==> existing.value.patreonUserId == paid.patreonUserId
      requires existing.Some? ==> existing.value == records[usernameLower]
      requires !HeldByOtherUser(records, paid.patreonUserId, usernameLower)
      modifies this`records
      ensures Valid()
      ensures records == old(records)[usernameLower := PaidRecord(paid, usernameLower, tokens)]
      ensures details == PatronDetails(paid.patreonUserId, true, paid.amountCents)
    {
      records := records[usernameLower := PaidRecord(paid, usernameLower, tokens)];
      details := PatronDetails(paid.patreonUserId, true, paid.amountCents);
    }

    /** `updateUserTokens`: store freshly refreshed tokens on the username's record. */
    method UpdateUserTokens(usernameLower: Username, tokens: Tokens)
      requires Valid()
      requires usernameLower in records
      modifies this`records
      ensures Valid()
      ensures records == old(records)[usernameLower := old(records)[usernameLower].(tokens := tokens)]
    {
      records := records[usernameLower := records[usernameLower].(tokens := tokens)];
    }

    /**
     * `findOrUpdateExistingPatronDetails`: nothing for a username without a record; the
     * cached answer for a record whose pledge has not expired, with no provider call;
     * otherwise refresh the tokens with the stored refresh token, re-fetch with the new
     * access token, then save the record (still paid) or delete it (no longer paid).
     */
    method FindOrUpdateExistingPatronDetails(usernameLower: Username, now: Instant) returns (r: Option<PatronDetails>)
      requires Valid()
      modifies this
      ensures Valid()
      ensures usernameLower !in old(records) ==>
                r.None? && records == old(records) && calls == old(calls)
      ensures usernameLower in old(records) && !HasExpired(old(records)[usernameLower].pledgeExpiry, now) ==>
                && r == Some(CachedDetails(old(records)[usernameLower]))
                && records == old(records) && calls == old(calls)
      ensures usernameLower in old(records) && HasExpired(old(records)[usernameLower].pledgeExpiry, now) ==>
                var rec := old(records)[usernameLower];
                var tokens := controller.refreshPatreonUserTokens(rec.tokens.refreshToken);
                var paid := controller.getPaidPatronFullDetails(tokens.accessToken);
                && calls == old(calls) + [RefreshPatreonUserTokens(rec.tokens.refreshToken), GetPaidPatronFullDetails(tokens.accessToken)]
                && (paid.Some? ==>
                      && records == old(records)[usernameLower := RefreshedRecord(rec, tokens, paid.value)]
                      && r == Some(PatronDetails(rec.patreonUserId, true, paid.value.amountCents)))
                && (paid.None? ==>
                      && records == old(records) - {usernameLower}
                      && r == Some(PatronDetails(rec.patreonUserId, false, 0)))
    {
      if usernameLower !in records {
        return None;
      }
      var rec := records[usernameLower];
      if !HasExpired(rec.pledgeExpiry, now) {
        return Some(CachedDetails(rec));
      }

      var tokens := controller.refreshPatreonUserTokens(rec.tokens.refreshToken);
      calls := calls + [RefreshPatreonUserTokens(rec.tokens.refreshToken)];
      UpdateUserTokens(usernameLower, tokens);

      var paid := controller.getPaidPatronFullDetails(tokens.accessToken);
      calls := calls + [GetPaidPatronFullDetails(tokens.accessToken)];
      if paid.None? {
        records := records - {usernameLower};    // deleteOne
        return Some(PatronDetails(rec.patreonUserId, false, 0));
      }

      records := records[usernameLower := RefreshedRecord(records[usernameLower], tokens, paid.value)];    // save
      r := Some(PatronDetails(rec.patreonUserId, true, paid.value.amountCents));
    }
  }

  /** Two reads of a fresh record give the same active answer and make no provider call. */
  method FreshReadsAreCached(agent: PatreonAgent, usernameLower: Username, now: Instant)
    returns (first: Option<PatronDetails>, second: Option<PatronDetails>)
    requires agent.Valid()
    requires usernameLower in agent.records && !HasExpired(agent.records[usernameLower].pledgeExpiry, now)
    modifies agent
    ensures first == second == Some(CachedDetails(old(agent.records)[usernameLower]))
    ensures first.value.isPledgeActive
    ensures agent.records == old(agent.records) && agent.calls == old(agent.calls)
  {
    first := agent.FindOrUpdateExistingPatronDetails(usernameLower, now);
    second := agent.FindOrUpdateExistingPatronDetails(usernameLower, now);
  }
}
