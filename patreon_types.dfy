/**
 * The Patreon link record shared by the account-linking agents, the record store they
 * keep it in, and the "has paid" rule both agents apply to a Patreon membership.
 *
 * A `Date` is an integer number of milliseconds since the epoch; a `null` date is `None`.
 */
module PatreonTypes {
  import opened Common

  type Username = string
  type PatreonId = string

  /** Milliseconds since the epoch. */
  type Instant = int

  /** `30 * 24 * 60 * 60 * 1000`: the window within which the last charge must fall. */
  const ThirtyDaysMs: int := 2592000000

  /** The OAuth tokens Patreon hands out for a user. */
  datatype Tokens = Tokens(accessToken: string, refreshToken: string, accessTokenExpiry: Instant)

  /** One stored link between a ProAvalon account and a Patreon account. */
  datatype PatreonRecord = PatreonRecord(
    patreonUserId: PatreonId,
    usernameLower: Username,
    tokens: Tokens,
    amountCents: int,
    pledgeExpiry: Option<Instant>)

  /** The record collection, looked up by lower-cased username. */
  type Store = map<Username, PatreonRecord>

  /** The membership attributes Patreon returns for a patron of the campaign. */
  datatype MemberDetails = MemberDetails(
    lastChargeStatus: string,
    lastChargeDate: Instant,
    nextChargeDate: Option<Instant>,
    entitledAmountCents: int)

  /** Every record is filed under its own username. */
  ghost predicate KeyedByUsername(s: Store) {
    forall u :: u in s ==> s[u].usernameLower == u
  }

  /** No Patreon account backs two usernames. */
  ghost predicate UniquePatreonIds(s: Store) {
    forall u, v :: u in s && v in s && s[u].patreonUserId == s[v].patreonUserId ==> u == v
  }

  /** The uniqueness constraints the record collection keeps on both of its keys. */
  ghost predicate WellFormedStore(s: Store) {
    KeyedByUsername(s) && UniquePatreonIds(s)
  }

  /** Some username other than `u` already holds the Patreon account `pid`. */
  predicate HeldByOtherUser(s: Store, pid: PatreonId, u: Username) {
    exists v :: v in s && v != u && s[v].patreonUserId == pid
  }

  /**
   * The instant a relational comparison sees for a stored expiry: JavaScript coerces
   * a `null` Date to 0, the epoch.
   */
  function ExpiryInstant(e: Option<Instant>): (t: Instant)
    ensures e.Some? ==> t == e.value
    ensures e.None? ==> t == 0
  {
    match e
    case None => 0
    case Some(d) => d
  }

  /** `expiryDate < new Date()`: a missing expiry counts as expired once the clock is past the epoch. */
  function HasExpired(expiry: Option<Instant>, now: Instant): (expired: bool)
    ensures expiry.Some? ==> (expired <==> expiry.value < now)
    ensures expiry.None? ==> (expired <==> 0 < now)
  {
    ExpiryInstant(expiry) < now
  }

  /**
   * `expiry < new Date()` (equally `new Date() > expiry`) on a member's next charge date as
   * Patreon's response carries it, before it is stored: a date string converts to NaN, so
   * the comparison fails whatever the date; `null` converts to the epoch.
   */
  function UnparsedExpiryBefore(expiry: Option<Instant>, now: Instant): (before: bool)
    ensures expiry.Some? ==> !before
    ensures expiry.None? ==> (before <==> HasExpired(expiry, now))
  {
    expiry.None? && 0 < now
  }

  /** A next charge date in the past compares as past once stored, but not while unparsed. */
  lemma UnparsedPastDateIsNotBefore(d: Instant, now: Instant)
    requires d < now
    ensures HasExpired(Some(d), now) && !UnparsedExpiryBefore(Some(d), now)
  {
  }

  /** The last charge succeeded and happened strictly after thirty days before `now`. */
  function HasPaid(m: MemberDetails, now: Instant): (paid: bool)
    ensures paid ==> m.lastChargeStatus == "Paid"
    ensures m.lastChargeStatus == "Paid" ==> (paid <==> now - m.lastChargeDate < ThirtyDaysMs)
  {
    m.lastChargeStatus == "Paid" && m.lastChargeDate > now - ThirtyDaysMs
  }

  /**
   * The pledge expiry recorded for a member: the next charge date when the member has
   * paid, otherwise no expiry.
   */
  function PledgeExpiry(m: MemberDetails, now: Instant): (e: Option<Instant>)
    ensures e.Some? ==> m.lastChargeStatus == "Paid" && now - m.lastChargeDate < ThirtyDaysMs
    ensures e.Some? ==> e == m.nextChargeDate
    ensures m.lastChargeStatus != "Paid" || now - m.lastChargeDate >= ThirtyDaysMs ==> e.None?
    ensures m.lastChargeStatus == "Paid" && now - m.lastChargeDate < ThirtyDaysMs ==> e == m.nextChargeDate
  {
    if HasPaid(m, now) then m.nextChargeDate else None
  }

  /** A charge exactly thirty days old no longer counts: the window is strict. */
  lemma ChargeThirtyDaysOldIsUnpaid(m: MemberDetails, now: Instant)
    requires m.lastChargeDate == now - ThirtyDaysMs
    ensures !HasPaid(m, now) && PledgeExpiry(m, now) == None
  {
  }

  /** A missing expiry reads as expired at every instant after the epoch. */
  lemma MissingExpiryHasExpired(now: Instant)
    requires now > 0
    ensures HasExpired(None, now)
  {
  }

  /**
   * `findOne({patreonUserId})`: some stored record for the Patreon account `pid`,
   * or `None` when there is none.
   */
  method FindOneByPatreonId(s: Store, pid: PatreonId) returns (found: Option<PatreonRecord>)
    ensures found.None? <==> forall u :: u in s ==> s[u].patreonUserId != pid
    ensures found.Some? ==> exists u :: u in s && s[u] == found.value && found.value.patreonUserId == pid
  {
    if u :| u in s && s[u].patreonUserId == pid {
      found := Some(s[u]);
    } else {
      found := None;
    }
  }

  /**
   * In a well-formed store the record `findOne` returns for `pid` belongs to another
   * username exactly when some other username holds `pid`.
   */
  lemma FoundHolderIsUnique(s: Store, pid: PatreonId, u: Username, rec: PatreonRecord)
    requires WellFormedStore(s)
    requires exists v :: v in s && s[v] == rec && rec.patreonUserId == pid
    ensures rec.usernameLower != u <==> HeldByOtherUser(s, pid, u)
  {
    var v :| v in s && s[v] == rec && rec.patreonUserId == pid;
    assert rec.usernameLower == v;
    if HeldByOtherUser(s, pid, u) {
      var w :| w in s && w != u && s[w].patreonUserId == pid;
      assert w == v;
    }
  }
}
