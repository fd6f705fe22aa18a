/**
 * Reward projection: which rewards a user has earned. Patreon rewards follow from the
 * pledge amount reported by the refreshing Patreon agent; every other reward is guarded
 * by role memberships and a number of games played.
 *
 * The reward tables and the admin, moderator, tournament-organiser and developer lists
 * are parameters: `patreonRewards` and `otherRewards` list the table entries in key order.
 */
module Rewards {
  import opened Common
  import PatreonRefresh

  type RewardKey = string

  datatype Reward = Reward(
    key: RewardKey,
    adminReq: bool,
    modReq: bool,
    toReq: bool,
    devReq: bool,
    gamesPlayedReq: int,
    donationReq: int)

  /** The lower-cased usernames holding each role. */
  datatype Roles = Roles(admins: set<string>, mods: set<string>, tournamentOrganisers: set<string>, developers: set<string>)

  datatype User = User(usernameLower: string, totalGamesPlayed: int)

  /** The keys of the table entries that satisfy `p`, in table order. */
  function KeysWhere(table: seq<Reward>, p: Reward -> bool): (keys: seq<RewardKey>)
    ensures |keys| <= |table|
  {
    if table == [] then []
    else (if p(table[0]) then [table[0].key] else []) + KeysWhere(table[1..], p)
  }

  /** A key is selected exactly when some table entry with that key satisfies `p`. */
  lemma {:induction false} KeysWhereMembership(table: seq<Reward>, p: Reward -> bool, k: RewardKey)
    ensures k in KeysWhere(table, p) <==> exists i :: 0 <= i < |table| && table[i].key == k && p(table[i])
  {
    if table != [] {
      KeysWhereMembership(table[1..], p, k);
      var rest := table[1..];
      if exists i :: 0 <= i < |rest| && rest[i].key == k && p(rest[i]) {
        var i :| 0 <= i < |rest| && rest[i].key == k && p(rest[i]);
        assert table[i + 1] == rest[i];
      }
      if exists i :: 0 <= i < |table| && table[i].key == k && p(table[i]) {
        var i :| 0 <= i < |table| && table[i].key == k && p(table[i]);
        if i > 0 { assert rest[i - 1] == table[i]; }
      }
    }
  }

  /** Selecting with a weaker condition keeps every key the stronger one selected, in order. */
  lemma {:induction false} KeysWhereWeaken(table: seq<Reward>, p: Reward -> bool, q: Reward -> bool)
    requires forall r :: p(r) ==> q(r)
    ensures IsSubsequence(KeysWhere(table, p), KeysWhere(table, q))
  {
    if table != [] {
      KeysWhereWeaken(table[1..], p, q);
      var head := table[0];
      var ps := KeysWhere(table[1..], p);
      var qs := KeysWhere(table[1..], q);
      if p(head) {
        assert KeysWhere(table, p) == [head.key] + ps;
        assert KeysWhere(table, q) == [head.key] + qs;
        assert ([head.key] + ps)[1..] == ps;
        assert ([head.key] + qs)[1..] == qs;
      } else if q(head) {
        assert KeysWhere(table, p) == ps;
        assert KeysWhere(table, q) == [head.key] + qs;
        assert ([head.key] + qs)[1..] == qs;
      } else {
        assert KeysWhere(table, p) == ps;
        assert KeysWhere(table, q) == qs;
      }
    }
  }

  /** The test a Patreon reward applies to a pledge: `donationReq <= amountCents`. */
  function DonationMet(amountCents: int): Reward -> bool
  {
    (r: Reward) => r.donationReq <= amountCents
  }

  /** The Patreon rewards a pledge of `amountCents` satisfies. */
  function PatreonRewardKeys(patreonRewards: seq<Reward>, amountCents: int): seq<RewardKey>
  {
    KeysWhere(patreonRewards, DonationMet(amountCents))
  }

  /** A Patreon reward is earned exactly when some entry with its key asks for no more than the pledge. */
  lemma PatreonRewardKeysMembership(patreonRewards: seq<Reward>, amountCents: int, k: RewardKey)
    ensures k in PatreonRewardKeys(patreonRewards, amountCents)
            <==> exists i :: 0 <= i < |patreonRewards| && patreonRewards[i].key == k && patreonRewards[i].donationReq <= amountCents
  {
    KeysWhereMembership(patreonRewards, DonationMet(amountCents), k);
  }

  /** A larger pledge earns every Patreon reward a smaller one earns, in the same order. */
  lemma PatreonRewardsGrowWithPledge(patreonRewards: seq<Reward>, smaller: int, larger: int)
    requires smaller <= larger
    ensures IsSubsequence(PatreonRewardKeys(patreonRewards, smaller), PatreonRewardKeys(patreonRewards, larger))
    ensures forall k :: k in PatreonRewardKeys(patreonRewards, smaller) ==> k in PatreonRewardKeys(patreonRewards, larger)
  {
    KeysWhereWeaken(patreonRewards, DonationMet(smaller), DonationMet(larger));
    forall k | k in PatreonRewardKeys(patreonRewards, smaller)
      ensures k in PatreonRewardKeys(patreonRewards, larger)
    {
      PatreonRewardKeysMembership(patreonRewards, smaller, k);
      PatreonRewardKeysMembership(patreonRewards, larger, k);
    }
  }

  /**
   * `getAllPatreonRewardsForUser`: nothing when there are no Patreon details or the pledge
   * is inactive; otherwise the keys of the Patreon rewards whose donation requirement the
   * pledge meets, in table order.
   */
  method GetAllPatreonRewardsForUser(details: Option<PatreonRefresh.PatronDetails>, patreonRewards: seq<Reward>)
    returns (r: Option<seq<RewardKey>>)
    ensures r.None? <==> details.None? || !details.value.isPledgeActive
    ensures r.Some? ==> r.value == PatreonRewardKeys(patreonRewards, details.value.amountCents)
  {
    if details.None? || !details.value.isPledgeActive {
      return None;
    }
    var amountCents := details.value.amountCents;
    var rewardsSatisfied: seq<RewardKey> := [];
    for i := 0 to |patreonRewards|
      invariant rewardsSatisfied + PatreonRewardKeys(patreonRewards[i..], amountCents) == PatreonRewardKeys(patreonRewards, amountCents)
    {
      assert patreonRewards[i..][1..] == patreonRewards[i + 1..];
      if patreonRewards[i].donationReq <= amountCents {
        rewardsSatisfied := rewardsSatisfied + [patreonRewards[i].key];
      }
    }
    assert patreonRewards[|patreonRewards|..] == [];
    r := Some(rewardsSatisfied);
  }

  /** `userHasReward`: the role guards the reward demands, then the games-played guard. */
  function UserHasReward(user: User, reward: Reward, roles: Roles): (hasReward: bool)
    ensures reward.adminReq && user.usernameLower !in roles.admins ==> !hasReward
    ensures reward.modReq && user.usernameLower !in roles.mods ==> !hasReward
    ensures reward.toReq && user.usernameLower !in roles.tournamentOrganisers ==> !hasReward
    ensures reward.devReq && user.usernameLower !in roles.developers ==> !hasReward
    ensures user.totalGamesPlayed < reward.gamesPlayedReq ==> !hasReward
  {
    if reward.adminReq && user.usernameLower !in roles.admins then false
    else if reward.modReq && user.usernameLower !in roles.mods then false
    else if reward.toReq && user.usernameLower !in roles.tournamentOrganisers then false
    else if reward.devReq && user.usernameLower !in roles.developers then false
    else if user.totalGamesPlayed < reward.gamesPlayedReq then false
    else true
  }

  /** A user has a reward exactly when every role it demands is held and enough games were played. */
  lemma UserHasRewardCharacterisation(user: User, reward: Reward, roles: Roles)
    ensures UserHasReward(user, reward, roles) <==>
            && (reward.adminReq ==> user.usernameLower in roles.admins)
            && (reward.modReq ==> user.usernameLower in roles.mods)
            && (reward.toReq ==> user.usernameLower in roles.tournamentOrganisers)
            && (reward.devReq ==> user.usernameLower in roles.developers)
            && user.totalGamesPlayed >= reward.gamesPlayedReq
  {
  }

  /** The non-Patreon rewards a user has earned, in table order. */
  function SatisfiedRewardKeys(otherRewards: seq<Reward>, user: User, roles: Roles): seq<RewardKey>
  {
    KeysWhere(otherRewards, (r: Reward) => UserHasReward(user, r, roles))
  }

  /**
   * `getAllRewardsForUser`: the user's Patreon rewards first, then every other reward the
   * user satisfies, in table order.
   */
  method GetAllRewardsForUser(
    user: User,
    details: Option<PatreonRefresh.PatronDetails>,
    patreonRewards: seq<Reward>,
    otherRewards: seq<Reward>,
    roles: Roles)
    returns (r: seq<RewardKey>)
    ensures details.Some? && details.value.isPledgeActive ==>
              r == PatreonRewardKeys(patreonRewards, details.value.amountCents) + SatisfiedRewardKeys(otherRewards, user, roles)
    ensures details.None? || !details.value.isPledgeActive ==>
              r == SatisfiedRewardKeys(otherRewards, user, roles)
  {
    var rewardsSatisfied: seq<RewardKey> := [];
    var patreon := GetAllPatreonRewardsForUser(details, patreonRewards);
    if patreon.Some? {
      rewardsSatisfied := patreon.value;
    }
    ghost var fromPatreon := rewardsSatisfied;
    for i := 0 to |otherRewards|
      invariant rewardsSatisfied + SatisfiedRewardKeys(otherRewards[i..], user, roles)
                == fromPatreon + SatisfiedRewardKeys(otherRewards, user, roles)
    {
      assert otherRewards[i..][1..] == otherRewards[i + 1..];
      var hasReward := UserHasReward(user, otherRewards[i], roles);
      if hasReward {
        rewardsSatisfied := rewardsSatisfied + [otherRewards[i].key];
      }
    }
    assert otherRewards[|otherRewards|..] == [];
    assert patreon.None? ==> fromPatreon + SatisfiedRewardKeys(otherRewards, user, roles) == SatisfiedRewardKeys(otherRewards, user, roles);
    r := rewardsSatisfied;
  }
}
