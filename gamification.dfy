/**
 * The XP / level-up engine that runs inside `handleUpdateData` after a
 * successful "add": the XP an action earns, the defaults for a profile that
 * lacks XP fields, and the level-up loop with its wrap back to level 1 (which
 * grants a voucher).
 *
 * `Settle` is the recursive specification of the loop; `ApplyXp` is the loop
 * itself, over local variables as in the source, proved to compute `Settle`.
 */
module Gamification {
  import opened JsCore

  /** Highest level; passing it wraps back to level 1. */
  const MaxLevel: int := 10
  /** Threshold a wrap resets to, and the default threshold. */
  const ResetThreshold: int := 1000
  /** XP granted for adding a savings goal, whatever its size. */
  const GoalXp: nat := 150

  /** The XP fields of the signed-in user record. The profile is merged into the
      user record, so the threshold may arrive camelCase (`nextLevelXp`) or as
      the wire name (`next_level_xp`); each is None when absent. */
  datatype ProfileXp = ProfileXp(
    xp: Option<int>,
    level: Option<int>,
    nextLevelXp: Option<int>,
    wireNextLevelXp: Option<int>)

  /** The working state of the engine: `currentXp`, `currentLevel`, `currentNextXp`. */
  datatype XpState = XpState(xp: int, level: int, nextLevelXp: int)

  /** A resolved state and whether the voucher reward fired. */
  datatype LevelUp = LevelUp(state: XpState, reward: bool)

  /** XP earned by adding an item of the given collection. `amount` is None when
      the item has no numeric amount (`item.amount || 0` then yields 0). */
  function EarnedXp(kind: string, amount: Option<real>): (earned: nat)
    ensures kind == "goals" ==> earned == GoalXp
    ensures (kind == "transactions" || kind == "subscriptions") && amount.None? ==> earned == 0
    ensures (kind == "transactions" || kind == "subscriptions") && amount.Some? ==>
      earned as real <= Abs(amount.value) < earned as real + 1.0
    ensures kind != "transactions" && kind != "subscriptions" && kind != "goals" ==> earned == 0
  {
    if kind == "transactions" || kind == "subscriptions" then
      if amount.Some? then Abs(amount.value).Floor else 0
    else if kind == "goals" then GoalXp
    else 0
  }

  /** The starting state read from the user record: xp falls back to 0, the
      level to 1 and the threshold to `nextLevelXp`, then `next_level_xp`, then
      1000; a stored 0 counts as missing. */
  function Defaults(p: ProfileXp): (s: XpState)
    ensures s.xp == (if p.xp.Some? then p.xp.value else 0)
    ensures s.level != 0 && s.nextLevelXp != 0
    ensures Truthy(p.level) ==> s.level == p.level.value
    ensures !Truthy(p.level) ==> s.level == 1
    ensures Truthy(p.nextLevelXp) ==> s.nextLevelXp == p.nextLevelXp.value
    ensures !Truthy(p.nextLevelXp) && Truthy(p.wireNextLevelXp) ==> s.nextLevelXp == p.wireNextLevelXp.value
    ensures !Truthy(p.nextLevelXp) && !Truthy(p.wireNextLevelXp) ==> s.nextLevelXp == ResetThreshold
  {
    XpState(OrElse(p.xp, 0), OrElse(p.level, 1), OrElse(p.nextLevelXp, OrElse(p.wireNextLevelXp, ResetThreshold)))
  }

  /** `Math.floor(t * 1.2)`. The browser multiplies in double precision; the
      model takes the exact product, whose floor is `(t * 6) / 5` because
      Dafny's division by a positive number rounds down, negative `t` included. */
  function GrowThreshold(t: int): (r: int)
    ensures 5 * r <= 6 * t < 5 * r + 5
    ensures t >= 0 ==> t <= r
    ensures t <= 0 ==> r <= t
  {
    (t * 6) / 5
  }

  /** One pass of the loop body: pay the threshold, go up a level, and either
      wrap (past level 10) or grow the threshold. */
  function Step(s: XpState): (r: LevelUp)
    ensures r.state.xp == s.xp - s.nextLevelXp
    ensures r.reward <==> s.level + 1 > MaxLevel
    ensures r.reward ==> r.state.level == 1 && r.state.nextLevelXp == ResetThreshold
    ensures !r.reward ==> r.state.level == s.level + 1
    ensures !r.reward ==> 5 * r.state.nextLevelXp <= 6 * s.nextLevelXp < 5 * r.state.nextLevelXp + 5
    ensures !r.reward && s.nextLevelXp > 0 ==> r.state.nextLevelXp >= s.nextLevelXp
  {
    var level := s.level + 1;
    if level > MaxLevel then LevelUp(XpState(s.xp - s.nextLevelXp, 1, ResetThreshold), true)
    else LevelUp(XpState(s.xp - s.nextLevelXp, level, GrowThreshold(s.nextLevelXp)), false)
  }

  // Termination measure of the loop, lexicographic. While the threshold is
  // positive each pass lowers the XP by at least 1. While it is not positive
  // the XP only grows, but the level climbs towards the wrap, and the wrap
  // makes the threshold positive again.

  function Phase(s: XpState): nat
  {
    if s.nextLevelXp <= 0 then 1 else 0
  }

  function LevelsToWrap(s: XpState): nat
  {
    if s.nextLevelXp <= 0 && s.level <= MaxLevel then MaxLevel + 1 - s.level else 0
  }

  function Headroom(s: XpState): nat
  {
    if s.nextLevelXp > 0 && s.xp > 0 then s.xp else 0
  }

  /** The level-up loop as a recursive function: pass after pass while the XP
      reaches the threshold; `reward` is the flag accumulated so far. */
  function Settle(s: XpState, reward: bool): (r: LevelUp)
    ensures r.state.xp < r.state.nextLevelXp
    ensures s.xp >= 0 ==> 0 <= r.state.xp
    ensures s.xp >= 0 || s.nextLevelXp > 0 ==> r.state.nextLevelXp > 0
    ensures 1 <= s.level <= MaxLevel ==> 1 <= r.state.level <= MaxLevel
    ensures reward ==> r.reward
    decreases Phase(s), LevelsToWrap(s), Headroom(s)
  {
    if s.xp >= s.nextLevelXp then
      var next := Step(s);
      Settle(next.state, reward || next.reward)
    else
      LevelUp(s, reward)
  }

  /** The thresholds the loop subtracts, in order. */
  function Crossed(s: XpState): seq<int>
    decreases Phase(s), LevelsToWrap(s), Headroom(s)
  {
    if s.xp >= s.nextLevelXp then [s.nextLevelXp] + Crossed(Step(s).state) else []
  }

  /** How many passes of the loop wrap past level 10. */
  function Wraps(s: XpState): nat
    decreases Phase(s), LevelsToWrap(s), Headroom(s)
  {
    if s.xp >= s.nextLevelXp then
      (if Step(s).reward then 1 else 0) + Wraps(Step(s).state)
    else 0
  }

  function Sum(xs: seq<int>): int
  {
    if xs == [] then 0 else xs[0] + Sum(xs[1..])
  }

  /** What the engine computes for a user record and the XP just earned. */
  function Gamify(p: ProfileXp, earned: int): LevelUp
  {
    var start := Defaults(p);
    Settle(XpState(start.xp + earned, start.level, start.nextLevelXp), false)
  }

  /** The gamification block of `handleUpdateData` once XP has been earned:
      read the defaults, credit the XP, and run the level-up loop. */
  method ApplyXp(p: ProfileXp, earned: int) returns (xp: int, level: int, nextLevelXp: int, rewardVoucher: bool)
    ensures LevelUp(XpState(xp, level, nextLevelXp), rewardVoucher) == Gamify(p, earned)
    ensures xp < nextLevelXp
    ensures OrElse(p.xp, 0) + earned >= 0 ==> 0 <= xp && 0 < nextLevelXp
  {
    var currentXp := OrElse(p.xp, 0);
    var currentLevel := OrElse(p.level, 1);
    var currentNextXp := OrElse(p.nextLevelXp, OrElse(p.wireNextLevelXp, ResetThreshold));

    currentXp := currentXp + earned;
    rewardVoucher := false;
    ghost var start := XpState(currentXp, currentLevel, currentNextXp);

    while currentXp >= currentNextXp
      invariant Settle(XpState(currentXp, currentLevel, currentNextXp), rewardVoucher) == Settle(start, false)
      decreases Phase(XpState(currentXp, currentLevel, currentNextXp)),
        LevelsToWrap(XpState(currentXp, currentLevel, currentNextXp)),
        Headroom(XpState(currentXp, currentLevel, currentNextXp))
    {
      currentXp := currentXp - currentNextXp;
      currentLevel := currentLevel + 1;
      if currentLevel > MaxLevel {
        currentLevel := 1;
        currentNextXp := ResetThreshold;
        rewardVoucher := true;
      } else {
        currentNextXp := (currentNextXp * 6) / 5;  // Math.floor(currentNextXp * 1.2)
      }
    }
    xp, level, nextLevelXp := currentXp, currentLevel, currentNextXp;
  }

  /** Every unit of XP is accounted for: what the loop started with equals what
      is left plus the thresholds it paid. */
  lemma {:induction false} Conservation(s: XpState, reward: bool)
    ensures s.xp == Settle(s, reward).state.xp + Sum(Crossed(s))
    decreases Phase(s), LevelsToWrap(s), Headroom(s)
  {
    if s.xp >= s.nextLevelXp {
      var next := Step(s);
      Conservation(next.state, reward || next.reward);
    }
  }

  /** With a positive threshold every threshold paid is positive, so each pass
      costs real XP. */
  lemma {:induction false} CrossedPositive(s: XpState)
    requires s.nextLevelXp > 0
    ensures forall i :: 0 <= i < |Crossed(s)| ==> Crossed(s)[i] > 0
    decreases Phase(s), LevelsToWrap(s), Headroom(s)
  {
    if s.xp >= s.nextLevelXp {
      CrossedPositive(Step(s).state);
    }
  }

  /** The reward flag is set exactly when some pass wraps: a boolean, however
      many wraps one call goes through. */
  lemma {:induction false} RewardIffWrap(s: XpState, reward: bool)
    ensures Settle(s, reward).reward <==> reward || Wraps(s) > 0
    decreases Phase(s), LevelsToWrap(s), Headroom(s)
  {
    if s.xp >= s.nextLevelXp {
      var next := Step(s);
      RewardIffWrap(next.state, reward || next.reward);
    }
  }

  /** Without a wrap every pass raises the level by exactly one, and a positive
      threshold never shrinks. */
  lemma {:induction false} ClimbWithoutWrap(s: XpState, reward: bool)
    requires Wraps(s) == 0
    ensures Settle(s, reward).state.level == s.level + |Crossed(s)|
    ensures Settle(s, reward).reward == reward
    ensures s.nextLevelXp > 0 ==> Settle(s, reward).state.nextLevelXp >= s.nextLevelXp
    decreases Phase(s), LevelsToWrap(s), Headroom(s)
  {
    if s.xp >= s.nextLevelXp {
      var next := Step(s);
      ClimbWithoutWrap(next.state, reward || next.reward);
    }
  }

  /** Settling a state that is below its threshold changes nothing, so the
      engine's output is a fixed point of the engine. */
  lemma SettleIdempotent(s: XpState, reward: bool)
    ensures Settle(Settle(s, reward).state, Settle(s, reward).reward) == Settle(s, reward)
  {
  }

  /** 900 XP at level 3 with threshold 1000, plus 150: one level up to
      (50, 4, 1200), no reward. */
  lemma ExampleLevelUp()
    ensures Gamify(ProfileXp(Some(900), Some(3), Some(1000), None), 150) == LevelUp(XpState(50, 4, 1200), false)
  {
    var s := XpState(1050, 3, 1000);
    assert Step(s) == LevelUp(XpState(50, 4, 1200), false);
  }

  /** 950 XP at level 10 with threshold 1000, plus 100: wrap to (50, 1, 1000) with
      the reward. */
  lemma ExampleWrap()
    ensures Gamify(ProfileXp(Some(950), Some(10), Some(1000), None), 100) == LevelUp(XpState(50, 1, 1000), true)
  {
    var s := XpState(1050, 10, 1000);
    assert Step(s) == LevelUp(XpState(50, 1, 1000), true);
  }
}
