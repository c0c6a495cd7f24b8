/**
 * The pet's status record: mood, health, experience and level, two timestamps,
 * a chat counter, an ordered list of status effects and an append-only
 * interaction log. In the application these live in one database row and one
 * table; here they are the fields of a `PetStatus` object. Time is an integer
 * count of seconds passed in as `now`.
 */
module StatusStore {

  // Mood and health are clamped into [MinValue, MaxValue] on every update.
  const MinValue := 0
  const MaxValue := 100
  // Leaving level l costs l * ExpPerLevel experience.
  const ExpPerLevel := 100
  // Mood loses 5 points per 12 hours since the last interaction,
  // health loses 3 points per 24 hours since the last feed.
  const MoodDecayPoints := 5
  const MoodDecayPeriod := 12 * 3600
  const HealthDecayPoints := 3
  const HealthDecayPeriod := 24 * 3600

  // Keys of an effect's boost dictionary that apply_status_effects reads.
  const MoodBoostKey := "mood_boost"
  const HealthBoostKey := "health_boost"

  /** The dictionary stored for one status effect. */
  datatype EffectData = EffectData(kind: string, duration: int, startTime: int, boosts: map<string, int>)

  /** One entry of the effect list: its name and its data. */
  datatype Effect = Effect(name: string, data: EffectData)

  /** One row of the interaction log; the changes are the requested, unclamped ones. */
  datatype Interaction = Interaction(timestamp: int, actionType: string, details: string,
                                     moodChange: int, healthChange: int, expGain: int)

  /** The values of the status row, as get_status returns them. */
  datatype Record = Record(mood: int, health: int, exp: int, level: int,
                           lastInteraction: int, lastFeed: int, totalChatCount: int,
                           effects: seq<Effect>)

  datatype Progress = Progress(exp: int, level: int)

  function Clamp(v: int): (r: int)
    ensures MinValue <= r <= MaxValue
    ensures MinValue <= v <= MaxValue ==> r == v
    ensures v < MinValue ==> r == MinValue
    ensures v > MaxValue ==> r == MaxValue
  {
    if v < MinValue then MinValue else if v > MaxValue then MaxValue else v
  }

  // ---------------------------------------------------------------------
  // Levelling

  function Threshold(level: int): int
  {
    level * ExpPerLevel
  }

  /** Total experience spent leaving levels lo, lo + 1, ..., hi - 1. */
  function ThresholdSum(lo: int, hi: int): int
    decreases hi - lo
  {
    if lo >= hi then 0 else Threshold(lo) + ThresholdSum(lo + 1, hi)
  }

  /**
   * Specification of the levelling loop: while the experience reaches the
   * current level's threshold, pay the threshold and go up one level.
   */
  function LevelUp(exp: int, level: int): (p: Progress)
    requires level >= 1
    ensures p.exp < Threshold(p.level)
    ensures p.level >= level
    ensures exp == p.exp + ThresholdSum(level, p.level)
    ensures p.level == level <==> exp < Threshold(level)
    ensures exp < Threshold(level) ==> p.exp == exp
    ensures exp >= 0 ==> p.exp >= 0
    decreases exp
  {
    if exp >= Threshold(level) then LevelUp(exp - Threshold(level), level + 1)
    else Progress(exp, level)
  }

  /** The levelling loop of update_status. */
  method Promote(exp: int, level: int) returns (newExp: int, newLevel: int)
    requires level >= 1
    ensures Progress(newExp, newLevel) == LevelUp(exp, level)
  {
    newExp := exp;
    newLevel := level;
    var expNeeded := newLevel * ExpPerLevel;
    while newExp >= expNeeded
      invariant newLevel >= level
      invariant expNeeded == Threshold(newLevel)
      invariant LevelUp(newExp, newLevel) == LevelUp(exp, level)
      decreases newExp
    {
      newExp := newExp - expNeeded;
      newLevel := newLevel + 1;
      expNeeded := newLevel * ExpPerLevel;
    }
  }

  /**
   * The record update_status writes: clamped mood and health, levelled
   * experience, and the interaction time; nothing else changes.
   */
  function ApplyUpdate(r: Record, moodChange: int, healthChange: int, expGain: int, now: int): (u: Record)
    requires r.level >= 1
    ensures MinValue <= u.mood <= MaxValue && MinValue <= u.health <= MaxValue
    ensures u.exp < Threshold(u.level) && u.level >= r.level
    ensures r.exp + expGain == u.exp + ThresholdSum(r.level, u.level)
    ensures r.exp + expGain < Threshold(r.level) ==> u.level == r.level && u.exp == r.exp + expGain
    ensures r.exp + expGain >= 0 ==> u.exp >= 0
    ensures u.mood == Clamp(r.mood + moodChange) && u.health == Clamp(r.health + healthChange)
    ensures MinValue <= r.mood + moodChange <= MaxValue ==> u.mood == r.mood + moodChange
    ensures MinValue <= r.health + healthChange <= MaxValue ==> u.health == r.health + healthChange
    ensures u.lastInteraction == now
    ensures u.lastFeed == r.lastFeed && u.totalChatCount == r.totalChatCount && u.effects == r.effects
  {
    var p := LevelUp(r.exp + expGain, r.level);
    r.(mood := Clamp(r.mood + moodChange), health := Clamp(r.health + healthChange),
       exp := p.exp, level := p.level, lastInteraction := now)
  }

  /** The log after update_status: one entry more exactly when an action type is given. */
  function Logged(log: seq<Interaction>, actionType: string, details: string,
                  moodChange: int, healthChange: int, expGain: int, now: int): (l: seq<Interaction>)
    ensures actionType == "" ==> l == log
    ensures actionType != "" ==> |l| == |log| + 1 && l[..|log|] == log
    ensures actionType != "" ==> l[|log|] == Interaction(now, actionType, details, moodChange, healthChange, expGain)
  {
    if actionType != "" then log + [Interaction(now, actionType, details, moodChange, healthChange, expGain)]
    else log
  }

  // ---------------------------------------------------------------------
  // Decay

  /** Dafny's division of a non-negative number brackets it between multiples of the divisor. */
  lemma DivBounds(a: int, b: int)
    requires b > 0
    ensures a >= 0 ==> 0 <= a / b && (a / b) * b <= a < (a / b) * b + b
  {
    assert a == (a / b) * b + a % b;
  }

  /** Integer division truncating toward zero, as Python's int() does to a quotient. */
  function TruncDiv(a: int, b: int): (q: int)
    requires b > 0
    ensures a >= 0 ==> 0 <= q && q * b <= a < q * b + b
    ensures a < 0 ==> q <= 0 && q * b - b < a <= q * b
  {
    DivBounds(a, b);
    DivBounds(-a, b);
    if a >= 0 then a / b else -((-a) / b)
  }

  /** Mood points lost after the given seconds without interaction. */
  function MoodDecay(seconds: int): (d: int)
    ensures seconds >= 0 ==> d >= 0 && d * MoodDecayPeriod <= seconds * MoodDecayPoints < (d + 1) * MoodDecayPeriod
    ensures d > 0 <==> seconds >= MoodDecayPeriod / MoodDecayPoints
  {
    TruncDiv(seconds * MoodDecayPoints, MoodDecayPeriod)
  }

  /** Health points lost after the given seconds without feeding. */
  function HealthDecay(seconds: int): (d: int)
    ensures seconds >= 0 ==> d >= 0 && d * HealthDecayPeriod <= seconds * HealthDecayPoints < (d + 1) * HealthDecayPeriod
    ensures d > 0 <==> seconds >= HealthDecayPeriod / HealthDecayPoints
  {
    TruncDiv(seconds * HealthDecayPoints, HealthDecayPeriod)
  }

  predicate DecayDue(r: Record, now: int)
  {
    MoodDecay(now - r.lastInteraction) > 0 || HealthDecay(now - r.lastFeed) > 0
  }

  /** The record get_status returns (and writes back when decay is due). */
  function Decayed(r: Record, now: int): (d: Record)
    ensures d == r.(mood := d.mood, health := d.health)
    ensures !DecayDue(r, now) ==> d == r
    ensures DecayDue(r, now) ==> MinValue <= d.mood <= MaxValue && MinValue <= d.health <= MaxValue
    ensures DecayDue(r, now) ==> d.mood == Clamp(r.mood - MoodDecay(now - r.lastInteraction))
    ensures DecayDue(r, now) ==> d.health == Clamp(r.health - HealthDecay(now - r.lastFeed))
    ensures MinValue <= r.mood <= MaxValue && now >= r.lastInteraction ==> d.mood <= r.mood
    ensures MinValue <= r.health <= MaxValue && now >= r.lastFeed ==> d.health <= r.health
  {
    if DecayDue(r, now) then
      r.(mood := Clamp(r.mood - MoodDecay(now - r.lastInteraction)),
         health := Clamp(r.health - HealthDecay(now - r.lastFeed)))
    else r
  }

  /** Reading twice within the decay periods of both timestamps changes nothing. */
  lemma NoDecayWithinPeriods(r: Record, now: int)
    requires 0 <= now - r.lastInteraction < MoodDecayPeriod / MoodDecayPoints
    requires 0 <= now - r.lastFeed < HealthDecayPeriod / HealthDecayPoints
    ensures Decayed(r, now) == r && Decayed(Decayed(r, now), now) == r
  {
  }

  /**
   * Decay does not reset the timestamps, so a second read at the same moment
   * applies the whole decay again.
   */
  lemma DecayReapplied(r: Record, now: int)
    requires DecayDue(r, now)
    ensures DecayDue(Decayed(r, now), now)
    ensures Decayed(Decayed(r, now), now).mood
            == Clamp(Clamp(r.mood - MoodDecay(now - r.lastInteraction)) - MoodDecay(now - r.lastInteraction))
    ensures Decayed(Decayed(r, now), now).health
            == Clamp(Clamp(r.health - HealthDecay(now - r.lastFeed)) - HealthDecay(now - r.lastFeed))
  {
  }

  /** A second read strictly lowers a mood that the first read left above zero. */
  lemma SecondReadLowersMoodAgain(r: Record, now: int)
    requires MinValue <= r.mood <= MaxValue
    requires now - r.lastInteraction >= MoodDecayPeriod / MoodDecayPoints
    requires Decayed(r, now).mood > MinValue
    ensures Decayed(Decayed(r, now), now).mood < Decayed(r, now).mood < r.mood
  {
  }

  // ---------------------------------------------------------------------
  // Status effects

  predicate IsActive(e: Effect, now: int)
  {
    now - e.data.startTime < e.data.duration
  }

  /** The effects still active at `now`, in their original order. */
  function Active(effects: seq<Effect>, now: int): (kept: seq<Effect>)
    ensures |kept| <= |effects|
    ensures forall e :: e in kept <==> e in effects && IsActive(e, now)
  {
    if effects == [] then []
    else
      var last := effects[|effects| - 1];
      Active(effects[..|effects| - 1], now) + (if IsActive(last, now) then [last] else [])
  }

  /** Filtering a concatenation filters each part: the survivors keep their order. */
  lemma {:induction false} ActiveAppend(s: seq<Effect>, t: seq<Effect>, now: int)
    ensures Active(s + t, now) == Active(s, now) + Active(t, now)
    decreases |t|
  {
    if t == [] {
      assert s + t == s;
    } else {
      var n := |t| - 1;
      assert (s + t)[..|s + t| - 1] == s + t[..n];
      assert (s + t)[|s + t| - 1] == t[n];
      ActiveAppend(s, t[..n], now);
    }
  }

  /** An effect list whose entries are all active is kept whole. */
  lemma {:induction false} ActiveKeepsLive(s: seq<Effect>, now: int)
    requires forall i :: 0 <= i < |s| ==> IsActive(s[i], now)
    ensures Active(s, now) == s
  {
    if s != [] {
      var n := |s| - 1;
      var prefix := s[..n];
      assert s == prefix + [s[n]];
      ActiveKeepsLive(prefix, now);
      assert IsActive(s[n], now);
    }
  }

  /** Purging twice at the same moment is the same as purging once. */
  lemma ActiveIdempotent(s: seq<Effect>, now: int)
    ensures Active(Active(s, now), now) == Active(s, now)
  {
    var kept := Active(s, now);
    forall i | 0 <= i < |kept|
      ensures IsActive(kept[i], now)
    {
      assert kept[i] in kept;
    }
    ActiveKeepsLive(kept, now);
  }

  /** The for-loop of remove_expired_effects. */
  method KeepActive(effects: seq<Effect>, now: int) returns (kept: seq<Effect>)
    ensures kept == Active(effects, now)
  {
    kept := [];
    for i := 0 to |effects|
      invariant kept == Active(effects[..i], now)
    {
      assert effects[..i + 1][..i] == effects[..i];
      if IsActive(effects[i], now) {
        kept := kept + [effects[i]];
      }
    }
    assert effects[..|effects|] == effects;
  }

  /** An effect's boost for a key; a missing key counts as 0. */
  function Boost(e: Effect, key: string): int
  {
    if key in e.data.boosts then e.data.boosts[key] else 0
  }

  /** Sum of one boost over an effect list. */
  function TotalBoost(effects: seq<Effect>, key: string): int
  {
    if effects == [] then 0
    else TotalBoost(effects[..|effects| - 1], key) + Boost(effects[|effects| - 1], key)
  }

  /** The total over a concatenation is the sum of the totals. */
  lemma {:induction false} TotalBoostAppend(s: seq<Effect>, t: seq<Effect>, key: string)
    ensures TotalBoost(s + t, key) == TotalBoost(s, key) + TotalBoost(t, key)
    decreases |t|
  {
    if t == [] {
      assert s + t == s;
    } else {
      var n := |t| - 1;
      assert (s + t)[..|s + t| - 1] == s + t[..n];
      assert (s + t)[|s + t| - 1] == t[n];
      TotalBoostAppend(s, t[..n], key);
    }
  }

  /** Effects that do not name the key contribute nothing to its total. */
  lemma {:induction false} TotalBoostAbsent(s: seq<Effect>, key: string)
    requires forall i :: 0 <= i < |s| ==> key !in s[i].data.boosts
    ensures TotalBoost(s, key) == 0
  {
    if s != [] {
      TotalBoostAbsent(s[..|s| - 1], key);
    }
  }

  /** The accumulating loop of apply_status_effects. */
  method SumBoosts(effects: seq<Effect>) returns (moodTotal: int, healthTotal: int)
    ensures moodTotal == TotalBoost(effects, MoodBoostKey)
    ensures healthTotal == TotalBoost(effects, HealthBoostKey)
  {
    moodTotal, healthTotal := 0, 0;
    for i := 0 to |effects|
      invariant moodTotal == TotalBoost(effects[..i], MoodBoostKey)
      invariant healthTotal == TotalBoost(effects[..i], HealthBoostKey)
    {
      assert effects[..i + 1][..i] == effects[..i];
      moodTotal := moodTotal + Boost(effects[i], MoodBoostKey);
      healthTotal := healthTotal + Boost(effects[i], HealthBoostKey);
    }
    assert effects[..|effects|] == effects;
  }

  /**
   * Applying effects twice at the same moment sees the same totals again:
   * the boosts are re-applied in full, not once per effect.
   */
  lemma ReapplyingSeesSameTotals(s: seq<Effect>, now: int, key: string)
    ensures TotalBoost(Active(Active(s, now), now), key) == TotalBoost(Active(s, now), key)
  {
    ActiveIdempotent(s, now);
  }

  // ---------------------------------------------------------------------
  // Interaction history

  /** The log, most recent entry first. */
  function NewestFirst(log: seq<Interaction>): (r: seq<Interaction>)
    ensures |r| == |log|
    ensures forall i :: 0 <= i < |log| ==> r[i] == log[|log| - 1 - i]
  {
    if log == [] then [] else [log[|log| - 1]] + NewestFirst(log[..|log| - 1])
  }

  // ---------------------------------------------------------------------
  // The status record

  class PetStatus {
    var mood: int
    var health: int
    var exp: int
    var level: int
    var lastInteraction: int
    var lastFeed: int
    var totalChatCount: int
    var effects: seq<Effect>
    var history: seq<Interaction>

    ghost predicate Valid()
      reads this
    {
      MinValue <= mood <= MaxValue && MinValue <= health <= MaxValue &&
      level >= 1 && exp < Threshold(level) && totalChatCount >= 0
    }

    function Snapshot(): Record
      reads this
    {
      Record(mood, health, exp, level, lastInteraction, lastFeed, totalChatCount, effects)
    }

    /** The row inserted on first use: full mood and health, level 1, both timestamps now. */
    constructor (now: int)
      ensures Valid()
      ensures Snapshot() == Record(100, 100, 0, 1, now, now, 0, [])
      ensures history == []
    {
      mood, health, exp, level := 100, 100, 0, 1;
      lastInteraction, lastFeed := now, now;
      totalChatCount := 0;
      effects := [];
      history := [];
    }

    /** Reads the record, folding in the decay due at `now`; writes mood and health only when some decay is due. */
    method GetStatus(now: int) returns (status: Record)
      requires Valid()
      modifies this
      ensures Valid()
      ensures status == Decayed(old(Snapshot()), now) && Snapshot() == status
      ensures !DecayDue(old(Snapshot()), now) ==> Snapshot() == old(Snapshot())
      ensures history == old(history)
    {
      var moodDecay := MoodDecay(now - lastInteraction);
      var healthDecay := HealthDecay(now - lastFeed);
      if moodDecay > 0 || healthDecay > 0 {
        mood := Clamp(mood - moodDecay);
        health := Clamp(health - healthDecay);
      }
      status := Snapshot();
    }

    method UpdateStatus(moodChange: int, healthChange: int, expGain: int,
                        actionType: string, details: string, now: int)
      requires Valid()
      modifies this
      ensures Valid()
      ensures Snapshot() == ApplyUpdate(old(Snapshot()), moodChange, healthChange, expGain, now)
      ensures old(exp) >= 0 && expGain >= 0 ==> exp >= 0
      ensures history == Logged(old(history), actionType, details, moodChange, healthChange, expGain, now)
    {
      var newMood := Clamp(mood + moodChange);
      var newHealth := Clamp(health + healthChange);
      var newExp, newLevel := Promote(exp + expGain, level);
      mood, health, exp, level := newMood, newHealth, newExp, newLevel;
      lastInteraction := now;
      if actionType != "" {
        history := history + [Interaction(now, actionType, details, moodChange, healthChange, expGain)];
      }
    }

    method Feed(now: int)
      requires Valid()
      modifies this
      ensures Valid()
      ensures Snapshot() == ApplyUpdate(old(Snapshot()), 10, 15, 5, now).(lastFeed := now)
      ensures old(exp) >= 0 ==> exp >= 0
      ensures history == old(history) + [Interaction(now, "feed", "投喂食物", 10, 15, 5)]
    {
      UpdateStatus(10, 15, 5, "feed", "投喂食物", now);
      lastFeed := now;
    }

    method Play(now: int)
      requires Valid()
      modifies this
      ensures Valid()
      ensures Snapshot() == ApplyUpdate(old(Snapshot()), 15, -5, 10, now)
      ensures old(exp) >= 0 ==> exp >= 0
      ensures history == old(history) + [Interaction(now, "play", "一起玩耍", 15, -5, 10)]
    {
      UpdateStatus(15, -5, 10, "play", "一起玩耍", now);
    }

    /** Counts the chat first, then applies the chat's deltas. */
    method Chat(now: int)
      requires Valid()
      modifies this
      ensures Valid()
      ensures Snapshot() == ApplyUpdate(old(Snapshot()).(totalChatCount := old(totalChatCount) + 1), 5, 0, 3, now)
      ensures old(exp) >= 0 ==> exp >= 0
      ensures totalChatCount == old(totalChatCount) + 1
      ensures history == old(history) + [Interaction(now, "chat", "聊天互动", 5, 0, 3)]
    {
      totalChatCount := totalChatCount + 1;
      UpdateStatus(5, 0, 3, "chat", "聊天互动", now);
    }

    method PlayMusic(now: int)
      requires Valid()
      modifies this
      ensures Valid()
      ensures Snapshot() == ApplyUpdate(old(Snapshot()), 15, 0, 10, now)
      ensures old(exp) >= 0 ==> exp >= 0
      ensures history == old(history) + [Interaction(now, "play_music", "演奏了一段贝斯", 15, 0, 10)]
    {
      UpdateStatus(15, 0, 10, "play_music", "演奏了一段贝斯", now);
    }

    method ChangeStrings(now: int)
      requires Valid()
      modifies this
      ensures Valid()
      ensures Snapshot() == ApplyUpdate(old(Snapshot()), 0, 15, 20, now)
      ensures old(exp) >= 0 ==> exp >= 0
      ensures history == old(history) + [Interaction(now, "change_strings", "更换贝斯琴弦", 0, 15, 20)]
    {
      UpdateStatus(0, 15, 20, "change_strings", "更换贝斯琴弦", now);
    }

    method Maintenance(now: int)
      requires Valid()
      modifies this
      ensures Valid()
      ensures Snapshot() == ApplyUpdate(old(Snapshot()), 5, 20, 5, now)
      ensures old(exp) >= 0 ==> exp >= 0
      ensures history == old(history) + [Interaction(now, "maintenance", "保养贝斯", 5, 20, 5)]
    {
      UpdateStatus(5, 20, 5, "maintenance", "保养贝斯", now);
    }

    method Practice(now: int)
      requires Valid()
      modifies this
      ensures Valid()
      ensures Snapshot() == ApplyUpdate(old(Snapshot()), 10, -5, 25, now)
      ensures old(exp) >= 0 ==> exp >= 0
      ensures history == old(history) + [Interaction(now, "practice", "练习贝斯技巧", 10, -5, 25)]
    {
      UpdateStatus(10, -5, 25, "practice", "练习贝斯技巧", now);
    }

    /** The most recent `limit` log entries (10 by default), newest first; a negative limit means no limit. */
    function GetInteractionHistory(limit: int := 10): (rows: seq<Interaction>)
      reads this
      ensures |rows| == if 0 <= limit < |history| then limit else |history|
      ensures forall i :: 0 <= i < |rows| ==> rows[i] == history[|history| - 1 - i]
    {
      var all := NewestFirst(history);
      if 0 <= limit < |history| then all[..limit] else all
    }

    /** Appends the effect, stamped with `now`, after every existing one. */
    method AddStatusEffect(name: string, data: EffectData, now: int)
      requires Valid()
      modifies this
      ensures Valid()
      ensures |effects| == |old(effects)| + 1 && effects[..|old(effects)|] == old(effects)
      ensures effects[|old(effects)|] == Effect(name, data.(startTime := now))
      ensures Snapshot() == old(Snapshot()).(effects := effects)
      ensures history == old(history)
    {
      effects := effects + [Effect(name, data.(startTime := now))];
    }

    method RemoveExpiredEffects(now: int)
      requires Valid()
      modifies this
      ensures Valid()
      ensures Snapshot() == old(Snapshot()).(effects := Active(old(effects), now))
      ensures history == old(history)
    {
      effects := KeepActive(effects, now);
    }

    /**
     * Purges expired effects, then applies the summed boosts of the rest as
     * one "status_effect" update when either sum is non-zero.
     */
    method ApplyStatusEffects(now: int)
      requires Valid()
      modifies this
      ensures Valid()
      ensures var purged := old(Snapshot()).(effects := Active(old(effects), now));
              var moodTotal := TotalBoost(purged.effects, MoodBoostKey);
              var healthTotal := TotalBoost(purged.effects, HealthBoostKey);
              if moodTotal != 0 || healthTotal != 0 then
                Snapshot() == ApplyUpdate(purged, moodTotal, healthTotal, 0, now) &&
                history == old(history) + [Interaction(now, "status_effect", "应用状态效果", moodTotal, healthTotal, 0)]
              else
                Snapshot() == purged && history == old(history)
    {
      RemoveExpiredEffects(now);
      var moodTotal, healthTotal := SumBoosts(effects);
      if moodTotal != 0 || healthTotal != 0 {
        UpdateStatus(moodTotal, healthTotal, 0, "status_effect", "应用状态效果", now);
      }
    }

    method GetActiveEffects(now: int) returns (active: seq<Effect>)
      requires Valid()
      modifies this
      ensures Valid()
      ensures active == Active(old(effects), now)
      ensures Snapshot() == old(Snapshot()).(effects := active)
      ensures history == old(history)
    {
      RemoveExpiredEffects(now);
      active := effects;
    }
  }

  /** From the initial record, four practice sessions reach level 2 with mood 100 and health 80. */
  method FourPracticesFromStart(now: int) returns (mood: int, health: int, exp: int, level: int)
    ensures mood == 100 && health == 80 && exp == 0 && level == 2
  {
    var pet := new PetStatus(now);
    pet.Practice(now);
    pet.Practice(now);
    pet.Practice(now);
    pet.Practice(now);
    mood, health, exp, level := pet.mood, pet.health, pet.exp, pet.level;
  }

  /** After an update with an action type, the newest history row is that update's request. */
  lemma NewestRowIsLastUpdate(log: seq<Interaction>, actionType: string, details: string,
                              moodChange: int, healthChange: int, expGain: int, now: int)
    requires actionType != ""
    ensures NewestFirst(Logged(log, actionType, details, moodChange, healthChange, expGain, now))[0]
            == Interaction(now, actionType, details, moodChange, healthChange, expGain)
  {
  }
}
