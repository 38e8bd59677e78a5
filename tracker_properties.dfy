/** What the plugin's transitions guarantee. */
module TrackerProperties {
  import opened Wrappers
  import opened Durations
  import opened ChatText
  import opened TrackerState

  // ---------------------------------------------------------------- recompute

  /** While the kitten is away the shown values are cleared and nothing else changes. */
  lemma UpdateWhileAway(st: State, cfg: Settings, now: int)
    requires !st.kittenFollowing
    ensures var r := AfterUpdate(st, cfg, now);
      r.growthTimeRemaining.None? && r.hungerTimeRemaining.None? && r.attentionTimeRemaining.None?
      && r == st.(growthTimeRemaining := None, hungerTimeRemaining := None, attentionTimeRemaining := None)
  {
  }

  /** While the kitten follows the shown values are the three countdowns, and only flags and alerts change besides. */
  lemma UpdateWhileFollowing(st: State, cfg: Settings, now: int)
    requires st.kittenFollowing
    ensures var r := AfterUpdate(st, cfg, now);
      r.growthTimeRemaining == GrowthLeft(st, now)
      && r.hungerTimeRemaining == HungerLeft(st, now)
      && r.attentionTimeRemaining == AttentionLeft(st, now)
      && r.(hungerNotificationSent := st.hungerNotificationSent,
            attentionNotificationSent := st.attentionNotificationSent,
            notifications := st.notifications,
            growthTimeRemaining := st.growthTimeRemaining,
            hungerTimeRemaining := st.hungerTimeRemaining,
            attentionTimeRemaining := st.attentionTimeRemaining) == st
  {
  }

  /**
   * A recompute never touches the timer fields, the store or the presence
   * flag; it only raises a notification flag, and only for a countdown
   * that runs, while the kitten follows, within its threshold.
   */
  lemma UpdateKeepsTimers(st: State, cfg: Settings, now: int)
    ensures var r := AfterUpdate(st, cfg, now);
      r.lastFedTime == st.lastFedTime && r.lastAttentionTime == st.lastAttentionTime
      && r.currentAttentionDuration == st.currentAttentionDuration
      && r.growthSyncTime == st.growthSyncTime && r.syncedGrowthDuration == st.syncedGrowthDuration
      && r.store == st.store && r.kittenFollowing == st.kittenFollowing
    ensures var r := AfterUpdate(st, cfg, now);
      (st.hungerNotificationSent ==> r.hungerNotificationSent)
      && (r.hungerNotificationSent ==>
            st.hungerNotificationSent || (st.kittenFollowing && HungerLeft(st, now).Some? && HungerLeft(st, now).value <= HungerNotificationThreshold))
    ensures var r := AfterUpdate(st, cfg, now);
      (st.attentionNotificationSent ==> r.attentionNotificationSent)
      && (r.attentionNotificationSent ==>
            st.attentionNotificationSent || (st.kittenFollowing && AttentionLeft(st, now).Some? && AttentionLeft(st, now).value <= AttentionNotificationThreshold))
  {
    if st.kittenFollowing {
      UpdateWhileFollowing(st, cfg, now);
    } else {
      UpdateWhileAway(st, cfg, now);
    }
  }

  // ---------------------------------------------------------------- notification gate

  /**
   * The gate: each alert goes out exactly when it is due, hunger first, at
   * most one message each, and its flag is raised; growth never alerts.
   */
  lemma NotificationGate(st: State, cfg: Settings)
    ensures var r := AfterCheckNotifications(st, cfg);
      r.notifications == st.notifications
        + (if HungerAlertDue(st, cfg) then [HungerMessage] else [])
        + (if AttentionAlertDue(st, cfg) then [AttentionMessage] else [])
      && r.hungerNotificationSent == (st.hungerNotificationSent || HungerAlertDue(st, cfg))
      && r.attentionNotificationSent == (st.attentionNotificationSent || AttentionAlertDue(st, cfg))
      && r.(notifications := st.notifications, hungerNotificationSent := st.hungerNotificationSent,
            attentionNotificationSent := st.attentionNotificationSent) == st
  {
  }

  /** A second check right after the first sends nothing. */
  lemma CheckNotificationsIdempotent(st: State, cfg: Settings)
    ensures AfterCheckNotifications(AfterCheckNotifications(st, cfg), cfg) == AfterCheckNotifications(st, cfg)
  {
  }

  function Count(xs: seq<string>, m: string): nat
  {
    if |xs| == 0 then 0 else Count(xs[..|xs| - 1], m) + (if xs[|xs| - 1] == m then 1 else 0)
  }

  lemma {:induction false} CountAppend(xs: seq<string>, ys: seq<string>, m: string)
    ensures Count(xs + ys, m) == Count(xs, m) + Count(ys, m)
  {
    if |ys| == 0 {
      assert xs + ys == xs;
    } else {
      assert (xs + ys)[..|xs + ys| - 1] == xs + ys[..|ys| - 1];
      CountAppend(xs, ys[..|ys| - 1], m);
    }
  }

  /** The scheduler's recompute, run at each of `times` in turn. */
  function UpdatesAt(st: State, cfg: Settings, times: seq<int>): State
    decreases |times|
  {
    if |times| == 0 then st else UpdatesAt(AfterUpdate(st, cfg, times[0]), cfg, times[1..])
  }

  lemma CountAlerts(xs: seq<string>, hunger: bool, attention: bool)
    ensures var added := (if hunger then [HungerMessage] else []) + (if attention then [AttentionMessage] else []);
      Count(xs + added, HungerMessage) == Count(xs, HungerMessage) + (if hunger then 1 else 0)
      && Count(xs + added, AttentionMessage) == Count(xs, AttentionMessage) + (if attention then 1 else 0)
  {
    var h := if hunger then [HungerMessage] else [];
    var a := if attention then [AttentionMessage] else [];
    CountAppend(xs, h + a, HungerMessage);
    CountAppend(xs, h + a, AttentionMessage);
    CountAppend(h, a, HungerMessage);
    CountAppend(h, a, AttentionMessage);
    assert [HungerMessage][..0] == [] && [AttentionMessage][..0] == [];
    assert HungerMessage != AttentionMessage by { assert HungerMessage[15] != AttentionMessage[15]; }
  }

  /** One recompute sends each alert at most once, exactly when it raises that alert's flag. */
  lemma UpdateSendsAlertOnFlag(st: State, cfg: Settings, now: int)
    ensures var r := AfterUpdate(st, cfg, now);
      (st.hungerNotificationSent ==> r.hungerNotificationSent)
      && (st.attentionNotificationSent ==> r.attentionNotificationSent)
      && Count(r.notifications, HungerMessage)
         == Count(st.notifications, HungerMessage) + (if r.hungerNotificationSent && !st.hungerNotificationSent then 1 else 0)
      && Count(r.notifications, AttentionMessage)
         == Count(st.notifications, AttentionMessage) + (if r.attentionNotificationSent && !st.attentionNotificationSent then 1 else 0)
  {
    if st.kittenFollowing {
      var mid := st.(growthTimeRemaining := GrowthLeft(st, now),
                     hungerTimeRemaining := HungerLeft(st, now),
                     attentionTimeRemaining := AttentionLeft(st, now));
      NotificationGate(mid, cfg);
      CountAlerts(st.notifications, HungerAlertDue(mid, cfg), AttentionAlertDue(mid, cfg));
    }
  }

  /**
   * However many recomputes run, the hunger alert is sent at most once, and
   * exactly once if its flag went up; likewise the attention alert.
   */
  lemma {:induction false} AlertsSentOnce(st: State, cfg: Settings, times: seq<int>)
    ensures var r := UpdatesAt(st, cfg, times);
      (st.hungerNotificationSent ==> r.hungerNotificationSent)
      && (st.attentionNotificationSent ==> r.attentionNotificationSent)
      && Count(r.notifications, HungerMessage)
         == Count(st.notifications, HungerMessage) + (if r.hungerNotificationSent && !st.hungerNotificationSent then 1 else 0)
      && Count(r.notifications, AttentionMessage)
         == Count(st.notifications, AttentionMessage) + (if r.attentionNotificationSent && !st.attentionNotificationSent then 1 else 0)
    decreases |times|
  {
    if |times| > 0 {
      UpdateSendsAlertOnFlag(st, cfg, times[0]);
      AlertsSentOnce(AfterUpdate(st, cfg, times[0]), cfg, times[1..]);
    }
  }

  // ---------------------------------------------------------------- chat

  /** Lines of other categories change nothing, not even the shown values. */
  lemma ChatOtherTypeIgnored(st: State, cfg: Settings, t: ChatMessageType, msg: string, now: int)
    requires !IsListenedType(t)
    ensures AfterChatMessage(st, cfg, t, msg, now) == st
  {
  }

  /** Feeding restarts the hunger countdown from the full 30 minutes and clears only its flag. */
  lemma FedEvent(st: State, cfg: Settings, now: int)
    ensures var r := AfterChatEvent(st, cfg, Fed, now);
      r.lastFedTime == Some(now) && !r.hungerNotificationSent
      && HungerLeft(r, now) == Some(HungerTime)
      && (r.kittenFollowing ==> r.hungerTimeRemaining == Some(HungerTime))
      && r.lastAttentionTime == st.lastAttentionTime && r.currentAttentionDuration == st.currentAttentionDuration
      && r.growthSyncTime == st.growthSyncTime && r.syncedGrowthDuration == st.syncedGrowthDuration
      && (st.attentionNotificationSent ==> r.attentionNotificationSent)
      && r.store == st.store && r.kittenFollowing == st.kittenFollowing
  {
    var a := ApplyChatEvent(st, Fed, now);
    UpdateKeepsTimers(a, cfg, now);
    if a.kittenFollowing {
      UpdateWhileFollowing(a, cfg, now);
    }
  }

  /** A feeding line of a listened category is the feeding event, whatever else it mentions. */
  lemma ChatFed(st: State, cfg: Settings, t: ChatMessageType, msg: string, now: int)
    requires IsListenedType(t) && MentionsFeeding(msg)
    ensures AfterChatMessage(st, cfg, t, msg, now) == AfterChatEvent(st, cfg, Fed, now)
  {
  }

  /** Petting restarts the attention countdown from its new total and clears only its flag. */
  lemma PettedEvent(st: State, cfg: Settings, e: ChatEvent, now: int)
    requires e == Stroked || e == PlayedWithWool
    ensures var r := AfterChatEvent(st, cfg, e, now);
      var total := if e == Stroked then AttentionTimeStroke else AttentionTimeWool;
      r.lastAttentionTime == Some(now) && r.currentAttentionDuration == Some(total)
      && !r.attentionNotificationSent
      && AttentionLeft(r, now) == Some(total)
      && (r.kittenFollowing ==> r.attentionTimeRemaining == Some(total))
      && r.lastFedTime == st.lastFedTime
      && r.growthSyncTime == st.growthSyncTime && r.syncedGrowthDuration == st.syncedGrowthDuration
      && (st.hungerNotificationSent ==> r.hungerNotificationSent)
      && r.store == st.store && r.kittenFollowing == st.kittenFollowing
  {
    var a := ApplyChatEvent(st, e, now);
    UpdateKeepsTimers(a, cfg, now);
    if a.kittenFollowing {
      UpdateWhileFollowing(a, cfg, now);
    }
  }

  /** Without feeding text, stroking beats wool on a listened line: 39 minutes before 65. */
  lemma ChatPetted(st: State, cfg: Settings, t: ChatMessageType, msg: string, now: int)
    requires IsListenedType(t) && !MentionsFeeding(msg) && (Contains(msg, StrokeText) || Contains(msg, WoolText))
    ensures AfterChatMessage(st, cfg, t, msg, now)
         == AfterChatEvent(st, cfg, if Contains(msg, StrokeText) then Stroked else PlayedWithWool, now)
  {
  }

  /** An age report re-synchronises growth so that exactly the reported time is left now. */
  lemma AgeReportedEvent(st: State, cfg: Settings, hoursLeft: int, minutesLeft: int, now: int)
    ensures var r := AfterChatEvent(st, cfg, AgeReported(hoursLeft, minutesLeft), now);
      var left := hoursLeft * Hour + minutesLeft * Minute;
      r.syncedGrowthDuration == Some(TotalGrowthTime - left) && r.growthSyncTime == Some(now)
      && GrowthLeft(r, now) == Some(Max(0, left))
      && r.lastFedTime == st.lastFedTime && r.lastAttentionTime == st.lastAttentionTime
      && r.currentAttentionDuration == st.currentAttentionDuration
      && r.store == st.store && r.kittenFollowing == st.kittenFollowing
  {
    var a := ApplyChatEvent(st, AgeReported(hoursLeft, minutesLeft), now);
    UpdateKeepsTimers(a, cfg, now);
    if a.kittenFollowing {
      UpdateWhileFollowing(a, cfg, now);
    }
  }

  /** An age report whose numbers do not parse, or a line that matches nothing, only refreshes the shown values. */
  lemma ChatNoTimerChange(st: State, cfg: Settings, t: ChatMessageType, msg: string, now: int)
    requires IsListenedType(t) && (Classify(msg) == AgeUnreadable || Classify(msg) == Unrecognised)
    ensures AfterChatMessage(st, cfg, t, msg, now) == AfterUpdate(st, cfg, now)
  {
  }

  // ---------------------------------------------------------------- save and load

  /** Each entry of `saveTimers` changes the store alone, by writing its one key. */
  lemma SaveHungerEffect(st: State, now: int)
    ensures var r := SaveHunger(st, now);
      r == st.(store := r.store)
      && r.store == (if HungerLeft(st, now).Some? then st.store[RemainingHungerKey := HungerLeft(st, now).value] else st.store)
  {
  }

  lemma SaveAttentionEffect(st: State, now: int)
    ensures var r := SaveAttention(st, now);
      r == st.(store := r.store)
      && r.store == (if AttentionLeft(st, now).Some? then st.store[RemainingAttentionKey := AttentionLeft(st, now).value] else st.store)
  {
  }

  lemma SaveGrowthEffect(st: State, now: int)
    ensures var r := SaveGrowth(st, now);
      r == st.(store := r.store)
      && r.store == (if GrowthLeft(st, now).Some? then st.store[SyncedGrowthKey := st.syncedGrowthDuration.value + (now - st.growthSyncTime.value)] else st.store)
  {
  }

  lemma SaveAttentionDurationEffect(st: State)
    ensures var r := SaveAttentionDuration(st);
      r == st.(store := r.store)
      && r.store == (if st.currentAttentionDuration.Some? then st.store[CurrentAttentionKey := st.currentAttentionDuration.value] else st.store)
  {
  }

  /** Saving changes the store alone. */
  lemma SaveOnlyStore(st: State, now: int)
    ensures AfterSave(st, now) == st.(store := AfterSave(st, now).store)
  {
    var s1 := SaveHunger(st, now);
    var s2 := SaveAttention(s1, now);
    var s3 := SaveGrowth(s2, now);
    SaveHungerEffect(st, now);
    SaveAttentionEffect(s1, now);
    SaveGrowthEffect(s2, now);
    SaveAttentionDurationEffect(s3);
  }

  /** Saving writes each known countdown (growth as time grown so far) and keeps every other entry. */
  lemma SaveWrites(st: State, now: int)
    ensures var r := AfterSave(st, now);
      r == st.(store := r.store)
      && (HungerLeft(st, now).Some? ==> r.store[RemainingHungerKey] == HungerLeft(st, now).value)
      && (AttentionLeft(st, now).Some? ==> r.store[RemainingAttentionKey] == AttentionLeft(st, now).value)
      && (st.currentAttentionDuration.Some? ==> r.store[CurrentAttentionKey] == st.currentAttentionDuration.value)
      && (GrowthLeft(st, now).Some? ==>
            r.store[SyncedGrowthKey] == st.syncedGrowthDuration.value + (now - st.growthSyncTime.value))
      && r.store.Keys >= st.store.Keys
      && (forall k :: k in r.store && k !in TimerKeys ==> k in st.store && r.store[k] == st.store[k])
  {
    var s1 := SaveHunger(st, now);
    var s2 := SaveAttention(s1, now);
    var s3 := SaveGrowth(s2, now);
    SaveHungerEffect(st, now);
    SaveAttentionEffect(s1, now);
    SaveGrowthEffect(s2, now);
    SaveAttentionDurationEffect(s3);
  }

  /** A timer entry whose value is unknown in memory keeps what the store held. */
  lemma SaveKeepsUnknownEntries(st: State, now: int)
    ensures var r := AfterSave(st, now);
      (HungerLeft(st, now).None? && RemainingHungerKey in st.store ==>
         RemainingHungerKey in r.store && r.store[RemainingHungerKey] == st.store[RemainingHungerKey])
      && (AttentionLeft(st, now).None? && RemainingAttentionKey in st.store ==>
            RemainingAttentionKey in r.store && r.store[RemainingAttentionKey] == st.store[RemainingAttentionKey])
      && (st.currentAttentionDuration.None? && CurrentAttentionKey in st.store ==>
            CurrentAttentionKey in r.store && r.store[CurrentAttentionKey] == st.store[CurrentAttentionKey])
      && (GrowthLeft(st, now).None? && SyncedGrowthKey in st.store ==>
            SyncedGrowthKey in r.store && r.store[SyncedGrowthKey] == st.store[SyncedGrowthKey])
  {
    var s1 := SaveHunger(st, now);
    var s2 := SaveAttention(s1, now);
    var s3 := SaveGrowth(s2, now);
    SaveHungerEffect(st, now);
    SaveAttentionEffect(s1, now);
    SaveGrowthEffect(s2, now);
    SaveAttentionDurationEffect(s3);
  }

  lemma LoadHungerEffect(st: State, now: int)
    ensures var r := LoadHunger(st, now);
      r.(lastFedTime := st.lastFedTime, hungerNotificationSent := st.hungerNotificationSent) == st
      && (RemainingHungerKey in st.store ==>
            HungerLeft(r, now) == Some(Max(0, st.store[RemainingHungerKey]))
            && r.hungerNotificationSent == (st.store[RemainingHungerKey] <= HungerNotificationThreshold))
      && (RemainingHungerKey !in st.store ==> r == st)
  {
  }

  lemma LoadAttentionEffect(st: State, now: int)
    ensures var r := LoadAttention(st, now);
      var both := RemainingAttentionKey in st.store && CurrentAttentionKey in st.store;
      r.(lastAttentionTime := st.lastAttentionTime, currentAttentionDuration := st.currentAttentionDuration,
         attentionNotificationSent := st.attentionNotificationSent) == st
      && (both ==>
            r.currentAttentionDuration == Some(st.store[CurrentAttentionKey])
            && AttentionLeft(r, now) == Some(Max(0, st.store[RemainingAttentionKey]))
            && r.attentionNotificationSent == (st.store[RemainingAttentionKey] <= AttentionNotificationThreshold))
      && (!both ==> r == st)
  {
  }

  lemma LoadGrowthEffect(st: State, now: int)
    ensures var r := LoadGrowth(st, now);
      r.(syncedGrowthDuration := st.syncedGrowthDuration, growthSyncTime := st.growthSyncTime) == st
      && (SyncedGrowthKey in st.store ==>
            r.syncedGrowthDuration == Some(st.store[SyncedGrowthKey]) && r.growthSyncTime == Some(now)
            && GrowthLeft(r, now) == Some(Max(0, TotalGrowthTime - st.store[SyncedGrowthKey])))
      && (SyncedGrowthKey !in st.store ==> r == st)
  {
  }

  /**
   * Loading while the kitten is away re-anchors each stored timer so that its
   * stored value is left at `now`, raises each flag exactly when that value is
   * within its threshold, restores attention only when both its keys are
   * present, and leaves the rest untouched and the shown values unknown.
   */
  lemma LoadWhileAway(st: State, cfg: Settings, now: int)
    requires !st.kittenFollowing
    ensures var r := AfterLoad(st, cfg, now);
      var store := st.store;
      r.store == store && r.notifications == st.notifications && !r.kittenFollowing
      && r.growthTimeRemaining.None? && r.hungerTimeRemaining.None? && r.attentionTimeRemaining.None?
      && (RemainingHungerKey in store ==>
            HungerLeft(r, now) == Some(Max(0, store[RemainingHungerKey]))
            && r.hungerNotificationSent == (store[RemainingHungerKey] <= HungerNotificationThreshold))
      && (RemainingHungerKey !in store ==>
            r.lastFedTime == st.lastFedTime && r.hungerNotificationSent == st.hungerNotificationSent)
      && (RemainingAttentionKey in store && CurrentAttentionKey in store ==>
            r.currentAttentionDuration == Some(store[CurrentAttentionKey])
            && AttentionLeft(r, now) == Some(Max(0, store[RemainingAttentionKey]))
            && r.attentionNotificationSent == (store[RemainingAttentionKey] <= AttentionNotificationThreshold))
      && (!(RemainingAttentionKey in store && CurrentAttentionKey in store) ==>
            r.lastAttentionTime == st.lastAttentionTime && r.currentAttentionDuration == st.currentAttentionDuration
            && r.attentionNotificationSent == st.attentionNotificationSent)
      && (SyncedGrowthKey in store ==>
            r.syncedGrowthDuration == Some(store[SyncedGrowthKey]) && r.growthSyncTime == Some(now)
            && GrowthLeft(r, now) == Some(Max(0, TotalGrowthTime - store[SyncedGrowthKey])))
      && (SyncedGrowthKey !in store ==>
            r.syncedGrowthDuration == st.syncedGrowthDuration && r.growthSyncTime == st.growthSyncTime)
  {
    var s1 := LoadHunger(st, now);
    var s2 := LoadAttention(s1, now);
    var s3 := LoadGrowth(s2, now);
    LoadHungerEffect(st, now);
    LoadAttentionEffect(s1, now);
    LoadGrowthEffect(s2, now);
    UpdateWhileAway(s3, cfg, now);
  }

  /** What saving does to the hunger entry. */
  lemma SaveHungerEntry(st: State, now: int)
    ensures var r := AfterSave(st, now);
      r.lastFedTime == st.lastFedTime
      && (RemainingHungerKey in r.store <==> RemainingHungerKey in st.store || HungerLeft(st, now).Some?)
      && (HungerLeft(st, now).Some? ==> r.store[RemainingHungerKey] == HungerLeft(st, now).value)
  {
    var s1 := SaveHunger(st, now);
    var s2 := SaveAttention(s1, now);
    var s3 := SaveGrowth(s2, now);
    SaveHungerEffect(st, now);
    SaveAttentionEffect(s1, now);
    SaveGrowthEffect(s2, now);
    SaveAttentionDurationEffect(s3);
  }

  /** What saving does to the two attention entries. */
  lemma SaveAttentionEntries(st: State, now: int)
    ensures var r := AfterSave(st, now);
      r.lastAttentionTime == st.lastAttentionTime && r.currentAttentionDuration == st.currentAttentionDuration
      && (RemainingAttentionKey in r.store <==> RemainingAttentionKey in st.store || AttentionLeft(st, now).Some?)
      && (CurrentAttentionKey in r.store <==> CurrentAttentionKey in st.store || st.currentAttentionDuration.Some?)
      && (AttentionLeft(st, now).Some? ==> r.store[RemainingAttentionKey] == AttentionLeft(st, now).value)
      && (st.currentAttentionDuration.Some? ==> r.store[CurrentAttentionKey] == st.currentAttentionDuration.value)
  {
    var s1 := SaveHunger(st, now);
    var s2 := SaveAttention(s1, now);
    var s3 := SaveGrowth(s2, now);
    SaveHungerEffect(st, now);
    SaveAttentionEffect(s1, now);
    SaveGrowthEffect(s2, now);
    SaveAttentionDurationEffect(s3);
  }

  /** What saving does to the growth entry. */
  lemma SaveGrowthEntry(st: State, now: int)
    ensures var r := AfterSave(st, now);
      r.growthSyncTime == st.growthSyncTime && r.syncedGrowthDuration == st.syncedGrowthDuration
      && (SyncedGrowthKey in r.store <==> SyncedGrowthKey in st.store || GrowthLeft(st, now).Some?)
      && (GrowthLeft(st, now).Some? ==>
            r.store[SyncedGrowthKey] == st.syncedGrowthDuration.value + (now - st.growthSyncTime.value))
  {
    var s1 := SaveHunger(st, now);
    var s2 := SaveAttention(s1, now);
    var s3 := SaveGrowth(s2, now);
    SaveHungerEffect(st, now);
    SaveAttentionEffect(s1, now);
    SaveGrowthEffect(s2, now);
    SaveAttentionDurationEffect(s3);
  }

  /** Loading while away leaves the hunger countdown at its stored value, or as it was. */
  lemma LoadHungerEntry(st: State, cfg: Settings, now: int)
    requires !st.kittenFollowing
    ensures HungerLeft(AfterLoad(st, cfg, now), now)
         == if RemainingHungerKey in st.store then Some(Max(0, st.store[RemainingHungerKey])) else HungerLeft(st, now)
  {
    var s1 := LoadHunger(st, now);
    var s2 := LoadAttention(s1, now);
    var s3 := LoadGrowth(s2, now);
    LoadHungerEffect(st, now);
    LoadAttentionEffect(s1, now);
    LoadGrowthEffect(s2, now);
    UpdateWhileAway(s3, cfg, now);
  }

  /** Loading while away leaves the attention countdown at its stored value when both entries are there. */
  lemma LoadAttentionEntries(st: State, cfg: Settings, now: int)
    requires !st.kittenFollowing
    ensures var r := AfterLoad(st, cfg, now);
      if RemainingAttentionKey in st.store && CurrentAttentionKey in st.store
      then AttentionLeft(r, now) == Some(Max(0, st.store[RemainingAttentionKey]))
           && r.currentAttentionDuration == Some(st.store[CurrentAttentionKey])
      else r.lastAttentionTime == st.lastAttentionTime && r.currentAttentionDuration == st.currentAttentionDuration
  {
    var s1 := LoadHunger(st, now);
    var s2 := LoadAttention(s1, now);
    var s3 := LoadGrowth(s2, now);
    LoadHungerEffect(st, now);
    LoadAttentionEffect(s1, now);
    LoadGrowthEffect(s2, now);
    UpdateWhileAway(s3, cfg, now);
  }

  /** Loading while away leaves the growth countdown at what the stored growth implies. */
  lemma LoadGrowthEntry(st: State, cfg: Settings, now: int)
    requires !st.kittenFollowing
    ensures GrowthLeft(AfterLoad(st, cfg, now), now)
         == if SyncedGrowthKey in st.store then Some(Max(0, TotalGrowthTime - st.store[SyncedGrowthKey])) else GrowthLeft(st, now)
  {
    var s1 := LoadHunger(st, now);
    var s2 := LoadAttention(s1, now);
    var s3 := LoadGrowth(s2, now);
    LoadHungerEffect(st, now);
    LoadAttentionEffect(s1, now);
    LoadGrowthEffect(s2, now);
    UpdateWhileAway(s3, cfg, now);
  }

  /**
   * Save then load: every countdown known at the save is left with exactly
   * the same time at the load, however long the kitten was away (the timers
   * are paused, not running, while it is away).
   */
  lemma SaveLoadRoundTrip(st: State, cfg: Settings, saved: int, loaded: int)
    requires !st.kittenFollowing
    ensures var r := AfterLoad(AfterSave(st, saved), cfg, loaded);
      (HungerLeft(st, saved).Some? ==> HungerLeft(r, loaded) == HungerLeft(st, saved))
      && (AttentionLeft(st, saved).Some? ==>
            AttentionLeft(r, loaded) == AttentionLeft(st, saved) && r.currentAttentionDuration == st.currentAttentionDuration)
      && (GrowthLeft(st, saved).Some? ==> GrowthLeft(r, loaded) == GrowthLeft(st, saved))
  {
    var s := AfterSave(st, saved);
    SaveOnlyStore(st, saved);
    SaveHungerEntry(st, saved);
    SaveAttentionEntries(st, saved);
    SaveGrowthEntry(st, saved);
    LoadHungerEntry(s, cfg, loaded);
    LoadAttentionEntries(s, cfg, loaded);
    LoadGrowthEntry(s, cfg, loaded);
  }

  // ---------------------------------------------------------------- reset

  /** Reset forgets all five timer fields, both flags, the four stored keys and the shown values. */
  lemma ResetClears(st: State, cfg: Settings, now: int)
    ensures var r := AfterReset(st, cfg, now);
      r.lastFedTime.None? && r.lastAttentionTime.None? && r.growthSyncTime.None?
      && r.syncedGrowthDuration.None? && r.currentAttentionDuration.None?
      && !r.hungerNotificationSent && !r.attentionNotificationSent
      && r.store.Keys !! TimerKeys
      && (forall k :: k in st.store && k !in TimerKeys ==> k in r.store && r.store[k] == st.store[k])
      && r.growthTimeRemaining.None? && r.hungerTimeRemaining.None? && r.attentionTimeRemaining.None?
      && r.notifications == st.notifications && r.kittenFollowing == st.kittenFollowing
  {
  }

  /** Resetting twice is resetting once. */
  lemma ResetIdempotent(st: State, cfg: Settings, now1: int, now2: int)
    ensures AfterReset(AfterReset(st, cfg, now1), cfg, now2) == AfterReset(st, cfg, now1)
  {
    var r1 := AfterReset(st, cfg, now1);
    assert r1.store - TimerKeys == r1.store;
  }

  /** Only a true value for the reset control of this plugin's group resets, and it switches the control off. */
  lemma ConfigChangeResets(st: State, cfg: Settings, ev: ConfigChanged, now: int)
    ensures var r := AfterConfigChanged(st, cfg, ev, now);
      if ev.group == ConfigGroup && ev.key == ResetTimersButtonKey && ParseBoolean(ev.newValue)
      then r == AfterReset(st, cfg, now).(resetTimersButton := false)
      else r == st
  {
  }

  lemma ParseBooleanExamples()
    ensures ParseBoolean(Some("true")) && ParseBoolean(Some("TRUE")) && ParseBoolean(Some("True"))
    ensures !ParseBoolean(Some("false")) && !ParseBoolean(None) && !ParseBoolean(Some("yes"))
  {
  }

  // ---------------------------------------------------------------- presence

  /** A tick loads only when a kitten newly follows, saves only when it stops, and records the scan. */
  lemma TickTransitions(st: State, cfg: Settings, found: bool, now: int)
    ensures var r := AfterGameTick(st, cfg, found, now);
      r.kittenFollowing == found
      && (found && !st.kittenFollowing ==> r == AfterLoad(st, cfg, now).(kittenFollowing := true))
      && (!found && st.kittenFollowing ==> r == AfterSave(st, now).(kittenFollowing := false))
      && (found == st.kittenFollowing ==> r == st)
      && (r.store != st.store ==> st.kittenFollowing && !found)
  {
  }

  /** The load a tick triggers runs its recompute while still away, so the shown values stay unknown. */
  lemma TickLoadLeavesShownValuesUnknown(st: State, cfg: Settings, now: int)
    requires !st.kittenFollowing
    ensures var r := AfterGameTick(st, cfg, true, now);
      r.kittenFollowing && r.growthTimeRemaining.None? && r.hungerTimeRemaining.None? && r.attentionTimeRemaining.None?
      && r.notifications == st.notifications
  {
  }

  /** The login screen saves if the kitten was following and always ends following. */
  lemma LoginScreenSaves(st: State, gs: GameState, now: int)
    ensures var r := AfterGameStateChanged(st, gs, now);
      (gs == LoginScreen ==> !r.kittenFollowing && r.store == (if st.kittenFollowing then AfterSave(st, now) else st).store)
      && (gs != LoginScreen ==> r == st)
  {
  }

  // ---------------------------------------------------------------- invariant

  /** Every stored timer is also known in memory. */
  predicate StoreBacked(st: State)
  {
    (RemainingHungerKey in st.store ==> st.lastFedTime.Some?)
    && (RemainingAttentionKey in st.store && CurrentAttentionKey in st.store ==> st.lastAttentionTime.Some?)
    && (SyncedGrowthKey in st.store ==> st.growthSyncTime.Some?)
  }

  predicate NonNegative(v: Option<int>) { v.Some? ==> v.value >= 0 }

  /**
   * What holds in every state the plugin reaches: the attention anchor and
   * total are known together, so are the two growth fields, while the kitten
   * follows every stored timer is known in memory, the store names each
   * entry by one key, and no shown value is negative.
   */
  predicate Consistent(st: State)
  {
    (st.lastAttentionTime.Some? <==> st.currentAttentionDuration.Some?)
    && (st.growthSyncTime.Some? <==> st.syncedGrowthDuration.Some?)
    && (st.kittenFollowing ==> StoreBacked(st))
    && CanonicalStore(st.store)
    && NonNegative(st.growthTimeRemaining) && NonNegative(st.hungerTimeRemaining) && NonNegative(st.attentionTimeRemaining)
  }

  lemma InitialConsistent(store: map<ConfigKey, int>)
    requires CanonicalStore(store)
    ensures Consistent(Initial(store)) && !Initial(store).kittenFollowing
  {
  }

  lemma UpdateConsistent(st: State, cfg: Settings, now: int)
    requires Consistent(st)
    ensures Consistent(AfterUpdate(st, cfg, now))
  {
  }

  lemma ChatEventConsistent(st: State, cfg: Settings, e: ChatEvent, now: int)
    requires Consistent(st)
    ensures Consistent(AfterChatEvent(st, cfg, e, now))
  {
    UpdateConsistent(ApplyChatEvent(st, e, now), cfg, now);
  }

  lemma ChatConsistent(st: State, cfg: Settings, t: ChatMessageType, msg: string, now: int)
    requires Consistent(st)
    ensures Consistent(AfterChatMessage(st, cfg, t, msg, now))
  {
    if IsListenedType(t) {
      ChatEventConsistent(st, cfg, Classify(msg), now);
    }
  }

  lemma SaveKeepsStoreBacked(st: State, now: int)
    requires Consistent(st) && StoreBacked(st)
    ensures StoreBacked(AfterSave(st, now)) && Consistent(AfterSave(st, now))
  {
    SaveWrites(st, now);
  }

  lemma LoadConsistent(st: State, cfg: Settings, now: int)
    requires Consistent(st) && !st.kittenFollowing
    ensures Consistent(AfterLoad(st, cfg, now).(kittenFollowing := true))
  {
    var s1 := LoadHunger(st, now);
    var s2 := LoadAttention(s1, now);
    var s3 := LoadGrowth(s2, now);
    LoadHungerEffect(st, now);
    LoadAttentionEffect(s1, now);
    LoadGrowthEffect(s2, now);
    assert StoreBacked(s3);
    UpdateWhileAway(s3, cfg, now);
  }

  lemma TickConsistent(st: State, cfg: Settings, found: bool, now: int)
    requires Consistent(st)
    ensures Consistent(AfterGameTick(st, cfg, found, now))
  {
    if found && !st.kittenFollowing {
      LoadConsistent(st, cfg, now);
    } else if !found && st.kittenFollowing {
      SaveKeepsStoreBacked(st, now);
    }
  }

  lemma GameStateConsistent(st: State, gs: GameState, now: int)
    requires Consistent(st)
    ensures Consistent(AfterGameStateChanged(st, gs, now))
  {
    if gs == LoginScreen && st.kittenFollowing {
      SaveKeepsStoreBacked(st, now);
    }
  }

  lemma ResetConsistent(st: State, cfg: Settings, now: int)
    requires Consistent(st)
    ensures Consistent(AfterReset(st, cfg, now))
  {
  }

  lemma ConfigConsistent(st: State, cfg: Settings, ev: ConfigChanged, now: int)
    requires Consistent(st)
    ensures Consistent(AfterConfigChanged(st, cfg, ev, now))
  {
    if IsResetRequest(ev) {
      ResetConsistent(st, cfg, now);
    }
  }

  lemma ShutDownConsistent(st: State, now: int)
    requires Consistent(st)
    ensures Consistent(AfterShutDown(st, now))
  {
    if st.kittenFollowing {
      SaveKeepsStoreBacked(st, now);
    }
  }

  /** The two ticks of a kitten that leaves at `left` and is back at `back`: save, then load. */
  lemma AwayAndBackStates(st: State, cfg: Settings, left: int, back: int)
    requires st.kittenFollowing
    ensures AfterGameTick(st, cfg, false, left) == AfterSave(st, left).(kittenFollowing := false)
    ensures var away := AfterGameTick(st, cfg, false, left);
      AfterGameTick(away, cfg, true, back) == AfterLoad(away, cfg, back).(kittenFollowing := true)
  {
  }

  lemma AwayAndBackHunger(st: State, cfg: Settings, left: int, back: int)
    requires Consistent(st) && st.kittenFollowing
    ensures HungerLeft(AfterGameTick(AfterGameTick(st, cfg, false, left), cfg, true, back), back) == HungerLeft(st, left)
  {
    AwayAndBackStates(st, cfg, left, back);
    SaveOnlyStore(st, left);
    SaveHungerEntry(st, left);
    LoadHungerEntry(AfterGameTick(st, cfg, false, left), cfg, back);
  }

  lemma AwayAndBackAttention(st: State, cfg: Settings, left: int, back: int)
    requires Consistent(st) && st.kittenFollowing
    ensures AttentionLeft(AfterGameTick(AfterGameTick(st, cfg, false, left), cfg, true, back), back) == AttentionLeft(st, left)
  {
    AwayAndBackStates(st, cfg, left, back);
    SaveOnlyStore(st, left);
    SaveAttentionEntries(st, left);
    LoadAttentionEntries(AfterGameTick(st, cfg, false, left), cfg, back);
  }

  lemma AwayAndBackGrowth(st: State, cfg: Settings, left: int, back: int)
    requires Consistent(st) && st.kittenFollowing
    ensures GrowthLeft(AfterGameTick(AfterGameTick(st, cfg, false, left), cfg, true, back), back) == GrowthLeft(st, left)
  {
    AwayAndBackStates(st, cfg, left, back);
    SaveOnlyStore(st, left);
    SaveGrowthEntry(st, left);
    LoadGrowthEntry(AfterGameTick(st, cfg, false, left), cfg, back);
  }

  /**
   * The kitten stops following at `left` and follows again at `back`: every
   * countdown is left with what it had when the kitten went away, and the
   * first recompute afterwards shows exactly those values.
   */
  lemma AwayAndBack(st: State, cfg: Settings, left: int, back: int)
    requires Consistent(st) && st.kittenFollowing
    ensures var r := AfterGameTick(AfterGameTick(st, cfg, false, left), cfg, true, back);
      r.kittenFollowing
      && HungerLeft(r, back) == HungerLeft(st, left)
      && AttentionLeft(r, back) == AttentionLeft(st, left)
      && GrowthLeft(r, back) == GrowthLeft(st, left)
      && AfterUpdate(r, cfg, back).hungerTimeRemaining == HungerLeft(st, left)
      && AfterUpdate(r, cfg, back).attentionTimeRemaining == AttentionLeft(st, left)
      && AfterUpdate(r, cfg, back).growthTimeRemaining == GrowthLeft(st, left)
  {
    AwayAndBackStates(st, cfg, left, back);
    AwayAndBackHunger(st, cfg, left, back);
    AwayAndBackAttention(st, cfg, left, back);
    AwayAndBackGrowth(st, cfg, left, back);
    UpdateWhileFollowing(AfterGameTick(AfterGameTick(st, cfg, false, left), cfg, true, back), cfg, back);
  }
}
