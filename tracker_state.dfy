/**
 * The plugin's state as a value, and what each of its handlers does to it.
 * The class in module KittenTrackerPlugin updates its fields step by step
 * and promises, handler by handler, the state given here; the lemmas below
 * state what those transitions guarantee.
 */
module TrackerState {
  import opened Wrappers
  import opened Durations
  import opened ChatText

  const ConfigGroup: string := "kittentracker"
  const ResetTimersButtonKey: string := "resetTimersButton"

  /**
   * A key of the configuration group: one of the four entries under which
   * paused timers are kept, or any other entry of the group.
   */
  datatype ConfigKey =
    | RemainingHungerKey
    | RemainingAttentionKey
    | SyncedGrowthKey
    | CurrentAttentionKey
    | OtherKey(name: string)

  /** The name a key has in the configuration store. */
  function KeyName(k: ConfigKey): string
  {
    match k
    case RemainingHungerKey => "remainingHunger"
    case RemainingAttentionKey => "remainingAttention"
    case SyncedGrowthKey => "syncedGrowthDuration"
    case CurrentAttentionKey => "currentAttentionDuration"
    case OtherKey(name) => name
  }

  /** The key a stored name denotes. */
  function KeyOf(name: string): (k: ConfigKey)
    ensures KeyName(k) == name
    ensures k.OtherKey? <==> name !in TimerKeyNames
    ensures Canonical(k)
  {
    if name == "remainingHunger" then RemainingHungerKey
    else if name == "remainingAttention" then RemainingAttentionKey
    else if name == "syncedGrowthDuration" then SyncedGrowthKey
    else if name == "currentAttentionDuration" then CurrentAttentionKey
    else OtherKey(name)
  }

  /** The four keys under which paused timers are kept. */
  const TimerKeys: set<ConfigKey> := {RemainingHungerKey, RemainingAttentionKey, SyncedGrowthKey, CurrentAttentionKey}

  const TimerKeyNames: set<string> := {"remainingHunger", "remainingAttention", "syncedGrowthDuration", "currentAttentionDuration"}

  /** A key as the store names it: a timer entry is never spelled as an other key. */
  predicate Canonical(k: ConfigKey) { k.OtherKey? ==> k.name !in TimerKeyNames }

  /** A store in which every name has exactly one key, as the configuration manager's names do. */
  predicate CanonicalStore(store: map<ConfigKey, int>) { forall k :: k in store ==> Canonical(k) }

  /** A canonical key is the key its own name denotes, so names and canonical keys correspond one to one. */
  lemma KeyNameRoundTrip(k: ConfigKey)
    requires Canonical(k)
    ensures KeyOf(KeyName(k)) == k
  {
  }

  /** In a canonical store an entry is found under the one key its name denotes. */
  lemma StoreNamesUnique(store: map<ConfigKey, int>, k1: ConfigKey, k2: ConfigKey)
    requires CanonicalStore(store) && k1 in store && k2 in store
    ensures KeyName(k1) == KeyName(k2) <==> k1 == k2
  {
    KeyNameRoundTrip(k1);
    KeyNameRoundTrip(k2);
  }

  const HungerMessage: string := "Your kitten is very hungry!"
  const AttentionMessage: string := "Your kitten is feeling lonely!"

  /** Standard kittens and hellkittens. */
  const KittenIds: set<int> := {5591, 5592, 5593, 5594, 5595, 5596, 7351, 7352, 7353, 7354, 7355, 7356}

  /** The two notification switches of the plugin's configuration. */
  datatype Settings = Settings(notifyOnHunger: bool, notifyOnAttention: bool)

  /**
   * Every field the plugin keeps, the timer entries of its configuration
   * group (milliseconds by key), the stored value of the reset control, and
   * the messages handed to the notifier so far.
   */
  datatype State = State(
    lastFedTime: Option<int>,
    lastAttentionTime: Option<int>,
    growthSyncTime: Option<int>,
    syncedGrowthDuration: Option<int>,
    currentAttentionDuration: Option<int>,
    kittenFollowing: bool,
    growthTimeRemaining: Option<int>,
    hungerTimeRemaining: Option<int>,
    attentionTimeRemaining: Option<int>,
    hungerNotificationSent: bool,
    attentionNotificationSent: bool,
    store: map<ConfigKey, int>,
    resetTimersButton: bool,
    notifications: seq<string>)

  /** A freshly constructed plugin over whatever an earlier session stored. */
  function Initial(store: map<ConfigKey, int>): State
    requires CanonicalStore(store)
  {
    State(None, None, None, None, None, false, None, None, None, false, false, store, false, [])
  }

  /** The three countdowns as the plugin computes them from its fields. */
  function HungerLeft(st: State, now: int): Option<int> { TimeRemaining(st.lastFedTime, Some(HungerTime), now) }
  function AttentionLeft(st: State, now: int): Option<int> { TimeRemaining(st.lastAttentionTime, st.currentAttentionDuration, now) }
  function GrowthLeft(st: State, now: int): Option<int> { GrowthTimeRemaining(st.growthSyncTime, st.syncedGrowthDuration, now) }

  // ---------------------------------------------------------------- notification gate

  predicate HungerAlertDue(st: State, cfg: Settings)
  {
    cfg.notifyOnHunger && !st.hungerNotificationSent && st.hungerTimeRemaining.Some?
    && st.hungerTimeRemaining.value <= HungerNotificationThreshold
  }

  predicate AttentionAlertDue(st: State, cfg: Settings)
  {
    cfg.notifyOnAttention && !st.attentionNotificationSent && st.attentionTimeRemaining.Some?
    && st.attentionTimeRemaining.value <= AttentionNotificationThreshold
  }

  /** The hunger half of `checkNotifications`. */
  function HungerAlertStep(st: State, cfg: Settings): State
  {
    if HungerAlertDue(st, cfg)
    then st.(notifications := st.notifications + [HungerMessage], hungerNotificationSent := true)
    else st
  }

  /** The attention half of `checkNotifications`. */
  function AttentionAlertStep(st: State, cfg: Settings): State
  {
    if AttentionAlertDue(st, cfg)
    then st.(notifications := st.notifications + [AttentionMessage], attentionNotificationSent := true)
    else st
  }

  /** `checkNotifications`: the hunger alert, then the attention alert. */
  function AfterCheckNotifications(st: State, cfg: Settings): State
  {
    AttentionAlertStep(HungerAlertStep(st, cfg), cfg)
  }

  /** The shown values while the kitten is away: unknown. */
  function HideRemaining(st: State): State
  {
    st.(growthTimeRemaining := None, hungerTimeRemaining := None, attentionTimeRemaining := None)
  }

  /** The shown values recomputed from the timer fields at `now`. */
  function Recompute(st: State, now: int): State
  {
    st.(growthTimeRemaining := GrowthLeft(st, now), hungerTimeRemaining := HungerLeft(st, now),
        attentionTimeRemaining := AttentionLeft(st, now))
  }

  /** `updateTimersForOverlay`: clear the shown values while away, else recompute and notify. */
  function AfterUpdate(st: State, cfg: Settings, now: int): State
  {
    if !st.kittenFollowing then HideRemaining(st) else AfterCheckNotifications(Recompute(st, now), cfg)
  }

  // ---------------------------------------------------------------- chat

  /** The field updates one classified chat line makes before the recompute. */
  function ApplyChatEvent(st: State, e: ChatEvent, now: int): State
  {
    match e
    case Fed => st.(lastFedTime := Some(now), hungerNotificationSent := false)
    case Stroked =>
      st.(lastAttentionTime := Some(now), currentAttentionDuration := Some(AttentionTimeStroke), attentionNotificationSent := false)
    case PlayedWithWool =>
      st.(lastAttentionTime := Some(now), currentAttentionDuration := Some(AttentionTimeWool), attentionNotificationSent := false)
    case AgeReported(hoursLeft, minutesLeft) =>
      st.(syncedGrowthDuration := Some(TotalGrowthTime - (hoursLeft * Hour + minutesLeft * Minute)), growthSyncTime := Some(now))
    case AgeUnreadable => st
    case Unrecognised => st
  }

  /** A classified line of a listened category: the updates, then the recompute. */
  function AfterChatEvent(st: State, cfg: Settings, e: ChatEvent, now: int): State
  {
    AfterUpdate(ApplyChatEvent(st, e, now), cfg, now)
  }

  /** `onChatMessage`. */
  function AfterChatMessage(st: State, cfg: Settings, t: ChatMessageType, msg: string, now: int): State
  {
    if !IsListenedType(t) then st else AfterChatEvent(st, cfg, Classify(msg), now)
  }

  // ---------------------------------------------------------------- persistence

  /** The hunger entry of `saveTimers`: what is left of the countdown, when it runs. */
  function SaveHunger(st: State, now: int): State
  {
    if HungerLeft(st, now).Some? then st.(store := st.store[RemainingHungerKey := HungerLeft(st, now).value]) else st
  }

  /** The attention entry of `saveTimers`. */
  function SaveAttention(st: State, now: int): State
  {
    if AttentionLeft(st, now).Some? then st.(store := st.store[RemainingAttentionKey := AttentionLeft(st, now).value]) else st
  }

  /** The growth entry of `saveTimers`: the growth so far, brought up to `now`. */
  function SaveGrowth(st: State, now: int): State
  {
    if st.growthSyncTime.Some? && st.syncedGrowthDuration.Some?
    then st.(store := st.store[SyncedGrowthKey := st.syncedGrowthDuration.value + (now - st.growthSyncTime.value)])
    else st
  }

  /** The entry for the duration of the attention timer that runs. */
  function SaveAttentionDuration(st: State): State
  {
    if st.currentAttentionDuration.Some? then st.(store := st.store[CurrentAttentionKey := st.currentAttentionDuration.value]) else st
  }

  /** `saveTimers`: each known value is written; nothing is removed. */
  function AfterSave(st: State, now: int): State
  {
    SaveAttentionDuration(SaveGrowth(SaveAttention(SaveHunger(st, now), now), now))
  }

  /** The hunger part of `loadTimers`: re-anchor so the stored value is left at `now`. */
  function LoadHunger(st: State, now: int): State
  {
    if RemainingHungerKey in st.store then
      var remaining := st.store[RemainingHungerKey];
      st.(lastFedTime := Some(now - (HungerTime - remaining)),
          hungerNotificationSent := remaining <= HungerNotificationThreshold)
    else st
  }

  /** The attention part of `loadTimers`: only when both of its keys are stored. */
  function LoadAttention(st: State, now: int): State
  {
    if RemainingAttentionKey in st.store && CurrentAttentionKey in st.store then
      var remaining, total := st.store[RemainingAttentionKey], st.store[CurrentAttentionKey];
      st.(currentAttentionDuration := Some(total),
          lastAttentionTime := Some(now - (total - remaining)),
          attentionNotificationSent := remaining <= AttentionNotificationThreshold)
    else st
  }

  /** The growth part of `loadTimers`: the stored growth so far, synchronised at `now`. */
  function LoadGrowth(st: State, now: int): State
  {
    if SyncedGrowthKey in st.store then st.(syncedGrowthDuration := Some(st.store[SyncedGrowthKey]), growthSyncTime := Some(now))
    else st
  }

  /** `loadTimers`: re-anchor each stored timer at `now`, then recompute. */
  function AfterLoad(st: State, cfg: Settings, now: int): State
  {
    AfterUpdate(LoadGrowth(LoadAttention(LoadHunger(st, now), now), now), cfg, now)
  }

  /** The clearing part of `resetTimers`: every timer forgotten, its stored entries removed. */
  function Cleared(st: State): State
  {
    st.(lastFedTime := None, lastAttentionTime := None, growthSyncTime := None,
        syncedGrowthDuration := None, currentAttentionDuration := None,
        hungerNotificationSent := false, attentionNotificationSent := false,
        store := st.store - TimerKeys)
  }

  /** `resetTimers`: clear, then recompute. */
  function AfterReset(st: State, cfg: Settings, now: int): State
  {
    AfterUpdate(Cleared(st), cfg, now)
  }

  // ---------------------------------------------------------------- host events

  /** One NPC of the scene: its id and whether it interacts with the local player. */
  datatype Npc = Npc(id: int, interactingWithPlayer: bool)

  predicate IsFollowingKitten(npc: Npc) { npc.id in KittenIds && npc.interactingWithPlayer }

  /** Logged in with a local player, and some kitten interacts with that player. */
  predicate KittenFound(loggedInWithPlayer: bool, npcs: seq<Npc>)
  {
    loggedInWithPlayer && exists k | 0 <= k < |npcs| :: IsFollowingKitten(npcs[k])
  }

  /** `onGameTick` once the scan found (or did not find) a following kitten. */
  function AfterGameTick(st: State, cfg: Settings, found: bool, now: int): State
  {
    var st1 :=
      if found && !st.kittenFollowing then AfterLoad(st, cfg, now)
      else if !found && st.kittenFollowing then AfterSave(st, now)
      else st;
    st1.(kittenFollowing := found)
  }

  datatype GameState = LoginScreen | LoggingIn | Loading | LoggedIn | ConnectionLost | Hopping

  /** `onGameStateChanged`. */
  function AfterGameStateChanged(st: State, gs: GameState, now: int): State
  {
    if gs != LoginScreen then st
    else (if st.kittenFollowing then AfterSave(st, now) else st).(kittenFollowing := false)
  }

  /** A configuration change event; the new value may be absent. */
  datatype ConfigChanged = ConfigChanged(group: string, key: string, newValue: Option<string>)

  function LowerAscii(c: char): char { if 'A' <= c <= 'Z' then (c as int + 32) as char else c }

  /** `Boolean.parseBoolean`: "true" in any letter case; absent is false. */
  function ParseBoolean(v: Option<string>): (b: bool)
    ensures b <==> (v.Some? && |v.value| == 4
                    && forall i | 0 <= i < 4 :: v.value[i] == "true"[i] || v.value[i] == "TRUE"[i])
  {
    v.Some? && |v.value| == 4
    && LowerAscii(v.value[0]) == 't' && LowerAscii(v.value[1]) == 'r'
    && LowerAscii(v.value[2]) == 'u' && LowerAscii(v.value[3]) == 'e'
  }

  predicate IsResetRequest(ev: ConfigChanged)
  {
    ev.group == ConfigGroup && ev.key == ResetTimersButtonKey && ParseBoolean(ev.newValue)
  }

  /** `onConfigChanged`: a reset request resets and switches the control back off. */
  function AfterConfigChanged(st: State, cfg: Settings, ev: ConfigChanged, now: int): State
  {
    if IsResetRequest(ev) then AfterReset(st, cfg, now).(resetTimersButton := false) else st
  }

  /** The timer part of `shutDown`: save while the kitten follows. */
  function AfterShutDown(st: State, now: int): State
  {
    if st.kittenFollowing then AfterSave(st, now) else st
  }
}
