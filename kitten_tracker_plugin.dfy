/**
 * The plugin object: its fields, updated in place by its event handlers.
 * Each handler promises the new state that module TrackerState gives for
 * it, so the guarantees proved in TrackerProperties hold of the object.
 */
module KittenTrackerPlugin {
  import opened Wrappers
  import opened Durations
  import opened ChatText
  import opened TrackerState
  import opened TrackerProperties

  /** The kitten scan of `onGameTick`: stops at the first kitten interacting with the player. */
  method FindKitten(loggedInWithPlayer: bool, npcs: seq<Npc>) returns (found: bool)
    ensures found == KittenFound(loggedInWithPlayer, npcs)
  {
    found := false;
    if loggedInWithPlayer {
      var i := 0;
      while i < |npcs|
        invariant 0 <= i <= |npcs|
        invariant !found
        invariant forall k :: 0 <= k < i ==> !IsFollowingKitten(npcs[k])
      {
        if npcs[i].id in KittenIds && npcs[i].interactingWithPlayer {
          found := true;
          break;
        }
        i := i + 1;
      }
    }
  }

  class Plugin {
    /** The notification switches, read from the configuration each time. */
    var settings: Settings

    var lastFedTime: Option<int>
    var lastAttentionTime: Option<int>
    var growthSyncTime: Option<int>
    var syncedGrowthDuration: Option<int>
    var currentAttentionDuration: Option<int>
    var kittenFollowing: bool
    var growthTimeRemaining: Option<int>
    var hungerTimeRemaining: Option<int>
    var attentionTimeRemaining: Option<int>
    var hungerNotificationSent: bool
    var attentionNotificationSent: bool

    /** The timer entries of the "kittentracker" configuration group, in milliseconds. */
    var store: map<ConfigKey, int>
    /** The stored value of the reset control. */
    var resetTimersButton: bool
    /** Every message handed to the notifier, oldest first. */
    var notifications: seq<string>

    function Abs(): State
      reads this
    {
      State(lastFedTime, lastAttentionTime, growthSyncTime, syncedGrowthDuration, currentAttentionDuration,
            kittenFollowing, growthTimeRemaining, hungerTimeRemaining, attentionTimeRemaining,
            hungerNotificationSent, attentionNotificationSent, store, resetTimersButton, notifications)
    }

    ghost predicate Valid()
      reads this
    {
      Consistent(Abs())
    }

    constructor (settings: Settings, store: map<ConfigKey, int>)
      requires CanonicalStore(store)
      ensures Valid() && Abs() == Initial(store) && this.settings == settings
    {
      this.settings := settings;
      lastFedTime, lastAttentionTime, growthSyncTime := None, None, None;
      syncedGrowthDuration, currentAttentionDuration := None, None;
      kittenFollowing := false;
      growthTimeRemaining, hungerTimeRemaining, attentionTimeRemaining := None, None, None;
      hungerNotificationSent, attentionNotificationSent := false, false;
      this.store := store;
      resetTimersButton := false;
      notifications := [];
      InitialConsistent(store);
    }

    method CheckNotifications()
      modifies this
      ensures settings == old(settings) && Abs() == AfterCheckNotifications(old(Abs()), settings)
    {
      CheckHunger();
      CheckAttention();
    }

    method CheckHunger()
      modifies this
      ensures settings == old(settings) && Abs() == HungerAlertStep(old(Abs()), settings)
    {
      if settings.notifyOnHunger && !hungerNotificationSent && hungerTimeRemaining.Some?
        && hungerTimeRemaining.value <= HungerNotificationThreshold
      {
        notifications := notifications + [HungerMessage];
        hungerNotificationSent := true;
      }
    }

    method CheckAttention()
      modifies this
      ensures settings == old(settings) && Abs() == AttentionAlertStep(old(Abs()), settings)
    {
      if settings.notifyOnAttention && !attentionNotificationSent && attentionTimeRemaining.Some?
        && attentionTimeRemaining.value <= AttentionNotificationThreshold
      {
        notifications := notifications + [AttentionMessage];
        attentionNotificationSent := true;
      }
    }

    method UpdateTimersForOverlay(now: int)
      modifies this
      ensures settings == old(settings) && Abs() == AfterUpdate(old(Abs()), settings, now)
    {
      if !kittenFollowing {
        ClearShownValues();
        return;
      }
      RecomputeRemaining(now);
      CheckNotifications();
    }

    method ClearShownValues()
      modifies this
      ensures settings == old(settings) && Abs() == TrackerState.HideRemaining(old(Abs()))
    {
      growthTimeRemaining := None;
      hungerTimeRemaining := None;
      attentionTimeRemaining := None;
    }

    method RecomputeRemaining(now: int)
      modifies this
      ensures settings == old(settings) && Abs() == Recompute(old(Abs()), now)
    {
      growthTimeRemaining := GrowthTimeRemaining(growthSyncTime, syncedGrowthDuration, now);
      hungerTimeRemaining := TimeRemaining(lastFedTime, Some(HungerTime), now);
      attentionTimeRemaining := TimeRemaining(lastAttentionTime, currentAttentionDuration, now);
    }

    method SaveTimers(now: int)
      modifies this
      ensures settings == old(settings) && Abs() == AfterSave(old(Abs()), now)
    {
      SaveHungerTimer(now);
      SaveAttentionTimer(now);
      SaveGrowthTimer(now);
      SaveAttentionDurationEntry();
    }

    method SaveHungerTimer(now: int)
      modifies this
      ensures settings == old(settings) && Abs() == SaveHunger(old(Abs()), now)
    {
      var hungerRemaining := TimeRemaining(lastFedTime, Some(HungerTime), now);
      if hungerRemaining.Some? {
        store := store[RemainingHungerKey := hungerRemaining.value];
      }
    }

    method SaveAttentionTimer(now: int)
      modifies this
      ensures settings == old(settings) && Abs() == SaveAttention(old(Abs()), now)
    {
      var attentionRemaining := TimeRemaining(lastAttentionTime, currentAttentionDuration, now);
      if attentionRemaining.Some? {
        store := store[RemainingAttentionKey := attentionRemaining.value];
      }
    }

    method SaveGrowthTimer(now: int)
      modifies this
      ensures settings == old(settings) && Abs() == SaveGrowth(old(Abs()), now)
    {
      if growthSyncTime.Some? && syncedGrowthDuration.Some? {
        var elapsedSinceSync := now - growthSyncTime.value;
        store := store[SyncedGrowthKey := syncedGrowthDuration.value + elapsedSinceSync];
      }
    }

    method SaveAttentionDurationEntry()
      modifies this
      ensures settings == old(settings) && Abs() == SaveAttentionDuration(old(Abs()))
    {
      if currentAttentionDuration.Some? {
        store := store[CurrentAttentionKey := currentAttentionDuration.value];
      }
    }

    /** The hunger part of `loadTimers`. */
    method LoadHungerTimer(now: int)
      modifies this
      ensures settings == old(settings) && Abs() == LoadHunger(old(Abs()), now)
    {
      if RemainingHungerKey in store {
        var hungerRemaining := store[RemainingHungerKey];
        lastFedTime := Some(now - (HungerTime - hungerRemaining));
        hungerNotificationSent := hungerRemaining <= HungerNotificationThreshold;
      }
    }

    /** The attention part of `loadTimers`: both entries must be present. */
    method LoadAttentionTimer(now: int)
      modifies this
      ensures settings == old(settings) && Abs() == LoadAttention(old(Abs()), now)
    {
      if RemainingAttentionKey in store && CurrentAttentionKey in store {
        var attentionRemaining := store[RemainingAttentionKey];
        currentAttentionDuration := Some(store[CurrentAttentionKey]);
        lastAttentionTime := Some(now - (currentAttentionDuration.value - attentionRemaining));
        attentionNotificationSent := attentionRemaining <= AttentionNotificationThreshold;
      }
    }

    /** The growth part of `loadTimers`: the stored total is re-anchored at `now`. */
    method LoadGrowthTimer(now: int)
      modifies this
      ensures settings == old(settings) && Abs() == LoadGrowth(old(Abs()), now)
    {
      if SyncedGrowthKey in store {
        syncedGrowthDuration := Some(store[SyncedGrowthKey]);
        growthSyncTime := Some(now);
      }
    }

    method LoadTimers(now: int)
      modifies this
      ensures settings == old(settings) && Abs() == AfterLoad(old(Abs()), settings, now)
    {
      LoadHungerTimer(now);
      LoadAttentionTimer(now);
      LoadGrowthTimer(now);
      UpdateTimersForOverlay(now);
    }

    /** The clearing part of `resetTimers`, before the recompute. */
    method ClearTimers()
      modifies this
      ensures settings == old(settings) && Abs() == Cleared(old(Abs()))
    {
      ForgetHunger();
      ForgetAttention();
      ForgetGrowth();
      UnsetStoredTimers();
    }

    method ForgetHunger()
      modifies this
      ensures settings == old(settings) && Abs() == old(Abs()).(lastFedTime := None, hungerNotificationSent := false)
    {
      lastFedTime, hungerNotificationSent := None, false;
    }

    method ForgetGrowth()
      modifies this
      ensures settings == old(settings) && Abs() == old(Abs()).(growthSyncTime := None, syncedGrowthDuration := None)
    {
      growthSyncTime, syncedGrowthDuration := None, None;
    }

    method ForgetAttention()
      modifies this
      ensures settings == old(settings)
      ensures Abs() == old(Abs()).(lastAttentionTime := None, currentAttentionDuration := None, attentionNotificationSent := false)
    {
      lastAttentionTime, currentAttentionDuration, attentionNotificationSent := None, None, false;
    }

    /** The four `unsetConfiguration` calls of `resetTimers`. */
    method UnsetStoredTimers()
      modifies this
      ensures settings == old(settings) && Abs() == old(Abs()).(store := old(store) - TimerKeys)
    {
      store := store - TimerKeys;
    }

    method ResetTimers(now: int)
      modifies this
      ensures settings == old(settings) && Abs() == AfterReset(old(Abs()), settings, now)
    {
      ClearTimers();
      UpdateTimersForOverlay(now);
    }

    /** The field updates of `onChatMessage` for one recognised message. */
    method ApplyEvent(e: ChatEvent, now: int)
      modifies this
      ensures settings == old(settings) && Abs() == ApplyChatEvent(old(Abs()), e, now)
    {
      match e {
        case Fed => RecordFeeding(now);
        case Stroked => RecordAttention(now, AttentionTimeStroke);
        case PlayedWithWool => RecordAttention(now, AttentionTimeWool);
        case AgeReported(hoursLeft, minutesLeft) =>
          var timeLeft := hoursLeft * Hour + minutesLeft * Minute;
          syncedGrowthDuration, growthSyncTime := Some(TotalGrowthTime - timeLeft), Some(now);
        case AgeUnreadable =>
        case Unrecognised =>
      }
    }

    method RecordFeeding(now: int)
      modifies this
      ensures settings == old(settings) && Abs() == old(Abs()).(lastFedTime := Some(now), hungerNotificationSent := false)
    {
      lastFedTime := Some(now);
      hungerNotificationSent := false;
    }

    /** A petting or play: the attention timer restarts with that activity's duration. */
    method RecordAttention(now: int, duration: int)
      modifies this
      ensures settings == old(settings)
      ensures Abs() == old(Abs()).(lastAttentionTime := Some(now), currentAttentionDuration := Some(duration),
                                   attentionNotificationSent := false)
    {
      lastAttentionTime := Some(now);
      currentAttentionDuration := Some(duration);
      attentionNotificationSent := false;
    }

    method OnChatMessage(t: ChatMessageType, message: string, now: int)
      requires Valid()
      modifies this
      ensures Valid() && settings == old(settings)
      ensures Abs() == AfterChatMessage(old(Abs()), settings, t, message, now)
    {
      if !IsListenedType(t) {
        return;
      }
      var e := Classify(message);
      ChatEventConsistent(Abs(), settings, e, now);
      ApplyEvent(e, now);
      UpdateTimersForOverlay(now);
    }

    method OnGameTick(loggedInWithPlayer: bool, npcs: seq<Npc>, now: int)
      requires Valid()
      modifies this
      ensures Valid() && settings == old(settings)
      ensures Abs() == AfterGameTick(old(Abs()), settings, KittenFound(loggedInWithPlayer, npcs), now)
    {
      var foundKitten := FindKitten(loggedInWithPlayer, npcs);
      TickConsistent(Abs(), settings, foundKitten, now);
      if foundKitten && !kittenFollowing {
        LoadTimers(now);
      } else if !foundKitten && kittenFollowing {
        SaveTimers(now);
      }
      SetFollowing(foundKitten);
    }

    method SetFollowing(following: bool)
      modifies this
      ensures settings == old(settings) && Abs() == old(Abs()).(kittenFollowing := following)
    {
      kittenFollowing := following;
    }

    method OnGameStateChanged(gs: GameState, now: int)
      requires Valid()
      modifies this
      ensures Valid() && settings == old(settings)
      ensures Abs() == AfterGameStateChanged(old(Abs()), gs, now)
    {
      GameStateConsistent(Abs(), gs, now);
      if gs == LoginScreen {
        if kittenFollowing {
          SaveTimers(now);
        }
        SetFollowing(false);
      }
    }

    method OnConfigChanged(ev: ConfigChanged, now: int)
      requires Valid()
      modifies this
      ensures Valid() && settings == old(settings)
      ensures Abs() == AfterConfigChanged(old(Abs()), settings, ev, now)
    {
      ConfigConsistent(Abs(), settings, ev, now);
      if ev.group == ConfigGroup && ev.key == ResetTimersButtonKey {
        if ParseBoolean(ev.newValue) {
          ResetTimers(now);
          resetTimersButton := false;
        }
      }
    }

    /** The timer part of `shutDown`. */
    method ShutDown(now: int)
      requires Valid()
      modifies this
      ensures Valid() && settings == old(settings)
      ensures Abs() == AfterShutDown(old(Abs()), now)
    {
      ShutDownConsistent(Abs(), now);
      if kittenFollowing {
        SaveTimers(now);
      }
    }

    /** The scheduler's periodic recompute, invoked by the caller. */
    method Tick(now: int)
      requires Valid()
      modifies this
      ensures Valid() && settings == old(settings)
      ensures Abs() == AfterUpdate(old(Abs()), settings, now)
    {
      UpdateConsistent(Abs(), settings, now);
      UpdateTimersForOverlay(now);
    }

    /** Whether a kitten follows the player, as the overlay asks. */
    function IsKittenFollowing(): (b: bool)
      reads this
      ensures b == Abs().kittenFollowing
    {
      kittenFollowing
    }

    /** The growth countdown last computed; never negative in a valid plugin. */
    function GetGrowthTimeRemaining(): (r: Option<int>)
      reads this
      ensures r == Abs().growthTimeRemaining
      ensures Valid() ==> NonNegative(r)
    {
      growthTimeRemaining
    }

    /** The hunger countdown last computed; never negative in a valid plugin. */
    function GetHungerTimeRemaining(): (r: Option<int>)
      reads this
      ensures r == Abs().hungerTimeRemaining
      ensures Valid() ==> NonNegative(r)
    {
      hungerTimeRemaining
    }

    /** The attention countdown last computed; never negative in a valid plugin. */
    function GetAttentionTimeRemaining(): (r: Option<int>)
      reads this
      ensures r == Abs().attentionTimeRemaining
      ensures Valid() ==> NonNegative(r)
    {
      attentionTimeRemaining
    }

    /** The total of the running attention timer; known in a valid plugin exactly when attention was anchored. */
    function GetCurrentAttentionDuration(): (r: Option<int>)
      reads this
      ensures r == Abs().currentAttentionDuration
      ensures Valid() ==> (r.Some? <==> Abs().lastAttentionTime.Some?)
    {
      currentAttentionDuration
    }
  }
}
