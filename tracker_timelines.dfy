/**
 * When the alerts go out, followed over time: after a feeding or a petting
 * the kitten stays with the player and the scheduler recomputes.
 */
module TrackerTimelines {
  import opened Wrappers
  import opened Durations
  import opened ChatText
  import opened TrackerState
  import opened TrackerProperties

  /**
   * After feeding at `fed`, a later recompute sends the hunger alert
   * exactly when 27 of the 30 minutes have passed, and then only once.
   */
  lemma HungerAlertTiming(st: State, cfg: Settings, fed: int, now: int)
    requires st.kittenFollowing && cfg.notifyOnHunger && fed <= now
    ensures var a := AfterChatEvent(st, cfg, Fed, fed);
      var b := AfterUpdate(a, cfg, now);
      !a.hungerNotificationSent
      && b.hungerTimeRemaining == Some(Max(0, HungerTime - (now - fed)))
      && (b.hungerNotificationSent <==> now - fed >= HungerTime - HungerNotificationThreshold)
      && Count(b.notifications, HungerMessage)
         == Count(a.notifications, HungerMessage) + (if b.hungerNotificationSent then 1 else 0)
  {
    var a := AfterChatEvent(st, cfg, Fed, fed);
    FedEvent(st, cfg, fed);
    UpdateWhileFollowing(a, cfg, now);
    UpdateSendsAlertOnFlag(a, cfg, now);
    NotificationGate(Recompute(a, now), cfg);
  }

  /**
   * After a petting at `petted`, a later recompute sends the attention
   * alert exactly when all but 7 minutes of its total have passed.
   */
  lemma AttentionAlertTiming(st: State, cfg: Settings, e: ChatEvent, petted: int, now: int)
    requires e == Stroked || e == PlayedWithWool
    requires st.kittenFollowing && cfg.notifyOnAttention && petted <= now
    ensures var a := AfterChatEvent(st, cfg, e, petted);
      var b := AfterUpdate(a, cfg, now);
      var total := if e == Stroked then AttentionTimeStroke else AttentionTimeWool;
      !a.attentionNotificationSent
      && b.attentionTimeRemaining == Some(Max(0, total - (now - petted)))
      && (b.attentionNotificationSent <==> now - petted >= total - AttentionNotificationThreshold)
      && Count(b.notifications, AttentionMessage)
         == Count(a.notifications, AttentionMessage) + (if b.attentionNotificationSent then 1 else 0)
  {
    var a := AfterChatEvent(st, cfg, e, petted);
    PettedEvent(st, cfg, e, petted);
    UpdateWhileFollowing(a, cfg, now);
    UpdateSendsAlertOnFlag(a, cfg, now);
    NotificationGate(Recompute(a, now), cfg);
  }

  /** An age report of 2 hours 15 minutes, 10 minutes later, leaves 2 hours 5 minutes. */
  lemma AgeReportCountsDown(st: State, cfg: Settings, reported: int)
    requires st.kittenFollowing
    ensures var a := AfterChatEvent(st, cfg, AgeReported(2, 15), reported);
      a.syncedGrowthDuration == Some(45 * Minute)
      && AfterUpdate(a, cfg, reported + 10 * Minute).growthTimeRemaining == Some(2 * Hour + 5 * Minute)
  {
    var a := AfterChatEvent(st, cfg, AgeReported(2, 15), reported);
    AgeReportedEvent(st, cfg, 2, 15, reported);
    UpdateWhileFollowing(a, cfg, reported + 10 * Minute);
  }
}
