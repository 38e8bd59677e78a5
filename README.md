# Kitten Tracker, modelled in Dafny

The Kitten Tracker plugin for the RuneLite client tracks three countdowns for
a player's kitten:

- **hunger**: 30 minutes from the last feeding;
- **attention**: 39 minutes after a stroke, or 65 minutes after playing with
  wool, from the last petting;
- **growth**: three hours minus the growth the kitten reported when its age
  was last checked, plus the time since.

The plugin reads chat lines to restart the countdowns, watches each game
tick for a kitten that follows the player, and keeps the countdowns paused
in its configuration store while the kitten is away. It sends a one-shot
alert when hunger or attention runs low. An overlay shows the three
countdowns as `H:MM:SS`.

The model has these modules:

- `Wrappers`: the `Option` type, which stands for Java's nullable `Instant`
  and `Duration` fields.
- `Decimal`: digit strings, `%d` and `%02d`, and `Integer.parseInt` on the
  digit strings a regex group holds.
- `Durations`: the plugin's constants and its two remaining-time
  calculators. All times are integer milliseconds.
- `ChatText`: the substring tests of `onChatMessage`. It also holds the
  leftmost-match search of the age pattern, with its optional hours group,
  and the classification of a chat line.
- `TrackerState`: every field of the plugin as one value, and the new value
  each handler gives. The configuration store is a map from keys to
  milliseconds. The notifier is the list of messages sent.
- `TrackerProperties`: what those transitions guarantee. This includes:
  - the notification gate, and each alert going out at most once;
  - the priority order of chat dispatch;
  - that a save and a later load give back the same remaining times;
  - that a reset clears the timers and is idempotent;
  - that a tick loads or saves only when presence changes;
  - an invariant that every handler preserves.
- `TrackerTimelines`: the alerts and the growth countdown followed over time.
- `KittenTrackerPlugin`: the `Plugin` class, with the plugin's fields updated
  in place.
  - Each handler method promises the state that `TrackerState` gives it and
    preserves the invariant.
  - The NPC scan of `onGameTick` is a loop that stops at the first following
    kitten.
  - The getters are functions that read the fields.
- `KittenTrackerOverlay`: the text and colour of each overlay line, and the
  `Overlay` class. Its `Render` appends the title and the three timer lines
  to the panel's children, or does nothing while the kitten is away.

Each current time `now` is a parameter; it replaces `Instant.now()`.

### Paused timers

`saveTimers` (src/main/java/com/KittenTracker/KittenTrackerPlugin.java:301-328) stores the time each countdown has left.
`loadTimers` (src/main/java/com/KittenTracker/KittenTrackerPlugin.java:330-358) restarts each stored countdown at the moment of
loading, with that time left. So the countdowns are paused, not running,
while the kitten is away: a hunger timer saved with 10 minutes left still has
10 minutes left when it is loaded, however much later that is. The model
follows the code. `TrackerProperties.SaveLoadRoundTrip` and
`TrackerProperties.AwayAndBack` state the paused behaviour for any two
instants.

## Model

| member | source | states |
|---|---|---|
| Durations.TimeRemaining | src/main/java/com/KittenTracker/KittenTrackerPlugin.java:287-299 | unknown exactly when the anchor or the total is unknown; otherwise the total less the elapsed time, never below zero |
| Durations.GrowthTimeRemaining | src/main/java/com/KittenTracker/KittenTrackerPlugin.java:271-285 | unknown exactly when the sync time or the synced growth is unknown; otherwise three hours less (synced growth + time since sync), never below zero |
| Durations.RemainingNonIncreasing | src/main/java/com/KittenTracker/KittenTrackerPlugin.java:287-299 | a countdown never rises as time passes |
| Durations.GrowthNonIncreasing | src/main/java/com/KittenTracker/KittenTrackerPlugin.java:271-285 | the growth countdown never rises as time passes |
| Durations.RemainingLosesElapsed | src/main/java/com/KittenTracker/KittenTrackerPlugin.java:293-298 | until it reaches zero, a countdown loses exactly the time that passed |
| Decimal.ToDecimal | src/main/java/com/KittenTracker/KittenTrackerOverlay.java:68 | `%d` of a non-negative number: at least one digit, one digit exactly below 10, and a leading zero exactly for zero; `ValueOfToDecimal` states that the digits denote the number |
| Decimal.Pad2 | src/main/java/com/KittenTracker/KittenTrackerOverlay.java:68 | `%02d` of a number below 100: exactly two digits; `Pad2Value` states that they denote the number |
| Decimal.ParseInt | src/main/java/com/KittenTracker/KittenTrackerPlugin.java:194-195 | `Integer.parseInt` of a digit string succeeds exactly when its value fits in an `int`, and then gives that value |
| Decimal.ParseIntOfToDecimal | src/main/java/com/KittenTracker/KittenTrackerPlugin.java:194-195 | parsing the decimal text of any `int`-sized number gives the number back |
| Decimal.ValueOfToDecimal | src/main/java/com/KittenTracker/KittenTrackerOverlay.java:68 | the digits `%d` prints denote the number printed |
| Decimal.Pad2Value | src/main/java/com/KittenTracker/KittenTrackerOverlay.java:68 | `%02d` of a number below 100 is two digits denoting that number |
| ChatText.IsListenedType | src/main/java/com/KittenTracker/KittenTrackerPlugin.java:154-161 | the four chat categories the handler reads; every other category returns early, as `ChatOtherTypeIgnored` states |
| ChatText.Contains | src/main/java/com/KittenTracker/KittenTrackerPlugin.java:166-179 | `String.contains`: the text occurs at some index of the line; `ChatFed` and `ChatPetted` use it for the three tests |
| ChatText.MentionsFeeding | src/main/java/com/KittenTracker/KittenTrackerPlugin.java:166 | the milk or the fish text occurs; `Classify` states that it wins over every other test |
| ChatText.MentionsCare | src/main/java/com/KittenTracker/KittenTrackerPlugin.java:166-179 | one of the feeding, stroke or wool tests holds; `Classify` states that the age pattern is tried only when none does |
| ChatText.DigitRun | src/main/java/com/KittenTracker/KittenTrackerPlugin.java:67 | the longest run of digits at a position: the `\d+` of a group |
| ChatText.MinutesGroup | src/main/java/com/KittenTracker/KittenTrackerPlugin.java:67 | `(\d+) minutes?` at one index; `MinutesGroupSound` and `MinutesGroupComplete` state exactly when it matches |
| ChatText.HoursGroup | src/main/java/com/KittenTracker/KittenTrackerPlugin.java:67 | `(\d+) hours? ` at one index; `HoursGroupSound` and `HoursGroupComplete` state exactly when it matches |
| ChatText.WithHoursAt | src/main/java/com/KittenTracker/KittenTrackerPlugin.java:67 | the branch that takes the optional hours group; `WithHoursSound` and `WithHoursComplete` state it |
| ChatText.WithoutHoursAt | src/main/java/com/KittenTracker/KittenTrackerPlugin.java:67 | the branch that skips the hours group; `WithoutHoursSound` and `NoHoursBeforeMinute` state it |
| ChatText.MatchTailAt | src/main/java/com/KittenTracker/KittenTrackerPlugin.java:67 | the pattern after its prefix, hours branch first; `MatchTailSound` and `MatchTailComplete` state it |
| ChatText.MatchLeadAt | src/main/java/com/KittenTracker/KittenTrackerPlugin.java:67 | a literal prefix and then the tail; `MatchLeadSound` and `MatchLeadComplete` state it |
| ChatText.MatchAgeAt | src/main/java/com/KittenTracker/KittenTrackerPlugin.java:67 | the age pattern tried at one start; `MatchAgeSound` and `MatchAgeComplete` state that it matches exactly the pattern's text |
| ChatText.FindAge | src/main/java/com/KittenTracker/KittenTrackerPlugin.java:188-189 | the leftmost match of the age pattern in a line, as `FindAgeLeftmost` states |
| ChatText.FindFirst | src/main/java/com/KittenTracker/KittenTrackerPlugin.java:188-189 | the search `find` performs: the start it returns matches, no earlier start matches, and no result means no start matches |
| ChatText.FindAgeLeftmost | src/main/java/com/KittenTracker/KittenTrackerPlugin.java:188-189 | the age match found is the leftmost start of the pattern in the line, and none is found only when it occurs nowhere |
| ChatText.MinutesGroupSound | src/main/java/com/KittenTracker/KittenTrackerPlugin.java:67 | a matched minutes group is a non-empty digit string followed by " minute" |
| ChatText.HoursGroupSound | src/main/java/com/KittenTracker/KittenTrackerPlugin.java:67 | a matched hours group is a non-empty digit string followed by " hours " or " hour " |
| ChatText.WithHoursSound | src/main/java/com/KittenTracker/KittenTrackerPlugin.java:67 | a match with the hours group consumes the text of both groups |
| ChatText.WithoutHoursSound | src/main/java/com/KittenTracker/KittenTrackerPlugin.java:67 | a match without the hours group consumes the minutes text alone |
| ChatText.MatchTailSound | src/main/java/com/KittenTracker/KittenTrackerPlugin.java:67 | whatever follows the prefix, when it matches, consumes the text of its groups |
| ChatText.MatchLeadSound | src/main/java/com/KittenTracker/KittenTrackerPlugin.java:67 | a match at a start consumes the prefix and then its groups' text |
| ChatText.MatchAgeSound | src/main/java/com/KittenTracker/KittenTrackerPlugin.java:67 | a match of the age pattern has digit-string groups and consumes exactly their text after the prefix |
| ChatText.MinutesGroupComplete | src/main/java/com/KittenTracker/KittenTrackerPlugin.java:67 | digits followed by " minute" always match as the minutes group |
| ChatText.HoursGroupComplete | src/main/java/com/KittenTracker/KittenTrackerPlugin.java:67 | digits followed by " hours " or " hour " always match as the hours group |
| ChatText.NoHoursBeforeMinute | src/main/java/com/KittenTracker/KittenTrackerPlugin.java:67 | minutes text is never taken for the optional hours group |
| ChatText.WithHoursComplete | src/main/java/com/KittenTracker/KittenTrackerPlugin.java:67 | hours text followed by minutes text matches with both groups |
| ChatText.MatchTailComplete | src/main/java/com/KittenTracker/KittenTrackerPlugin.java:67 | any text of the groups after the prefix matches with exactly those groups |
| ChatText.MatchLeadComplete | src/main/java/com/KittenTracker/KittenTrackerPlugin.java:67 | the prefix followed by the groups' text matches at its start with exactly those groups |
| ChatText.MatchAgeComplete | src/main/java/com/KittenTracker/KittenTrackerPlugin.java:67 | every occurrence of the pattern's text matches with exactly its groups, so sound and complete lemmas together make the matcher exact |
| ChatText.Classify | src/main/java/com/KittenTracker/KittenTrackerPlugin.java:166-206 | the first test that holds decides: feeding (milk or fish) over stroke over wool over the age pattern; only an age match yields an age event, and its numbers are `int`s |
| ChatText.HoursLeft | src/main/java/com/KittenTracker/KittenTrackerPlugin.java:193-194 | the hours a report gives: zero when the hours group did not take part, the parsed group otherwise; `ClassifyAgeAnywhere` and `ClassifyMinutesOnly` use it |
| ChatText.ClassifyAgeReport | src/main/java/com/KittenTracker/KittenTrackerPlugin.java:188-199 | an age report with hours ("hour" or "hours") yields exactly its hours and minutes |
| ChatText.ClassifyMinutesOnly | src/main/java/com/KittenTracker/KittenTrackerPlugin.java:193-195 | without the hours group the hours default to zero |
| ChatText.ClassifyMinutesOverflow | src/main/java/com/KittenTracker/KittenTrackerPlugin.java:191-205 | a minutes count beyond `int` makes the report unreadable |
| ChatText.ClassifyAgeAnywhere | src/main/java/com/KittenTracker/KittenTrackerPlugin.java:188-205 | an age report anywhere in a line without feeding or petting text, with no earlier start at which the whole pattern matches, yields its hours (zero without the group) and minutes, or is unreadable when either number, hours included, does not fit in an `int` |
| TrackerState.KeyOf | src/main/java/com/KittenTracker/KittenTrackerPlugin.java:46-49 | the key a stored name denotes has that name, is canonical, and is a timer key exactly when the name is one of the four timer entries |
| TrackerState.KeyNameRoundTrip | src/main/java/com/KittenTracker/KittenTrackerPlugin.java:46-49 | a canonical key is the key its own name denotes, so each stored name has one key |
| TrackerState.StoreNamesUnique | src/main/java/com/KittenTracker/KittenTrackerPlugin.java:46-49 | in a canonical store two entries have the same name exactly when they are the same entry, so a load finds a timer under its one key |
| TrackerState.ParseBoolean | src/main/java/com/KittenTracker/KittenTrackerPlugin.java:229 | `Boolean.parseBoolean`: true exactly for a present four-letter value whose every letter is that of "true" in either case |
| TrackerState.Initial | src/main/java/com/KittenTracker/KittenTrackerPlugin.java:87-102 | the fields of a freshly built plugin over the stored entries; `InitialConsistent` states that it meets the invariant |
| TrackerState.HungerLeft | src/main/java/com/KittenTracker/KittenTrackerPlugin.java:248 | the hunger countdown from the feeding time and 30 minutes; `Durations.TimeRemaining` states its value |
| TrackerState.AttentionLeft | src/main/java/com/KittenTracker/KittenTrackerPlugin.java:249 | the attention countdown from the petting time and its total; `Durations.TimeRemaining` states its value |
| TrackerState.GrowthLeft | src/main/java/com/KittenTracker/KittenTrackerPlugin.java:247 | the growth countdown; `Durations.GrowthTimeRemaining` states its value |
| TrackerState.HungerAlertDue | src/main/java/com/KittenTracker/KittenTrackerPlugin.java:256-257 | the four conditions of the hunger alert; `NotificationGate` states that the alert goes out exactly then |
| TrackerState.AttentionAlertDue | src/main/java/com/KittenTracker/KittenTrackerPlugin.java:263-264 | the four conditions of the attention alert; `NotificationGate` states that the alert goes out exactly then |
| TrackerState.HideRemaining | src/main/java/com/KittenTracker/KittenTrackerPlugin.java:240-246 | the away branch of the recompute, as `UpdateWhileAway` states |
| TrackerState.Recompute | src/main/java/com/KittenTracker/KittenTrackerPlugin.java:247-249 | the three shown values computed at `now`, as `UpdateWhileFollowing` states |
| TrackerState.HungerAlertStep | src/main/java/com/KittenTracker/KittenTrackerPlugin.java:256-261 | the hunger half of `checkNotifications`; `NotificationGate` states when it sends |
| TrackerState.AttentionAlertStep | src/main/java/com/KittenTracker/KittenTrackerPlugin.java:263-268 | the attention half of `checkNotifications`; `NotificationGate` states when it sends |
| TrackerState.AfterCheckNotifications | src/main/java/com/KittenTracker/KittenTrackerPlugin.java:254-269 | `checkNotifications`, hunger first; `NotificationGate` and `CheckNotificationsIdempotent` state its properties |
| TrackerState.AfterUpdate | src/main/java/com/KittenTracker/KittenTrackerPlugin.java:238-252 | `updateTimersForOverlay`; `UpdateWhileAway`, `UpdateWhileFollowing`, `UpdateKeepsTimers` and `AlertsSentOnce` state its properties |
| TrackerState.ApplyChatEvent | src/main/java/com/KittenTracker/KittenTrackerPlugin.java:166-206 | the field updates of one classified chat line; `FedEvent`, `PettedEvent`, `AgeReportedEvent` and `ChatNoTimerChange` state them |
| TrackerState.AfterChatEvent | src/main/java/com/KittenTracker/KittenTrackerPlugin.java:166-208 | a classified line's field updates, then the recompute of line 208; `FedEvent`, `PettedEvent`, `AgeReportedEvent`, `ChatNoTimerChange` and `ChatEventConsistent` state it |
| TrackerState.AfterChatMessage | src/main/java/com/KittenTracker/KittenTrackerPlugin.java:152-209 | `onChatMessage`; `ChatOtherTypeIgnored`, `ChatFed`, `ChatPetted` and `ChatConsistent` state its properties |
| TrackerState.SaveHunger | src/main/java/com/KittenTracker/KittenTrackerPlugin.java:303-307 | the hunger entry of the save, as `SaveHungerEffect` states |
| TrackerState.SaveAttention | src/main/java/com/KittenTracker/KittenTrackerPlugin.java:309-313 | the remaining-attention entry of the save, as `SaveAttentionEffect` states |
| TrackerState.SaveGrowth | src/main/java/com/KittenTracker/KittenTrackerPlugin.java:315-320 | the growth entry of the save, as `SaveGrowthEffect` states |
| TrackerState.SaveAttentionDuration | src/main/java/com/KittenTracker/KittenTrackerPlugin.java:322-325 | the attention-total entry of the save, as `SaveAttentionDurationEffect` states |
| TrackerState.AfterSave | src/main/java/com/KittenTracker/KittenTrackerPlugin.java:301-328 | `saveTimers`; `SaveOnlyStore`, `SaveWrites` and the save-entry lemmas state what it writes |
| TrackerState.LoadHunger | src/main/java/com/KittenTracker/KittenTrackerPlugin.java:332-338 | the hunger part of `loadTimers`, as `LoadHungerEffect` states |
| TrackerState.LoadAttention | src/main/java/com/KittenTracker/KittenTrackerPlugin.java:340-348 | the attention part of `loadTimers`, as `LoadAttentionEffect` states |
| TrackerState.LoadGrowth | src/main/java/com/KittenTracker/KittenTrackerPlugin.java:350-355 | the growth part of `loadTimers`, as `LoadGrowthEffect` states |
| TrackerState.AfterLoad | src/main/java/com/KittenTracker/KittenTrackerPlugin.java:330-358 | `loadTimers`; `LoadWhileAway`, the load-entry lemmas and `SaveLoadRoundTrip` state its properties |
| TrackerState.Cleared | src/main/java/com/KittenTracker/KittenTrackerPlugin.java:362-373 | the clearing part of `resetTimers`, as `ResetClears` states |
| TrackerState.AfterReset | src/main/java/com/KittenTracker/KittenTrackerPlugin.java:360-377 | `resetTimers`; `ResetClears` and `ResetIdempotent` state its properties |
| TrackerState.IsFollowingKitten | src/main/java/com/KittenTracker/KittenTrackerPlugin.java:132 | an NPC is a kitten by id and interacts with the local player; `KittenTrackerPlugin.FindKitten` states its use |
| TrackerState.KittenFound | src/main/java/com/KittenTracker/KittenTrackerPlugin.java:127-138 | what the scan of `onGameTick` finds; `KittenTrackerPlugin.FindKitten` states that the loop computes it |
| TrackerState.AfterGameTick | src/main/java/com/KittenTracker/KittenTrackerPlugin.java:140-148 | `onGameTick` once the scan is done; `TickTransitions` and `TickConsistent` state its properties |
| TrackerState.AfterGameStateChanged | src/main/java/com/KittenTracker/KittenTrackerPlugin.java:214-221 | `onGameStateChanged`; `LoginScreenSaves` states its properties |
| TrackerState.LowerAscii | src/main/java/com/KittenTracker/KittenTrackerPlugin.java:229 | the letter case folding `parseBoolean` uses; `ParseBoolean` states the result |
| TrackerState.IsResetRequest | src/main/java/com/KittenTracker/KittenTrackerPlugin.java:227-229 | this group's reset control set to a true value; `ConfigChangeResets` states that exactly such an event resets |
| TrackerState.AfterConfigChanged | src/main/java/com/KittenTracker/KittenTrackerPlugin.java:225-236 | `onConfigChanged`; `ConfigChangeResets` states its properties |
| TrackerState.AfterShutDown | src/main/java/com/KittenTracker/KittenTrackerPlugin.java:116-119 | the timer part of `shutDown`; `ShutDownConsistent` states that it keeps the invariant |
| TrackerProperties.UpdateWhileAway | src/main/java/com/KittenTracker/KittenTrackerPlugin.java:240-246 | while away, the recompute clears the three shown values and changes nothing else |
| TrackerProperties.UpdateWhileFollowing | src/main/java/com/KittenTracker/KittenTrackerPlugin.java:247-251 | while following, the shown values are the three countdowns and only flags and alerts change besides |
| TrackerProperties.UpdateKeepsTimers | src/main/java/com/KittenTracker/KittenTrackerPlugin.java:238-269 | a recompute never touches the timers, the store or presence; it raises a flag only while following and within that timer's threshold |
| TrackerProperties.NotificationGate | src/main/java/com/KittenTracker/KittenTrackerPlugin.java:254-269 | each alert goes out exactly when it is enabled, not yet sent, known and within its threshold; hunger first; one message each; nothing else changes |
| TrackerProperties.CheckNotificationsIdempotent | src/main/java/com/KittenTracker/KittenTrackerPlugin.java:254-269 | a second check right after the first sends nothing |
| TrackerProperties.UpdateSendsAlertOnFlag | src/main/java/com/KittenTracker/KittenTrackerPlugin.java:238-269 | one recompute adds one alert message exactly when it raises that alert's flag, and never lowers a flag |
| TrackerProperties.AlertsSentOnce | src/main/java/com/KittenTracker/KittenTrackerPlugin.java:238-269 | over any run of recomputes each alert is sent at most once, and once exactly when its flag went up |
| TrackerProperties.ChatOtherTypeIgnored | src/main/java/com/KittenTracker/KittenTrackerPlugin.java:154-161 | lines of other categories change nothing, not even the shown values |
| TrackerProperties.FedEvent | src/main/java/com/KittenTracker/KittenTrackerPlugin.java:166-171 | feeding restarts hunger from the full 30 minutes, clears only the hunger flag and leaves the other timers and the store alone |
| TrackerProperties.ChatFed | src/main/java/com/KittenTracker/KittenTrackerPlugin.java:166 | a feeding line is the feeding event, whatever else it mentions |
| TrackerProperties.PettedEvent | src/main/java/com/KittenTracker/KittenTrackerPlugin.java:172-185 | a stroke or wool restarts attention with 39 or 65 minutes, clears only the attention flag and leaves the rest alone |
| TrackerProperties.ChatPetted | src/main/java/com/KittenTracker/KittenTrackerPlugin.java:172-185 | without feeding text, the stroke test wins over the wool test |
| TrackerProperties.AgeReportedEvent | src/main/java/com/KittenTracker/KittenTrackerPlugin.java:193-199 | an age report re-synchronises growth so that exactly the reported time is left now |
| TrackerProperties.ChatNoTimerChange | src/main/java/com/KittenTracker/KittenTrackerPlugin.java:186-208 | an unreadable age report or an unmatched line only runs the recompute (shown values and alerts) |
| TrackerProperties.SaveOnlyStore | src/main/java/com/KittenTracker/KittenTrackerPlugin.java:301-328 | saving changes the store alone |
| TrackerProperties.SaveWrites | src/main/java/com/KittenTracker/KittenTrackerPlugin.java:301-328 | saving writes each known countdown, and growth as growth so far; it removes nothing and keeps every entry outside the four timer entries (`SaveHungerEffect`, `SaveAttentionEffect`, `SaveGrowthEffect` and `SaveAttentionDurationEffect` state each write alone) |
| TrackerProperties.SaveKeepsUnknownEntries | src/main/java/com/KittenTracker/KittenTrackerPlugin.java:301-328 | a stored timer entry whose value is unknown in memory keeps its stored value through a save |
| TrackerProperties.SaveHungerEntry | src/main/java/com/KittenTracker/KittenTrackerPlugin.java:303-307 | after a save, the hunger entry is present exactly when it was before or hunger is known, and then holds the remaining time |
| TrackerProperties.SaveAttentionEntries | src/main/java/com/KittenTracker/KittenTrackerPlugin.java:309-325 | the same for the two attention entries |
| TrackerProperties.SaveGrowthEntry | src/main/java/com/KittenTracker/KittenTrackerPlugin.java:315-320 | the same for the growth entry |
| TrackerProperties.LoadHungerEffect | src/main/java/com/KittenTracker/KittenTrackerPlugin.java:332-338 | a stored hunger value becomes the time left now, and the flag is raised exactly when it is within 3 minutes; with no entry nothing changes |
| TrackerProperties.LoadAttentionEffect | src/main/java/com/KittenTracker/KittenTrackerPlugin.java:340-348 | attention is restored only when both of its entries are present, with the stored total and the stored time left |
| TrackerProperties.LoadGrowthEffect | src/main/java/com/KittenTracker/KittenTrackerPlugin.java:350-355 | stored growth is synchronised now, so three hours less the stored growth is left |
| TrackerProperties.LoadWhileAway | src/main/java/com/KittenTracker/KittenTrackerPlugin.java:330-358 | loading while away restores each stored timer, sets each flag from its threshold, leaves missing timers untouched, and keeps the shown values unknown |
| TrackerProperties.LoadHungerEntry | src/main/java/com/KittenTracker/KittenTrackerPlugin.java:332-338 | after a load the hunger countdown is the stored value, or unchanged without one |
| TrackerProperties.LoadAttentionEntries | src/main/java/com/KittenTracker/KittenTrackerPlugin.java:340-348 | after a load the attention countdown is the stored value when both entries exist, else the attention fields are unchanged |
| TrackerProperties.LoadGrowthEntry | src/main/java/com/KittenTracker/KittenTrackerPlugin.java:350-357 | after a load the growth countdown follows the stored growth, or is unchanged without it |
| TrackerProperties.SaveLoadRoundTrip | src/main/java/com/KittenTracker/KittenTrackerPlugin.java:301-358 | save then load, at any two instants: every countdown known at the save has the same time left at the load |
| TrackerProperties.ResetClears | src/main/java/com/KittenTracker/KittenTrackerPlugin.java:360-377 | reset forgets the five timer fields and both flags, removes exactly the four timer entries, and leaves the shown values unknown |
| TrackerProperties.ResetIdempotent | src/main/java/com/KittenTracker/KittenTrackerPlugin.java:360-377 | resetting twice is resetting once |
| TrackerProperties.ConfigChangeResets | src/main/java/com/KittenTracker/KittenTrackerPlugin.java:225-236 | only a true value for this group's reset control resets, and then the control is switched off; any other event changes nothing |
| TrackerProperties.ParseBooleanExamples | src/main/java/com/KittenTracker/KittenTrackerPlugin.java:229 | "true" in any case is true; "false", "yes" and an absent value are false |
| TrackerProperties.TickTransitions | src/main/java/com/KittenTracker/KittenTrackerPlugin.java:140-148 | a tick loads only when a kitten newly follows, saves only when it stops, and records the scan; only that save changes the store |
| TrackerProperties.TickLoadLeavesShownValuesUnknown | src/main/java/com/KittenTracker/KittenTrackerPlugin.java:140-143 | the recompute inside a tick's load runs while still away, so the shown values stay unknown and nothing is sent |
| TrackerProperties.LoginScreenSaves | src/main/java/com/KittenTracker/KittenTrackerPlugin.java:214-221 | the login screen saves if following and always ends with the kitten not following; other game states change nothing |
| TrackerProperties.InitialConsistent | src/main/java/com/KittenTracker/KittenTrackerPlugin.java:87-102 | the fresh plugin over a canonical store satisfies the invariant and is not following |
| TrackerProperties.UpdateConsistent | src/main/java/com/KittenTracker/KittenTrackerPlugin.java:238-252 | the recompute preserves the invariant |
| TrackerProperties.ChatEventConsistent | src/main/java/com/KittenTracker/KittenTrackerPlugin.java:166-208 | a classified chat line preserves the invariant |
| TrackerProperties.ChatConsistent | src/main/java/com/KittenTracker/KittenTrackerPlugin.java:152-209 | `onChatMessage` preserves the invariant |
| TrackerProperties.SaveKeepsStoreBacked | src/main/java/com/KittenTracker/KittenTrackerPlugin.java:301-328 | saving keeps every stored timer known in memory |
| TrackerProperties.LoadConsistent | src/main/java/com/KittenTracker/KittenTrackerPlugin.java:330-358 | loading, followed by the switch to following, preserves the invariant |
| TrackerProperties.TickConsistent | src/main/java/com/KittenTracker/KittenTrackerPlugin.java:125-149 | `onGameTick` preserves the invariant |
| TrackerProperties.GameStateConsistent | src/main/java/com/KittenTracker/KittenTrackerPlugin.java:212-222 | `onGameStateChanged` preserves the invariant |
| TrackerProperties.ResetConsistent | src/main/java/com/KittenTracker/KittenTrackerPlugin.java:360-377 | reset preserves the invariant |
| TrackerProperties.ConfigConsistent | src/main/java/com/KittenTracker/KittenTrackerPlugin.java:225-236 | `onConfigChanged` preserves the invariant |
| TrackerProperties.ShutDownConsistent | src/main/java/com/KittenTracker/KittenTrackerPlugin.java:114-119 | the save at shut-down preserves the invariant |
| TrackerProperties.AwayAndBackStates | src/main/java/com/KittenTracker/KittenTrackerPlugin.java:140-148 | a kitten leaving and coming back is a save followed by a load |
| TrackerProperties.AwayAndBackHunger | src/main/java/com/KittenTracker/KittenTrackerPlugin.java:301-358 | the hunger left when the kitten comes back is what was left when it went away |
| TrackerProperties.AwayAndBackAttention | src/main/java/com/KittenTracker/KittenTrackerPlugin.java:301-358 | the same for attention |
| TrackerProperties.AwayAndBackGrowth | src/main/java/com/KittenTracker/KittenTrackerPlugin.java:301-358 | the same for growth |
| TrackerProperties.AwayAndBack | src/main/java/com/KittenTracker/KittenTrackerPlugin.java:301-358 | leaving and coming back keeps every countdown, and the first recompute afterwards shows exactly those values |
| TrackerTimelines.HungerAlertTiming | src/main/java/com/KittenTracker/KittenTrackerPlugin.java:254-261 | after feeding, a recompute sends the hunger alert exactly when 27 of the 30 minutes have passed, as one message |
| TrackerTimelines.AttentionAlertTiming | src/main/java/com/KittenTracker/KittenTrackerPlugin.java:263-268 | after petting, a recompute sends the attention alert exactly when all but 7 minutes of its total have passed, as one message |
| TrackerTimelines.AgeReportCountsDown | src/main/java/com/KittenTracker/KittenTrackerPlugin.java:271-285 | an age report of 2 hours 15 minutes means 45 minutes grown, and 10 minutes later 2 hours 5 minutes are left |
| KittenTrackerPlugin.FindKitten | src/main/java/com/KittenTracker/KittenTrackerPlugin.java:127-138 | found exactly when logged in with a player and some kitten id interacts with that player |
| KittenTrackerPlugin.Plugin.constructor | src/main/java/com/KittenTracker/KittenTrackerPlugin.java:87-102 | every timer unknown, not following, both flags down, over the given canonical store |
| KittenTrackerPlugin.Plugin.CheckHunger | src/main/java/com/KittenTracker/KittenTrackerPlugin.java:256-261 | the hunger half of the gate |
| KittenTrackerPlugin.Plugin.CheckAttention | src/main/java/com/KittenTracker/KittenTrackerPlugin.java:263-268 | the attention half of the gate |
| KittenTrackerPlugin.Plugin.CheckNotifications | src/main/java/com/KittenTracker/KittenTrackerPlugin.java:254-269 | the fields after the gate, as `NotificationGate` describes |
| KittenTrackerPlugin.Plugin.ClearShownValues | src/main/java/com/KittenTracker/KittenTrackerPlugin.java:240-246 | the three shown values become unknown |
| KittenTrackerPlugin.Plugin.RecomputeRemaining | src/main/java/com/KittenTracker/KittenTrackerPlugin.java:247-249 | the three shown values become the countdowns at `now` |
| KittenTrackerPlugin.Plugin.UpdateTimersForOverlay | src/main/java/com/KittenTracker/KittenTrackerPlugin.java:238-252 | the fields after the recompute, as `UpdateWhileAway`, `UpdateWhileFollowing` and `UpdateKeepsTimers` describe |
| KittenTrackerPlugin.Plugin.SaveHungerTimer | src/main/java/com/KittenTracker/KittenTrackerPlugin.java:303-307 | the hunger entry of the save |
| KittenTrackerPlugin.Plugin.SaveAttentionTimer | src/main/java/com/KittenTracker/KittenTrackerPlugin.java:309-313 | the attention entry of the save |
| KittenTrackerPlugin.Plugin.SaveGrowthTimer | src/main/java/com/KittenTracker/KittenTrackerPlugin.java:315-320 | the growth entry of the save |
| KittenTrackerPlugin.Plugin.SaveAttentionDurationEntry | src/main/java/com/KittenTracker/KittenTrackerPlugin.java:322-325 | the attention-total entry of the save |
| KittenTrackerPlugin.Plugin.SaveTimers | src/main/java/com/KittenTracker/KittenTrackerPlugin.java:301-328 | the fields after the save, as `SaveWrites` describes |
| KittenTrackerPlugin.Plugin.LoadHungerTimer | src/main/java/com/KittenTracker/KittenTrackerPlugin.java:332-338 | the hunger part of the load |
| KittenTrackerPlugin.Plugin.LoadAttentionTimer | src/main/java/com/KittenTracker/KittenTrackerPlugin.java:340-348 | the attention part of the load |
| KittenTrackerPlugin.Plugin.LoadGrowthTimer | src/main/java/com/KittenTracker/KittenTrackerPlugin.java:350-355 | the growth part of the load |
| KittenTrackerPlugin.Plugin.LoadTimers | src/main/java/com/KittenTracker/KittenTrackerPlugin.java:330-358 | the fields after the load and its recompute, as `LoadWhileAway` describes |
| KittenTrackerPlugin.Plugin.ForgetHunger | src/main/java/com/KittenTracker/KittenTrackerPlugin.java:362-367 | the feeding time and the hunger flag are cleared |
| KittenTrackerPlugin.Plugin.ForgetGrowth | src/main/java/com/KittenTracker/KittenTrackerPlugin.java:364-365 | the two growth fields are cleared |
| KittenTrackerPlugin.Plugin.ForgetAttention | src/main/java/com/KittenTracker/KittenTrackerPlugin.java:363-368 | the attention anchor, total and flag are cleared |
| KittenTrackerPlugin.Plugin.UnsetStoredTimers | src/main/java/com/KittenTracker/KittenTrackerPlugin.java:370-373 | the four timer entries leave the store |
| KittenTrackerPlugin.Plugin.ClearTimers | src/main/java/com/KittenTracker/KittenTrackerPlugin.java:362-373 | all timers, flags and timer entries forgotten |
| KittenTrackerPlugin.Plugin.ResetTimers | src/main/java/com/KittenTracker/KittenTrackerPlugin.java:360-377 | the fields after the reset, as `ResetClears` describes |
| KittenTrackerPlugin.Plugin.RecordFeeding | src/main/java/com/KittenTracker/KittenTrackerPlugin.java:169-170 | the feeding time is `now` and the hunger flag is down |
| KittenTrackerPlugin.Plugin.RecordAttention | src/main/java/com/KittenTracker/KittenTrackerPlugin.java:175-184 | the petting time is `now`, with the given total, and the attention flag is down |
| KittenTrackerPlugin.Plugin.ApplyEvent | src/main/java/com/KittenTracker/KittenTrackerPlugin.java:166-206 | the field updates of one classified chat line |
| KittenTrackerPlugin.Plugin.OnChatMessage | src/main/java/com/KittenTracker/KittenTrackerPlugin.java:152-209 | the fields after a chat line, as the chat lemmas describe, keeping the invariant |
| KittenTrackerPlugin.Plugin.SetFollowing | src/main/java/com/KittenTracker/KittenTrackerPlugin.java:148 | the presence flag takes the given value |
| KittenTrackerPlugin.Plugin.OnGameTick | src/main/java/com/KittenTracker/KittenTrackerPlugin.java:125-149 | the fields after a tick, as `TickTransitions` describes, keeping the invariant |
| KittenTrackerPlugin.Plugin.OnGameStateChanged | src/main/java/com/KittenTracker/KittenTrackerPlugin.java:212-222 | the fields after a game-state change, as `LoginScreenSaves` describes, keeping the invariant |
| KittenTrackerPlugin.Plugin.OnConfigChanged | src/main/java/com/KittenTracker/KittenTrackerPlugin.java:225-236 | the fields after a configuration change, as `ConfigChangeResets` describes, keeping the invariant |
| KittenTrackerPlugin.Plugin.ShutDown | src/main/java/com/KittenTracker/KittenTrackerPlugin.java:114-119 | timers are saved exactly when the kitten follows, keeping the invariant |
| KittenTrackerPlugin.Plugin.Tick | src/main/java/com/KittenTracker/KittenTrackerPlugin.java:238-252 | one run of the scheduled recompute, keeping the invariant |
| KittenTrackerPlugin.Plugin.IsKittenFollowing | src/main/java/com/KittenTracker/KittenTrackerPlugin.java:379-382 | the presence flag of the plugin's state |
| KittenTrackerPlugin.Plugin.GetGrowthTimeRemaining | src/main/java/com/KittenTracker/KittenTrackerPlugin.java:384-387 | the growth value last computed, never negative in a valid plugin |
| KittenTrackerPlugin.Plugin.GetHungerTimeRemaining | src/main/java/com/KittenTracker/KittenTrackerPlugin.java:389-392 | the hunger value last computed, never negative in a valid plugin |
| KittenTrackerPlugin.Plugin.GetAttentionTimeRemaining | src/main/java/com/KittenTracker/KittenTrackerPlugin.java:394-397 | the attention value last computed, never negative in a valid plugin |
| KittenTrackerPlugin.Plugin.GetCurrentAttentionDuration | src/main/java/com/KittenTracker/KittenTrackerPlugin.java:399-402 | the running attention total, known in a valid plugin exactly when attention was anchored |
| KittenTrackerOverlay.JavaDiv | src/main/java/com/KittenTracker/KittenTrackerOverlay.java:68 | Java's `/` truncates toward zero: Dafny's quotient for a non-negative dividend, and for a negative one the non-positive q with b·(−q) ≤ −a < b·(−q + 1) |
| KittenTrackerOverlay.JavaRem | src/main/java/com/KittenTracker/KittenTrackerOverlay.java:68 | Java's `%`: dividend = quotient × divisor + remainder |
| KittenTrackerOverlay.FormatD | src/main/java/com/KittenTracker/KittenTrackerOverlay.java:68 | `%d` of a non-negative number is its decimal digits |
| KittenTrackerOverlay.FormatDText | src/main/java/com/KittenTracker/KittenTrackerOverlay.java:68 | `%d` of any number is a minus sign exactly when it is negative, then digits denoting its magnitude, with no leading zero |
| KittenTrackerOverlay.Format02 | src/main/java/com/KittenTracker/KittenTrackerOverlay.java:68 | `%02d` of 0..99 is two digits denoting the number |
| KittenTrackerOverlay.ParseClock | src/main/java/com/KittenTracker/KittenTrackerOverlay.java:68 | reading `H:MM:SS` text back gives a non-negative count of seconds |
| KittenTrackerOverlay.ClockFields | src/main/java/com/KittenTracker/KittenTrackerOverlay.java:67-68 | for a non-negative count, minutes and seconds are below 60, and hours·3600 + minutes·60 + seconds is the count |
| KittenTrackerOverlay.ClockHourField | src/main/java/com/KittenTracker/KittenTrackerOverlay.java:67-68 | the hour field of a non-negative time is `%d` of its whole hours: no leading zero, and a single "0" exactly below one hour |
| KittenTrackerOverlay.ClockRoundTrip | src/main/java/com/KittenTracker/KittenTrackerOverlay.java:67-68 | the text of a non-negative time reads back as its whole seconds |
| KittenTrackerOverlay.ClockSameSecond | src/main/java/com/KittenTracker/KittenTrackerOverlay.java:67-68 | two non-negative times show the same text exactly when they agree in whole seconds |
| KittenTrackerOverlay.Clock | src/main/java/com/KittenTracker/KittenTrackerOverlay.java:67-68 | the `H:MM:SS` text of a time; `ClockFields`, `ClockHourField`, `ClockRoundTrip` and `ClockSameSecond` state its properties |
| KittenTrackerOverlay.Placeholder | src/main/java/com/KittenTracker/KittenTrackerOverlay.java:82-96 | "N/A" exactly for captions other than Growth, Hunger and Attention |
| KittenTrackerOverlay.WithinPercent | src/main/java/com/KittenTracker/KittenTrackerOverlay.java:118-125 | `remaining / total <= percent / 100` compared exactly; `TimerColorBands` states the bands it gives |
| KittenTrackerOverlay.Urgency | src/main/java/com/KittenTracker/KittenTrackerOverlay.java:118-127 | the order of the banded colours, danger above warning above normal, that `TimerColorMonotone` is stated in |
| KittenTrackerOverlay.TimerColor | src/main/java/com/KittenTracker/KittenTrackerOverlay.java:111-128 | `getTimerColor`; `TimerColorGuard`, `TimerColorBands` and `TimerColorMonotone` state its properties |
| KittenTrackerOverlay.TimerLine | src/main/java/com/KittenTracker/KittenTrackerOverlay.java:60-104 | the line `addTimerLine` appends, as `TimerLineShows` states |
| KittenTrackerOverlay.Panel | src/main/java/com/KittenTracker/KittenTrackerOverlay.java:42-49 | the title and the three timer lines `render` appends, in order, as `PanelShowsTimers` states |
| KittenTrackerOverlay.TimerColorGuard | src/main/java/com/KittenTracker/KittenTrackerOverlay.java:113-116 | white exactly when the remaining time or the total is unknown, or the total is zero |
| KittenTrackerOverlay.TimerColorBands | src/main/java/com/KittenTracker/KittenTrackerOverlay.java:118-127 | for a positive total: danger at most 15% left, warning above 15% and at most 50%, normal above 50% |
| KittenTrackerOverlay.TimerColorMonotone | src/main/java/com/KittenTracker/KittenTrackerOverlay.java:118-127 | less time left never gives a less urgent colour |
| KittenTrackerOverlay.TimerLineShows | src/main/java/com/KittenTracker/KittenTrackerOverlay.java:60-104 | the left text is the caption and a colon; a known time reads back from the right text, in the growth colour exactly for Growth; an unknown time shows its hint in light grey, and light grey means unknown |
| KittenTrackerOverlay.PanelShowsTimers | src/main/java/com/KittenTracker/KittenTrackerOverlay.java:42-49 | for a consistent plugin: the title, then three lines that never show "N/A", each known time reading back as the plugin's remaining seconds |
| KittenTrackerOverlay.Overlay.constructor | src/main/java/com/KittenTracker/KittenTrackerOverlay.java:22-27 | the overlay reads the given plugin and has no children |
| KittenTrackerOverlay.Overlay.AddTimerLine | src/main/java/com/KittenTracker/KittenTrackerOverlay.java:60-104 | appends exactly the line for that timer |
| KittenTrackerOverlay.Overlay.Render | src/main/java/com/KittenTracker/KittenTrackerOverlay.java:33-52 | nothing drawn and no child added while the kitten is away; otherwise the title, then the growth, hunger and attention lines, in that order, with attention judged against the current attention total |

## Left out

- The scheduled executor of `startUp` and `shutDown` is concurrency. `Plugin.Tick` is the recompute it runs each second, called by whoever drives the model.
- `Instant.now()` is the `now` parameter. One handler can read the clock several times: `onChatMessage` at line 169 and again in the recompute at lines 277 and 293, `saveTimers` at lines 303, 309 and 317, `loadTimers` at lines 336, 346 and 354. The model uses a single `now` for all the reads of one handler, so the microseconds between them are not modelled. Durations are whole milliseconds. Nanosecond precision and the truncation of `toMillis` are not modelled.
- `long` overflow of instants and durations is not modelled; integers are unbounded.
- Access to RuneLite's `Client`, `NPC` and `GameState` is replaced by inputs. A tick receives "logged in with a local player" and the scene's NPCs as (id, interacts with the player) pairs. A game-state change receives the new state.
- `ConfigManager` is the `store` map plus the `resetTimersButton` field. `Notifier` is the `notifications` list.
- The logger, Guice injection and `provideConfig` are not modelled.
- The store uses typed keys (`ConfigKey`) instead of strings. `KeyName` gives each key's name in the store, and `KeyOf` maps a name to its key.
- `loadTimers` reads `Long` values. A stored value that is not a number is not modelled: the store holds integers only.
- `Integer.parseInt` is modelled only on non-empty digit strings. Those are the only strings the pattern's groups can hold.
- The configured colours are symbolic (`GrowthColor`, `DangerColor`, `WarningColor`, `NormalColor`).
- `KittenTrackerOverlay.TimerColor`: compares `remaining / total` with 0.15 and 0.50 exactly, not in `double` arithmetic. Rounding could only matter for a quotient within about 10^-17 of a threshold. Millisecond totals below 10^15 never come that close.
- `setPosition`, `super.render`, the panel's drawing and its `Dimension` are not modelled. `Render` returns whether it drew, and the appended children are its output.
- `KittenTrackerConfig` is an interface of defaults. Its two notification switches are the `Settings` value.
- Java regex semantics in general are not modelled, only this one pattern. The model finds the leftmost start at which the whole pattern matches, trying the optional hours group before skipping it, then the minutes group. The trailing optional `s` of "minutes?" does not change the groups or the start, so the match stops after "minute".
- `KittenTrackerPlugin.Plugin.OnConfigChanged`: `setConfiguration` both stores `false` for the reset control and fires a further configuration event. That re-entrant event is not modelled. It would not reset again, because the new value is false.
