# audiomanager-lite, modelled in Dafny

This project models the voice-management engine of the audiomanager-lite Unity package and proves properties about it. It covers:

- **Voice pool** (`AudioSourcePool`, module `SourcePool`). A FIFO queue of idle voices, the creation-ordered list of every voice created, and a ceiling on on-demand creation.
- **Category mixer** (`AudioVolumeController`, module `VolumeControl`), and its guarded variant (`AudioVolume`, module `GuardedMixer`). Each keeps a volume table and a mute table per category and persists both to a key-value store. Each re-applies a category's volume to a list of voices.
- **Coordinator** (`AudioSystem`, module `Coordinator`). It owns the pool, the mixer and one list of sounding voices per category. It starts voices, hands finished one-shot voices back to the pool, and applies stop, pause, resume and volume changes to a category's list.
- **Fades** (`AudioEffectHandler`, module `Effects`). Linear ramps of a voice's volume, driven by frame times.
- **Configuration asset** (`AudioSettings`, module `Settings`). Per-category entries with defaults, first-match lookup, and a fill-in pass.
- **Legacy player** (`AudioPlayer`, module `LegacyPlayer`). The older single-class manager, with its own idle queue, volume table, lists, fades and persistence.

Shared pieces live in their own modules:

- `AudioCategories`: the six categories.
- `Mathf`: the engine's `Clamp01` and clamped `Lerp`, on reals.
- `Prefs`: the key-value store, held in memory.
- `Sources`: the engine's voice component.
- `Mixing`: the table arithmetic.
- `Persistence`: the key names, and the save and load passes.
- `Sweeps`: the loops that stop, pause or resume each voice of a list.
- `ActiveLists`: the per-category lists and completion watches that the coordinator and the legacy player share.

Modelling choices:

- **Voices.** A voice is a class. Its field `valid` stands for "the voice component has not been destroyed". The engine makes a destroyed component compare equal to null, so every null check becomes a check of `valid`. Its game object stays a child of the manager, so a destroyed voice stays in the children, still counts toward the ceiling, and is still met by the recycle scans. Its play state is `Stopped`, `Playing` or `Paused`, and `isPlaying` is false while paused.
- **Coroutines.** A completion coroutine becomes an explicit list of watches. `ResumeWatch(i)` is one resumption of watch `i`.
- **Fades.** A fade is a loop over a sequence of frames. Each frame carries a positive time step and what the host did to the voice after the step: nothing, the clip ended, or the voice was destroyed.
- **Exceptions.** An exception the engine would raise ends the operation at the point where the C# code raises it. This covers indexing the list of a category that has none, and reading a destroyed voice in the legacy player. The outcome is reported as `PlayResult.Threw` or a `threw` result.
- **The store.** The process-wide key-value store is an object passed to the constructors, not a global.
- **Pool calls.** The coordinator calls the pool as `new AudioSourcePool(transform, max)` followed by `Prewarm(initial)`, then `Get()` and `Return(source)` (`Runtime/Scripts/AudioSystem.cs:79-80`, `:204`, `:239`). The pool defines none of these. They are bound to its three-argument constructor, `GetSource` and `ReturnSource`.

Code versus design. The design notes describe the re-apply that follows a volume change as rescaling each voice by the ratio of the new category volume to the old one. The code does something else.

- The coordinator's mixer stores the new volume first. It then divides each voice's volume by that stored value and multiplies by the category's volume, so an audible category leaves every voice as it was.
- The legacy player does the same (`Runtime/Scripts/AudioPlayer.cs:259-269`).

The model follows the code, and the contracts say so: a voice keeps its volume unless the category now reads 0. The one exception is a stored volume of 0, where the code divides by 0; there the model uses the corrected division (see Findings).

## Model

| member | source | states |
|---|---|---|
| AudioCategories.AllCategoriesComplete | Runtime/Scripts/AudioCategory.cs:10-41 | Every category appears in the declaration-order sequence that the enumeration loops walk |
| AudioCategories.NameInjective | Runtime/Scripts/AudioCategory.cs:10-41 | Distinct categories print as distinct names |
| Mathf.Clamp01 | Runtime/Scripts/AudioVolumeController.cs:35 | The result lies in [0, 1], equals the input inside that interval, and is 0 below it and 1 above it |
| Mathf.Lerp | Runtime/Scripts/AudioEffectHandler.cs:42 | The interpolated value lies between the two end points, and is `b` for a parameter of 1 or more and `a` for 0 or less |
| Mathf.LerpMonotone | Runtime/Scripts/AudioEffectHandler.cs:38-44 | A later parameter never moves the interpolation back towards the start |
| SourcePool.FirstInactive | Runtime/Scripts/AudioSourcePool.cs:68-79 | Finds the first voice that is alive and not playing, with every earlier voice not such; none exactly when no voice qualifies |
| SourcePool.AudioSourcePool.constructor | Runtime/Scripts/AudioSourcePool.cs:18-24 | Creates `max(initialSize, 0)` fresh, reset, non-autoplaying voices, all queued, whatever the ceiling |
| SourcePool.AudioSourcePool.PrewarmPool | Runtime/Scripts/AudioSourcePool.cs:48-54 | Appends exactly `max(count, 0)` fresh voices to the children and to the back of the queue, keeping the earlier ones, with no ceiling check |
| SourcePool.AudioSourcePool.CreateNewSource | Runtime/Scripts/AudioSourcePool.cs:56-66 | Adds one fresh, reset, non-autoplaying voice to the children and to the back of the queue |
| SourcePool.AudioSourcePool.RecycleOldestInactiveSource | Runtime/Scripts/AudioSourcePool.cs:68-79 | Returns the first created voice that is alive and not playing, or null exactly when every voice is destroyed or playing |
| SourcePool.AudioSourcePool.GetSource | Runtime/Scripts/AudioSourcePool.cs:26-38 | With a non-empty queue, returns its front and creates nothing. Below the ceiling with an empty queue, creates exactly one voice, returns it and leaves the queue empty. At the ceiling, creates nothing and changes no queue; returns the first inactive child, not reset and not dequeued, or null. The number of voices never exceeds the larger of the previous count and the ceiling. `HandedOut` sums the three branches up as one relation between the queue and children before and after and the voice handed out |
| SourcePool.AudioSourcePool.ReturnSource | Runtime/Scripts/AudioSourcePool.cs:40-46 | A null or destroyed voice changes nothing. Otherwise the voice is reset and appended to the queue with no membership check, so returning it twice queues it twice |
| SourcePool.AudioSourcePool.ResetSource | Runtime/Scripts/AudioSourcePool.cs:81-90 | The voice is stopped, with no clip, not looping, volume 1, pitch 1, spatial blend 0 and local position at the origin |
| Settings.DefaultEntry | Runtime/Scripts/AudioSettings.cs:11-18 | A fresh entry has volume 1, is not muted, and allows 10 simultaneous sounds |
| Settings.FindFirst | Runtime/Scripts/AudioSettings.cs:44-47 | Finds the first entry for the category, with no earlier match; none exactly when no entry matches |
| Settings.AppendMissingAppendsDefaults | Runtime/Scripts/AudioSettings.cs:34-40 | The fill-in pass keeps the old list as a prefix, then a default entry for each missing category in the order given |
| Settings.MissingDefaultsIgnoresOthers | Runtime/Scripts/AudioSettings.cs:34-40 | Appending an entry for one category does not change which other categories are missing |
| Settings.AppendMissingCovers | Runtime/Scripts/AudioSettings.cs:34-40 | After the pass, every category the pass visits has an entry |
| Settings.AppendMissingComplete | Runtime/Scripts/AudioSettings.cs:34-40 | A list that already mentions every visited category is left unchanged |
| Settings.Validated | Runtime/Scripts/AudioSettings.cs:31-42 | The old entries are an unchanged prefix, followed by defaults for the missing categories in declaration order, and every category has an entry |
| Settings.ValidatedIdempotent | Runtime/Scripts/AudioSettings.cs:31-42 | Running the fill-in pass a second time appends nothing |
| Settings.AudioSettings.constructor | Runtime/Scripts/AudioSettings.cs:20-29 | No entries, initial pool size 10, ceiling 50, and both fade times 0.5 |
| Settings.AudioSettings.GetCategorySettings | Runtime/Scripts/AudioSettings.cs:44-47 | Returns the first matching entry if there is one, else a default entry for that category that is not added |
| Settings.AudioSettings.OnValidate | Runtime/Scripts/AudioSettings.cs:31-42 | The entries become the fill-in of the old entries; the pool sizes and fade times are unchanged |
| Settings.AudioSettings.Exists | Runtime/Scripts/AudioSettings.cs:37 | True exactly when some entry is for the category |
| Mixing.SetVolumeReadBack | Runtime/Scripts/AudioVolumeController.cs:25-38 | After a set, the category reads the clamped value unless muted, and every other category reads as before |
| Mixing.MuteUnmuteRestores | Runtime/Scripts/AudioVolumeController.cs:25-49 | Muting an audible category makes it read 0, and unmuting restores what it read before |
| Mixing.ControllerRelative | Runtime/Scripts/AudioVolumeController.cs:60 | Equals the unguarded quotient wherever that is defined, and the raw volume when the stored volume is 0 |
| Mixing.ControllerRescaleOutcome | Runtime/Scripts/AudioVolumeController.cs:51-64 | The rescale leaves a voice's volume as it was, unless the category reads 0, which silences it |
| Mixing.RepeatedRescaleAudible | Runtime/Scripts/AudioVolume.cs:85-93 | With a positive stored volume and no mute, any number of guarded rescales leaves the volume unchanged |
| Mixing.RepeatedRescaleSilent | Runtime/Scripts/AudioVolume.cs:85-93 | At least one guarded rescale of a muted category, or of one stored at 0, silences the voice |
| Mixing.RelativeThenScale | Runtime/Scripts/AudioPlayer.cs:263-270 | Dividing by the new volume (with the fallback at 0) and multiplying by it keeps the volume, unless the new volume is 0, which silences it |
| Mixing.ZeroVolumeDivision | Runtime/Scripts/AudioPlayer.cs:257-269 | Setting a volume of 0 or less makes the re-apply divide by 0, which has no real value; the corrected division yields silence. The same division by a stored 0 occurs in the coordinator's mixer at `Runtime/Scripts/AudioVolumeController.cs:60` |
| Persistence.KeysDistinct | Runtime/Scripts/AudioVolumeController.cs:80-93 | Different categories never share a volume, mute or legacy key, and no volume key is a mute key |
| Persistence.KeyFunctionsInjective | Runtime/Scripts/AudioVolumeController.cs:80-93 | Each of the three key functions is injective |
| Persistence.WriteAllWritten | Runtime/Scripts/AudioVolumeController.cs:80-93 | After a write pass, each visited category's key holds that category's entry |
| Persistence.WriteAllUntouched | Runtime/Scripts/AudioVolumeController.cs:80-93 | A write pass leaves every key it does not write as it was |
| Persistence.SavedTablesContents | Runtime/Scripts/AudioVolumeController.cs:80-93 | After a save, every stored volume is under its volume key as a float, every mute flag is under its mute key as 1 or 0, and every other key is unchanged |
| Persistence.InitialTablesKeys | Runtime/Scripts/AudioVolumeController.cs:71-78 | The initial tables hold exactly the configured categories |
| Persistence.InitialTablesLastEntry | Runtime/Scripts/AudioVolumeController.cs:71-78 | Each configured category takes the volume and mute flag of its last entry |
| Persistence.LoadOneMore | Runtime/Scripts/AudioVolumeController.cs:99-112 | Loading one more category changes only that category's entries, and only where its key is stored |
| Persistence.LoadedForAll | Runtime/Scripts/AudioVolumeController.cs:95-113 | Once every category has been visited, the pass has produced the full load |
| Persistence.LegacyLoadOneMore | Runtime/Scripts/AudioPlayer.cs:325-332 | Loading one more category under the legacy key changes only that category's volume |
| Persistence.SaveThenLoad | Runtime/Scripts/AudioVolumeController.cs:80-113 | A save followed by a load gives back the saved volume and mute flag of every category the loading configuration lists |
| Persistence.LegacySaveThenLoad | Runtime/Scripts/AudioPlayer.cs:314-333 | A legacy save followed by a legacy load gives back every saved volume of a listed category |
| VolumeControl.RescaleVoice | Runtime/Scripts/AudioVolumeController.cs:57-62 | One live voice keeps its volume unless the category reads 0, which silences it; nothing else about the voice changes |
| VolumeControl.AudioVolumeController.constructor | Runtime/Scripts/AudioVolumeController.cs:18-23 | The tables are the configuration entries, overridden by stored values for the configured categories only; a stored flag means muted exactly when it is 1 |
| VolumeControl.AudioVolumeController.GetCategoryVolume | Runtime/Scripts/AudioVolumeController.cs:25-31 | 0 for a muted category, else the stored volume, which is 1 when absent |
| VolumeControl.AudioVolumeController.IsCategoryMuted | Runtime/Scripts/AudioVolumeController.cs:40-43 | A category with no mute entry is not muted; otherwise its flag decides |
| VolumeControl.AudioVolumeController.GetStoredCategoryVolume | Runtime/Scripts/AudioVolumeController.cs:66-69 | The stored volume, or 1 when absent, whatever the mute flag |
| VolumeControl.AudioVolumeController.SetCategoryVolume | Runtime/Scripts/AudioVolumeController.cs:33-38 | Stores the clamped volume for that category only, changes no mute flag, rewrites both tables to the store, and leaves every other category's reading unchanged |
| VolumeControl.AudioVolumeController.SetCategoryMute | Runtime/Scripts/AudioVolumeController.cs:45-49 | Changes only that category's mute flag, rewrites both tables to the store, and makes the category read 0 when muted or its stored volume when not |
| VolumeControl.AudioVolumeController.ApplyVolumeToSources | Runtime/Scripts/AudioVolumeController.cs:51-64 | Each live listed voice keeps its volume unless the category reads 0, which silences it; null entries and destroyed voices are skipped; nothing else changes |
| VolumeControl.AudioVolumeController.InitializeVolumes | Runtime/Scripts/AudioVolumeController.cs:71-78 | Both tables gain each entry's volume and mute flag, a later entry for a category overriding an earlier one |
| VolumeControl.AudioVolumeController.SaveVolumeSettings | Runtime/Scripts/AudioVolumeController.cs:80-93 | The store becomes the save of both tables (see `SavedTablesContents`) |
| VolumeControl.AudioVolumeController.LoadVolumeSettings | Runtime/Scripts/AudioVolumeController.cs:95-113 | Stored keys override the tables, only for categories in the volume table |
| GuardedMixer.ScaleVoice | Runtime/Scripts/AudioVolume.cs:90-93 | A voice's volume becomes the guarded rescale of its old volume, and nothing else changes |
| GuardedMixer.OccurrencesPositive | Runtime/Scripts/AudioVolume.cs:88-94 | Every listed voice occurs at least once, so it is rescaled at least once |
| GuardedMixer.AudioVolume.constructor | Runtime/Scripts/AudioVolume.cs:20-25 | As for the coordinator's mixer, except that without settings both tables start empty, so every category reads 1 and not muted |
| GuardedMixer.AudioVolume.GetCategoryVolume | Runtime/Scripts/AudioVolume.cs:32-40 | 0 when muted, else the stored volume, which is 1 when absent |
| GuardedMixer.AudioVolume.IsCategoryMuted | Runtime/Scripts/AudioVolume.cs:59-62 | A category with no mute entry is not muted; otherwise its flag decides |
| GuardedMixer.AudioVolume.GetStoredCategoryVolume | Runtime/Scripts/AudioVolume.cs:97-100 | The stored volume, or 1 when absent |
| GuardedMixer.AudioVolume.SetCategoryVolume | Runtime/Scripts/AudioVolume.cs:47-52 | Stores the clamped volume for that category only, keeps the mute flags, saves both tables, and leaves other categories' readings unchanged |
| GuardedMixer.AudioVolume.SetCategoryMute | Runtime/Scripts/AudioVolume.cs:69-73 | Changes only that mute flag and saves both tables |
| GuardedMixer.AudioVolume.ApplyVolumeToSources | Runtime/Scripts/AudioVolume.cs:81-95 | No list changes nothing. Null entries and destroyed voices are skipped. With a positive stored volume, an audible category leaves each voice as it was. A category reading 0 silences every live listed voice, including the stored-0 case, which is not divided |
| GuardedMixer.AudioVolume.RescaleEach | Runtime/Scripts/AudioVolume.cs:88-94 | Each live voice receives the guarded rescale once per occurrence in the list |
| GuardedMixer.AudioVolume.InitializeVolumes | Runtime/Scripts/AudioVolume.cs:102-111 | The tables gain the configured entries, or nothing without settings |
| GuardedMixer.AudioVolume.SaveVolumeSettings | Runtime/Scripts/AudioVolume.cs:113-126 | The store becomes the save of both tables |
| GuardedMixer.AudioVolume.LoadVolumeSettings | Runtime/Scripts/AudioVolume.cs:128-146 | Stored keys override the tables, only for categories in the volume table |
| Effects.RampExtend | Runtime/Scripts/AudioEffectHandler.cs:38-44 | Adding the level for a later time keeps the sequence of levels a monotone ramp |
| Effects.Step | Runtime/Scripts/AudioEffectHandler.cs:42-43 | One frame of a fade: the volume becomes the level set, then the host may end the clip or destroy the voice; nothing else about the voice changes |
| Effects.FadeIn | Runtime/Scripts/AudioEffectHandler.cs:33-50 | No voice, or a destroyed one, means no change. Every level set lies between the start volume and the target and moves monotonically towards the target. A voice still alive when the fade ends is at exactly the target, including a duration of 0 or less. The fade ends once the elapsed time reaches the duration. Apart from the volume, only liveness and playback state can change, and only through the host: if no frame destroys the voice it stays as alive as it was, and if every frame is idle its playback state is kept |
| Effects.FadeOut | Runtime/Scripts/AudioEffectHandler.cs:52-70 | No voice, or a destroyed one, means no change. The levels ramp down towards 0. The loop ends on a destroyed voice, a voice no longer playing, or elapsed time reaching the duration. A voice alive at the end is stopped and has its start volume back. If no frame destroys the voice it stays as alive as it was. If every frame is idle, a live voice ends stopped when the fade finished and otherwise keeps its state |
| Effects.CrossFade | Runtime/Scripts/AudioEffectHandler.cs:27-31 | The incoming voice's volume is unchanged, since it fades towards its own volume; the outgoing voice, if alive at the end, is stopped with its volume restored. For each voice: if none of its frames destroys it, it stays as alive as it was. If every frame is idle, the outgoing voice ends stopped once its fade finished, and the incoming one keeps its playback state |
| Sweeps.ApplyToEach | Runtime/Scripts/AudioSystem.cs:295-305 | Every live listed voice gets the operation's play state (stop; pause only if playing; unpause only if paused), destroyed ones are skipped, and volume and setup are unchanged |
| ActiveLists.FateOf | Runtime/Scripts/AudioSystem.cs:232-241 | The wait continues exactly while the voice is alive and playing; a destroyed voice is dropped |
| ActiveLists.RemoveFirstSplits | Runtime/Scripts/AudioSystem.cs:238 | Removing a listed voice cuts the list at its first occurrence: the voices before it (none of them that voice) and after it are kept, in order |
| ActiveLists.RemoveFirstCounts | Runtime/Scripts/AudioSystem.cs:238 | Removal takes out exactly one occurrence when there is one, and nothing otherwise |
| ActiveLists.CategoryListsKeys | Runtime/Scripts/AudioSystem.cs:86-92 | There is a list for exactly the configured categories, each empty |
| ActiveLists.ListedVoicesIn | Runtime/Scripts/AudioSystem.cs:251-257 | A voice is among the listed voices of some categories exactly when one of their lists holds it |
| ActiveLists.ListedVoicesAll | Runtime/Scripts/AudioSystem.cs:251-257 | Over all categories, the listed voices are those of every list |
| ActiveLists.StopListed | Runtime/Scripts/AudioSystem.cs:251-257 | Every live voice of every list is stopped, destroyed ones are left, and nothing else about them changes |
| Coordinator.AudioSystem.constructor | Runtime/Scripts/AudioSystem.cs:57-92 | Builds the pool with its initial voices and ceiling, the mixer loaded from the configuration and the store, an empty list for each configured category, and no watches |
| Coordinator.AudioSystem.InitializeCategories | Runtime/Scripts/AudioSystem.cs:86-92 | Adds an empty list for each configured category |
| Coordinator.AudioSystem.ConfigureAudioSource | Runtime/Scripts/AudioSystem.cs:224-230 | Sets the clip and looping, the volume to the requested volume times the category's volume, and 2D playback; nothing else changes |
| Coordinator.AudioSystem.PlayInternal | Runtime/Scripts/AudioSystem.cs:200-222 | The voice handed out is the queue's front, else a new voice below the ceiling, else the first inactive child, as `HandedOut` relates the queue and children before and after. Without a clip nothing is handed out and nothing changes. Every other child is left exactly as it was. The play starts exactly when the voice handed out is alive and the category has a list. A category without a list raises after the voice was taken and set up with its clip, looping, volume and 2D playback. A started voice is appended to its category's list and playing, at the requested volume times the category's volume, in 2D, and watched exactly when it does not loop |
| Coordinator.AudioSystem.Launch | Runtime/Scripts/AudioSystem.cs:211-219 | A live voice is set up; with a list for its category it is appended, playing and watched exactly when it does not loop; without one the call raises and no list or watch changes |
| Coordinator.AudioSystem.Enlist | Runtime/Scripts/AudioSystem.cs:213-219 | Appends the voice to its category's list, starts it, and adds a watch exactly when it does not loop |
| Coordinator.AudioSystem.ResumeWatch | Runtime/Scripts/AudioSystem.cs:232-241 | While the voice is alive and playing, nothing changes. Once it is not, the watch ends. A live voice loses its first occurrence in its list and goes back to the pool, reset. A destroyed voice is left alone |
| Coordinator.AudioSystem.UpdateActiveSources | Runtime/Scripts/AudioSystem.cs:243-249 | Only the voices of that category's list, if it has one, are rescaled; they keep their volume unless the category reads 0 |
| Coordinator.AudioSystem.SetCategoryVolume | Runtime/Scripts/AudioSystem.cs:154-158 | Stores and saves the clamped volume, then re-applies it to exactly that category's list: its voices keep their volume unless the category now reads 0 |
| Coordinator.AudioSystem.SetCategoryMute | Runtime/Scripts/AudioSystem.cs:165-169 | Stores and saves the mute flag, then re-applies: muting silences the category's live voices; unmuting leaves them as they are when the stored volume is positive and silences them when it is 0 |
| Coordinator.AudioSystem.StopSourcesInList | Runtime/Scripts/AudioSystem.cs:295-305 | Stops the live voices of that list and empties it, returning nothing to the pool, so a stopped looping voice is never reclaimed; other voices are untouched |
| Coordinator.AudioSystem.StopCategory | Runtime/Scripts/AudioSystem.cs:259-265 | Stops and empties that category's list; a category without a list changes nothing |
| Coordinator.AudioSystem.StopAll | Runtime/Scripts/AudioSystem.cs:251-257 | Stops every live listed voice and empties every list, keeping the set of categories and the watches |
| Coordinator.AudioSystem.PauseCategory | Runtime/Scripts/AudioSystem.cs:267-279 | Pauses only the playing live voices of that list; no list changes |
| Coordinator.AudioSystem.ResumeCategory | Runtime/Scripts/AudioSystem.cs:281-293 | Unpauses the paused live voices of that list; no list changes |
| Coordinator.AudioSystem.PlayAtPosition | Runtime/Scripts/AudioSystem.cs:119-128 | The pool hands out a voice exactly as in `PlayInternal`, every other child is left as it was, and the play starts or raises under the same conditions. A started voice is a watched one-shot at the requested position, with spatial blend 1 |
| Coordinator.AudioSystem.PlayWithFadeIn | Runtime/Scripts/AudioSystem.cs:130-142 | The pool hands out a voice exactly as in `PlayInternal`, every other child is left as it was, and the play starts or raises under the same conditions. A negative time means the default. The voice starts at 0 and its volume stays between 0 and the category's volume, reaching it once the fade ends with the voice alive. Enough frames always end the fade. If no frame destroys the voice it is alive at the end, and if every frame is idle it is still playing |
| Coordinator.AudioSystem.FadeOut | Runtime/Scripts/AudioSystem.cs:144-152 | A null voice is ignored, and a negative time means the default; a voice alive when the fade ends is stopped with its volume restored. If no frame destroys the voice it stays as alive as it was. If every frame is idle, a live voice ends stopped when the fade finished and otherwise keeps its state |
| LegacyPlayer.FirstStop | Runtime/Scripts/AudioPlayer.cs:95-103 | The scan stops at the first child that is destroyed or not playing; none exactly when every child is alive and playing |
| LegacyPlayer.MarkMuted | Runtime/Scripts/AudioPlayer.cs:281-284 | Only the first entry for the category gets the new mute flag; no entry means no change, and the first match stays the same |
| LegacyPlayer.RelabelKeepsFirst | Runtime/Scripts/AudioPlayer.cs:281-284 | Changing entries without changing their categories keeps the first match |
| LegacyPlayer.RescaleVoice | Runtime/Scripts/AudioPlayer.cs:267-269 | A voice keeps its volume unless the new category volume is 0, which silences it |
| LegacyPlayer.RescaleList | Runtime/Scripts/AudioPlayer.cs:263-271 | Every live listed voice keeps its volume, or is silenced when the new volume is 0; nothing else changes |
| LegacyPlayer.AudioPlayer.constructor | Runtime/Scripts/AudioPlayer.cs:44-70 | The volume table is the configured volumes overridden by stored legacy keys, there is an empty list per configured category, and `max(initialPoolSize, 0)` fresh voices are queued |
| LegacyPlayer.AudioPlayer.InitializeManager | Runtime/Scripts/AudioPlayer.cs:44-70 | The same result as the constructor, from an empty player |
| LegacyPlayer.AudioPlayer.CreateAudioSource | Runtime/Scripts/AudioPlayer.cs:78-86 | Adds one fresh, non-autoplaying voice to the children and to the back of the queue |
| LegacyPlayer.AudioPlayer.ScanChildren | Runtime/Scripts/AudioPlayer.cs:95-103 | Returns the first child that is not playing, or null when all play. Reaching a destroyed child first raises |
| LegacyPlayer.ScanPick | Runtime/Scripts/AudioPlayer.cs:95-103 | The voice the recycle scan hands out is a live, non-playing child, and it is null exactly when every child plays or a destroyed child is met first |
| LegacyPlayer.AudioPlayer.GetAudioSource | Runtime/Scripts/AudioPlayer.cs:88-109 | Dequeues when the queue is non-empty; otherwise creates one voice below the ceiling; otherwise scans the children without dequeuing. Without an exception, `HandedOut` relates the queue and children before and after to the voice handed out |
| LegacyPlayer.AudioPlayer.ReturnAudioSource | Runtime/Scripts/AudioPlayer.cs:111-122 | A null or destroyed voice changes nothing. Otherwise the voice is stopped, with no clip, not looping, volume 1 and pitch 1, and queued. Its spatial blend and position are kept |
| LegacyPlayer.AudioPlayer.GetCategoryVolumeInternal | Runtime/Scripts/AudioPlayer.cs:276-279 | The stored volume, or 1 when absent |
| LegacyPlayer.AudioPlayer.Configure | Runtime/Scripts/AudioPlayer.cs:205-208 | Sets clip, looping, volume and 2D playback only |
| LegacyPlayer.AudioPlayer.PlayInternal | Runtime/Scripts/AudioPlayer.cs:198-219 | The voice handed out is the queue's front, else a new voice below the ceiling, else the recycle scan's pick, as `HandedOut` relates the queue and children before and after. Without a clip nothing is handed out and nothing changes. Every other child and the volume table are left as they were. The play starts exactly when the voice handed out is alive and the category has a list. It raises exactly when the scan meets a destroyed child first, or when a live voice was handed out for a category without a list; in the second case the voice stays set up. On success the voice is listed, playing at the requested volume times the stored category volume, and watched exactly when it does not loop |
| LegacyPlayer.AudioPlayer.Launch | Runtime/Scripts/AudioPlayer.cs:205-216 | A live voice is set up with clip, looping, the scaled volume and 2D playback; with a list for its category it is appended, playing and watched exactly when it does not loop; without one the call raises and no list or watch changes |
| LegacyPlayer.AudioPlayer.PlayAtPosition | Runtime/Scripts/AudioPlayer.cs:141-150 | The voice is handed out exactly as in `PlayInternal`, every other child and the volume table are left as they were, and the play starts or raises under the same conditions. A started voice is a watched one-shot at the position, with spatial blend 1 |
| LegacyPlayer.AudioPlayer.PlayWithFadeIn | Runtime/Scripts/AudioPlayer.cs:152-161 | The voice is handed out exactly as in `PlayInternal`, every other child and the volume table are left as they were, and the play starts or raises under the same conditions. A started voice starts at 0 and fades towards the stored category volume; with a time of 0 or less it stays at 0. If no frame destroys the voice it is alive at the end, and if every frame is idle it is still playing |
| LegacyPlayer.AudioPlayer.FadeOut | Runtime/Scripts/AudioPlayer.cs:163-170 | A null or destroyed voice is ignored. A voice alive when the fade ends is stopped and its volume is not restored: with a positive time it ends at volume 0, and with a time of 0 or less it keeps its current volume. If no frame destroys the voice it stays alive. If every frame is idle it ends stopped when the fade finished and otherwise keeps its state |
| LegacyPlayer.AudioPlayer.ResumeWatch | Runtime/Scripts/AudioPlayer.cs:221-227 | As in the coordinator, except that the reset leaves out the spatial blend: the reclaimed voice is alive, stopped, with no clip, not looping, volume 1 and pitch 1, and keeps its spatial blend, position and autoplay flag |
| LegacyPlayer.AudioPlayer.FadeIn | Runtime/Scripts/AudioPlayer.cs:229-240 | Ramps from 0, whatever the start volume, towards the target. A time of 0 or less leaves the volume untouched. A finished fade with the voice alive is at the target. If no frame destroys the voice it stays as alive as it was, and if every frame is idle its playback state is kept |
| LegacyPlayer.AudioPlayer.FadeOutCoroutine | Runtime/Scripts/AudioPlayer.cs:242-255 | Ramps down towards 0 and stops the voice at the end, without restoring its volume. If no frame destroys the voice it stays as alive as it was. If every frame is idle, a live voice ends stopped when the fade finished and otherwise keeps its state |
| LegacyPlayer.AudioPlayer.SetCategoryVolumeInternal | Runtime/Scripts/AudioPlayer.cs:257-274 | Stores the clamped volume first. A category without a list raises before saving. Otherwise the listed voices keep their volume unless the new volume is 0, and the table is saved under the legacy keys |
| LegacyPlayer.AudioPlayer.SetCategoryMuteInternal | Runtime/Scripts/AudioPlayer.cs:281-288 | There is no separate mute state. Muting stores 0. Unmuting stores the configured entry's volume, not the last volume set. The first entry's mute flag is written through. The configured pool sizes and fade times are left as they were |
| LegacyPlayer.AudioPlayer.StopAllInternal | Runtime/Scripts/AudioPlayer.cs:290-300 | Stops every live listed voice and empties every list |
| LegacyPlayer.AudioPlayer.StopCategoryInternal | Runtime/Scripts/AudioPlayer.cs:302-312 | Stops and empties that category's list; an unknown category is ignored |
| LegacyPlayer.AudioPlayer.SaveVolumeSettings | Runtime/Scripts/AudioPlayer.cs:314-321 | Every stored volume is written under its legacy key |
| LegacyPlayer.AudioPlayer.LoadVolumeSettings | Runtime/Scripts/AudioPlayer.cs:323-333 | Stored legacy keys override the volumes of the categories in the table |

## Left out

- The engine lifecycle and singletons (`Instance`, `Awake`, `DontDestroyOnLoad`), and `AddComponent`: each manager is built explicitly by its constructor.
- `Resources.Load` for clips and settings (`Play(string ...)`, `LoadSettings`, `CreateDefaultSettings`). It is a foreign asset loader; a missing clip is `None`.
- The static forwarding wrappers `Play`, `GetCategoryVolume`, `IsCategoryMuted`, `SetCategoryVolume`, `SetCategoryMute`, `StopAll` and `StopCategory` of both managers. They only call the modelled members.
- `PlayerPrefs.Save()` flushing to disk, and `Debug.Log*` calls.
- `Runtime/Scripts/VolumeSlider.cs` and `Runtime/Scripts/PlaySoundOnClick.cs`. They are UI bindings that forward to the coordinator.
- Floating point. Volumes and times are reals, so rounding, NaN and infinities are not modelled. The division by a stored volume of 0 is therefore given as a finding, with its corrected form used.
- Unity's clamping of `AudioSource.volume` to [0, 1] on assignment. Volumes are stored as computed.
- World versus local position. The managers' objects are taken to sit at the origin, so `transform.position` is modelled as the voice's local position.
- A configuration whose `categorySettings` list is itself null. A list is a value here; only the guarded mixer's missing settings object is modelled.
- Entries are values rather than shared objects. The legacy mute's write-through to the configuration entry is modelled by replacing the first matching entry (`MarkMuted`). When no entry matches, the engine writes to a throwaway default, which the model leaves out.
- Coroutine scheduling. Each completion watch is resumed on its own by `ResumeWatch`, and a fade runs to its end or through the frames it is given. The interleaving of a running fade with other calls is not modelled, nor is the order in which one frame resumes several coroutines.
- `Effects.CrossFade` requires its two voices to differ. Cross-fading a voice with itself runs two coroutines on one voice, which depends on that interleaving.
- Legacy fades on a destroyed voice: the legacy `FadeIn` that meets a destroyed voice is reported as ended at once. The engine raises at the next assignment.
- The legacy load assigns into the dictionary whose keys it is enumerating (`Runtime/Scripts/AudioPlayer.cs:325-330`). Whether that raises depends on the runtime's dictionary: some invalidate the enumerator when an existing key is overwritten, others allow it. The model follows the runtimes that allow it and performs every assignment.
- Destroying a voice's game object, which removes it from the manager's children altogether. Only the destruction of the voice component is modelled (`valid`).
- SourcePool.AudioSourcePool.ActiveSourcesCount: defined as the number of children minus the queue length, with no contract of its own. Because a voice returned twice is queued twice, it can go negative; no lower bound is claimed.
- Effects.FadeIn: the contract states that the levels form a monotone ramp between the start and the target, not that step `k` is exactly `Lerp(start, target, elapsed / duration)`. The loop invariant holds the exact value.
- Effects.FadeOut: the same as `FadeIn`; the exact value of each step is in the loop invariant only.
- LegacyPlayer.AudioPlayer.FadeIn: the same; the exact value of each step is in the loop invariant only.
- LegacyPlayer.AudioPlayer.FadeOutCoroutine: the same; the exact value of each step is in the loop invariant only.

## Findings

| source | as written | input that shows it | evidently intended | confidence | as-written member | corrected member |
|---|---|---|---|---|---|---|
| Runtime/Scripts/AudioVolumeController.cs:60 | The re-apply divides a voice's volume by the stored category volume, with no guard | `SetCategoryVolume(c, 0)` through the coordinator, while `c`'s list holds a live voice at volume 0.5: the stored volume is 0, so the division is 0.5 / 0 and the voice's volume becomes NaN | A category set to 0 silences its voices. The guarded variant falls back to the raw volume when the stored volume is not positive (`Runtime/Scripts/AudioVolume.cs:92`) | high, not executed | Mixing.ZeroVolumeDivision | Mixing.ControllerRescaleOutcome |
| Runtime/Scripts/AudioPlayer.cs:268 | The legacy re-apply divides by the category volume just stored | `SetCategoryVolume(c, 0)`, or `SetCategoryMute(c, true)` which stores 0, on the legacy player while `c`'s list holds a live voice: 0.5 / 0 makes the voice's volume NaN | Muting or zeroing a category silences its voices | high, not executed | Mixing.ZeroVolumeDivision | LegacyPlayer.RescaleVoice |
