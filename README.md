# Live channel pool of the live worker daemon

The live worker daemon serves live streams to local players. Several callers can ask for the same live channel at once, so the daemon keeps a **channel pool** (`LiveManager`). A caller's `start_channel` is answered in one of four ways:

- it joins a channel that already exists for the same resource id (rid);
- it restarts that channel when different network ports are asked for;
- it asks the **engine binding** to open a new channel;
- it fails.

Every caller gets a `ChannelHandle`. Its callback is posted at most once and is never lost. Every callback `start_channel` takes is either posted or still pending, never both (`PoolInvariant.Valid`). A callback stays pending only while its channel is started, waiting for the engine's answer (`PoolInvariant.ChannelOk`, part of the invariant). A callback for a channel the engine never answers, whose holder never stops, stays pending. A callback is answered in one of these ways:

- with the engine's result, when the engine answers, or at once with the cached result when the channel is already working;
- with `failed_some` from the pool itself, when the rid is empty or the engine refuses to open a channel (`PoolProps.StartEmptyRid`, `PoolProps.StartRefused`);
- with `operation_aborted`, when the holder gives up through `stop_channel(handle)`, when another caller restarts the channel with other ports (`PoolProps.ReconnectOldChannel`, `PoolProps.StopAtEffect`), or at `shutdown` (`PoolProps.ShutdownStops`).

The pool keeps only a bounded number of idle channels alive (`max_parallel`).

- `check_parallel` evicts the surplus. A channel that becomes idle moves to the front of the list, and `check_parallel` keeps the first idle channels in list order, so the least recently idled are evicted first.
- A once-a-second timer would stop the channels the engine binding reports as failed. Neither binding ever reports one: the in-process binding's `check_channels` returns 0 (`LiveModule.Engine.CheckChannels`), and the process binding never lists a channel, so its `check_channels` matches no exited child (`LiveModuleProxy.ValidReapsNothing`, `LiveModuleProxy.Proxy.CheckChannels`). So that branch of the timer never runs.
- The same timer expires idle channels after a grace period of 10 ticks.

There are two engine bindings:

- `LiveModule`, in process: one record per engine channel, with a one-shot callback slot.
- `LiveModuleProxy`, one forked child process per channel. The parent keeps the child's pid and the callback, and learns the result over a socket pair.

A **supernode manager** (`SSNManageModule`) runs on supernodes. It fetches the list of channels to keep open from a configured URL, starts every listed channel through the pool, and gives the previous handles back.

## How the model is organised

| module | file | models |
|---|---|---|
| `Common`, `Decimal` | common.dfy, decimal.dfy | error codes, the posted-callback record, `atoi` and decimal formatting |
| `LiveManagerTypes` | live_manager_types.dfy | `ChannelHandle`, the default port hints |
| `PoolModel` | pool_model.dfy | the pool as a value `Pool(slots, chans, posted, stops)`, and every pool operation as a function of it |
| `PoolInvariant`, `PoolOps` | pool_invariant.dfy, pool_ops.dfy | the invariant every operation keeps, and the proofs that each one keeps it |
| `PoolCheck`, `PoolProps` | pool_check.dfy, pool_props.dfy | what each operation does, for `check_parallel` and for the others |
| `LiveManager` | live_manager.dfy | the class `Manager`, whose methods (with the source's loops) are proved against the functions |
| `Handshake`, `LiveModule` | handshake.dfy, live_module.dfy | the one-shot callback slot, and the in-process binding |
| `LiveModuleProxy` | live_module_proxy.dfy | the parent side of the process binding |
| `SsnChannel`, `SsnManage` | ssn_channel.dfy, ssn_manage.dfy | the post-processing of one list entry, and the supernode manager |

Each pool channel gets a fresh identifier that is never reused.

- `slots` is `channels_`. An entry nulled by the internal stop is `None` until the `erase(remove(…, NULL))` compaction.
- `chans` holds every channel that has not been deleted.
- `posted` is the event-loop queue of `io_svc().post(bind(call_back, ec, url))`.
- `stops` lists the engine handles passed to the engine's `stop_channel`, in order.

The methods of `Manager` state `Abs() == Spec(old(Abs()), …)`, where `Spec` is the matching function of `PoolModel`.

### The invariant

The invariant `PoolInvariant.Valid` ties the pool to ghost bookkeeping:

- `held`: the cancel tokens of the handles callers still hold, per channel;
- `accepted`: every callback `start_channel` has taken.

It states four things:

- The list names each live channel exactly once.
- `nref` equals the number of handles held, and each pending callback slot matches exactly one held token.
- Only one live channel answers to a non-empty rid.
- Every accepted callback is either posted or still pending, and not both. Hence no callback is ever posted twice, and none is lost.

`Manager.StartChannel` and `Manager.StopChannel` move a handle in and out of `held`. `Ssn.OnFetchChannels` does the same for the handles the supernode keeps.

### Where the code departs from its evident design

The model follows the code in each case.

- `set_max_parallel` re-runs `check_parallel` whenever the limit changes, when it grows as well as when it shrinks (`PoolProps.SetMaxParallelEffect`).
- Evicting an idle channel that is still waiting for the engine marks it cancelled and leaves it listed. The channel is stopped only when the engine's answer arrives (`PoolProps.StopAtEffect`, `PoolProps.HandleStartCancelled`).
- The timer's failure scan posts `operation_aborted` to the callbacks of a failed channel, the same code a caller's stop gets. It scans only the channels before the first cancelled or stopped entry (`PoolProps.FailScanOne`).
- `check_parallel` limits only the idle started or working channels, to at most `max_parallel` minus the channels in use (`PoolCheck.CheckParallelBound`). It never limits the channels in use.

## Model

| member | source | states |
|---|---|---|
| Common.RemoveAll | LiveModuleProxy.cpp:288-289 | the erase-remove idiom keeps exactly the other elements and never grows the list |
| Common.RemoveAllCounts | LiveModuleProxy.cpp:288-289 | every other element is kept as often as it occurs, and every copy of the removed one is dropped |
| Common.RemoveAllAppend | LiveModuleProxy.cpp:288-289 | the survivors keep their order: removing from a concatenation is removing from each part |
| Decimal.AtoiNatToString | SSNManageModule.h:67-69 | `atoi` reads back the decimal text of any natural number |
| Decimal.AtoiStopsAtNonDigit | SSNManageModule.h:67-69 | `atoi` stops at the first non-digit, so the text after the port is ignored |
| Decimal.Atoi | SSNManageModule.h:68-69 | `atoi`: leading white space, an optional sign, then the longest digit run; `Decimal.AtoiNatToString` states that it reads back the decimal text of every natural and `Decimal.AtoiStopsAtNonDigit` that text after the digit run is ignored |
| Decimal.ToUint16 | SSNManageModule.h:50-51 | storing into a `uint16_t` gives a value below 65536, and any value already in range is kept |
| LiveManagerTypes.MakeHandle | LiveManager.h:28-39 | the handle constructor sets the channel, and the cancel token starts at 0 |
| LiveManagerTypes.DefaultHandleIsNull | LiveManager.h:28-39 | the default handle is null with token 0 |
| LiveManagerTypes.DefaultPortsNeverReconnect | LiveManager.h:93-94 | the default port hints (0, 0) can never trigger the reconnection branch |
| LiveManagerTypes.WantsReconnect | LiveManager.cpp:179 | the port test of the rid loop: both hints non-zero and one of them different from the channel's; `LiveManagerTypes.DefaultPortsNeverReconnect` states that the default hints never pass it, and `PoolProps.StartReconnect` and `PoolProps.StartReuse` state the two branches it chooses between |
| PoolModel.IndexOf | LiveManager.cpp:261-262 | `std::find`: the first index of the element, or the length exactly when it is absent |
| PoolModel.Flush | LiveManager.cpp:369-383 | every post of `response_channel` carries the cached result |
| PoolModel.FlushCallbacks | LiveManager.cpp:369-383 | `response_channel` posts exactly the non-empty callback slots, once each and in order |
| PoolModel.Int32Of | LiveManager.cpp:276-280 | conversion into a 32-bit `int` lands in [-2^31, 2^31) |
| PoolModel.CountWorking | LiveManager.cpp:277 | `count_if(find_channel_working())`, the number of listed started or working channels with a reference; `PoolCheck.CompactCounts` states that compaction keeps it and `PoolCheck.CheckParallelBound` that `check_parallel` keeps it and bounds the idle channels by the limit minus it |
| PoolModel.FindRid | LiveManager.cpp:170-206 | the rid loop stops at the first listed channel with that rid; no earlier live entry has it |
| PoolModel.FindRidFrom | LiveManager.cpp:170-206 | the rid loop from index i on: the first live entry from i with that rid, or the list's length, and no live entry between i and the result has it |
| PoolModel.SelectFailed | LiveManager.cpp:327-330 | each half of the stable partition holds exactly the entries with that failed-ness |
| PoolModel.SelectFailedSplit | LiveManager.cpp:327-330 | the two halves of the partition together have the prefix's length |
| PoolModel.FirstStopped | LiveManager.cpp:327-328 | `find_if(find_channel_stopped)`: the first cancelled or stopped entry, none before it |
| PoolModel.ReconnectShrinks | LiveManager.cpp:179-191 | stopping the old channel removes it from the channels findable by rid, so the restarting recursive call terminates |
| PoolModel.Reconnected | LiveManager.cpp:176-187 | the reconnection step: the old channel's expiry reset, its internal stop and the compaction; `PoolProps.ReconnectOldChannel` states what happens to the old channel, `PoolProps.ReconnectForgetsRid` that no live channel keeps the rid, `PoolModel.ReconnectShrinks` that the restart terminates and `PoolOps.ReconnectValid` that the invariant is kept |
| PoolModel.Compact | LiveManager.cpp:303-304 | `erase(remove(…, NULL))` as a function of the list; `PoolInvariant.CompactInv` and `PoolCheck.CompactCounts` state that it drops exactly the nulled entries and keeps the invariant and the counts |
| PoolModel.MoveToFront | LiveManager.cpp:261-262 | the erase of the channel and its insertion at the front; `PoolProps.ReleaseEffect` states that it comes first and the others keep their order |
| PoolModel.Respond | LiveManager.cpp:374-377 | `response_channel`'s update of the channel (result cached, callback vector swapped out); `LiveManager.Manager.ResponseChannel` and `PoolModel.FlushCallbacks` state its effect with the posts |
| PoolModel.Reap | LiveManager.cpp:409-414 | the deletion at the end of the internal stop, which keeps the list's length: `delete` and null when `nref` is 0, else the update; its cases are part of `PoolProps.StopAtEffect` |
| PoolModel.StopAt | LiveManager.cpp:385-415 | the internal `stop_channel` of one list entry, which keeps the list's length; `PoolProps.StopAtEffect` and `PoolInvariant.StopAtInv` state what it does by status and that it keeps the invariant |
| PoolModel.StopRange | LiveManager.cpp:331-334 | the internal stop of entries i to j-1 in turn, which keeps the list's length; `PoolProps.StopRangeOne` and `PoolInvariant.StopRangeInv` state its effect and the invariant |
| PoolModel.LeftSize | LiveManager.cpp:276-280 | the budget of `check_parallel`, a `size_t` difference stored into an `int`; `PoolCheck.LeftSizeClamp` gives its value |
| PoolModel.CheckFrom | LiveManager.cpp:283-301 | the eviction loop from index i on, which keeps the list's length; `PoolCheck.CheckFromFrame` and `PoolCheck.CheckFromRank` state which entries it stops |
| PoolModel.CheckParallel | LiveManager.cpp:273-305 | `check_parallel` as a function of the pool; `PoolCheck.CheckParallelKeeps`, `PoolCheck.CheckParallelRank`, `PoolCheck.CheckParallelBound` and `PoolCheck.CheckParallelValid` state its effect, its bound and the invariant |
| PoolModel.Join | LiveManager.cpp:228-237 | the join of `start_channel` before `check_parallel`: `++nref`, a working channel posts its cached result with token 0, any other queues the callback with its 1-based slot as token; `PoolOps.JoinInv` states that the handle names the channel and the invariant holds with the handle held and the callback accepted, and `PoolProps.StartReuse` and `PoolProps.StartCreate` state the posts and tokens |
| PoolModel.Subscribe | LiveManager.cpp:228-238 | the join followed by `check_parallel`; `PoolOps.SubscribeValid` and `PoolProps.SubscribeHeld` state that the handle names the channel with the join's token, that `check_parallel` keeps the joined channel, and that the invariant is kept |
| PoolModel.Start | LiveManager.cpp:151-239 | `start_channel` as a function of the pool; `PoolOps.StartValid` and the `PoolProps.Start*` lemmas state each branch (empty rid, reconnection, reuse, creation, refusal) |
| PoolModel.Release | LiveManager.cpp:249-263 | `stop_channel(handle)` up to `check_parallel`; `PoolProps.ReleaseEffect` and `PoolOps.ReleaseInv` state its effect and the invariant |
| PoolModel.StopHandle | LiveManager.cpp:241-271 | `stop_channel(handle)` as a function of the pool; `PoolProps.StopHandleConsumes`, `PoolProps.StopHandleKeys` and `PoolOps.StopHandleValid` state that the handle is consumed, no channel is created and the invariant is kept |
| PoolModel.HandleStart | LiveManager.cpp:348-367 | `handle_start_channel` as a function of the pool; `PoolProps.HandleStartCancelled`, `PoolProps.HandleStartWorking`, `PoolProps.HandleStartGone` and `PoolOps.HandleStartValid` state its three cases and the invariant |
| PoolModel.FailScan | LiveManager.cpp:325-335 | the partition and the stop of the failed block; `PoolProps.FailScanSlots` and `PoolProps.FailScanOne` state its effect |
| PoolModel.Dec32 | LiveManager.cpp:338 | `--expire` on a `uint32_t`; its use is stated by `PoolProps.ExpireFromOne` |
| PoolModel.ExpireFrom | LiveManager.cpp:337-341 | the expiry loop from index i on, which keeps the list's length; `PoolProps.ExpireFromOne` states its effect |
| PoolModel.HandleTimer | LiveManager.cpp:314-346 | `handle_timer` as a function of the pool; `PoolProps.TimerNotStarted`, `PoolProps.TimerRearms`, `PoolProps.HandleTimerKeys` and `PoolOps.HandleTimerValid` state its effect and the invariant |
| PoolModel.Shutdown | LiveManager.cpp:124-133 | `shutdown` as a function of the pool; `PoolProps.ShutdownStops`, `PoolProps.ShutdownKeys` and `PoolOps.ShutdownValid` state its effect and the invariant |
| PoolModel.SetMaxParallel | LiveManager.cpp:135-142 | `set_max_parallel` as a function of the pool; `PoolProps.SetMaxParallelEffect` and `PoolOps.SetMaxParallelValid` state its effect and the invariant |
| PoolInvariant.StopAtInv | LiveManager.cpp:385-415 | the internal stop keeps the invariant |
| PoolInvariant.StopRangeInv | LiveManager.cpp:331-334 | stopping a run of entries in turn keeps the invariant |
| PoolInvariant.CompactInv | LiveManager.cpp:303-304 | compaction keeps the invariant and leaves no nulled entry |
| PoolCheck.CompactCounts | LiveManager.cpp:303-304 | compaction changes neither the idle count nor the in-use count |
| PoolCheck.CheckFromFrame | LiveManager.cpp:283-301 | the eviction loop only nulls entries, deletes only the channels of nulled entries, and deletes every idle stopped channel it passes |
| PoolCheck.CheckFromRank | LiveManager.cpp:283-301 | an idle started or working channel survives the loop untouched exactly when its rank `iFindCount` is within `iLeftSize`; otherwise it is cancelled or deleted |
| PoolCheck.CheckParallelValid | LiveManager.cpp:273-305 | `check_parallel` keeps the invariant and leaves no nulled entry |
| PoolCheck.CheckParallelKeeps | LiveManager.cpp:283-304 | several guarantees, listed after this table |
| PoolCheck.CheckParallelRank | LiveManager.cpp:283-301 | the idle channel in slot j survives untouched if and only if fewer idle started or working channels than the budget precede it; otherwise it is cancelled or deleted |
| PoolCheck.CheckParallelBudget | LiveManager.cpp:276-301 | at most the wrapped budget's worth of idle started or working channels remains |
| PoolCheck.LeftSizeClamp | LiveManager.cpp:280 | with operands below 2^31, the `size_t` difference stored into an `int` is `max_parallel - active`, or negative when the limit is below the in-use count |
| PoolCheck.CheckParallelBound | LiveManager.cpp:273-305 | after `check_parallel`, the idle started or working channels number at most `max_parallel` minus those in use, and the in-use count is unchanged |
| PoolOps.SubscribeValid | LiveManager.cpp:228-238 | joining a channel that is not cancelled or stopped returns a handle on it, and keeps the invariant with that handle held and the callback accepted |
| PoolOps.StartValid | LiveManager.cpp:151-239 | every branch of `start_channel` keeps the invariant; the returned handle is held and the callback accepted |
| PoolOps.ReleaseInv | LiveManager.cpp:249-263 | giving up a held token keeps the invariant; the channel's `nref` was positive, as the source asserts |
| PoolOps.StopHandleValid | LiveManager.cpp:241-271 | `stop_channel(handle)` of a held handle keeps the invariant once the handle is dropped from the held set |
| PoolOps.HandleStartValid | LiveManager.cpp:348-367 | the engine's completion of a channel that is started, cancelled or already deleted keeps the invariant |
| PoolOps.HandleTimerValid | LiveManager.cpp:314-346 | the timer tick keeps the invariant |
| PoolOps.ShutdownValid | LiveManager.cpp:124-133 | `shutdown` keeps the invariant |
| PoolOps.SetMaxParallelValid | LiveManager.cpp:135-142 | `set_max_parallel` keeps the invariant |
| PoolProps.CheckParallelGrows | LiveManager.cpp:273-305 | `check_parallel` only appends to the posted queue and to the engine stops |
| PoolProps.StartEmptyRid | LiveManager.cpp:157-166 | an empty rid posts `failed_some` with an empty URL, returns a null handle, and changes nothing else |
| PoolProps.StartRefused | LiveManager.cpp:207-221 | an unknown rid whose engine start fails posts `failed_some`, returns a null handle, and lists nothing |
| PoolProps.FindRidLive | LiveManager.cpp:170-174 | a lookup by a non-empty rid only finds started or working channels |
| PoolProps.SubscribeHeld | LiveManager.cpp:228-238 | the handle names the channel with the token the join hands out; `check_parallel` leaves the now-held channel as joined |
| PoolProps.StartReuse | LiveManager.cpp:170-206 | reuse resets the expiry and adds one reference; a working channel answers at once from its cache with token 0, any other queues the callback and hands out its 1-based slot |
| PoolProps.StartCreate | LiveManager.cpp:207-238 | an unknown rid with an engine answer lists a new started channel at the back, holding only this callback, with token 1 |
| PoolProps.CreateOrder | LiveManager.cpp:226-238 | after `push_back` and the join, the surviving list keeps its order and still contains the new channel |
| PoolProps.ReconnectForgetsRid | LiveManager.cpp:179-187 | after the old channel is stopped, no live channel answers to the rid |
| PoolProps.ReconnectOldChannel | LiveManager.cpp:183-187 | the old channel is cancelled if it was started, or stopped (and deleted when unheld) if it was working; its rid is cleared and its references kept |
| PoolProps.StartReconnect | LiveManager.cpp:179-191 | differing port hints restart the rid on a brand-new channel with token 1; the handle is null only when the engine refuses |
| PoolProps.ReleaseEffect | LiveManager.cpp:249-263 | the release of a handle, listed after this table |
| PoolProps.StopHandleConsumes | LiveManager.cpp:244-247 | the handle comes back null, a null handle changes nothing, and a second stop with it is a no-op |
| PoolProps.StopAtEffect | LiveManager.cpp:385-415 | the internal stop by status, listed after this table |
| PoolProps.HandleStartCancelled | LiveManager.cpp:348-367 | an answer for a cancelled channel stops it, deletes it exactly when unheld, and posts nothing |
| PoolProps.HandleStartWorking | LiveManager.cpp:348-367 | an answer for a started channel makes it working whatever the code, caches the result, and posts every pending callback once, in order |
| PoolProps.HandleStartGone | LiveManager.cpp:348-367 | an answer for a deleted channel changes nothing |
| PoolProps.TimerNotStarted | LiveManager.cpp:319-321 | with the daemon not started, the tick changes nothing and is not re-armed |
| PoolProps.TimerRearms | LiveManager.cpp:342-345 | with the daemon started, the tick re-arms and leaves no nulled entry |
| PoolProps.ExpireFromOne | LiveManager.cpp:337-341 | the expiry sweep, listed after this table |
| PoolProps.StopRangeOne | LiveManager.cpp:331-334 | a channel in the stopped run ends cancelled, stopped or deleted, and is never deleted while held; others are untouched |
| PoolProps.FailScanSlots | LiveManager.cpp:325-335 | the not-failed entries come first in their old order, the list beyond the prefix is unchanged, and no channel is added |
| PoolProps.FailScanOne | LiveManager.cpp:325-335 | a failed channel in the prefix ends cancelled, stopped or deleted, and is not deleted while held; every other channel is untouched |
| PoolProps.ShutdownStops | LiveManager.cpp:124-133 | after `shutdown` every remaining channel is cancelled or stopped, no held channel is deleted, and no nulled entry is left |
| PoolProps.SetMaxParallelEffect | LiveManager.cpp:135-142 | an unchanged limit changes nothing; a new one is stored and re-runs `check_parallel`, which then respects it |
| PoolProps.StartKeys | LiveManager.cpp:151-239 | `start_channel` creates at most the one new channel |
| PoolProps.StopHandleKeys | LiveManager.cpp:241-271 | `stop_channel(handle)` creates no channel |
| PoolProps.HandleStartKeys | LiveManager.cpp:348-367 | the engine's completion creates no channel |
| PoolProps.HandleTimerKeys | LiveManager.cpp:314-346 | the timer creates no channel |
| PoolProps.ShutdownKeys | LiveManager.cpp:124-133 | `shutdown` creates no channel |
| PoolProps.SetMaxParallelKeys | LiveManager.cpp:135-142 | `set_max_parallel` creates no channel |
| LiveManager.Manager.constructor | LiveManager.cpp:94-110 | the pool starts empty with the configured limit, and the invariant holds |
| LiveManager.Manager.RidOf | LiveManager.cpp:157-161 | the rid of a URL: the `channel` parameter of the decoded `url.substr(1)`, empty when decoding gives nothing; `LiveManager.Manager.StartFrom` passes it to `PoolModel.Start`, and `PoolProps.StartEmptyRid` states the empty case |
| LiveManager.Manager.ResponseChannel | LiveManager.cpp:369-383 | caches the result, empties the callback vector, and posts each pending callback in order; nothing else changes |
| LiveManager.Manager.StopChannelAt | LiveManager.cpp:385-415 | the internal stop of one entry, as `PoolModel.StopAt` |
| LiveManager.Manager.CheckParallel | LiveManager.cpp:273-305 | the counting pass, the eviction loop and the compaction, as `PoolModel.CheckParallel` |
| LiveManager.Manager.FindChannel | LiveManager.cpp:170-206 | the rid loop returns `PoolModel.FindRid` |
| LiveManager.Manager.Subscribe | LiveManager.cpp:228-238 | the join and `check_parallel`, as `PoolModel.Subscribe` |
| LiveManager.Manager.StartChannel | LiveManager.cpp:151-239 | `start_channel` (reconnect, reuse, create, or fail) keeps the invariant, matches `PoolModel.Start`, holds the returned handle and accepts the callback |
| LiveManager.Manager.StartFrom | LiveManager.cpp:157-206 | the decode and the rid search dispatch to the four branches of `PoolModel.Start` |
| LiveManager.Manager.StartReconnect | LiveManager.cpp:179-191 | stops the old channel, compacts and starts over, as `PoolModel.Start` |
| LiveManager.Manager.StartReuse | LiveManager.cpp:174-204 | reuses the found channel, as `PoolModel.Start` |
| LiveManager.Manager.Reconnect | LiveManager.cpp:176-187 | resets the expiry, stops the entry and compacts, as `PoolModel.Reconnected` |
| LiveManager.Manager.Reuse | LiveManager.cpp:176-238 | resets the expiry and joins, as `PoolModel.Subscribe` |
| LiveManager.Manager.StartNew | LiveManager.cpp:207-238 | asks the engine, lists a new channel at the back or posts `failed_some`, as `PoolModel.Start` |
| LiveManager.Manager.StopChannel | LiveManager.cpp:241-271 | `stop_channel(handle)` keeps the invariant, matches `PoolModel.StopHandle`, nulls the handle and drops it from the held set |
| LiveManager.Manager.ReleaseHandle | LiveManager.cpp:244-270 | the body of `stop_channel(handle)`, as `PoolModel.StopHandle` |
| LiveManager.Manager.Unref | LiveManager.cpp:249-268 | aborts the caller's own slot, drops the reference and moves a newly idle channel to the front, as `PoolModel.Release` |
| LiveManager.Manager.HandleStartChannel | LiveManager.cpp:348-367 | the engine's completion keeps the invariant and matches `PoolModel.HandleStart` |
| LiveManager.Manager.Answer | LiveManager.cpp:348-367 | the body of `handle_start_channel`, as `PoolModel.HandleStart` |
| LiveManager.Manager.HandleTimer | LiveManager.cpp:314-346 | the tick keeps the invariant and matches `PoolModel.HandleTimer`, including whether it re-arms |
| LiveManager.Manager.Tick | LiveManager.cpp:319-345 | the body of `handle_timer`, as `PoolModel.HandleTimer` |
| LiveManager.Manager.StopFailed | LiveManager.cpp:325-335 | the partition and the stop of the failed block, as `PoolModel.FailScan` |
| LiveManager.Manager.ExpireIdle | LiveManager.cpp:337-341 | the expiry loop with its 32-bit decrement, as `PoolModel.ExpireFrom` |
| LiveManager.Manager.Shutdown | LiveManager.cpp:124-133 | `shutdown` keeps the invariant and matches `PoolModel.Shutdown` |
| LiveManager.Manager.StopAll | LiveManager.cpp:124-133 | the stop loop and the compaction, as `PoolModel.Shutdown` |
| LiveManager.Manager.SetMaxParallel | LiveManager.cpp:135-142 | keeps the invariant and matches `PoolModel.SetMaxParallel`, limit included |
| Handshake.Step | LiveModule.cpp:103-146 | one event on a one-shot callback slot, as `LiveModule` (LiveModule.cpp:103-146) and `LiveModuleProxy` (LiveModuleProxy.cpp:235-252 and 280-296) both handle it: no event leaves a callback pending, a post is made exactly when one was pending, and it goes to that callback; `Handshake.OneShot` states both orders of two events |
| Handshake.OneShot | LiveModule.cpp:103-146 | for any two events on a pending record, stop then completion or completion then stop, `Step` posts the callback exactly once, with the first event's result, and the second event deletes the record. Both bindings' stop and completion methods are stated as this `Step` |
| LiveModule.ClampPeerType | LiveModule.cpp:53-56 | the peer type ends in [t_client, t_ssn]; a valid one is kept, any other becomes t_sn |
| LiveModule.HookError | LiveModule.cpp:165-175 | the hook reports success if and only if the message is the play message; any other message is `failed_some` |
| LiveModule.PlayUrl | LiveModule.cpp:136-142 | the play URL is `http://127.0.0.1:` followed by the port, then `/1.asf` |
| LiveModule.PlayUrlNamesPort | LiveModule.cpp:136-142 | the port can be read back from the play URL |
| LiveModule.ResultUrl | LiveModule.cpp:128-146 | the callback gets the play URL on success and the empty string on error |
| LiveModule.EngineUrl | LiveModule.cpp:92-93 | the engine is asked for `synacast:/` followed by the token |
| LiveModule.Engine.constructor | LiveModule.cpp:46-62 | the binding starts with no record and the clamped peer type |
| LiveModule.Engine.StartChannel | LiveModule.cpp:86-101 | a record with the engine's handle and the callback is created if and only if the engine answers non-null; the engine call is logged |
| LiveModule.Engine.StopChannel | LiveModule.cpp:103-118 | stops the engine channel and clears the record's engine handle; the record's new stage and the posts are `Handshake.Step` of its old stage on a stop, so a pending callback is posted with `operation_aborted` and an already posted one makes the stop delete the record; every other record is unchanged |
| LiveModule.Engine.HandleCallBack | LiveModule.cpp:120-146 | the record's new stage and the posts are `Handshake.Step` of its old stage on a completion carrying the hook's code and the result URL; its engine handle and every other record are unchanged |
| LiveModule.Engine.CheckChannels | LiveModule.h:49-53 | this binding reports no failed channel and leaves the vector unchanged |
| LiveModuleProxy.Encode | LiveModuleProxy.cpp:107-118 | a message is an error code followed by a string |
| LiveModuleProxy.Decode | LiveModuleProxy.cpp:83-99 | reading succeeds if and only if the buffer starts with an error code and then a string, and returns those two |
| LiveModuleProxy.DecodeEncode | LiveModuleProxy.cpp:147-158 | the parent reads back exactly what the child wrote, whatever follows |
| LiveModuleProxy.ParentRead | LiveModuleProxy.cpp:83-99 | a failed read gives its own error and an empty URL; a successful one decodes the report |
| LiveModuleProxy.FindByPid | LiveModuleProxy.cpp:254-267 | the first listed channel whose child has this pid, none before it |
| LiveModuleProxy.Reaped | LiveModuleProxy.cpp:261-274 | the matched channels are listed ones, at most one per exited pid |
| LiveModuleProxy.ReapedStep | LiveModuleProxy.cpp:265-272 | each further exited pid appends its matching channel, or nothing |
| LiveModuleProxy.ValidReapsNothing | LiveModuleProxy.cpp:261-274 | on every valid parent, whose `channels_` stays empty because `start_channel` never lists a channel (LiveModuleProxy.cpp:189-233) and the stops only erase, no exited child is ever matched, whatever `waitpid` reports |
| LiveModuleProxy.Proxy.constructor | LiveModuleProxy.cpp:170-174 | the parent starts with no channel |
| LiveModuleProxy.Proxy.StartChannel | LiveModuleProxy.cpp:189-233 | a forked child gets a channel with its pid and the callback; a failed fork returns null; nothing is listed |
| LiveModuleProxy.Proxy.StopChannel | LiveModuleProxy.cpp:235-252 | writes the stop message (`success`, empty string) to the child; the channel's new stage and the posts are `Handshake.Step` of its old stage on a stop; a deleted channel is also erased from `channels_`; its pid and every other channel are unchanged |
| LiveModuleProxy.Proxy.HandleStartChannel | LiveModuleProxy.cpp:280-296 | the channel's new stage and the posts are `Handshake.Step` of its old stage on a completion with the child's code and URL; a deleted channel is also erased from `channels_`; nothing is written to the child, and every other channel is unchanged |
| LiveModuleProxy.Proxy.Settle | LiveModuleProxy.cpp:280-296 | the part the stop and the completion share: the channel's new stage and posts are `Handshake.Step` of its old stage on the event, a deleted channel is erased from `channels_`, nothing is written to the child, and the other channels are unchanged |
| LiveModuleProxy.Proxy.HandleParentRead | LiveModuleProxy.cpp:83-99 | an undecodable report changes nothing; otherwise the read error or the decoded (code, URL) completes the channel exactly as `HandleStartChannel` does, stated as `Handshake.Step`; nothing is written to the child |
| LiveModuleProxy.Proxy.CheckChannels | LiveModuleProxy.cpp:261-274 | appends the channel of each exited listed child in order, and returns the vector's whole size; on a valid parent the vector is left as it was |
| SsnChannel.FindFirstOf | SSNManageModule.h:67 | `find_first_of` stored into an `int`: the first index holding one of the characters, or -1 |
| SsnChannel.SplitPorts | SSNManageModule.h:67-69 | both ports are below 65536 |
| SsnChannel.SplitPortsAtColon | SSNManageModule.h:67-69 | with a ':', the TCP port is read before the first one and the UDP port after it |
| SsnChannel.SplitPortsNoColon | SSNManageModule.h:67-69 | with no ':', both ports are read from the whole text |
| SsnChannel.SplitPortsRoundTrip | SSNManageModule.h:67-69 | the split reads back any pair of ports written as "tcp:udp" |
| SsnChannel.StripHeadAsWritten | SSNManageModule.h:71-75 | the head test as written: any first character from the head's character set cuts 10 characters, and throws on a shorter URL |
| SsnChannel.StripHeadAsWrittenCutsNonHead | SSNManageModule.h:71-75 | "s1234567890abc" does not start with the head, yet becomes "0abc" |
| SsnChannel.StripHeadAsWrittenThrows | SSNManageModule.h:71-75 | "a" makes `substr` throw |
| SsnChannel.StripHead | SSNManageModule.h:71-75 | the head is cut if and only if the URL starts with it; never throws |
| SsnChannel.StripHeadInvertsEngineUrl | SSNManageModule.h:71-75 | stripping undoes the head the engine binding prepends, and prepending restores a stripped URL |
| SsnChannel.StripHeadAgrees | SSNManageModule.h:71-75 | the corrected strip agrees with the code on URLs that start with the head or with a character outside its set |
| SsnChannel.ParseChannel | SSNManageModule.h:60-77 | an entry keeps its id, gets ports in range from the split, and the stripped URL |
| SsnManage.NormalizeSnType | SSNManageModule.cpp:46-50 | the type reads as 1 or 2; a valid one is kept, any other becomes "1" |
| SsnManage.SncUrl | SSNManageModule.cpp:52-53 | the fetch URL extends the base with both query parameters |
| SsnManage.SncUrlParts | SSNManageModule.cpp:52-53 | the base, `?ip=`, the address, `&type=` and a valid type can be read back at fixed offsets |
| SsnManage.FirstEmptyUrl | SSNManageModule.cpp:123-137 | the index of the first entry whose stripped URL is empty (the one whose start throws), or the length |
| SsnManage.StartList | SSNManageModule.cpp:123-137 | the loop of `on_fetch_channels` as a fold of `PoolModel.Start` over the parsed entries, up to the first that throws; `SsnManage.Ssn.StartAll` is proved equal to it and `SsnManage.Ssn.OnFetchChannels` builds on it |
| SsnManage.GiveBackList | SSNManageModule.cpp:79-87 | the loop of `ClearOldChannel` as a fold of `PoolModel.StopHandle` over the handles, each stop keeping the invariant; `SsnManage.Ssn.ClearOldChannel` and `SsnManage.Ssn.Shutdown` are proved equal to it |
| SsnManage.Ssn.constructor | SSNManageModule.cpp:27-58 | the manager holds no handle and fetches from `SncUrl` of the configuration |
| SsnManage.Ssn.Shutdown | SSNManageModule.cpp:73-77 | the pool ends as `stop_channel` of every stored handle, in order, leaves it (`GiveBackList`); the list is emptied, the limit and the id counter stay, and exactly those handles stop being held |
| SsnManage.Ssn.ClearOldChannel | SSNManageModule.cpp:79-87 | the pool ends as `stop_channel` of every stored handle, once each and in order, leaves it (`GiveBackList`); the list is emptied; the limit, the id counter and the handles kept elsewhere stay |
| SsnManage.Ssn.GiveBack | SSNManageModule.cpp:83 | the pool ends as `PoolModel.StopHandle` of the handle leaves it, keeping its invariant, its limit and its id counter; the handle stops being held |
| SsnManage.Ssn.Open | SSNManageModule.cpp:127-128 | the pool and the handle are `PoolModel.Start` of the URL, the ports and the callback; the handle is held and the callback accepted; the limit stays |
| SsnManage.Ssn.StartAll | SSNManageModule.cpp:123-137 | the pool and the returned handles are the fold `StartList` of `start_channel` over the entries in order (the k-th with `ParseChannel(raws[k])` and the engine's k-th answer), up to the first entry that throws; the non-null handles are collected, all of them held, and each callback accepted; the limit stays |
| SsnManage.Ssn.OnFetchChannels | SSNManageModule.cpp:110-152 | the handover from the old handles to the new ones, listed after this table |

The rows marked "listed after this table" state these guarantees.

- **PoolCheck.CheckParallelKeeps:**
  - the survivors keep their order, and no nulled entry is left;
  - held and cancelled channels are untouched;
  - idle stopped channels are deleted, and other channels are only ever stopped;
  - a listed survivor stays listed;
  - the in-use count is unchanged.
- **PoolProps.ReleaseEffect:**
  - only slot t-1 is emptied, and its callback is posted with `operation_aborted`;
  - `nref` drops by one;
  - a channel that becomes idle and is not torn down gets expiry 10 and moves to the front, while the others keep their order;
  - nothing else changes.
- **PoolProps.StopAtEffect:**
  - a started channel is cancelled, its rid and handle are cleared, its callbacks are posted with `operation_aborted` in order, and its engine is stopped;
  - a working channel is stopped, its engine is stopped, and it is deleted exactly when unheld;
  - a cancelled channel is untouched;
  - a stopped channel is deleted exactly when unheld.
- **PoolProps.ExpireFromOne:**
  - a held channel is untouched, and so is an unlisted one;
  - an idle channel's 32-bit expiry is decremented, and when it reaches 0 the channel is stopped, then deleted or cancelled.
- **SsnManage.Ssn.OnFetchChannels:**
  - after a successful fetch the entries are started as `StartAll` states: the pool passes through the fold `StartList` of `start_channel`, and the returned handles are that fold's;
  - then every old handle is given back in order, so the pool ends as `GiveBackList` of the old list applied to the pool the starts left;
  - the non-null new handles are stored, and every one names a live channel;
  - an empty URL (where `url.substr(1)` throws) ends the call after the starts before it: the pool is the fold's, the stored list is as it was, and the channels started before stay held;
  - a failed fetch starts nothing and gives back everything;
  - the limit stays in every case.

## Left out

- **Machinery not modelled:**
  - Logging, `dump_channels` and `get_channel_status`: diagnostics only. The media port of a started channel is a parameter of `Engine.HandleCallBack`.
  - Timer arming, the event loop and threading. A post is recorded in `posted` and never run. The timer's re-arming is the returned boolean.
  - The native engine, `base64_decode` and `map_find`. They are parameters: the engine's answer, `decodeToken` and `channelParam`.
  - The HTTP fetch of the channel list, its XML archive, and `TextOArchive`/`TextIArchive` text. The fetched entries, the success flag and the archive fields are parameters or the `Field` values.
  - The pool's own `startup`, the supernode's `startup` and its 60-second timer: they only arm timers.
- **Narrowed inputs:**
  - `LiveManager.Manager.StartChannel` requires `|url| >= 1`. The source throws `std::out_of_range` from `url.substr(1)` on an empty URL. The supernode models that throw as its `thrown` result.
  - `LiveManager.Manager.HandleStartChannel` requires the channel to be awaiting the engine, as the engine completes each start once.
- **Not modelled:**
  - The double `synacast:/` prefix: `start_channel` prepends it to the URL it hands the engine (LiveManager.cpp:214), and the in-process binding prepends it again. The pool's engine call takes the answer only, so the text it passes is not modelled.
  - The child branch of `LiveModuleProxy::start_channel`, with `handle_child_read_some` and `handle_stop_channel`. It runs in another process, calls into the in-process binding, and stops the daemon.
  - The deferral of `call_back_hook` through `post`. `Engine.HandleCallBack` is the hook followed by the deferred inner handler.
  - `LiveModuleProxy.Proxy.HandleParentRead` does not model a report that fails to decode in `handle_parent_read_some`. With `NDEBUG` the `assert` after the decode is compiled out, and LiveModuleProxy.cpp:98 calls `call_back(ec, url)` with whatever the archive left in `ec` and `url`; without it the `assert` aborts. `HandleParentRead` returns `false` and changes nothing in both cases, since what a failed read leaves is not modelled.
  - `atoi` overflow, which is undefined behaviour in C. `Atoi` is unbounded, and the store into `uint16_t` is explicit.
  - `on_channel_ready`: it only logs.
- **Integer widths:**
  - `LiveManager.Manager.StartChannel` takes the port hints `tcp` and `udp` as `nat`; the source's are `uint16_t` (LiveManager.h:66-67). The supernode only passes ports below 65536 (`SsnChannel.ParseChannel`), but a larger value is not truncated by the pool.
  - `LiveManager.Manager.constructor` takes `maxParallel` as a `nat`. The source parses the setting into an `int` and stores it into a `size_t` (LiveManager.cpp:100-109), so a negative setting would become a huge limit; the model starts from the parsed limit. `check_parallel`'s own `size_t` and `int` arithmetic is modelled (`PoolModel.LeftSize`).
  - A channel's `nref` is a `nat`; the source's is `uint32_t` (LiveManager.cpp:59). Its wrap-around would take 2^32 handles on one channel.
- **The head strip of a list entry:**
  - `SsnChannel.ParseChannel`, and through it `SsnManage.Ssn.StartAll` and `SsnManage.Ssn.OnFetchChannels`, use the corrected strip `SsnChannel.StripHead`, not the code's test (see Findings). This has two consequences. An entry URL such as "abcdefghijklm", whose first character is one of the head's characters, is started unchanged, where the code starts "klm". An entry URL such as "a" is started as "a", where the code's `substr` throws `std::out_of_range` while the list is read (`ia >> channels`, SSNManageModule.cpp:119), before any start; the code then starts nothing and keeps `channel_` as it was.
- **Weaker contracts:**
  - `SsnManage.Ssn.ClearOldChannel` does not state that the handles kept elsewhere name live channels. `SsnManage.Ssn.OnFetchChannels` states it for the new list.
  - `SsnManage.NonNull` and `SsnManage.Repeat` are helpers whose contracts state only what the proofs above use.

## Findings

| source | as written | input that shows it | evidently intended | confidence | as-written member | corrected member |
|---|---|---|---|---|---|---|
| SSNManageModule.h:71-75 | `find_first_of(LIVESTEAM_HEAD) == 0` holds whenever the first character is any of the characters of `synacast:/`. Then 10 characters are cut. | "s1234567890abc" becomes "0abc"; "a" makes `substr` throw `std::out_of_range` | cut the head only when the URL starts with `synacast:/` | not executed | SsnChannel.StripHeadAsWrittenCutsNonHead | SsnChannel.StripHead |

The as-written strip is `SsnChannel.StripHeadAsWritten`. `SsnChannel.StripHeadAsWrittenThrows` shows the throw. `SsnChannel.StripHead` is the strip the rest of the model uses (`SsnChannel.ParseChannel`). `SsnChannel.StripHeadInvertsEngineUrl` proves that it exactly undoes the head the engine binding prepends.
