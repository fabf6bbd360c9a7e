# A verified model of the controller

The repository drives coding agents: it polls GitHub for news, watches cloud
runs, reconciles a project board, paces work against subscription pools, and
posts status updates. This project models its state machines and schedulers in
Dafny and proves what they are for. `dafny verify dfyconfig.toml` checks it all.

Where the source updates state in place or loops, the model is a method with
loops proved against a specification function; what the source promises is then
proved about that function, over whole runs. GitHub's answers, clocks, saves and
deaths of the process are parameters, so every claim holds for all of them.

No lemma uses automatic induction: in Dafny 4.11 its hypothesis can be false of a
lemma that selects a field of a sequence's element in its `requires`, so lemmas
carry `{:induction false}` wherever it would apply.

- **News (bot-poll).** `News` is what one run's outputs make news; `Ageing` and
  `NewsHistory` are the seen-sets and the event memory over any history of
  sweeps and hot cycles; `OperatorEvents` is the grouping of reviews and
  comments; `Paging` the conditional reads (sections 13.1.2 and 15.4.5 of
  RFC 9110), an entity tag being an injective function of a page's body;
  `HotCycle` the hot cycle on its copy of the state and `HotRuns` its runs, with
  failing cycles, sweeps, reports, saves and deaths in any order, and what was
  printed in them; `SweepLoop` a check of
  bot-sweep's directory; `PollRuns` the whole --from-sweep poll as a state
  machine, printing before saving, with a crash between any two steps.
- **Run watch.** `RunWatch` is the cancel-and-recover protocol against a log of
  what happened, with saves that work, fail or are the last thing the process
  does; `RunHealth` the verdicts it acts on, and when they stand later on the
  same evidence: a rolling window lets a failing verdict end, and a stall shorter
  than the window turn failing, with no new activity.
- **Reconcile and pacing.** `Edge` (edge triggering and carrying over),
  `Candidates`, `Slots` (slots and auto-dispatch), `Pools` (pace and cost, with
  exact numbers).
- **Small automata.** `Budgets`, `Completion`, `Notifications` (with a death at
  any write of its three files), `StatusText`, `StatusPosts`.
- **Scheduler.** `ContentRefs` (URLs and what is emitted) and `SchedRules`
  (observation, rules, their JavaScript originals).

Times are integer milliseconds. Digests and fingerprints are abstract values.

## Where the code does not do what it is meant to

Each is stated with its exact condition, and has an input or a run that shows it.

- bot-poll promises every sweep since its first check (the comment at
  crates/bot-poll/src/main.rs:682-684). A process that dies between reading its
  first sweep and saving loses that start: the next one begins at the newest
  sweep, and the ones between are never evaluated. `PollRuns.FromFirstRead` says
  exactly when the promise holds; `PollRuns.ReadAndLost` is a run without it.
  From the first sweep *saved* on, it holds always (`PollRuns.NeverVanishes`).
- The hot cycle's cursor can move back: a first hot cycle sets it to now while
  no sweep can be read, and a sweep that started before sets it to its own
  start. Activity in between on pages that do not change is then not told by a
  hot cycle: `HotRuns.MissedByMovingBack` is a run of two cycles and a sweep's
  start. `HotRuns.StaysToldIff` gives the condition on the start, and
  `HotRuns.AlwaysFromCursor` carries it over runs; `toldFrom` of the state is the
  time from which everything is told in any case.
- The run watch counts a run's owners by how its URL is spelled: two items whose
  URLs differ in zeros before the number both pass as sole owner of one run
  (`RunWatch.TwoSoleOwners`, `RunWatch.SoleOfNumber`).
- An item goes back to Todo on a saved *intent* to cancel: a process that dies
  between the intent's save and the request, or whose save fails and is made up
  for later, never sends it (`RunWatch.NeverAsked` is a run). It was sent exactly
  when the intent's own save worked and the process lived on (`RunWatch.SentIff`,
  `RunWatch.TodoJustified`); with every save working, always (`RunWatch.AskedFor`).
- The notification poll writes its cursor before its work: a death between the two
  loses what the poll's pages brought and could not settle, and a death before the
  news is printed loses the news. `Notifications.LosesThread` is a run;
  `Notifications.Poller.Poll` says exactly what is lost, and
  `Notifications.Poller.Polls` when nothing is, over any run.
- While the sweep's drive step fails, a pull request whose drive only waits is no
  longer covered, so a health action for it can fire (`Edge.UncoveredFires`, and
  `Edge.FiresMeanwhile` over one pull request); the recovered pass is quiet as
  meant (`Edge.RecoversQuietly`).
- `next_dispatch_at` drops the fraction of a millisecond, so a pool can still be
  held at it, for one millisecond (`Pools.NextDispatch`, `Pools.HeldAtNext`).
- The completion tracker takes a task's start and its end in either order, but for
  the entry of a tool use whose own block comes between them: what is outstanding
  is the same either way (`Completion.EitherOrder`, `Completion.OrderSeen`).
- It keeps tools and tasks in one map by strings: a finished
  task whose id is spelled like a tool's key can be outstanding again
  (`Completion.FinishedForGood`, `Completion.OutstandingAgain`).
- A status update posted and not saved, and recovered from a compact marker,
  forgets when items moved: their movement starts again from timestamps
  (`StatusPosts.ForgetsMovement`; `StatusPosts.MovedAtIs` is the whole rule).
- The Rust and the JavaScript rules name some Branch texts differently
  (`ContentRefs.SameIdentity`): a board id, a name of dots, a number too large
  or with zeros before it, and a URL after a space that only one of them trims
  (`ContentRefs.BoardId`, `DotsAndLarge`, `LeadingZero` and `OtherSpaces` show one
  text or more of each).

## Model

| member | source | states |
|---|---|---|
| News.Evaluate | crates/bot-poll/src/lib.rs:608-669 | The loops over sources, sets and items give, per kind, exactly the news of the run, the next seen-sets (the sweep health's kept as it is) and the event memory |
| News.ListSet | crates/bot-poll/src/lib.rs:629-659 | One set's full listing: an item is news exactly when it is its key's first there, its key is not in the set and its event was not known before the run; listed keys and events are marked, old ones aged |
| News.EvaluateSource | crates/bot-poll/src/lib.rs:617-661 | All sets of one source, whether listed in full or kept as they were |
| News.EvaluateSet | crates/bot-poll/src/lib.rs:794-816 | The sweep health's set: its news and the set after it |
| News.Keep | crates/bot-poll/src/lib.rs:654-658 | A set keeps what it did not list this time for less than an hour |
| News.NewsIffNew | crates/bot-poll/src/lib.rs:617-668 | An item is in a run's news of a kind if and only if some place in the listing makes it news of that kind |
| News.SetAfterHas | crates/bot-poll/src/lib.rs:629-659 | A key is in a set after a listing if and only if it was listed, or it was there for less than FORGET_MS, with the right time in each case |
| News.ReportedAfterHas | crates/bot-poll/src/lib.rs:631-667 | An event is known after a run if and only if a full listing named it, or it was known for less than REPORTED_KEEP_MS |
| News.SetComplete | crates/bot-poll/src/lib.rs:52-68 | Each set but the sweep health's is fed by exactly one source |
| Ageing.RecallIffHeld | crates/bot-poll/src/lib.rs:654-667 | Over any history, an aged memory holds a key if and only if some touch was the last and no check came the keeping time or more after it |
| Ageing.Dropped | crates/bot-poll/src/lib.rs:654-667 | A key that was touched and is gone was dropped by a check the keeping time or more after its last touch |
| NewsHistory.NewsOnce | crates/bot-poll/src/lib.rs:608-669 | However sweeps and hot cycles interleave: an event listed or reported by one step is news in a later one only if a sweep in between dropped it, REPORTED_KEEP_MS or more after its last listing |
| NewsHistory.ReportedOverHistory | crates/bot-poll/src/lib.rs:631-667 | After any history the event memory holds exactly the events of such a last touch, with its time |
| NewsHistory.SeenOverHistory | crates/bot-poll/src/lib.rs:624-660 | After any history a seen-set holds a key if and only if a full listing was its last and no full listing came FORGET_MS or more after that |
| NewsHistory.NewsWasUnknown | crates/bot-poll/src/lib.rs:631-643 | What is news in a step was not known before it, whatever the key and the set |
| NewsHistory.ReportedStep | crates/bot-poll/src/poller.rs:166-202 | What each kind of step does to one event of the memory |
| NewsHistory.PollReportsAll | crates/bot-poll/src/poller.rs:176-200 | After a poll every event it found counts as reported, with the inline comments of its review |
| NewsHistory.ToldWithReview | crates/bot-poll/src/hot.rs:586-597 | An inline comment is no news, neither as an event nor under one, if its review is in the event memory and not among the qualifying ones |
| NewsHistory.RunSplit | crates/bot-poll/src/poller.rs:128-255 | A history's state is that of its second part run from the state of its first |
| NewsHistory.MoreSteps | crates/bot-poll/src/poller.rs:128-255 | The state and the news of every kind of two runs of steps, one after the other |
| OperatorEvents.Collect | crates/bot-poll/src/hot.rs:603-685 | The three phases with the index of reviews by id compute the grouped, time-ordered events |
| OperatorEvents.CollectReviews | crates/bot-poll/src/hot.rs:608-634 | Each qualifying review becomes an event, filed under its id |
| OperatorEvents.CollectInline | crates/bot-poll/src/hot.rs:635-660 | Each qualifying inline comment joins its review's event, or stands alone, with its review's number, when that is not among the qualifying ones |
| OperatorEvents.EachIdOnce | crates/bot-poll/src/hot.rs:603-685 | Conservation: every id is reported, as an event's own or under one, exactly as often as qualifying entries carry it |
| OperatorEvents.OldestFirst | crates/bot-poll/src/hot.rs:683-684 | The events come oldest first, and those of one time in the order they were found |
| OperatorEvents.AnotherInline | crates/bot-poll/src/hot.rs:635-660 | One more inline comment changes just its own review's event, or adds one |
| OperatorEvents.EventsAreEntries | crates/bot-poll/src/hot.rs:603-685 | Every event says what a qualifying entry does, in all its fields: a review's with its state and commit and only comments of that review under it; an inline comment's whose review is not among the qualifying ones, with that review's number; or a comment's |
| OperatorEvents.EntriesAreEvents | crates/bot-poll/src/hot.rs:603-685 | And every qualifying entry has its event, an inline comment of a qualifying review under that review's |
| Paging.Gh.Get | crates/bot-poll/src/gh.rs:126-189 | After a rate limit no request goes out; a limit is remembered |
| Paging.Gh.ReadPage | crates/bot-poll/src/gh.rs:202-231 | One page: read now and its validator kept for later, or unmodified and its old validator told full or not |
| Paging.Gh.ChangedPages | crates/bot-poll/src/gh.rs:194-234 | The pages read are an unconditional read's; the bodies are those that changed; a failure commits no validator and gives no page |
| Paging.ChangedRefines | crates/bot-poll/src/gh.rs:194-234 | Every page of the unconditional read is among the changed ones or is exactly the version its validator names, and nothing else is among them |
| Paging.OneOutcome | crates/bot-poll/src/gh.rs:194-234 | Against one server an unconditional read has one outcome: a failure or one list of pages |
| Paging.AllRefreshed | crates/bot-poll/src/gh.rs:194-234 | Every page a read comes to has its validator of now |
| HotCycle.State.PollItem | crates/bot-poll/src/poller.rs:348-393 | A failed poll commits no validator; one that works finds the events of the changed pages and leaves every page an unconditional read gets processed and told |
| HotCycle.FoundAll | crates/bot-poll/src/poller.rs:348-393 | Every qualifying entry of a changed page is among the events found |
| HotCycle.PollTold | crates/bot-poll/src/poller.rs:348-393 | A working poll leaves all its pages told, changed or not |
| HotCycle.CommitAll | crates/bot-poll/src/gh.rs:94-98 | Committing a poll's validators keeps each naming a page that was processed |
| HotCycle.State.PollOne | crates/bot-poll/src/poller.rs:166-202 | One item: left waiting with nothing found and nothing told, or polled in one step that holds exactly the grouped events of its changed pages, reported but for those known before, and their ids told |
| HotCycle.State.PollTargets | crates/bot-poll/src/poller.rs:166-202 | All items to poll, each at most once: one step per item polled, in order, of its changed pages' events; the news and the memory are those of these steps, what is told grew by exactly what they found, and what is not polled waits |
| HotCycle.State.TakeFlags | crates/bot-poll/src/poller.rs:261-346 | The hot items after the feeds' flags, and exactly the items to be polled: of each flag that says so, of an item hot by then |
| HotCycle.StaysHot | crates/bot-poll/src/hot.rs:167-181 | A hot item stays so through any flags, with its kind and class and the latest of the operator's activities on it |
| HotCycle.BecomesHot | crates/bot-poll/src/poller.rs:281-346 | Another becomes hot exactly by a flag of ours, as the first one says, with the latest activity from then on |
| HotCycle.State.TakeSignoffs | crates/bot-poll/src/poller.rs:405-433 | The result lines not reported before, in order, each remembered |
| HotCycle.State.TakeNotify | crates/bot-poll/src/poller.rs:225-237 | bot-notify's output is evaluated like a sweep's |
| HotCycle.State.TakeOutputs | crates/bot-poll/src/poller.rs:225-237 | A run's outputs evaluated on the state: its news and the memory after it |
| HotCycle.State.Cycle | crates/bot-poll/src/poller.rs:128-255 | A whole cycle: it polls what waited or was flagged and is hot, and the ten recently active items, and nothing else; its steps are its polls, one per item polled with its changed pages' events, then a step per result line and bot-notify's output; its news and memory are exactly those of the steps and what is told grew by what the polls found; what it could not poll waits; what was polled is wholly read and not sent again while unchanged; other items' validators are kept, but those not used for a day, which are gone at its end |
| HotCycle.State.CycleOn | crates/bot-poll/src/poller.rs:128-255 | A cycle that is not paused: it works exactly if its tools can be run |
| HotCycle.State.Polls | crates/bot-poll/src/poller.rs:129-210 | The polls of a cycle, of the recently active items among others, one step for each; the trailing cursor; the pause is set to a rate limit's end, the one the cycle came with or that of a request of its own, and stays otherwise; what waits without one is an item whose listing fails |
| HotCycle.State.Tools | crates/bot-poll/src/poller.rs:211-237 | The tools an approval or a thread calls for: it fails exactly if one of them can't run, and else its steps are one per result line and one for bot-notify's output, and what is found is their news |
| HotCycle.State.Close | crates/bot-poll/src/poller.rs:238-255 | A cycle's end: validators not used for a day are gone, and its turn and its steps are added to the history |
| HotCycle.RunCycle | crates/bot-poll/src/main.rs:630-643 | It fails exactly if a called-for tool can't run, and then leaves the state as it was, as it does while paused; a working one is a whole cycle and reports the news of its steps |
| HotCycle.State.StartSweep | crates/bot-poll/src/hot.rs:203-209 | The cursor moves to the start of the sweep before, and what was told stays told |
| HotCycle.State.Rebuild | crates/bot-poll/src/hot.rs:183-201 | The hot set after a sweep is exactly the sweep's items, with the operator's recent activity, and those that activity alone keeps; what waited and stays hot still waits |
| HotCycle.State.AfterSweep | crates/bot-poll/src/poller.rs:73-81 | The hot set is rebuilt so, or kept if it can't be listed, and old validators are dropped |
| HotCycle.State.Record | crates/bot-poll/src/hot.rs:211-218 | Validators not used for a day are dropped |
| HotCycle.Direct | crates/bot-poll/src/hot.rs:152-166 | Up to ten recently active items, the most recent first, none more recent left out |
| HotCycle.DirectMeans | crates/bot-poll/src/hot.rs:152-166 | By the times themselves: at most ten items active in the last three hours, none active before a later one or before one left out, and ten if any is left out |
| HotCycle.Targets | crates/bot-poll/src/poller.rs:154-162 | Polled are exactly the flagged hot items and ten recently active ones, the most recent, or all there are |
| HotCycle.FoundOnly | crates/bot-poll/src/poller.rs:348-393 | Nothing is told but by a qualifying entry of a page that was sent, not of one that answered 304 |
| HotCycle.ItemRevalidated | crates/bot-poll/src/gh.rs:94-98 | A poll leaves the current validators of all the tagged pages it read: while the server has the same it is sent none of them again |
| HotRuns.Process.Take | crates/bot-poll/src/main.rs:612-643 | Each move's effect on the state in memory, the saved one, and the news due and printed: a paused or failing cycle changes nothing |
| HotRuns.Process.TakeHot | crates/bot-poll/src/main.rs:630-643 | What a cycle found, and nothing else, is due to be printed; it is the news of its steps |
| HotRuns.Process.TakeCheck | crates/bot-poll/src/main.rs:669-720 | And so is what a check of bot-sweep's directory found |
| HotRuns.Process.TakeSweep | crates/bot-poll/src/main.rs:612-629 | And what a sweep of its own found |
| HotRuns.Process.Run | crates/bot-poll/src/main.rs:724-777 | Any run of working and failing cycles, checks, sweeps, reports, saves and deaths: at every moment, in memory and on disk, every validator names a processed page, all processed pages are told from toldFrom, what is told is exactly what the polls of the state's own history found, the memory is that history's, and every turn follows the one before |
| HotRuns.ToldIsNews | crates/bot-poll/src/main.rs:563-590 | What is printed of a cycle or a check is exactly the news of its steps |
| HotRuns.SavedWasPrinted | crates/bot-poll/src/main.rs:630-643 | At every moment of every run, deaths included, each of the operator's entries from toldFrom on, on a page whose validator is saved, was printed or counted as reported when a poll found it: that the page is not sent again loses nothing |
| HotRuns.FoundIsReported | crates/bot-poll/src/poller.rs:176-200 | Every id that is told in memory was printed, is due to be, or counted as reported when a poll found it |
| HotRuns.PolledIsPrinted | crates/bot-poll/src/poller.rs:348-393 | Polled means printed, due to be, or known before: every entry of the operator's from toldFrom on that an unconditional read of the item then got |
| HotRuns.AlwaysCovered | crates/bot-poll/src/main.rs:740-777 | At every moment of every run the news of the whole history of the state in memory is printed or due, and that of the saved one printed |
| HotRuns.NeverForgotten | crates/bot-poll/src/poller.rs:166-174 | Over any such run an item that waits to be polled goes on waiting until a poll of it works or it leaves the hot set, whenever its waiting was saved or no death came since |
| HotRuns.FlaggedNeverForgotten | crates/bot-poll/src/poller.rs:137-162 | And so does every item of ours a cycle's feeds flagged |
| HotRuns.PolledIsTold | crates/bot-poll/src/poller.rs:348-393 | Polled means found by a poll of the state's history: every entry of the operator's from toldFrom on that an unconditional read of the item then got |
| HotRuns.TurnsGrow | crates/bot-poll/src/main.rs:740-756 | What was saved is never lost again, and what is in memory only by a death |
| HotRuns.AlwaysFromCursor | crates/bot-poll/src/hot.rs:203-209 | In every run in which no sweep's start moves the cursor back, all processed pages are always told from the cursor itself |
| HotRuns.StaysToldIff | crates/bot-poll/src/hot.rs:203-209 | A sweep's start keeps that, for every sound state of its cursor, exactly if the new cursor is not before the old one |
| HotRuns.MissedByMovingBack | crates/bot-poll/src/hot.rs:203-209 | A run in which it is: two cycles and a sweep's start, after which the operator's review is processed, not told and never sent again |
| HotCycle.State.ReadListing | crates/bot-poll/src/poller.rs:357-380 | One listing of an item, read against the validators the poll started with |
| SweepLoop.ListRuns | crates/bot-poll/src/main.rs:648-667 | Exactly the completed runs between the last and the newest, ascending, then the newest |
| SweepLoop.EvaluateRuns | crates/bot-poll/src/main.rs:686-707 | The pending runs are evaluated oldest first, each in the state the one before left, their news joined by kind |
| SweepLoop.CheckRuns | crates/bot-poll/src/main.rs:669-712 | The sweeps not evaluated yet, all of them on a later check, the newest only on the first |
| SweepLoop.SweepCheck | crates/bot-poll/src/main.rs:669-720 | A check's state and news are those of evaluating its pending runs and then the sweeps' health; the hot set changes by a new sweep only, and what is told by none |
| SweepLoop.CheckHealth | crates/bot-poll/src/main.rs:709-719 | The sweeps' health evaluated after them: the state's history and news with that step |
| SweepLoop.SweepWithout | crates/bot-poll/src/main.rs:672-674 | Evaluating sweeps without the health's set gives the same as with it |
| PollRuns.NeverVanishes | crates/bot-poll/src/main.rs:724-777 | At every moment of every run, crashes included: state.json counts every run published between its first and its last, ascending, each on its own outputs, and the news of every step it counts was printed |
| PollRuns.Invariant | crates/bot-poll/src/main.rs:724-777 | What every reachable moment keeps: both images are faithful to their steps, and unprinted news is about to be printed |
| PollRuns.Kept | crates/bot-poll/src/main.rs:724-777 | Each single step, by bot-sweep or bot-poll or a crash, keeps it |
| PollRuns.FromFirstRead | crates/bot-poll/src/main.rs:669-707 | That every run since the first one read is evaluated holds exactly when that first one was saved |
| PollRuns.ReadAndLost | crates/bot-poll/src/main.rs:686-697 | A run of the system in which it does not hold |
| PollRuns.TakeCheck | crates/bot-poll/src/main.rs:740-748 | A check is one step of the system, and what it reports is that step's news |
| PollRuns.TakeHot | crates/bot-poll/src/main.rs:749-759 | A working hot cycle is one step of the system, of the cycle's own steps, and reports exactly their news; a paused one has no steps, and a failed one, which is one whose tool can't run, is none |
| RunWatch.CancelOnce | lib/run-watch.js:217-227 | Over all sweeps, crashes and failed requests a run attempt is never sent two cancels |
| RunWatch.CancelJustified | lib/run-watch.js:171-227 | A cancel follows its own saved intent, and recorded evaluations of that attempt that span the grace time and are all of one unhealthy class |
| RunWatch.IntentOnce | lib/run-watch.js:217-223 | Over all sweeps and crashes a run attempt gets one saved intent |
| RunWatch.TodoJustified | lib/run-watch.js:228-242 | An item goes back to Todo only for an attempt with a saved intent to cancel, whose request was sent right after it exactly when the process lived on from that save, seen completed and cancelled since the last evaluation, right after a read of the board that shows it the run's sole owner |
| RunWatch.SentIff | lib/run-watch.js:217-227 | After any log an attempt's cancel was requested if and only if its intent's own save worked and the process lived to the request |
| RunWatch.AskedFor | lib/run-watch.js:217-242 | Where no save failed or was the last act, every item that went back was of an attempt we asked to cancel |
| RunWatch.NeverAsked | lib/run-watch.js:217-242 | A run of the watch that gives an item back whose attempt was never asked to be cancelled |
| RunWatch.DiesIntending | lib/run-watch.js:217-227 | A run of the watch whose process dies once the intent is saved |
| RunWatch.Watch.Sweep | lib/run-watch.js:59-258 | A sweep keeps the saved state justified by what happened, wherever the process dies and whichever call fails, and ends no heartbeat twice. While no save stops it, it tries every cleanup left over, evaluates and records every candidate whose run is listed and can be read, and without the listing breaks every suspicion; when every save works, each due cancel is sent and each due item given back, by the state before the item's turn, and the state it saves is exactly that of the turns in order |
| RunWatch.Watch.Begin | lib/run-watch.js:64-74 | A sweep starts from the saved state with no cleanup tried |
| RunWatch.Watch.Candidate | lib/run-watch.js:148-253 | One candidate: its evaluation is recorded if its run can be read, else it throws, and one that throws has lost its suspicion, saved, if the process lives; no intent is ever lost; when every save works, what is due is done and the state after it is exactly that of its turn |
| RunWatch.Watch.Drop | lib/run-watch.js:104-113 | A candidate whose calls threw: its entries lose their suspicion, each recorded as unknown, and that is saved |
| RunWatch.Watch.Examine | lib/run-watch.js:154-243 | One candidate's evaluation and actions; when every call and save works, a due cancel is sent and a due item goes back to Todo |
| RunWatch.AnsweredMeans | lib/run-watch.js:150-163 | A candidate is judged by the run listed, or else by the one asked for, exactly if it and its jobs can be read |
| RunWatch.JudgedMeans | lib/run-watch.js:164-168 | Only an executing run that one board entry names is judged, as its telemetry says; any other is unknown |
| RunWatch.Watch.Proceed | lib/run-watch.js:180-243 | What follows an evaluation: the cancel when it is due, then the confirmation, the cleanup and the way back to Todo; the entry, and whether a call threw, exactly |
| RunWatch.Watch.Act | lib/run-watch.js:181-227 | Revalidation before acting, and the cancel exactly when it is due |
| RunWatch.CancelsWhenDue | lib/run-watch.js:181-227 | The turn of the specification asks to cancel exactly when the cancel is due: executing, not asked before, a grace-long suspicion, and revalidated on fresh evidence |
| RunWatch.DueBack | lib/run-watch.js:228-242 | An attempt asked to be cancelled before, and cancelled by now, is due back while its item is still its owner |
| RunWatch.Watch.Revalidate | lib/run-watch.js:182-206 | Acting needs the item to own the run still and the same attempt, evaluated afresh |
| RunWatch.Watch.RequestCancel | lib/run-watch.js:217-227 | The intent is saved before the request; a request whose answer is lost is not repeated |
| RunWatch.Watch.Record | lib/run-watch.js:171-177 | An evaluation is recorded when it is saved |
| RunWatch.Watch.Confirm | lib/run-watch.js:228-231 | An attempt of ours is seen cancelled before anything else is done about it, and its cleanup tried, once a sweep |
| RunWatch.Watch.GiveBack | lib/run-watch.js:232-242 | Back to Todo after a read of the board that shows the owner |
| RunWatch.Watch.Cleanup | lib/run-watch.js:74-89 | A run's heartbeat is ended right after its attempt was seen cancelled, unless it is done already or this sweep tried it: exactly then nothing happens |
| RunWatch.Watch.Leftovers | lib/run-watch.js:92-102 | Exactly the cleanups left over, of attempts that are still cancelled, are tried, and what they say is kept, unless the process dies |
| RunWatch.Watch.Reset | lib/run-watch.js:104-113 | Unreadable metadata breaks the suspicion of the item's attempts and nothing else |
| RunWatch.Watch.ResetAll | lib/run-watch.js:114-128 | Without the listing the entries of all candidates lose their suspicion, and nothing else changes; if the save works, so on disk |
| RunWatch.Watch.Persist | lib/run-watch.js:67-67 | A save that works, fails, or is the process's last act |
| RunWatch.SuspectedOk | lib/run-health.js:74-78 | The suspicion's start is a recorded evaluation from which on all are of its class |
| RunWatch.StillOwnerIsSole | lib/run-watch.js:43-46 | The owner check means: the item is in progress on that Run and no other entry of the board names it |
| RunWatch.TwoSoleOwners | lib/run-watch.js:43-46 | Two items can both pass it for one run, by zeros before the number |
| RunWatch.SoleOfNumber | lib/run-watch.js:33-46 | An owner is the run's only one exactly when no other item spells the number with other zeros |
| RunHealth.Evaluate | lib/run-health.js:30-70 | The verdict from the telemetry: unknown exactly without complete fresh evidence of the executing attempt, else runaway, failing, stalled or healthy, in that order |
| RunHealth.SameEvidence | lib/run-health.js:57-70 | On unchanged evidence that can still be used, each later verdict by closed form: failing exactly if enough of the events it was of stay in the rolling window, else stalled or healthy; runaway stays |
| RunHealth.StallsLastIff | lib/run-health.js:57-70 | A stall stays one on any evidence exactly when the stall time is no shorter than the window |
| RunHealth.StallTurnsFailing | lib/run-health.js:57-70 | Under any shorter stall time, evidence on which it turns failing |
| RunHealth.FailingLapses | lib/run-health.js:57-70 | Under any limits, evidence on which a failing verdict ends with no new activity |
| RunHealth.SinceNow | lib/run-health.js:74-78 | Over any later evaluations of the same evidence a failing suspicion keeps its start, and is ready once the grace time is over, exactly if enough events stayed in the window at each |
| Edge.FiresInTime | lib/reconcile.js:721-745 | An action held since it was unknown fires once as new, and then exactly when it is present and last fired RESYNC or more ago |
| Edge.Remembers | lib/reconcile.js:728-745 | The state holds the time of the last firing as long as the action is held |
| Edge.Forgets | lib/reconcile.js:722-726 | An action that is gone, and whose kind could be looked for, is forgotten |
| Edge.RecoversQuietly | lib/reconcile.js:466-521 | After any number of passes with failing steps or no sweep, the first whole sweep of the same lines makes the same P0 actions and none fires as new |
| Edge.FailingPass | lib/reconcile.js:466-521 | One such pass keeps the whole sweep's P0 actions known, and makes no drive action of its own |
| Edge.UncoveredFires | lib/reconcile.js:489-521 | Exactly which health actions fire as new in a pass whose drive step fails, whether the health step fails too or not: the unknown ones of PRs whose drive only waits |
| Edge.FiresMeanwhile | lib/reconcile.js:489-521 | Three runs over one PR whose drive waits: quiet, fired while the drive step fails, quiet |
| Edge.DriveRule | lib/reconcile.js:489-537 | The rule's actions: the lines' and those carried over, health lines the drive covers left out |
| Edge.CarryOver | lib/reconcile.js:470-505 | The previous actions of a kind, but those there already and those covered |
| Edge.DriveSection | lib/reconcile.js:506-512 | Drive lines that wait make no action but cover their PR |
| Edge.HealthSection | lib/reconcile.js:514-520 | Health lines with a current ask or covered make none |
| Edge.Trigger | lib/reconcile.js:728-745 | Which actions fire, and the next state |
| Edge.Run | lib/reconcile.js:716-745 | One run of the rules and the edge, each key once |
| Edge.RunIsPass | lib/reconcile.js:716-745 | Each run is a pass of the kind those statements are about |
| Edge.Unread | lib/reconcile.js:697-714 | The kinds a run couldn't look for, of the drive rule's three and of the other rules', exactly |
| Edge.Runs | lib/reconcile.js:716-745 | Any runs, each from the state the one before left: a new action fires, a known one RESYNC or more after it last did, and what is known after a run is what it made and what was known and it could not look for |
| Edge.KnownIff | lib/reconcile.js:721-745 | An action is known before a run exactly if an earlier run made it, or the first state knew it, and each since made it or could not look for it |
| Edge.StillKnown | lib/reconcile.js:697-745 | So one that each run since made or could not look for, whatever its rule, is known still, does not fire as new when made again, and is as it was if none made it |
| Candidates.Pick | lib/pacing.js:157-172 | min(3, n) distinct items, each the best of what is left by priority, then upstream the repository with fewer agents, busy or picked, then the operator's activity, then the board's order; in the harness lane the prefix of one sort |
| Candidates.SortSorts | lib/pacing.js:165-166 | The sort orders the pool and keeps it |
| Candidates.SortedUnique | lib/pacing.js:165-166 | The order leaves no choice: two sorted lists of the same items are equal |
| Candidates.PickedFirst | lib/pacing.js:161-170 | Taking the first of the sorted pool keeps the priority order and the spread |
| Slots.SlotReport | lib/pacing.js:198-243 | Busy agents by lane, devspace runs among them, and each lane's free slots under its own target and the total's |
| Slots.FreeSums | lib/pacing.js:223-231 | The lanes' free slots always sum to the total's |
| Slots.LaneOf | lib/pacing.js:228-241 | One lane's free slots and its best eligible candidates, each going before all that are left, spread over repositories |
| Slots.PicksAreBest | lib/pacing.js:240-241 | No eligible item of a better priority is left out of the dispatch list |
| Slots.PicksInOrder | lib/pacing.js:157-172 | Each listed item goes before every eligible one of the lane not listed before it, by priority, agents in its repository, activity and place |
| Slots.PicksSpread | lib/pacing.js:157-172 | Upstream, a listed item's repository has at most one more agent, busy or listed, than that of an eligible item of its priority left out |
| Slots.BusyLoad | lib/pacing.js:233-234 | A lane's busy agents by repository |
| Slots.Dispatch | lib/reconcile.js:250-278 | At most one run per lane, of the lane's first item or the first that the pool of the agent pays for, within the lane's slots, the agents, the runs and the runs that pool pays for; a lane starts nothing only for one of those reasons |
| Slots.DispatchLane | lib/reconcile.js:264-278 | One lane's turn: its first item, or while the pool pays for none its first urgent one, if there is room, or nothing for a reason |
| Slots.Closed | lib/reconcile.js:151-175 | A held openai pool closes devspace runs exactly while Claude's can't take them: held itself, not behind its pace, or without a reading |
| Slots.FirstPaid | lib/reconcile.js:266-266 | The first candidate, or while the pool pays for none the first urgent one |
| Slots.RemoteCap | lib/reconcile.js:156-159 | The limit while Claude is held; else the least whole number that is the share of the agents, or the limit if that is less |
| Slots.KeepsShare | lib/reconcile.js:156-278 | While Claude is not held a pass leaves no more devspace runs than the share of the agents, rounded up, or than there were; where it leaves fewer, a lane without a start has another reason; while it is held the limit takes the share's place |
| Slots.StartsAre | lib/reconcile.js:213-220 | What is started is in Todo, opted in, unowned and not skipped, and urgent while both pools or that of its agent are held |
| Slots.StartsBest | lib/reconcile.js:264-278 | While the pool pays, a lane starts the best of all its items that may start: by priority, then upstream where fewer agents are busy, then the operator's activity, then the board's order |
| Slots.ChargesPool | lib/reconcile.js:250-262 | The runs started for items that are not urgent are no more than the pool of the chosen agent still pays for |
| Slots.PassKeeps | lib/reconcile.js:250-278 | A pass takes nothing over its bound: no lane, not the agents, not the runs |
| Slots.StaysWithin | lib/reconcile.js:236-278 | A board within its bounds stays there over any run of passes, finishing agents and changing paces |
| Slots.Started | lib/reconcile.js:250-278 | Starting a pass's runs adds exactly those to their lanes and to the devspace runs |
| Pools.HeldBeforeNext | lib/pools.js:95-103 | A held window is held at every time before the pace catches up with it, and at none from then to its reset |
| Pools.HeldUntilRelease | lib/pools.js:113-131 | A held pool is held at every later time before its release and at none from it on, however many shorter windows are used up |
| Pools.NextDispatch | lib/pools.js:113-131 | next_dispatch_at is whole milliseconds: before it the pool is held; at it the pool is open or unpaced exactly when the release fell on a whole millisecond, else one later |
| Pools.HeldAtNext | lib/pools.js:113-131 | A pool that is held at its own next_dispatch_at |
| Pools.StaysReleased | lib/pools.js:95-103 | A released window stays released until it resets |
| Pools.PaceMeans | lib/pools.js:84-131 | By its windows: a pool is paced exactly while its longest one, of a day or more, has not reset; its pace is even toward the target at the reset; and it holds new work exactly if it is over the target, ahead of the pace by more than the burst, or another window is used up |
| Pools.Longest | lib/pools.js:116-116 | The paced window is the longest, the first of several |
| Pools.LastReset | lib/pools.js:125-128 | The latest reset of the used-up windows |
| Pools.TrackCost | lib/pools.js:155-169 | The next record: the window's spending while a run was busy, and the runs seen, each once |
| Pools.CostsPositive | lib/pools.js:136-189 | Every cost any samples lead to is positive, carried-over windows included |
| Pools.PointsAreRises | lib/pools.js:155-169 | A window's points are exactly its rises in usage while a run was busy |
| Pools.PointsAtMost | lib/pools.js:155-169 | When usage only rises, they are never more than the window's whole rise |
| Pools.CostIs | lib/pools.js:136-189 | Over the samples of any window: its rise in usage is what the runs that are over cost and half of that for each still busy, and so are the requests and tokens its counters grew; until a run is over and the usage rose, the last window's cost stands |
| Pools.RecordIs | lib/pools.js:155-169 | A window's record holds each run seen once, what the counters grew while a run was busy, across restarts of the counters, and the last window's cost |
| Pools.FitsAreStarts | lib/pools.js:191-196 | The closed form is the number of runs started one by one while the usage is within the limit, and 0 while a shorter window is used up |
| Pools.StartsAreSteps | lib/pools.js:191-196 | The greedy loop's count in closed form |
| Budgets.Budget.Check | lib/budget.js:98-121 | One check's signal and what it leaves noticed |
| Budgets.Budget.Watch | lib/budget.js:89-121 | Checking at 0 and then only at each next threshold gives the signals of checking every millisecond |
| Budgets.EventsAreEnough | lib/budget.js:89-94 | The same as a statement about the two ways of polling, from any state |
| Budgets.ToldOnce | lib/budget.js:98-121 | A whole run without a task cap: each signal once, at its rounded-up time, levels passed together told as the higher one |
| Budgets.NeverTwice | lib/budget.js:98-121 | However it is polled and with any task cap: no signal but the stop comes twice, levels only rise, and after the hand-back only the stop comes |
| Budgets.WindowEndsAtTimeout | lib/budget.js:43-45 | A hand-back in time ends its turn exactly at the timeout |
| Budgets.Reached | lib/budget.js:85-94 | A level is reached by percent exactly from its rounded-up time on |
| Completion.Tracker.Observe | lib/claude-completion.js:23-86 | What an event does to the pending, finished, tool and wait maps |
| Completion.Tracker.ObserveTool | lib/claude-completion.js:47-75 | What a background tool's result does |
| Completion.NamesTask | lib/claude-completion.js:54-73 | A result that neither fails nor ends: the background task it gives, or else the one its text names, is the tool use's from then on, and outstanding unless it finished; one that names none changes nothing, but for an exit code |
| Completion.FinishedForGood | lib/claude-completion.js:16-86 | A finished task is never outstanding again, unless its id is spelled like a tool's key |
| Completion.OutstandingAgain | lib/claude-completion.js:30-36 | Every id spelled like one can be outstanding again |
| Completion.EitherOrder | lib/claude-completion.js:76-85 | Where a tool use names one task, a task's start and its terminal notification can come in either order, with any events in between: the same tasks are outstanding and finished, then and later, and the whole tracker is the same exactly if the tool use's own block is not the last between them to name it |
| Completion.OrderSeen | lib/claude-completion.js:30-36 | With that block in between, the tool use's entry tells the two orders apart |
| Completion.TwinStream | lib/claude-completion.js:23-86 | From then on the entry changes no task's outcome, whatever comes |
| Completion.StreamApart | lib/claude-completion.js:23-86 | Between the two the trackers differ in that task and its tool use only, whatever comes |
| Completion.StreamNamed | lib/claude-completion.js:23-86 | Each tool's entry is its own key or its task in any such stream |
| Notifications.Poller.Poll | bin/poll-notifications.js:18-205 | One poll, dying at any of its writes or living: what it took up or brought is held by the work it saves or left by a decision, age, count or size; the cursor moves only past a whole window; and exactly what is lost for good: by a death between the cursor's write and the work's, what this poll's pages brought and is to be retried or told, by a later death the news |
| Notifications.Poller.Polls | bin/poll-notifications.js:18-205 | Over any run of polls, living or dying at any write: nothing is lost if and only if each death met its condition, checked before the write: no retry and no news of this poll's pages before the cursor's, no news before the later ones |
| Notifications.LosesThread | bin/poll-notifications.js:171-197 | A run that loses a thread: its comment can't be read, the cursor is written, the process dies |
| Notifications.NewOnes | bin/poll-notifications.js:171-185 | What a death after the cursor's write loses is nothing exactly if the retries and the unprinted news stand for earlier pages only |
| Notifications.WorkDeath | bin/poll-notifications.js:189-205 | What a later death loses is the unprinted news |
| Notifications.Poller.Save | bin/poll-notifications.js:189-205 | The work, then what was seen, then the news |
| Notifications.Poller.Begin | bin/poll-notifications.js:54-178 | A poll until it writes anything, from the files; one that isn't due, or of another bot, only bounds the retries |
| Notifications.Poller.NextPage | bin/poll-notifications.js:99-125 | One page of the window, taken exactly as it is; or why none is: the window is through, cyclic (then it starts again) or not modified, or its URL is unsafe, its answer fails or holds too many threads, or the requests or the time are used up |
| Notifications.Poller.Round | bin/poll-notifications.js:93-178 | The requests of one poll: pages first, then threads; nothing for another bot |
| Notifications.Poller.Acquire | bin/poll-notifications.js:99-126 | Pages are read only into an empty queue, linked one to the next, until one holds a thread to follow, the window ends or four were read |
| Notifications.Poller.TakePage | bin/poll-notifications.js:115-124 | A page's threads are queued and it joins the window |
| Notifications.Poller.Process | bin/poll-notifications.js:148-176 | A thread's requests, as many as decide it, or leave it; with three requests left only an answer or the clock can leave it |
| Notifications.Poller.Take | bin/poll-notifications.js:130-143 | The next thread of the queue, or while there is none of the retries there were, with its retry if there is one |
| Notifications.Poller.Try | bin/poll-notifications.js:144-177 | A thread is left for later, decided, or retried with backoff |
| Notifications.Poller.Work | bin/poll-notifications.js:127-178 | The threads of a poll, each started only with three requests left: unless the requests or the time run out or there are more than a hundred, the queue is empty at its end and no retry is due |
| Notifications.BacksOff | bin/poll-notifications.js:171-176 | A failed thread's next attempt waits a minute, doubled each time, for an hour at most, and its age goes on |
| Notifications.Poller.Advance | bin/poll-notifications.js:179-185 | The cursor moves exactly when the queue is empty, no page is next and a page was read |
| Notifications.Poller.BoundRetries | bin/poll-notifications.js:78-83 | One retry per thread, none older than a day, at most 200 |
| Notifications.Poller.Finish | bin/poll-notifications.js:189-195 | The retries bounded, and all of it reset exactly when it is too large |
| Notifications.Coalesce | bin/poll-notifications.js:64-77 | Threads of one key become one |
| Notifications.CoalesceKeeps | bin/poll-notifications.js:64-77 | No key is lost, and each is polled from the earliest time of its threads and stands for all their pages |
| Notifications.CoalesceMerges | bin/poll-notifications.js:64-77 | What several threads become: the last one's subject, the first one's retries and the earliest time |
| StatusText.GeneratedFits | lib/board-status-update.js:264-275 | Any update of fewer than 10^68 items and workers, whatever their fields hold, fits the 3800-character budget with the compact marker |
| StatusText.AlwaysFits | lib/board-status-update.js:380-385 | The same of any sections of lines within the limit |
| StatusText.Generate | lib/board-status-update.js:217-277 | The sections, the stale titles and the board link of the items and workers, in order |
| StatusText.BodyShows | lib/board-status-update.js:217-277 | The update reads back: under each heading in its order the first ten of its lines, or that there are none, and how many more there are; then the stale titles, if any, and the board's link |
| StatusText.ItemLine | lib/board-status-update.js:161-164 | A line is at most 96 characters and keeps its whole link; nothing is cut that fits |
| StatusText.Shorten | lib/board-status-update.js:137-141 | At most the limit, and the text itself if it fits |
| StatusText.Shown | lib/board-status-update.js:269-270 | What a section shows plus its N more is its total |
| StatusText.SectionLength | lib/board-status-update.js:269-270 | A section's length from its lines and its count's digits |
| StatusText.EncodeIsPlain | lib/board-status-update.js:143-152 | A safe URL holds no character that could end or open a link |
| StatusText.DecimalLength | lib/board-status-update.js:270-270 | A count takes at most d digits exactly if it is under 10^d |
| StatusPosts.Publisher.Publish | lib/board-status-update.js:353-395 | Consecutive automatic posts are four hours apart or more and never repeat the last post's digest, with a death between a post and its saving; an item's movedAt changes only with its fingerprint, unless the last post can be recovered by its digest only and the history is from before it, and then it is the evidence |
| StatusPosts.Publisher.BaselineIsLast | lib/board-status-update.js:359-363 | What is compared with is the last post |
| StatusPosts.Publisher.SourceIsHistory | lib/board-status-update.js:366-371 | Observations continue the last ones, but for that one case |
| StatusPosts.MovedAtIs | lib/board-status-update.js:190-202 | After any run of the publisher: an item moved in the last run that saw its fingerprint change, or as its timestamps said in the run in which it was new or the last post had been lost, and since then neither happened |
| StatusPosts.ForgetsMovement | lib/board-status-update.js:366-393 | A run whose post is made and not saved, recovered from a compact marker: the item's movement starts over with the same fingerprint |
| StatusPosts.Publisher.Send | lib/board-status-update.js:386-393 | A post that is saved, lost or not made |
| StatusPosts.Remote | lib/board-status-update.js:339-362 | The newest update with a marker |
| ContentRefs.Fixed | crates/sched/src/forge/github.rs:62-85 | Every reference parsed from a text parses to itself from its URL |
| ContentRefs.ParseUrl | crates/sched/src/forge/github.rs:62-85 | A URL of good names, a known segment and a 64-bit number parses to them |
| ContentRefs.SameKey | crates/sched/src/model.rs:56-61 | Two references are one exactly if their URLs differ in the case of letters only |
| ContentRefs.ReadsKinds | crates/sched/src/forge/github.rs:62-85 | An issue's URL and a pull request's read as an issue and a pull request |
| ContentRefs.Trims | lib/capacity.js:47-53 | Trimming takes the dropped characters of both ends and no other |
| ContentRefs.CharsAre | lib/capacity.js:47-53 | Which characters each language trims, and which a name may have, one by one |
| ContentRefs.NeverNotOurs | crates/sched/src/forge/github/emit.rs:54-91 | Each write is emitted or refused, and one of an observed reference is never refused as not GitHub's |
| ContentRefs.Emit | crates/sched/src/forge/github/emit.rs:54-91 | The outputs and the refusals of the actions, in order |
| ContentRefs.SameIdentity | lib/capacity.js:47-53 | The two languages give a text the same identity exactly unless it is a board id, has a name of dots, a number too large or with zeros before it, or a URL after a space only one of them trims |
| ContentRefs.BoardId | lib/capacity.js:47-53 | Every board id has a key in JavaScript only |
| ContentRefs.DotsAndLarge | lib/capacity.js:47-53 | So has a URL with a name of dots, and one with any number of more than 64 bits |
| ContentRefs.LeadingZero | lib/capacity.js:47-53 | A URL both read, under different keys |
| ContentRefs.OtherSpaces | lib/capacity.js:47-53 | A URL after a byte order mark, read by JavaScript only, and after a next-line character, by Rust only |
| ContentRefs.SplitStripped | lib/capacity.js:49-53 | What a sentence or a space leaves after a URL does not change its parts |
| SchedRules.DemandIsEnough | crates/sched/src/observe.rs:73-97 | Reading only the wanted Branch states gives the same actions as reading every state there is |
| SchedRules.Observe | crates/sched/src/observe.rs:73-97 | The wanted states that can be read, and no other |
| SchedRules.NoneInVain | crates/sched/src/observe.rs:73-97 | A state is read exactly if it can be and some item not Done, of closed or merged content, has it in its Branch, and no item is of it |
| SchedRules.RulesAgree | lib/reconcile.js:589-627 | On an item both read alike the Rust and the JavaScript rules make the same actions |
| SchedRules.ConsistentKnows | crates/sched/src/model.rs:212-221 | With one state per reference a snapshot's states are its items' own |
| SchedRules.StatesAre | crates/sched/src/model.rs:210-221 | A snapshot's states are its items' own, the last of several, and of other references those read |
| SchedRules.Converges | crates/sched/src/rules.rs:76-158 | After two passes with their writes made nothing is left to write; after one, exactly unless an item in progress and led by the coordinator was made Done |
| SchedRules.ClosedNotDoneRule | crates/sched/src/rules.rs:67-132 | The rule's actions over the items, in order |
| SchedRules.ActionsMean | crates/sched/src/rules.rs:60-132 | The rule's actions are exactly: Done for an item not Done whose issue is closed or PR merged, and a question for one whose PR is closed unmerged, that is none yet, each only if every other Branch reference is known to be closed, merged or gone |
| SchedRules.StaleMean | crates/sched/src/rules.rs:133-158 | And the other rule's exactly one per item that the coordinator leads and that is not in progress |
| SchedRules.IsBlocked | crates/sched/src/rules.rs:82-93 | A Branch reference blocks unless it is the item's own or known to be over or gone |

## Left out

- Subprocesses, HTTP, files, locks, /proc and containers: their answers are parameters, a saved state and a death of the process.
- Reading of outputs (`parse_watch`, `parse_inbox`, `parse_notify`, which sets an output lists in full), rendering, hints and wording: items, keys, events and whole sets are inputs.
- The feeds' own reading (pages, marks and intervals of the notifications and the events): what a cycle's feeds flag is an input. Their marks are saved with the rest of the hot state, so a death that forgets a flag restores the mark before it.
- A comment listing's path holds the cursor in milliseconds where the source prints whole seconds; such a validator never outlives its cursor (`HotCycle.AtCursor`, kept by every state), so two cursors of one second can't meet.
- The texts and kinds of a hot cycle's news (`classify`, the head of an approved pull request): events are told as they are found.
- bot-sweep's removal of run directories older than three days: a run that is gone before it is read has no outputs to evaluate.
- HotCycle.Direct: leaves open which of several items active at the same time comes first, where the source takes the greater key.
- HotCycle.RunCycle: fails by a tool that can't run only; one that can't write its hot.txt ends like it, with nothing kept.
- The result lines of bot-signoff-due in what a crash may repeat: applying consumes them, so a lost line is not listed again.
- RunWatch takes an executing run's verdict as given, any of RunHealth's; the heartbeats it publishes change nothing it keeps and are not modelled.
- The watch's report and offline modes but for `applying`; a repository's name (the model has one).
- The rules other than the drive's: their actions, and the kinds they could not look for, are inputs of a run.
- Umbrella items, epics, the `capacity` action's wording and failed dispatches: an umbrella is not counted, and can stop being one at any time.
- The operator's configuration: its bounds are assumed (`Pools.ValidConfig`, `Slots.ValidPacing`).
- Budgets.ToldOnce: is for runs without a task cap, since a level notice can put off the last task's; Budgets.NeverTwice is for any cap.
- Completion.EitherOrder: asks that a tool use names one task, and no task is called like a tool's key.
- The prose a final message promises more work in (`promisesContinuation`).
- Notifications.Poller.Poll: has one time; what notification-due and notification-modified hold shows only in whether a poll is due and a page answers 304, which are inputs.
- Surrogate pairs: a text is a sequence of characters, so shortening never splits one.
- StatusPosts.Publisher.Publish: is for one publisher whose clock does not go back, with posts stamped no earlier than they were decided.
- The cleaning of item text for Markdown: a cleaned text is any text.
- SchedRules.RulesAgree: is about texts both languages read alike, which ContentRefs.SameIdentity characterises.
- The assignee, heartbeat, policy-cache, dispatch-brief, pool-choice and midstream helpers, which have only easy members.
