# Bunting venue server: the committed-event publication pipeline

This project models how the Bunting venue server turns durable commits into what
its clients see, and proves what that pipeline keeps over every run: every
interleaving of commits, failed reads, snapshots, drains, reconnects and crashes.
`dafny verify dfyconfig.toml` checks all of it.

| file | what it models |
|---|---|
| `Words.dfy`, `TimedQueue.dfy`, `Market.dfy` | saturating arithmetic; the ordered queue behind the outbound hold and the tape; events, updates and messages |
| `Book.dfy` | a listing's displayed book, best levels, level and order differences |
| `Fanout.dfy`, `Distributor.dfy` | bounded queues per subscriber; retention and resume by cursor |
| `Origin.dfy`, `OriginFeeds.dfy` | `PublishingOrigin`: cached books, projection, gaps, recovery; what its commits tell a direct feed, end to end |
| `Feed.dfy`, `FeedRun.dfy` | one direct feed and the client that reads it; the feed over every run |
| `BnpWire.dfy`, `BnpFeeds.dfy`, `BnpFeedsRun.dfy`, `SessionClient.dfy`, `SessionTape.dfy` | the wire form and snapshots in parts; a session's subscriptions together; whole runs of them; the client of one venue or consolidated feed among them |
| `Tape.dfy`, `TapeRun.dfy`, `TapeQuotes.dfy`, `TapeOrigin.dfy`, `TapePrints.dfy` | the consolidated tape, its runs, what its processor's quotes settle on, their agreement with the committed book, the trades it prints |
| `TapeClient.dfy`, `TapeFeed.dfy`, `TapeFeedRun.dfy` | a client of the tape, a consolidated feed over every history of the processor, and the tape's own runs as such histories |
| `Outbound.dfy`, `PrivateStream.dfy`, `PrivateTimes.dfy`, `PrivateResume.dfy` | the outbound hold and its ordered lanes; a BNP session's private stream; when its messages leave; successive sessions of one client |
| `Delivery.dfy` | the FIX delivery record |
| `RunClock.dfy` | venue time to run time, stamps, ticks and re-anchoring |
| `Journal.dfy` | journal frames, scanning and repair |
| `Enrolment.dfy`, `Calendar.dfy` | enrolment as a two-file transaction; day counts to Gregorian dates |
| `Budgets.dfy` | session slots and unauthenticated places |

Where the source changes things in place the model is a class whose methods are
proved against functions on values; the claims about runs are lemmas about those
functions.

## What is assumed of the surroundings

- One committer and one run. Event sequences are consecutive, and a commit has at
  least one event. A run's set of listings does not change, a visible quantity is
  positive, displayed orders have distinct references, and an order keeps its
  side, price and broker while it keeps its reference.
- A commit changes only listings its book events name, or carries an event that
  may move any listing (`Origin.Commits`). A trade's listing is of the trade's
  instrument (`Origin.InstrumentsAgree`).
- Reads of the run may fail at each place the code reads it, independently
  (`Origin.Faults`). Lock poisoning is not modelled.
- The journal's codec and digest are arbitrary functions with decode after
  encode the identity and 32-byte digests. Nothing is assumed of collisions.
- Report numbers, run time and event sequences are claimed where they do not
  saturate 64 bits; the hypotheses say so (`FeedRun.Fits`, `TapeFeed.Counts`).
- Clocks are non-decreasing inputs. Each lock section is one step. A request
  id is not reused while an older snapshot reply is in flight.

## What the code does not do

Each of these is a lemma with the input that shows it, beside the exact condition
under which the intended property holds.

- The session loop handles snapshot replies before it drains batches, and a
  venue feed keeps no mark of its snapshot, so a batch the snapshot already holds
  can be sent again after it (`FeedRun.UndrainedBatchIsRepeated`). The feed sends
  only what follows its snapshot exactly when no such batch holds entries for it
  (`FeedRun.OnlyAfterTheSnapshotIff`). The book is right again from the
  snapshot's last batch on, whatever the order (`FeedRun.ContiguousClientHoldsTheBook`).
- When the depth cache is primed and reading the displayed orders fails, the
  projection succeeds without an order base and publishes neither the order
  changes nor a gap (`Origin.OrderSilentlyMissed`, `Origin.OrderFeedsAreTold`).
- When both caches are absent, priming fails and recovery cannot list the run's
  listings either, a listing the events do not mention gets no gap
  (`Origin.HiddenCommitIsSilent`, `Origin.LevelFeedsAreTold`).
- A listing's changes have no floor on their way to the tape's processor, so a
  change that overtakes an earlier one leaves stale quotes
  (`TapeQuotes.OvertakingLeavesStaleQuotes`; exactly then, `TapeQuotes.LaterCommitWinsIff`
  and over runs `TapeOrigin.QuietTapeQuotesTheBook`).
- The committer primes the tape on the first commit, and a prime publishes
  nothing and takes no number, so a client that took its snapshot earlier is not
  told of the quotes it brings (`TapeFeedRun.PrimeAfterSnapshotIsMissed`). The
  client quotes the processor's market exactly when no side it was given that way
  is still unmoved (`TapeFeed.ShowsIffNothingMissed`).
- A session cut inside one event sequence loses the rest of that sequence on
  resume (`PrivateResume.CutInsideASequenceLosesReports`; exactly then, over any
  number of sessions, `PrivateResume.SessionsConcatenate`).
- With nothing retained, a cursor that runs ahead of what was published is
  accepted while its commit is still being published; the live stream then
  repeats it (`Distributor.CursorAheadRepeatsAnEvent`;
  `Distributor.ResumeIsExactlyOnce` says exactly when live batches need a filter).
- Enrolment stopped between its two writes locks the participant out for good
  (`Enrolment.StoppedBetweenWritesLocksOut`).

## Model

| member | source | states |
|---|---|---|
| `Origin.CachesNeverLie` | apps/bunting-server/src/distributor.rs:454-473 | over every run of commands and every pattern of failed reads, each cache is absent or equal to the committed run |
| `Origin.ProjectedAgrees` | apps/bunting-server/src/distributor.rs:495-551 | re-reading the touched listings makes both caches equal to the state after the commit |
| `Origin.FailureIsAGap` | apps/bunting-server/src/distributor.rs:492-494 | a failed or unprimed projection publishes no update and names every listing of the run as a gap, except exactly the hidden ones |
| `Origin.LevelFeedsAreTold` | apps/bunting-server/src/distributor.rs:595-672 | a level feed is told its listing's true change, or a gap, if and only if the listing is not hidden or shows the same as before |
| `Origin.HiddenCommitIsSilent` | apps/bunting-server/src/distributor.rs:605-629 | a lawful commit with every read failing whose moved listing is neither updated nor named |
| `Origin.OrderFeedsAreTold` | apps/bunting-server/src/distributor.rs:514-573 | an order feed is told the truth or a gap if and only if its listing is not hidden and the projection had an order base, or the commit changed nothing the feed displays |
| `Origin.BlindProjectionDropsOrders` | apps/bunting-server/src/distributor.rs:514-535 | a projection without an order base publishes no gap and no order change, whatever the commit did |
| `Origin.OrderSilentlyMissed` | apps/bunting-server/src/distributor.rs:694-709 | with order feeds enabled and one failed order read, a newly displayed order is never told |
| `Origin.PublishedChangesAreTrue` | apps/bunting-server/src/distributor.rs:537-585 | every published level change has its true quantity before and after the commit, and the best quotes are the top of the book the commit left: none on a side exactly when nothing is visible there, otherwise its visible quantity at a price no visible one beats |
| `Origin.TradesReachTheFeed` | apps/bunting-server/src/distributor.rs:543-573 | each trade executed at a listing reaches a feed with trades once and in order with its brokers, unless the batch is a gap for it or the listing is hidden; where order views are kept and carried it names its resting order's reference before the commit |
| `Origin.TradesNameTheirRestingOrder` | apps/bunting-server/src/distributor.rs:554-573 | pairing the listing's trades with its makers in event order gives each trade its own maker's reference |
| `Origin.ReferenceIsTheFirst` | apps/bunting-server/src/distributor.rs:567-570 | the reference is that of the first displayed order with the maker's id, and there is none exactly when no displayed order has it |
| `Origin.UpdateForKey` | apps/bunting-server/src/distributor.rs:538-584 | each listing's update is its own, whatever other listings the commit moved, and is dropped exactly when it says nothing |
| `OriginFeeds.CommittedBookReachesTheClient` | apps/bunting-server/src/distributor.rs:688-760 | end to end: after any commands and failed reads, wherever the feed is registered and however its session interleaves, a contiguous client holds the committed book after each batch up to which the batches it processed were told; commits before the registration may have gone untold |
| `OriginFeeds.UnheardIsSilent` | apps/bunting-server/src/distributor.rs:514-573 | a commit that is not heard gives the feed no book entry and no gap |
| `OriginFeeds.HeardIsTold` | apps/bunting-server/src/distributor.rs:595-672 | a commit that is heard tells the feed its listing's true change, or a gap |
| `OriginFeeds.RunSays` | apps/bunting-server/src/distributor.rs:688-760 | over every run of commands the log says to the feed exactly what those conditions, read off each command and the caches before it, say |
| `OriginFeeds.OrderFeedIsToldFromItsRequestOn` | apps/bunting-server/src/bnp_feeds.rs:87-90 | with good reads an order feed enabled on request, after any commits, is told exactly from the request on |
| `Origin.CollectTouched` | apps/bunting-server/src/distributor.rs:495-513 | the loop finds exactly the listings book events name and whether any listing may have moved |
| `Origin.CollectAffected` | apps/bunting-server/src/distributor.rs:605-629 | the listings a failed projection names: mentioned by events, in either cache, or read from the run |
| `Origin.Project` | apps/bunting-server/src/distributor.rs:537-585 | overwriting the caches in place while projecting gives the same updates as measuring every listing against the untouched caches |
| `Origin.PublishingOrigin.PrimeBooks` | apps/bunting-server/src/distributor.rs:454-473 | primes only an absent cache, from the committed run, and seeds the tape's quotes then |
| `Origin.PublishingOrigin.PrimeOrders` | apps/bunting-server/src/distributor.rs:433-450 | primes only when enabled, absent and readable |
| `Origin.PublishingOrigin.PublicUpdates` | apps/bunting-server/src/distributor.rs:479-586 | succeeds exactly with a base and a readable run; a failure changes nothing |
| `Origin.PublishingOrigin.RecoverPublicProjection` | apps/bunting-server/src/distributor.rs:595-672 | names the affected listings in key order, rebuilds both caches, and gives the tape rebuilt quotes for exactly those listings or takes it down |
| `Origin.PublishingOrigin.EnableFeeds` | apps/bunting-server/src/distributor.rs:427-429 | order feeds are on from then on |
| `Origin.PublishingOrigin.PublishCommit` | apps/bunting-server/src/distributor.rs:698-757 | a commit's batch holds its updates or the gaps of a failed projection, and the tape hears the one or the other; a batch without events is not published |
| `Origin.PublishingOrigin.ExecuteAdmitted` | apps/bunting-server/src/distributor.rs:688-760 | one command: primes, then publishes a commit once with the next ordinal; refused and duplicate commands publish nothing |
| `Book.DiffLevelsIsExact` | packages/bunting-application/src/lib.rs:603-632 | the level difference holds exactly the changed prices, each once, with true old and new quantity |
| `Book.DiffLevelsInOrder` | packages/bunting-application/src/lib.rs:599-632 | bids are listed before asks, each side in price order |
| `Book.DiffOrdersIsExact` | packages/bunting-application/src/lib.rs:557-591 | the order difference holds exactly the changes between the two views, each reference once |
| `Book.DiffOrdersInOrder` | packages/bunting-application/src/lib.rs:552-591 | deletions come first as the old view lists them, then changes, then additions in the new view's priority order |
| `Book.BestBidTops` | apps/bunting-server/src/distributor.rs:579-579 | for every book: no best bid exactly when no bid is visible; otherwise its quantity is the visible one at its price and every visible bid price is at most that price |
| `Book.BestAskTops` | apps/bunting-server/src/distributor.rs:580-580 | the mirror image for asks |
| `Book.QuotesTopIsUnique` | packages/bunting-application/src/lib.rs:593-597 | a book has only one such pair of quotes |
| `Feed.UpdateOverwrites` | apps/bunting-server/src/public_feed.rs:426-491 | entries are absolute: on any view they set exactly the changed keys to their state after the commit |
| `Feed.EntriesCarryTheTrades` | apps/bunting-server/src/public_feed.rs:426-444 | a feed's entries hold each trade once and in order with its brokers, and with its resting reference exactly on an order feed; or none if it did not ask |
| `Feed.ActionsAreTrue` | apps/bunting-server/src/public_feed.rs:445-490 | an entry's action says whether its price or order was displayed before and is after |
| `Feed.EntriesInOrder` | apps/bunting-server/src/public_feed.rs:426-491 | trades come first, then bids before offers by price, or deletions before changes before additions |
| `FeedRun.SnapshotShows` | apps/bunting-server/src/bnp_feeds.rs:324-354 | the snapshot, which carries both sides whatever was asked for, shows the displayed book on the feed's wanted sides |
| `FeedRun.DeliverKeeps` | apps/bunting-server/src/public_feed.rs:385-424 | every batch, gap, quiet or with entries, keeps feed numbers, client numbers, receipts and view in step with the history |
| `FeedRun.BufferFromSnapshot` | apps/bunting-server/src/public_feed.rs:299-304 | filtering the buffer by ordinal leaves exactly the concerned batches from the snapshot's position on |
| `FeedRun.ContiguousClientHoldsTheBook` | apps/bunting-server/src/public_feed.rs:272-342 | over every run and from any registration point the client received exactly the messages owed since it joined; each skips one number per gap batch, is contiguous if and only if there was none, and then, where the batches it processed were told truly, leaves the committed book of its batch from the snapshot's last batch on, whatever the drain and reply order |
| `FeedRun.OnlyAfterTheSnapshotIff` | apps/bunting-server/src/bnp_host.rs:613-674 | only later batches are sent exactly when no undrained earlier batch holds entries for the feed |
| `FeedRun.UndrainedBatchIsRepeated` | apps/bunting-server/src/bnp_host.rs:613-674 | a batch the snapshot holds is sent again when the reply is handled before it is drained |
| `FeedRun.TradeHistory` | apps/bunting-server/src/public_feed.rs:428-444 | a history in which that repeats a trade exists |
| `BnpFeeds.EachFeedIsServedAlone` | apps/bunting-server/src/public_feed.rs:313-342 | among many feeds each gets exactly the messages it would get alone |
| `BnpFeeds.EachTapeIsDrainedAlone` | apps/bunting-server/src/public_feed.rs:190-218 | the same for consolidated feeds over any records: each ends in the state and gets the messages it would alone |
| `BnpFeedsRun.EachFeedRunsAlone` | apps/bunting-server/src/public_feed.rs:108-362 | over every run of the session's operations a feed that stays subscribed gets, message for message, what it would get alone |
| `SessionClient.SessionServesTheClient` | apps/bunting-server/src/public_feed.rs:224-342 | end to end in a session: from a venue feed's subscription on, among any other subscriptions and operations, the messages sent under its id are one by one those its own client receives in `FeedRun`, whose theorems say what the client holds |
| `SessionTape.SessionServesTheTapeClient` | apps/bunting-server/src/public_feed.rs:158-305 | the same for a consolidated feed, however many records each drain brings: the messages sent under its id are one by one the records its own client receives in `TapeFeed`, from the hub at their hub time, whose theorems say what the client holds |
| `SessionClient.FeedCarriesWhatWasAsked` | apps/bunting-server/src/public_feed.rs:224-254 | a new feed sends an update's trades exactly if asked, and of its book changes exactly those on the asked sides, by level or by order as asked |
| `SessionClient.BuffersStayBounded` | apps/bunting-server/src/public_feed.rs:190-342 | over every run of a session no subscription buffers more than 4096 batches or records |
| `SessionClient.DisconnectsIff` | apps/bunting-server/src/public_feed.rs:313-342 | a batch disconnects the session if and only if a feed waiting for its snapshot already holds 4096 and the batch updates its listing or is a gap for it |
| `BnpFeeds.MapBatch` | apps/bunting-server/src/public_feed.rs:313-342 | the loop fails exactly when a pending feed's buffer is full, and otherwise applies the batch to every feed in order |
| `BnpFeeds.MapRecord` | apps/bunting-server/src/public_feed.rs:195-216 | one record on every consolidated feed: buffered, sent, or skipped as already in the snapshot |
| `BnpFeeds.MapRecords` | apps/bunting-server/src/public_feed.rs:190-218 | records in order for every consolidated feed; fails exactly when one waiting for its snapshot runs out of buffer |
| `BnpFeeds.SessionFeeds.SubscribeVenue` | apps/bunting-server/src/bnp_feeds.rs:70-108 | refuses exactly a used id, a full session or no entry type; keeps the kinds map true; asks for order views exactly on an order-by-order request, refused or not |
| `BnpFeeds.SessionFeeds.SubscribeTape` | apps/bunting-server/src/public_feed.rs:158-182 | refuses exactly a used id, a full session, or a first consolidated feed while the tape is down; keeps the kinds map true |
| `BnpFeeds.SessionFeeds.Unsubscribe` | apps/bunting-server/src/public_feed.rs:257-265 | removes the subscription and its kind together, says whether there was one, and stops listening to the tape with the last consolidated feed |
| `BnpFeeds.SessionFeeds.OnCommitted` | apps/bunting-server/src/bnp_feeds.rs:164-170 | a batch for every venue feed, encoded, or a disconnect exactly on a full buffer |
| `BnpFeeds.SessionFeeds.DrainTape` | apps/bunting-server/src/public_feed.rs:190-218 | tape records in order for every consolidated feed, encoded; disconnects exactly when the tape dropped the session or a feed waiting for its snapshot runs out of buffer; keeps the subscriptions valid |
| `BnpFeeds.SessionFeeds.ActivateAfter` | apps/bunting-server/src/bnp_feeds.rs:144-162 | exactly the named feed turns live; what was buffered after its snapshot is returned encoded |
| `BnpFeeds.SessionFeeds.SendTime` | apps/bunting-server/src/public_feed.rs:346-362 | a feed's send times never go back; the subscriptions stay valid |
| `BnpFeeds.SubscribeFeedKeeps` | apps/bunting-server/src/bnp_feeds.rs:91-106 | subscribing keeps ids unique, the limit, and kinds equal to what each feed is |
| `BnpFeeds.UnsubscribeKeeps` | apps/bunting-server/src/bnp_feeds.rs:131-136 | so does unsubscribing; the id is free again and the other subscriptions stay as they were, in order |
| `BnpWire.WireKeepsNumberedEntries` | apps/bunting-server/src/bnp_feeds.rs:209-311 | a feed's wire message has exactly as many entries as report numbers it took |
| `BnpFeedsRun.NoNumberedEntryIsDropped` | apps/bunting-server/src/bnp_feeds.rs:70-195 | over every run of subscriptions, unsubscriptions, batches, tape drains, activations and send times, each increment produced is on the wire, in order, naming its listings, with its first number and, for every number it took, an entry that reads back as the one numbered; its trades read back once and in order |
| `BnpFeedsRun.ActivatedCarried` | apps/bunting-server/src/public_feed.rs:272-305 | what was buffered before a snapshot reply, batches or tape records, is of kinds the wire carries entire |
| `BnpFeedsRun.NewTapeFollows` | apps/bunting-server/src/public_feed.rs:158-182 | a new consolidated subscription is the feed of `TapeFeed` at its start |
| `BnpFeedsRun.BufferAgrees` | apps/bunting-server/src/public_feed.rs:195-209 | a session's waiting consolidated feed buffers and disconnects as the feed of `TapeFeed` does |
| `BnpFeedsRun.SendAgrees` | apps/bunting-server/src/public_feed.rs:210-213 | and an active one sends the same records, each from the hub at the instant it was published there, with its numbers and entries |
| `BnpFeedsRun.JoinAgrees` | apps/bunting-server/src/public_feed.rs:279-291 | and the same buffered records follow its snapshot, sent the same way |
| `BnpWire.WireKeepsMeaning` | apps/bunting-server/src/bnp_feeds.rs:249-311 | reading the wire entries of a direct feed changes a view exactly as the entries themselves do |
| `BnpWire.TapeWireKeepsMeaning` | apps/bunting-server/src/bnp_feeds.rs:229-243 | so does reading a tape record on the wire, as venues quote positive quantities: the dropped action and instrument are implied |
| `BnpWire.EncodeKeepsEntries` | apps/bunting-server/src/bnp_feeds.rs:209-311 | reading the wire back, from the wire entries alone, gives every entry its kind can carry, once and in order: on a level feed price and quantity, order by order the reference, broker and action too, on the tape the venue; and the trades likewise, with resting reference, buyer and seller order by order |
| `BnpWire.WireKeepsTrades` | apps/bunting-server/src/bnp_feeds.rs:249-311 | the trades read from a direct feed's wire message are those of its increment, once and in order, with everything an order feed carries or price and quantity on a level feed |
| `BnpWire.TapeWireKeepsTrades` | apps/bunting-server/src/bnp_feeds.rs:229-243 | the trades read from a tape record on the wire are its change's, once and in order, with venue, price and quantity |
| `BnpWire.PlaceOrders` | apps/bunting-server/src/bnp_feeds.rs:387-402 | each order carries its place in its own side's queue |
| `BnpWire.PartsAreTheBook` | apps/bunting-server/src/bnp_feeds.rs:403-419 | snapshot parts concatenate to the book, all but the last are full, only the last is marked complete, none is oversized or empty unless the book is |
| `BnpWire.PartFitsItsFrame` | apps/bunting-server/src/bnp_feeds.rs:358-366 | a part fits its frame exactly when the frame holds a header and one order, and no larger part would |
| `Tape.ConsolidatedTape.PrimeQuotes` | apps/bunting-server/src/consolidated.rs:104-110 | known quotes are kept, unknown ones seeded |
| `Tape.ConsolidatedTape.Start` | apps/bunting-server/src/consolidated.rs:177-213 | changes depart in order; a failed path or a full queue takes the whole tape down |
| `Tape.ConsolidatedTape.Hear` | apps/bunting-server/src/consolidated.rs:167-216 | a batch's public changes depart in order or the tape goes down; what they carry is `TapePrints.ChangeIsPriced` and `TapeOrigin.CallsSettle` |
| `Tape.ConsolidatedTape.HearGap` | apps/bunting-server/src/consolidated.rs:225-275 | a skipped report with rebuilt quotes departs for each listing |
| `Tape.ConsolidatedTape.TakeDown` | apps/bunting-server/src/consolidated.rs:280-292 | the tape is down and publishes nothing more |
| `Tape.ConsolidatedTape.ApplyFirst` | apps/bunting-server/src/consolidated.rs:302-369 | a gap takes one number silently, a change publishes its entries under the next numbers; both set the quotes |
| `Tape.ConsolidatedTape.Release` | apps/bunting-server/src/consolidated.rs:296-372 | the loop applies exactly the changes due, in arrival order, and returns when the next is due |
| `Tape.ConsolidatedTape.Snapshot` | apps/bunting-server/src/consolidated.rs:115-141 | the last report and the quotes of one instrument with everything due applied, and nothing once down |
| `Tape.ArrivesAfterPathAndProcessing` | apps/bunting-server/src/consolidated.rs:196-198 | a change arrives its path's delay and the processing delay after the commit, saturating once |
| `TapeRun.AllDepartOrDown` | apps/bunting-server/src/consolidated.rs:177-213 | a commit's changes either all depart or the tape goes down and holds nothing |
| `TapeRun.HeardChangesAreAppliedOnce` | apps/bunting-server/src/consolidated.rs:167-372 | over every run, while up, heard is in flight plus applied as multisets, in key order; once down nothing is in flight |
| `TapeRun.RisingKeys` | apps/bunting-server/src/consolidated.rs:199-200 | no two heard changes share a key |
| `TapeRun.ListingsApplyInCommitOrder` | apps/bunting-server/src/consolidated.rs:296-372 | while up, for arrivals in order per listing, applied then in flight is heard, in commit order |
| `TapeQuotes.LaterCommitWinsIff` | apps/bunting-server/src/consolidated.rs:196-198 | whatever is in flight, the processor ends on a departing change's quotes if and only if it arrives no earlier than every change of the listing then in flight, or brings what the processor would hold anyway |
| `TapeQuotes.OvertakingLeavesStaleQuotes` | apps/bunting-server/src/consolidated.rs:196-200 | two changes of a listing, the later commit arriving first, leave the older quotes |
| `TapeQuotes.DepartureSettles` | apps/bunting-server/src/consolidated.rs:177-213 | a departing change decides a listing's eventual quotes exactly when it is in time, and otherwise changes nothing of them |
| `TapeQuotes.ProcessorSettlesIff` | apps/bunting-server/src/consolidated.rs:104-372 | over every run that leaves the tape up, what the processor will hold of a listing is what the committer's calls settle on if and only if the listing's last change to depart was in time or brought the same quotes |
| `TapeQuotes.OnTimeSettles` | apps/bunting-server/src/consolidated.rs:196-198 | arrivals in order are enough |
| `TapeRun.DownStaysDown` | apps/bunting-server/src/consolidated.rs:288-292 | once down the tape never publishes or applies anything again |
| `TapeOrigin.CallsSettle` | apps/bunting-server/src/distributor.rs:648-670 | over every run of commands the committer's calls settle on quotes that are the top of the committed book, stated over its visible quantities, and their ordinals rise |
| `TapeOrigin.QuietTapeQuotesTheBook` | apps/bunting-server/src/consolidated.rs:167-372 | a tape that is up with nothing of a listing in flight holds the top of its committed book, stated over its visible quantities, for every interleaving of calls and releases, if and only if its last departure was in time |
| `TapeOrigin.OnTimeTapeQuotesTheBook` | apps/bunting-server/src/consolidated.rs:167-372 | so it does whenever the listing's changes arrive in order |
| `TapePrints.ChangeIsPriced` | apps/bunting-server/src/consolidated.rs:203-207 | the change a public update leaves as is no gap and holds one print per trade of the update, in order, with its price and quantity |
| `TapePrints.UpdateIsPriced` | apps/bunting-server/src/distributor.rs:543-550 | a listing's update carries the trades its commit executed there, one by one, price and quantity |
| `TapePrints.CallsPrintTheLog` | apps/bunting-server/src/distributor.rs:744-757 | over every run of commands and failed reads the committer's calls carry exactly the trades the published batches executed at a listing, but for batches that are a gap for it |
| `TapePrints.CallsStateTheirCommits` | apps/bunting-server/src/distributor.rs:744-757 | and each change told under an ordinal that is no gap holds the trades of the commit with that ordinal |
| `TapePrints.AppliedChangesPrintTheirCommits` | apps/bunting-server/src/consolidated.rs:296-372 | over every run of the origin and the tape, the trades of a listing on the tape are, applied change by applied change, those its commit executed there; a gap prints nothing |
| `TapePrints.TradesArePrintedOnce` | apps/bunting-server/src/consolidated.rs:167-372 | whatever the delays, while the tape is up the trades its batches executed at a listing are, as a multiset, those printed and those still in flight: none lost, none twice |
| `TapePrints.OnTimeTapePrintsInOrder` | apps/bunting-server/src/consolidated.rs:167-372 | once nothing of a listing is in flight and its changes arrived in order, the tape has printed its trades in the order they executed |
| `TapePrints.RecordsAreTimed` | apps/bunting-server/src/consolidated.rs:361-369 | over every run each record is of an applied change that is no gap, and carries the instant that change reached the hub |
| `TapeClient.RecordApplies` | apps/bunting-server/src/consolidated.rs:312-357 | a record moves exactly the sides its change moved, on the listing it names, whatever the client held |
| `TapeClient.RecordCarriesTheTrades` | apps/bunting-server/src/consolidated.rs:313-328 | a record carries the change's trades once and in order, every entry naming its venue |
| `TapeClient.RecordIsInOrder` | apps/bunting-server/src/consolidated.rs:312-357 | trades come first, then at most one bid and then at most one offer |
| `TapeClient.QuoteActionsAreTrue` | apps/bunting-server/src/consolidated.rs:329-356 | a quote entry's action says whether its venue quoted that side before and does after, and it carries the new quote or the removed price |
| `TapeFeed.PassesAfterSnapshot` | apps/bunting-server/src/public_feed.rs:210-213 | the filter on the first report lets through exactly the records of changes the snapshot does not hold |
| `TapeFeed.ContiguousClientHoldsTheQuotes` | apps/bunting-server/src/public_feed.rs:279-291 | over every history of changes and primes and any drain and reply order the client receives exactly the records after its snapshot; each skips one number per gap, is contiguous if and only if there was none, and then leaves the processor's quotes if and only if no side a prime gave unsaid is still unmoved |
| `TapeFeed.HistoryIsPublished` | apps/bunting-server/src/consolidated.rs:361-369 | the records of that theorem are the ones the processor publishes |
| `TapeFeed.HistoryRuns` | apps/bunting-server/src/consolidated.rs:296-372 | a processor applying any changes gives a history that theorem covers |
| `TapeFeed.ShowsIffNothingMissed` | apps/bunting-server/src/consolidated.rs:104-110 | a client in step quotes the instrument as the processor does if and only if it missed no side |
| `TapeFeed.NothingRevealedNothingMissed` | apps/bunting-server/src/consolidated.rs:104-110 | nothing is missed of a listing no prime since the snapshot has revealed |
| `TapeFeedRun.RunHappens` | apps/bunting-server/src/consolidated.rs:104-372 | over every run the tape's processor, what it sent and what it applied are those of the history of its primes and changes |
| `TapeFeedRun.ReportsCountFromOne` | apps/bunting-server/src/consolidated.rs:306-369 | over every run an instrument's next report is one more than the entries published of it and the gaps applied to it: no number is used twice or lost |
| `TapeFeedRun.SubscribersOfTheTape` | apps/bunting-server/src/consolidated.rs:104-372 | the history of a run from the start is one the consolidated-feed theorem covers, ends in the tape's processor and sends what the tape sent |
| `TapeFeedRun.PrimeAfterSnapshotIsMissed` | apps/bunting-server/src/consolidated.rs:104-110 | on the tape itself, a prime after a client's snapshot is never told: no record, no skipped number, other quotes |
| `Fanout.DrainsAreContiguous` | apps/bunting-server/src/distributor.rs:124-183 | over every run a subscriber's drains, sends racing them included, concatenate to a contiguous run of what was sent, and once an item was skipped it has overflowed and no later drain starts |
| `Fanout.DrainIsReceives` | apps/bunting-server/src/distributor.rs:341-355 | draining at once is receiving until the queue is empty |
| `Fanout.OverflowStays` | apps/bunting-server/src/distributor.rs:154-163 | an overflowed subscriber stays overflowed |
| `Fanout.Registry.Subscribe` | apps/bunting-server/src/distributor.rs:124-145 | a new subscriber starts with an empty queue at the current position |
| `Fanout.Registry.Send` | apps/bunting-server/src/distributor.rs:150-169 | queues the item for every subscriber with room and drops the others, marked |
| `Fanout.Registry.Offer` | apps/bunting-server/src/distributor.rs:154-168 | one subscriber's queue takes the item exactly while it has room |
| `Fanout.Registry.CloseAll` | apps/bunting-server/src/distributor.rs:173-183 | every subscriber is marked and dropped |
| `Fanout.Registry.Drain` | apps/bunting-server/src/distributor.rs:341-355 | fails exactly when marked, else returns the queue in order |
| `Fanout.Registry.Drop` | apps/bunting-server/src/distributor.rs:358-364 | a dropped subscription leaves the others alone |
| `Distributor.CoveredReplay` | apps/bunting-server/src/distributor.rs:255-278 | an accepted cursor replays every published batch with events after it, for any retention |
| `Distributor.ResumeAcceptsIff` | apps/bunting-server/src/distributor.rs:255-278 | after every run a cursor is accepted if and only if, with something retained, it lies from the last event dropped from the window to the last one published, both included; with nothing retained, the run can be read and the cursor is its position |
| `Distributor.SkippingKeepsAfter` | apps/bunting-server/src/distributor.rs:267-278 | skipping whole batches at or before the cursor loses no event after it |
| `Distributor.ResumeIsExactlyOnce` | apps/bunting-server/src/distributor.rs:244-319 | unless the answer is a gap, replay then live drains hold every event after the cursor exactly once and in order, over every run and retention; it says exactly when live batches need no filter |
| `Distributor.CursorAheadRepeatsAnEvent` | apps/bunting-server/src/distributor.rs:255-265 | with nothing retained and one event unpublished, the run's own sequence is accepted and the event it names is queued live |
| `Distributor.LiveNeedsNoFilter` | apps/bunting-server/src/distributor.rs:260-265 | for a published cursor live batches hold only later events |
| `Distributor.EventDistributor.Publish` | apps/bunting-server/src/distributor.rs:287-319 | an empty batch changes nothing; another takes the next ordinal, is queued for all and retained within the window |
| `Distributor.EventDistributor.Missed` | apps/bunting-server/src/distributor.rs:267-278 | the loop collects exactly the retained batches ending after the cursor |
| `Distributor.EventDistributor.SubscribeResuming` | apps/bunting-server/src/distributor.rs:244-283 | registers and answers the cursor in one step; which cursors are accepted is `ResumeAcceptsIff`, what is replayed `CoveredReplay` |
| `Outbound.OutboundHold.Hold` | apps/bunting-server/src/outbound.rs:23-33 | refuses exactly when full, else queues by send time and then hold order |
| `Outbound.OutboundHold.TakeDue` | apps/bunting-server/src/outbound.rs:39-48 | exactly the due messages leave, in key order |
| `Outbound.LanesLeaveInOrder` | apps/bunting-server/src/bnp_host.rs:719-730 | over every run each lane with a send-time floor leaves in the order it was held: written is a prefix, the rest is queued |
| `PrivateStream.BnpSession.HoldPrivate` | apps/bunting-server/src/bnp_host.rs:666-673 | a private message queues last of its stream, at the session's floor |
| `PrivateStream.BnpSession.HoldBatch` | apps/bunting-server/src/bnp_host.rs:666-673 | a batch raises the floor to its arrival, if later, and its reports queue last at that floor; fails exactly when the hold has no room |
| `PrivateStream.BnpSession.ReplayBatches` | apps/bunting-server/src/bnp_host.rs:486-501 | the loop holds the replayed reports after the cursor, each at the latest arrival of the replayed batches up to its own |
| `PrivateStream.BnpSession.HoldOther` | apps/bunting-server/src/bnp_host.rs:642-644 | other messages do not disturb the private stream |
| `PrivateStream.BnpSession.Replay` | apps/bunting-server/src/bnp_host.rs:484-508 | before anything live, holds exactly the replayed reports after the cursor in order, then the end mark, each with its send time; fails exactly when the hold has no room for them |
| `PrivateStream.BnpSession.OnBatch` | apps/bunting-server/src/bnp_host.rs:658-674 | a live batch's reports follow the replay, its end mark and the live batches before it, and are held at the latest arrival of the replayed batches and the live ones with reports up to it; fails exactly when the hold has no room |
| `PrivateStream.BnpSession.Write` | apps/bunting-server/src/bnp_host.rs:675-677 | after any calls, what has been written of the private stream is a prefix of the replay, its end mark, then the live batches; a turn writes exactly the messages whose send times have come |
| `PrivateTimes.LiveReportsLeaveWhenDue` | apps/bunting-server/src/bnp_host.rs:658-677 | a write turn takes what is left of a live batch's reports if the commit time and path delay of every replayed batch and every live batch with reports up to it have passed, and otherwise none of them |
| `PrivateTimes.ReplayedReportsLeaveWhenDue` | apps/bunting-server/src/bnp_host.rs:484-508 | a replayed batch's reports likewise wait for it and the replayed batches before it |
| `PrivateTimes.EndMarkLeavesWhenDue` | apps/bunting-server/src/bnp_host.rs:502-508 | the end mark waits for every replayed batch |
| `PrivateStream.SessionStreamIsReportsAfterCursor` | apps/bunting-server/src/bnp_host.rs:477-508 | a resumed session's replay and live reports are exactly the participant's reports after the cursor, in committed order |
| `PrivateResume.HandOver` | apps/bunting-server/src/bnp_host.rs:477-493 | a cut session and its successor give the stream without loss or repeat if and only if the cut fell between event sequences, and otherwise fall short |
| `PrivateResume.SessionsConcatenate` | apps/bunting-server/src/bnp_host.rs:434-508 | over every run of the distributor, any number of sessions resuming after the client's cursor, none answered with a gap: what they wrote and what is left give the reports after the first cursor once and in order if and only if no session was cut inside an event sequence |
| `PrivateResume.SessionReports` | apps/bunting-server/src/bnp_host.rs:484-508 | a session's stream without its mark is the reports replayed after the cursor, then those of the batches drained |
| `PrivateResume.EndMarkIsTheEnd` | apps/bunting-server/src/bnp_host.rs:485-508 | the end mark names the last sequence published when the session resumed |
| `PrivateResume.CursorIsLast` | packages/bunting-client/src/connection.rs:378-384 | of reports in order the highest sequence seen is the last one's |
| `PrivateResume.CutInsideASequenceLosesReports` | apps/bunting-server/src/bnp_host.rs:493-495 | a cut inside one event sequence loses its remaining reports |
| `Delivery.DeliveryRecord.constructor` | apps/bunting-server/src/delivery.rs:47-55 | restored reports are the saved ones, due at once |
| `Delivery.DeliveryRecord.AdvanceTo` | apps/bunting-server/src/delivery.rs:63-65 | the position never goes back |
| `Delivery.DeliveryRecord.OnBatch` | apps/bunting-server/src/delivery.rs:69-81 | records an applied batch; one without messages only moves the position |
| `Delivery.DeliveryRecord.OnWritten` | apps/bunting-server/src/delivery.rs:84-86 | keeps exactly the batches that leave later |
| `Delivery.DeliveryRecord.Retain` | apps/bunting-server/src/delivery.rs:100-103 | keeps exactly the named batches |
| `Delivery.DueTogether` | apps/bunting-server/src/session_host.rs:417-424 | at one instant a batch's held reports are all due or none is, as its record says |
| `Delivery.UnwrittenIsStillHeld` | apps/bunting-server/src/delivery.rs:47-103 | over every run, restarts and crashes included, the unwritten reports of an open session are exactly those still held, and written then unwritten is what each batch produced |
| `Delivery.BatchClosesIff` | apps/bunting-server/src/session_host.rs:431-445 | a new batch closes the session if and only if one of its reports, held one by one, finds the hold full |
| `Delivery.OpenHoldIsBounded` | apps/bunting-server/src/outbound.rs:23-33 | over every run an open session holds no more than its capacity |
| `Delivery.WriteTurnTakesWhatIsDue` | apps/bunting-server/src/session_host.rs:417-424 | a write turn takes exactly what is due by its instant, in order, and its instant never goes back |
| `Delivery.ReplayRestores` | apps/bunting-server/src/session_store.rs:574-586 | replaying a log delta restores exactly the record that was saved |
| `RunClock.TickIsFirstInstantDue` | apps/bunting-server/src/run_clock.rs:75-90 | run time reaches a target at exactly the instants from `venue_at` on |
| `RunClock.ElapsedProductFits` | apps/bunting-server/src/run_clock.rs:75-90 | the 128-bit products do not overflow: that of `run_at` below 2^54 elapsed microseconds, that of `venue_at` ever |
| `RunClock.StampNeverBehind` | apps/bunting-server/src/run_clock.rs:102-113 | a stamp is never behind the committed clock |
| `RunClock.HaltedClockStands` | apps/bunting-server/src/run_clock.rs:53-62 | while a run is not active, not paced or does not move, every stamp is its committed clock and no anchor is kept |
| `RunClock.HaltedTimeDoesNotCount` | apps/bunting-server/src/run_clock.rs:106-112 | the first stamp after it resumes is the committed clock, and later ones add exactly the scaled time since then |
| `RunClock.StampsDoNotDrift` | apps/bunting-server/src/run_clock.rs:75-113 | any number of stamps gives the floor of one scaling from the start, with no accumulated rounding |
| `RunClock.ReanchorNeverEarlier` | apps/bunting-server/src/run_clock.rs:151-169 | re-anchoring makes no later instant's run time earlier |
| `RunClock.MappingOnlyMovesForward` | apps/bunting-server/src/run_clock.rs:151-169 | over every run of inputs the mapping only moves forward |
| `RunClock.QueuedTickFindsItsItemDue` | apps/bunting-server/src/run_clock.rs:135-145 | a tick queued before any inputs still finds its item due |
| `RunClock.Clock.CurrentAnchor` | apps/bunting-server/src/run_clock.rs:151-169 | keeps, restarts or creates the run's anchor and touches no other run |
| `RunClock.Clock.StampNow` | apps/bunting-server/src/run_clock.rs:102-113 | stamps and moves the run's anchor only |
| `RunClock.Clock.Peek` | apps/bunting-server/src/run_clock.rs:118-131 | what a stamp would return, changing nothing |
| `RunClock.Clock.VenueInstant` | apps/bunting-server/src/run_clock.rs:135-145 | the instant of a run time, when run time follows venue time |
| `Journal.LittleEndianRoundTrip` | apps/bunting-server/src/commit_journal.rs:136-139 | a length read back is the length written |
| `Journal.JournalFile.Append` | apps/bunting-server/src/commit_journal.rs:87-102 | appends one frame, or refuses an empty or oversized record and changes nothing |
| `Journal.JournalFile.ScanFile` | apps/bunting-server/src/commit_journal.rs:109-170 | the loop visits what the recursive scan visits and, repairing, cuts the file to the good bytes |
| `Journal.JournalFile.ReadAt` | apps/bunting-server/src/commit_journal.rs:126-154 | reads one frame at an offset: a record, a torn tail or a bad frame |
| `Journal.PrefixSplits` | apps/bunting-server/src/commit_journal.rs:87-102 | every byte-prefix of appended frames is the complete ones and one crash tail |
| `Journal.ScanOfPrefix` | apps/bunting-server/src/commit_journal.rs:109-161 | scanning any byte-prefix of appended frames visits exactly the complete frames, in order |
| `Journal.RepairKeepsCompleteFrames` | apps/bunting-server/src/commit_journal.rs:163-170 | repair cuts to exactly the complete frames |
| `Journal.RepairThenAppend` | apps/bunting-server/src/commit_journal.rs:87-170 | after repair a scan cuts nothing and appending scans as old entries then new ones |
| `Journal.ScanFindsFrames` | apps/bunting-server/src/commit_journal.rs:109-161 | a scan that succeeds has found valid frames and one crash tail |
| `Journal.FramesScan` | apps/bunting-server/src/commit_journal.rs:125-160 | conversely every such stream scans, with those entries |
| `Enrolment.EnrolmentAuthority.Enroll` | apps/bunting-server/src/bnp_enrol.rs:94-172 | each refusal in its order; the certificate is recorded before the invite is marked, and returned only after both |
| `Enrolment.FindInvite` | apps/bunting-server/src/bnp_enrol.rs:110-114 | the first invite with the secret's digest |
| `Enrolment.AnyEnrolled` | apps/bunting-server/src/bnp_enrol.rs:122-128 | whether the participant is enrolled |
| `Enrolment.LoadRoster` | apps/bunting-server/src/bnp_host.rs:68-72 | a start's roster: the configured entries overlaid by the enrolled file in order |
| `Enrolment.EnrolmentKeeps` | apps/bunting-server/src/bnp_enrol.rs:94-172 | over every run of attempts, crashes and restarts: one entry per participant, never over the limit, every certificate handed out enrolled and on the roster |
| `Enrolment.CertificatesKeepTheirIdentity` | apps/bunting-server/src/bnp_host.rs:64-77 | the roster names the right participant for every certificate handed out, while no two certificates collide |
| `Enrolment.SpentInviteIsRefused` | apps/bunting-server/src/bnp_enrol.rs:110-128 | an invite earns at most one recorded certificate: after it every attempt is refused and writes nothing |
| `Enrolment.StoppedBetweenWritesLocksOut` | apps/bunting-server/src/bnp_enrol.rs:155-166 | stopped between the writes, the client gets nothing and its invite is refused for ever, though not marked used |
| `Enrolment.IssuedIff` | apps/bunting-server/src/bnp_enrol.rs:110-171 | a certificate is handed out exactly when the first invite with the digest is unspent, unexpired and for somebody not enrolled, there is room, the request is well formed and both writes take effect; then the invite is spent |
| `Enrolment.IssuanceMarksItsInvite` | apps/bunting-server/src/bnp_enrol.rs:165-171 | a certificate handed out marks exactly the invite it was issued on, changes nothing else of it, and names its participant; anything else leaves every invite as it was |
| `Enrolment.OneInvitePerCertificate` | apps/bunting-server/src/bnp_enrol.rs:94-172 | over every run, crashes and restarts included, as many invites become marked as certificates are handed out |
| `Calendar.CivilIsGregorian` | apps/bunting-server/src/bnp_enrol.rs:203-213 | for every day count the closed formula is the date a calendar that steps day by day from 1970-01-01 reaches |
| `Calendar.CivilFromDaysIsGregorian` | apps/bunting-server/src/bnp_enrol.rs:203-219 | the returned date is that one if and only if its year fits 32 bits |
| `Calendar.GregorianSteps` | apps/bunting-server/src/bnp_enrol.rs:201-219 | every date of that calendar is valid and the next day is its calendar successor |
| `Calendar.GregorianIncreases` | apps/bunting-server/src/bnp_enrol.rs:201-219 | later days have later dates |
| `Budgets.ConnectionSlots.TryQueue` | apps/bunting-server/src/acceptor.rs:97-106 | queues exactly below twice the maximum |
| `Budgets.ConnectionSlots.Look` | apps/bunting-server/src/acceptor.rs:109-123 | a queued connection takes a free slot, gives up at its deadline or keeps waiting |
| `Budgets.ConnectionSlots.Release` | apps/bunting-server/src/acceptor.rs:128-135 | a dropped guard frees one slot |
| `Budgets.SlotsStayWithinCaps` | apps/bunting-server/src/acceptor.rs:80-135 | over every interleaving the counters count the connections, never go negative and stay within the caps |
| `Budgets.SumIsLive` | apps/bunting-server/src/bnp_host.rs:141-141 | the sum over addresses is the number of live guards |
| `Budgets.PreAuthBudget.Enter` | apps/bunting-server/src/bnp_host.rs:139-154 | admits exactly while both budgets have a place; the map counts live guards and keeps no zero |
| `Budgets.PreAuthBudget.Leave` | apps/bunting-server/src/bnp_host.rs:164-175 | gives exactly one place of that address back |

## Left out

- Matching engine, ledger, admission sequencer and latency model: commits and delays are inputs.
- Origin.PublishingOrigin.PublishCommit: private order references, deal changes and their failed reads (distributor.rs 725-743) are left out; reports built from the events are inputs.
- Origin.PublishingOrigin.ExecuteAdmitted: the batch's source endpoint and the private projection are inputs.
- Tape.ConsolidatedTape.TakeDown: disconnecting the subscribers is `Fanout.Registry.CloseAll`, not part of this contract.
- BnpFeeds.SessionFeeds.DrainTape: what the session had buffered when a full buffer disconnects it is not stated.
- Outbound.OutboundHold.Hold: the hold counter is unbounded, because the source's wraps only after 2^64 messages.
- TimedQueue.Insert: the ordered maps are sequences in key order, so only their order and contents are captured.
- Fanout.Registry.Send: wakers and the detection of a hung-up receiver are not modelled; a dropped subscription is removed by its own step.
- Budgets.ConnectionSlots.TryQueue: twice the maximum does not saturate.
- Budgets.ConnectionSlots.Look: the wait is one look per wake-up or deadline; condition-variable fairness is not modelled.
- Delivery.DeliveryRecord.Retain: the sorted key list is a set, so the binary search is membership.
- Enrolment.EnrolmentAuthority.Enroll: certificates, digests and secrets are numbers; unreadable files are refusals before anything is written and are left out.
- Journal.JournalFile.ScanFile: file errors and the missing-file case are not modelled; the file is its bytes.
- Request ids are numbers, so the parsing of their text form is not modelled.
- Certificate validity dates, TLS, sockets, HTTP administration, thread start-up, configuration and the desk, terminal and trader clients: input and output, or straight-line code.
