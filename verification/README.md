# The factory's charter, prices and spend guards, modelled and proved

The factory governs itself by a charter. Committees drawn by lot vote on amendments to its metric
cards; a controller prices each card's violation; holdouts test the factory's behaviour in closed
windows; and rehearsals, paid proofs and audits run under guards that must hold across crashes. This
project models those parts in Dafny 4.11 and proves what each is for.

Check everything with `dafny verify dfyconfig.toml`.

## How it is laid out

| files | what they model |
|---|---|
| `Charter.dfy` | editions, cards kept as an ordered dictionary, amendments, the binding rule |
| `Book.dfy`, `CharterBook.dfy` | the charter book: as a state machine, and as the class that mutates its dicts, each method proved to be a step of the machine |
| `BookProofs.dfy`, `BookRuns.dfy`, `BookEvidence.dfy`, `BookForgetting.dfy` | what every step keeps, what every ledger shows, the evidence behind every edition, and that forgetting decided motions is invisible |
| `BookAmendments.dfy`, `BookActivations.dfy`, `BookSeatings.dfy`, `BookNorms.dfy` | exactly when a motion is proposed and takes effect, which motions a committee hears, and what a norm edition carries over |
| `Seats.dfy`, `Sortition.dfy` | seats and the stratified draw, for every generator |
| `PriceLaw.dfy`, `PriceProofs.dfy`, `PriceTerms.dfy` | one card's price law, its laws of motion, and what each of its terms is |
| `Controller.dfy`, `PriceController.dfy`, `ControllerProofs.dfy` | the controller over its ledger: machine, class and runs |
| `Admissions.dfy`, `Spending.dfy` | the admission guard, and the write-ahead record of a spending run under process deaths |
| `Holdout.dfy`, `HoldoutExact.dfy` | the holdout checker, two walks over a syntax tree, and exactly what it accepts |
| `HoldoutSemantics.dfy`, `HoldoutIdentity.dfy`, `HoldoutRuns.dfy`, `HoldoutSoundness.dfy` | a small Python in which only listed names are arithmetic, and the proof that the checker is sound for modules that keep to the list |
| `HoldoutHost.dfy`, `HoldoutProbes.dfy`, `HoldoutLimits.dfy` | what a host can decide, predicates that ask it, and why no name can be left out of the condition |
| `FillBand.dfy` | average-cost positions, the tape's profit and loss, its pessimistic form |
| `Triage.dfy`, `Gate.dfy` | the audit's table printer and reader, the merge of samples and the release gate |
| `Attempts.dfy`, `ProofSteps.dfy` | attempt markers on a disk that may lose what is not synced; the step as it is written |
| `Drafting.dfy` | the drafting session's votes, refusals and renaming; adoption |
| `Options.dfy`, `Sequences.dfy`, `Text.dfy` | options, filters and maps, blanks and case |

A class's methods promise that the object's state after the call is the state machine's step from the
state before; the lemmas are about the machine. A call that can meet a failing ledger takes how many
appends succeed (`appends`) or whether its one append does (`accepts`).

## Where the code and its own text disagree

The model follows the code. Each of these is a lemma.

- The holdout checker's text says that what a predicate reads is known and that no clock or host state
  can enter. It lets through any member of `math` and `statistics`, any other attribute, and any
  builtin it does not name. A module that imports `sys` from `statistics` is accepted as reading one
  key and answers any other (`HoldoutLimits.ThroughFrameReadsAnything`). An accepted module whose
  attributes, imported members, operators and builtins are all on a list of arithmetic does what the
  text says (`HoldoutSoundness.ArithmeticDependsOnReadsOnly`), and for each name off the list that the
  checker lets through an accepted module answers whatever the host does
  (`HoldoutLimits.OffListIsTheHosts`).
- The controller's text says the integral is held, never cut, while a price is at its bound, and that
  a wrong market cannot wind the integral. A *falling* violation under a price below its bound can
  cut the integral (`PriceProofs.MemoryCutExactly`, `PriceProofs.MemoryCanBeCut`), and a forecast
  reaches the integral through the hold at the cap (`PriceProofs.MarketReachesMemory`,
  `PriceProofs.SettledForecastLeavesTrace`).
- A decay that the setter refuses stays in force, and a negative one raises the price of a card that
  is inside its region (`ControllerProofs.RaisingCallsChangeNothingBut`,
  `ControllerProofs.RefusedDecayRaisesPrices`).
- A redefinition clears a card's violation and leaves the old metric's pressure reading standing
  (`PriceProofs.OwnReadingKept`).
- A norm edition interrupted by a failing ledger leaves an entry for an edition that does not exist,
  and motions spent by it (`BookRuns.InterruptedNormEditionSpends`, `BookRuns.NormEditionCutShort`,
  `BookRuns.EditionsCounted`).
- A write that raises after replacing the record takes back in memory a draw that is on the disk, and
  the next write undoes it there (`Spending.DrawOnce`, `Spending.DrawCanBeUndone`).
- The proof script's text has existing evidence refuse concurrent runs before any request. Two
  default runs at once can both start a step's action, though at most one ever pays
  (`Attempts.TogetherMayStartTwice`, `Attempts.AtMostOnePayer`). It takes one process giving its marker
  up, failed and unpaid, while another has looked and not yet opened its own: without that moment the
  action starts once (`Attempts.TogetherStartsOnce`), and from any such moment it can start again
  (`Attempts.GivingUpStartsAgain`).

## Model

| member | source | states |
|---|---|---|
| Charter.ValidateBindings | factorylab/charter/book.py:469-481 | accepts exactly the card lists in which no two cards name one observation for overlapping roles |
| Charter.Construct | factorylab/charter/charter.py:172-191 | an edition is constructed exactly when it starts at 1, has norms, repeats no norm and no card id, and every card's norm is one of them |
| Charter.PatchedContents | factorylab/charter/book.py:302-340 | a cards amendment leaves exactly its own cards and the edition's that it neither removes nor replaces |
| Charter.HoldoutContents | factorylab/charter/book.py:484-500 | a holdout amendment appends one entry to one card and leaves every other card alone |
| Charter.PutKeepsPositions | factorylab/charter/book.py:302-340 | a replaced card keeps its position, a new one goes last |
| CharterBookClass.CharterBook.constructor | factorylab/charter/book.py:42-61 | a new book is the machine's opening state |
| CharterBookClass.CharterBook.Propose | factorylab/charter/book.py:77-131 | a proposal is the machine's step: refused ids, bases, norms and cards, then ledger before state |
| CharterBookClass.CharterBook.CloseDecided | factorylab/charter/book.py:162-179 | exactly the decided and failed motions are dropped from every dict, and their ids kept |
| CharterBookClass.CharterBook.Seat | factorylab/charter/book.py:181-245 | a seating is the machine's step with seats that meet the draw's guarantees, postponed without a quorum |
| CharterBookClass.CharterBook.Vote | factorylab/charter/book.py:252-256 | a vote is the machine's step |
| CharterBookClass.CharterBook.Abstain | factorylab/charter/book.py:258-260 | an abstention is the machine's step |
| CharterBookClass.CharterBook.Record | factorylab/charter/book.py:443-466 | a ballot of this committee, motion and voter, once, before the motion is decided; ledgered first |
| CharterBookClass.CharterBook.FirstDue | factorylab/charter/book.py:293-300 | the motion activated is the first whose tally passed, if any has |
| CharterBookClass.CharterBook.ActivateDue | factorylab/charter/book.py:274-362 | activation is the machine's step: a new edition, a ledgered refusal, or nothing |
| CharterBookClass.CharterBook.ApplyNormEdition | factorylab/charter/book.py:397-441 | a norm edition is the machine's step, whichever of its appends fails |
| BookProofs.TallyIsMajority | factorylab/charter/book.py:262-272 | passed exactly with a strict majority of the voters; failed exactly when the ballots to come cannot make one |
| BookProofs.TallyIsFinal | factorylab/charter/book.py:262-272 | a verdict never changes with later ballots, and the last ballot always gives one |
| BookProofs.AmendedWellFormed | factorylab/charter/book.py:302-361 | an activation nothing stands against builds an edition its constructor accepts, with the same norms and no double binding |
| BookProofs.ReissuedWellFormed | factorylab/charter/book.py:397-441 | a norm edition keeps the edition well formed |
| BookProofs.EveryRun | factorylab/charter/book.py:27-481 | from a well-formed seed, over every call sequence and every append failure, the edition in force is well formed and the ledger's activations fit their motions' histories |
| BookProofs.NoMotionTwice | factorylab/charter/book.py:95-100 | in no reachable ledger is a motion proposed, seated or settled twice, or voted on twice by one alias |
| BookAmendments.ProposedExactly | factorylab/charter/book.py:77-131 | a proposal goes through exactly when its id is new, its base is the edition in force, its cards' norms are carried and can be measured, every id it names exists or not as it must, its holdout can be appended, something changes and no role is charged twice for one observation |
| BookActivations.ActivatedExactly | factorylab/charter/book.py:274-395 | over every run: an activation takes the first motion with a majority, or does nothing if there is none; it makes the patched edition exactly when its norms are carried, its priced cards exist, its holdout can be appended, something changes, nothing is charged twice, and every observation its cards name is registered as it was when some earlier call of the run proposed it; otherwise it spends the motion |
| BookSeatings.SeatedExactly | factorylab/charter/book.py:208-245 | a committee hears, in proposal order, exactly the motions unheard on which at least a quorum of its seats is not recused, and those seats are each motion's voters |
| BookSeatings.BoundaryHeldExactly | factorylab/charter/book.py:181-220 | exactly which boundary seats a committee, which is put off, and that each counts once |
| BookNorms.NormEditionCarries | factorylab/charter/book.py:397-441 | a norm edition carries over, unchanged and in order, exactly the cards whose norm stays; it returns the ids of the others and of the pending motions that name a norm that goes, which are spent; and it ledgers each refusal after itself |
| BookNorms.NormEditionIssuedExactly | factorylab/charter/book.py:397-441 | a norm edition is issued exactly when it is next in sequence, its norms are some and distinct, and the ledger takes all of its entries |
| BookEvidence.EveryEditionHasEvidence | factorylab/charter/book.py:181-362 | each activation entry follows exactly one proposal, then exactly one seating entry, which one seating call of the run appended; the voters it counts are the seats that call did not recuse from the motion, at least a quorum; then at most one ballot per alias, each of such a voter, with yes from a strict majority of them |
| BookRuns.SessionMeans | factorylab/charter/book.py:181-245 | a motion in session was proposed once, then seated once, and every vote on it came after |
| BookRuns.BallotsMean | factorylab/charter/book.py:450-466 | a motion's ballots are exactly its ledgered votes |
| BookRuns.BallotsCastOnce | factorylab/charter/book.py:450-466 | one vote entry per alias and motion |
| BookRuns.RecusedNeverVote | factorylab/charter/book.py:181-251 | under seatings that recuse each motion's proposer, no ballot in any ledger is a proposer's own |
| BookRuns.EditionsCounted | factorylab/charter/book.py:345-361 | the edition number is the seed's plus the activations in the ledger plus the norm editions |
| BookRuns.NormsAreReadOnly | factorylab/charter/book.py:397-441 | no call but a norm edition changes the norms, and no call but that and an activation changes the edition |
| BookRuns.InterruptedNormEditionSpends | factorylab/charter/book.py:416-441 | exactly when a norm edition stopped by the ledger has spent motions, though no edition came |
| BookRuns.NormEditionCutShort | factorylab/charter/book.py:416-441 | in every charter with two admissible motions at odds with the new norms: a run that proposes both, stops the norm edition after one refusal, and leaves that motion spent under the old edition |
| BookRuns.NormEditionIsCutShort | factorylab/charter/book.py:416-441 | one such charter and run, written out |
| BookForgetting.ForgettingIsInvisible | factorylab/charter/book.py:162-179 | after every call sequence the forgetting book and one that keeps everything show the same edition, pending motions, agenda and counters |
| BookForgetting.SameOutcomes | factorylab/charter/book.py:162-179 | every call returns the same from both, except a ballot on a motion that had already failed |
| BookForgetting.LateBallot | factorylab/charter/book.py:262-272 | such a ballot never changes that the motion failed |
| Sortition.Draw | factorylab/charter/committee.py:87-145 | for every generator: distinct assemblies under aliases 1 to k in order, everyone when the seats suffice, and otherwise selected in stages: a preferred candidate for each of as many roles as can be, and then no seat filled freely before those seated hold every learner type present |
| Sortition.SeatRoles | factorylab/charter/committee.py:118-130 | one candidate for each role in turn, bringing a learner type not seated yet whenever one of the role does |
| Sortition.StratifiedCovers | factorylab/charter/committee.py:91-99 | as many roles are covered as can be, and a learner type present is left out only if every seat after the roles brought a type that none before it had |
| Sortition.DrawableMeans | factorylab/charter/committee.py:105-111 | a draw is refused exactly for no seat, or an assembly or role that is all blanks |
| Sortition.Shuffled | factorylab/charter/committee.py:140-145 | the aliases are a numbering from 1 in some order |
| PriceLaw.Violation | factorylab/charter/controller.py:127-137 | never negative, and zero exactly inside the region |
| PriceLaw.PressureIsCappedProduct | factorylab/charter/controller.py:203-219 | the pressure is price times violation capped, within zero and the cap |
| PriceProofs.RelativeRegionHasNoUnits | factorylab/charter/controller.py:113-124 | normalised by its bound, a region reads a breach alike in any unit |
| PriceProofs.FeedForwardKeepsFloor | factorylab/charter/controller.py:637-693 | the proportional and feed-forward terms together are never negative |
| PriceProofs.ObservedOk | factorylab/charter/controller.py:525-693 | after any accepted window the price is within its bound and at or above the lesser of bound and integral, and the integral within its episode, with or without feed-forward |
| PriceProofs.AdoptedOk | factorylab/charter/controller.py:359-374 | a declared price keeps the floor |
| PriceProofs.RatchetedOk | factorylab/charter/controller.py:376-423 | a ratchet keeps the floor and never lowers a price |
| PriceProofs.RedefinedOk | factorylab/charter/controller.py:447-491 | a redefinition keeps the floor |
| PriceProofs.OwnReadingKept | factorylab/charter/controller.py:222-228 | the published pressure stays the card's own through windows, adoptions and ratchets, and after a redefinition exactly when it was zero |
| PriceProofs.ClimbingKeepsMemory | factorylab/charter/controller.py:671-693 | while a violation climbs or holds, the integral keeps at least what the episode allows |
| PriceProofs.MemoryCutExactly | factorylab/charter/controller.py:671-693 | exactly when a violating window cuts the integral below what its episode keeps |
| PriceProofs.MemoryCanBeCut | factorylab/charter/controller.py:671-693 | six windows from registration, the last with a falling violation, that cut an integral of 1 to 0.625 |
| PriceProofs.MarketReachesMemory | factorylab/charter/controller.py:671-693 | exactly when the price a market moved changes the next integral |
| PriceProofs.SettledForecastLeavesTrace | factorylab/charter/controller.py:268-272 | a forecast that has settled can still be seen in the integral |
| PriceProofs.RatchetClosedForm | factorylab/charter/controller.py:395-423 | n ratchets from duration d raise a price below its bound by step times the sum of d+1 to d+n, up to the bound |
| PriceProofs.RaisesClosed | factorylab/charter/controller.py:395-423 | what n ratchets from duration d add up to, in closed form |
| PriceProofs.SaturatedRatchetOnlyCounts | factorylab/charter/controller.py:395-423 | from saturation on only the duration moves |
| PriceProofs.ComplianceClosedForm | factorylab/charter/controller.py:576-589 | k compliant windows leave the integral, clamped once to the ended episode's bound, less k decays, and the price equal to it |
| PriceProofs.PricesReachZero | factorylab/charter/controller.py:671-677 | a price is zero after k compliant windows exactly when k decays cover the clamped integral |
| PriceProofs.RatchetMemory | factorylab/charter/controller.py:395-423 | n ratchets leave the integral at what it was plus all the raises, up to the bound, until one reaches it; from there on it stays |
| PriceTerms.WorseningIsPriced | factorylab/charter/controller.py:660-671 | outside the region on the side the last value was, the D term is the gain times the growth of the violation, if it grew |
| PriceTerms.LeavingIsPriced | factorylab/charter/controller.py:660-671 | on leaving or crossing the region it is the gain times the whole move, at least the gain times the violation |
| PriceTerms.RecoveryIsFree | factorylab/charter/controller.py:660-671 | it is zero for a move that is not deeper into violation, without a last value or a region, and while nothing is violated |
| PriceTerms.PriceIsSum | factorylab/charter/controller.py:567-590 | the price is the integral inside the region, and outside it the gain on the expected violation plus the integral plus the D term, up to the bound; saturated exactly when the sum is beyond it |
| PriceTerms.HeldExactly | factorylab/charter/controller.py:671-693 | exactly when a violating window holds the integral, and what it grows to otherwise |
| PriceTerms.LeaksExactly | factorylab/charter/controller.py:672-677 | inside the region the integral leaks the decay, from at most the bound of the episode that ended |
| PriceTerms.RegisteredIsBlank | factorylab/charter/controller.py:335-358 | a card is registered with nothing observed, counted or priced |
| PriceTerms.PressesExactly | factorylab/charter/controller.py:576-600 | a window counts as at the bound exactly when its own penalty or its roles' pressure reaches the cap |
| PriceControllerClass.PriceController.Observe | factorylab/charter/controller.py:525-635 | an observation is the machine's step: refused, skipped, stopped by the ledger, or ledgered before any state moves |
| PriceControllerClass.PriceController.SetPrice | factorylab/charter/controller.py:359-374 | an adopted price is the machine's step |
| PriceControllerClass.PriceController.Ratchet | factorylab/charter/controller.py:376-423 | a ratchet is the machine's step |
| PriceControllerClass.PriceController.Redefine | factorylab/charter/controller.py:447-474 | a redefinition is the machine's step |
| PriceControllerClass.PriceController.EndFailure | factorylab/charter/controller.py:476-491 | ending a failure is the machine's step |
| PriceControllerClass.PriceController.Remove | factorylab/charter/controller.py:497-504 | a removal is the machine's step |
| PriceControllerClass.PriceController.SetDecay | factorylab/charter/controller.py:739-748 | the decay is assigned before it is checked |
| PriceControllerClass.PriceController.Acceptable | factorylab/charter/controller.py:318-333 | exactly the gains, rates, caps and separations the constructor takes |
| PriceControllerClass.PriceController.Pid | factorylab/charter/controller.py:637-693 | the law as it is written is the law proved about |
| ControllerProofs.EveryRun | factorylab/charter/controller.py:359-693 | over every run, with any append failing: every card keeps floor and episode, every update entry its ceiling, the ledger alone replays each card's price and six counters, windows keep their cadence, and price entries chain |
| ControllerProofs.LedgerDeterminesCards | factorylab/charter/controller.py:596-635 | two runs with the same ledger give each card the same price and counts |
| ControllerProofs.RaisingCallsChangeNothingBut | factorylab/charter/controller.py:739-748 | a call that raises changes something exactly when it is a refused, different decay, which stays in force |
| ControllerProofs.RefusedDecayRaisesPrices | factorylab/charter/controller.py:672-677 | a negative decay so left raises the price of a compliant card |
| AdmissionClass.Guard.CanAdmit | scripts/edition4_rehearsal.py:90-111 | the guard's decision and its sticky stop are the admission's step |
| AdmissionClass.Guard.Observe | scripts/edition4_rehearsal.py:123-148 | an answer's booking is the admission's step |
| AdmissionClass.Guard.ObserveException | scripts/edition4_rehearsal.py:150-167 | a failure's booking is the admission's step |
| AdmissionClass.Guard.Complete | scripts/edition4_rehearsal.py:239-251 | a call is admitted, counted before it is dispatched, and booked by its outcome |
| Admissions.ReturnedBooks | scripts/edition4_rehearsal.py:123-167 | every outcome books its charge, and a charge above the quote stops the run |
| Admissions.AdmittedExactly | scripts/edition4_rehearsal.py:90-117 | a call is admitted exactly when its quote is no less than nothing, the run has not stopped, a call is left and the quote fits the cap with all that is booked; a refusal is counted, and which refusals stop the run |
| Admissions.ProbedExactly | scripts/edition4_rehearsal.py:90-111 | a probe is answered as a call would be, and never stops the run by asking for more than the whole cap |
| Admissions.StopsAreSticky | scripts/edition4_rehearsal.py:90-117 | a stopped run keeps its reason, dispatches nothing and books nothing |
| Admissions.OneRun | scripts/edition4_rehearsal.py:61-167 | attempts are dispatches and at most max_calls, at most one charge exceeds its quote, and the booked total passes the cap by that excess at most |
| Spending.SpendBounded | scripts/fastloop.py:486-580 | over any interleaving of calls, refusals, failed writes, deaths and restores, what was billed never exceeds the cap nor what the record on disk holds it to |
| Spending.DrawOnce | scripts/fastloop.py:486-518 | the durable stream and counters are those of exactly the calls whose write-ahead became durable, in order, without those at the positions undone: each the last durable call when a raising write of it was overwritten |
| Spending.RecordAnswers | scripts/fastloop.py:411-420 | over every run the record's stream stands after one draw for each durable call not undone, and its policy has decided, in order, exactly those whose drawn latency did not outlive their deadline |
| Spending.MemoryAnswers | scripts/fastloop.py:507-511 | and so does the memory of a process that is not between its draw and its write |
| Spending.DrawCanBeUndone | scripts/fastloop.py:486-495 | for any two calls, a run in which both are durable and the disk holds the draw of the second alone |
| Spending.PendingCountsOnce | scripts/fastloop.py:557-580 | however often a restore dies, a pending quote is counted once or still pending, never twice and never lost |
| RecordedProviderClass.RecordedProvider.WriteRecord | scripts/fastloop.py:540-555 | one record replaced whole, or an exception before or after |
| RecordedProviderClass.RecordedProvider.Dispatch | scripts/edition4_rehearsal.py:239-251 | the guard is asked first; the call is sent and its bill spent exactly when its rail is served and the guard admits it, and what comes back is booked by its outcome |
| RecordedProviderClass.RecordedProvider.Complete | scripts/fastloop.py:486-505 | the exact moves of a call, dying at any of its effects or not: answered exactly when drawn, written ahead, admitted, sent, answered and written again; nothing billed before the write-ahead stands; nothing drawn by a call that raised before that |
| RecordedProviderClass.RecordedProvider.LoadRecord | scripts/fastloop.py:557-571 | a loaded record is the protocol's restored process |
| RecordedProviderClass.RecordedProvider.Restore | scripts/fastloop.py:557-580 | the record resumed and written with its pending quote counted, or left as it was by a death or a failing write |
| Holdout.BehaviouralReads | factorylab/charter/holdout.py:32-94 | the two walks accept exactly the modules in which every node is allowed and every mention of the facts is a read, and return exactly the keys read |
| HoldoutExact.AcceptedExactly | factorylab/charter/holdout.py:32-94 | a parsed module is accepted exactly if it defines resolve with a parameter, states no name with two leading underscores nor any introspection builtin, imports only math and statistics absolutely and by name, writes no attribute, mentions the facts only to read behavioural ones by literal keys, and reads one |
| HoldoutExact.ReturnsExactly | factorylab/charter/holdout.py:52-94 | the keys returned are exactly those read |
| HoldoutIdentity.AllowedAreNotLoose | factorylab/charter/holdout.py:78-91 | when each name occurrence is its own object, no occurrence allowed anywhere is also in a position that is not |
| HoldoutIdentity.AcceptedIsClean | factorylab/charter/holdout.py:61-94 | an accepted module mentions the facts parameter only under a subscript or a get with a key it read |
| HoldoutSoundness.ReadsAreBehavioural | factorylab/charter/holdout.py:52-60 | the keys returned are behavioural facts, and there is one |
| HoldoutSoundness.ArithmeticDependsOnReadsOnly | factorylab/charter/holdout.py:32-40 | an accepted predicate whose names are all on the list answers the same on any two fact maps that agree on the keys returned, whatever else they hold and whatever host it runs on |
| HoldoutRuns.RunSame | factorylab/charter/holdout.py:32-40 | any clean code that keeps to the list, run from two states that agree on the keys, ends alike in two such states |
| HoldoutHost.HostDecidesExactly | factorylab/charter/holdout.py:32-40 | any module, accepted or not, whose answer is no exception: every host gives that answer exactly when a host that says nothing does |
| HoldoutLimits.ArithmeticMeans | factorylab/charter/holdout.py:61-94 | exactly which attributes, imported members, operators and builtins put a module off the list |
| HoldoutLimits.OffListIsTheHosts | factorylab/charter/holdout.py:61-94 | for each member, imported name, builtin or operator off the list that the checker lets through: an accepted module that reads one key and answers what the host says |
| HoldoutLimits.OffListTellsWindowsApart | factorylab/charter/holdout.py:32-40 | under some host such a module answers differently in two windows that agree on all it reads |
| HoldoutLimits.OffListTellsHostsApart | factorylab/charter/holdout.py:32-40 | and differently under two hosts in one window |
| HoldoutLimits.ThroughFrameReadsAnything | factorylab/charter/holdout.py:61-94 | a module through the library's own imports is accepted as reading one behavioural fact and answers any key at all |
| HoldoutLimits.ThroughFrameIsOffTheList | factorylab/charter/holdout.py:25-30 | a list of CPython's arithmetic names rules it out |
| FillBand.Compute | scripts/fastloop.py:711-774 | one pass computes every total, each coin's position, the open result and the pessimistic figure |
| FillBand.AverageCostConserves | scripts/fastloop.py:754-762 | over any fills, realized at average cost plus what is open at any price is that price times the holding less signed size times price |
| FillBand.TradesConserve | scripts/fastloop.py:745-762 | a position is what was bought less what was sold, and realized plus open at any price is that price for the position less the money paid plus the money taken |
| FillBand.NearestMicro | scripts/fastloop.py:763-766 | rounding to micro-USD is off by half of one at most, and goes to the even one from halfway |
| FillBand.EntryAmongPrices | scripts/fastloop.py:754-762 | an open position's entry lies among its fill prices |
| FillBand.ReportedIsWorth | scripts/fastloop.py:763-766 | the reported result is what the coins are worth, within half a micro-USD a coin and the slack of each booked fill |
| FillBand.PessimisticIsLower | scripts/fastloop.py:751-753 | the extra slippage is never negative, rounds against the factory, and by less than a micro-USD a fill |
| Triage.TriageSkeleton | scripts/class2_audit.py:2152-2188 | the printed file is the bindings, the header, the rule and a line a finding |
| Triage.Cells | scripts/class2_audit.py:2191-2207 | the loop over a line cuts the cells the recursion does |
| Triage.TableRows | scripts/class2_audit.py:2210-2221 | the reader returns the rows of a text's lines under their header |
| Triage.LinesAreWoven | scripts/class2_audit.py:2210-2221 | the lines read and the breaks between them are the text, and no break is left in a line |
| Triage.BreaksAre | scripts/class2_audit.py:2210-2221 | the characters a text is split at |
| Triage.EscapedReads | scripts/class2_audit.py:2191-2207 | an escaped text is read back whole, whatever pipes and backslashes it holds |
| Triage.ReadColumns | scripts/class2_audit.py:2210-2221 | each column of a read row is the finding's own value, trimmed, the whole quote when its escaped form fits |
| Triage.SkeletonReadsBack | scripts/class2_audit.py:2152-2221 | reading the printed file gives one row per finding, in order |
| Gate.Union | scripts/class2_audit.py:1921-1939 | each identity once, in first-seen order, as first seen, with how many samples made it |
| Gate.FirstSeenMeans | scripts/class2_audit.py:1921-1939 | the merged findings have distinct identities, and every finding made is among them |
| Gate.LowMeansNotAll | scripts/class2_audit.py:1937-1938 | low confidence exactly when there were several samples and one did not make it |
| Gate.ReleaseGate | scripts/class2_audit.py:2224-2283 | the problems returned are exactly the problems there are |
| Gate.HoldsMeans | scripts/class2_audit.py:2280-2281 | a path holds a part exactly when it is something, the part, and something |
| Gate.PassesExactly | scripts/class2_audit.py:2224-2283 | the answer is empty exactly when rows and findings are in bijection, severities agree, and every row may be released |
| Gate.NoFaultIsReleasable | scripts/class2_audit.py:2263-2282 | a row is without fault exactly when a grave finding has a reasoned disposition other than FIX and the rest is in order |
| Gate.UntouchedFileIsUntriaged | scripts/class2_audit.py:2152-2283 | printed and read back untouched, a file is stopped by each HIGH or MED finding, untriaged, and by nothing else |
| Attempts.EveryRun | scripts/compute_proof.py:196-233 | in every reachable state one process at most holds the marker, and once an action has started no loss of power can take the marker away |
| Attempts.ChargeIsRecordedFirst | scripts/compute_proof.py:170-178 | before a charge is sent the marker durably says so |
| Attempts.AtMostOnePayer | scripts/compute_proof.py:96-97 | over any default runs, at once or in turn, killed anywhere, at most one ever sends a charge for a step |
| Attempts.AtMostOneStart | scripts/compute_proof.py:433-460 | over default runs in turn a step's action starts at most once |
| Attempts.DefaultStartsExactly | scripts/compute_proof.py:447-460 | undisturbed, a default run starts a step exactly when neither of its files stands, and otherwise leaves them |
| Attempts.ContinuingStartsExactly | scripts/compute_proof.py:417-474 | undisturbed, a continuing run starts it exactly when no marker stands without a result and no result is ok, and otherwise leaves the files |
| Attempts.InterruptedBlocks | scripts/compute_proof.py:433-446 | a run that ends inside a step blocks every later run of it, continuing or not |
| Attempts.OkNeverReruns | scripts/compute_proof.py:417-431 | once an ok result is written the action never starts again, continuing or not |
| Attempts.TogetherMayStartTwice | scripts/compute_proof.py:433-437 | a schedule of two default runs at once that starts an action twice, unpaid |
| Attempts.TogetherStartsOnce | scripts/compute_proof.py:196-233 | any default runs at once, killed anywhere, in which no process gives its marker up while another has looked, start the action at most once |
| Attempts.GivingUpStartsAgain | scripts/compute_proof.py:196-233 | from any reachable state with one process about to give its marker up and another that has looked, four moves start the action again |
| ProofSteps.Proof.Claim | scripts/compute_proof.py:196-212 | a step is claimed exactly when neither file stands, and its marker is durable before the action starts |
| ProofSteps.Proof.Wire | scripts/compute_proof.py:154-194 | a charge is noted in memory, then durably in the marker, then sent |
| ProofSteps.Proof.StepOnce | scripts/compute_proof.py:196-233 | a whole step's files and history, move by move of the protocol |
| Drafting.CountYes | scripts/charter_session.py:383-400 | a proposal's yes votes are the seats whose last reasoned vote on it was yes |
| Drafting.BallotIsLast | scripts/charter_session.py:388-396 | a seat's ballot on a proposal is its last reasoned vote that names it |
| Drafting.MajorityIsThreshold | scripts/charter_session.py:397-400 | the threshold is a strict majority of the drawn seats |
| Drafting.FreeId | scripts/charter_session.py:410-413 | the renaming loop ends, at the name itself or the first free number from 2 |
| Drafting.Draft | scripts/charter_session.py:397-416 | a proposal is lost without a strict majority, refused when it would bind an observation twice beside the cards already passing, and otherwise passes, in order, under a free id |
| Drafting.PassingIsSound | scripts/charter_session.py:397-416 | the passing cards have distinct ids, no double binding, and each a strict majority |
| Drafting.DraftIsWellFormed | scripts/charter_session.py:397-416 | the passing cards under the charter's norms are an edition its constructor accepts, with no observation bound twice |
| Drafting.DecimalReads | scripts/charter_session.py:410-413 | decimal numerals are read back, so no two tags are one name |
| Drafting.Approved | scripts/charter_session.py:441-448 | adoption is refused unless each drawn seat is covered once, and is a strict majority's otherwise |

## Left out

- Numbers: controller, fills and marks are exact reals. IEEE rounding, saturation at the largest float, and the rounding-free sums of held values are not modelled; `held` and `held_sum` are the identity. Finite numbers are assumed where the code refuses others.
- The ledger is an append-only sequence whose append may fail. Hashing, encryption, its format, timestamps and the text of refusals are not modelled; the tags of refusals are.
- Preflight of cards, the measurement catalogue and the observation book are not part of this model: a call takes the cards that can be measured and the observations registered. A committee is known by its round, and the standing committee and its coverage report are left out.
- A card's description, units, window and region travel as one opaque value; so do a norm's definition and the digest and signer of a norm edition.
- Names are trimmed and lower-cased for ASCII only.
- The order in which a draw lists its candidates is arbitrary, which the code fixes by sorting; every sample and choice is nondeterministic.
- The controller's `promise_kept`, `penalty`, `saturation` and snapshots are left out: they only read.
- Spending.SpendBounded: assumes an honest provider (a bill at most its quote, a reported cost equal to the bill, an unbilled failure billing nothing) and the same cap at every resume; bills beyond a quote are covered by Admissions.OneRun within one run.
- The record is one value replaced whole; its temporary file is not modelled. A scripted policy's counters are the calls it decided, a latency stream is a function of its position.
- Other parts of the rehearsal and the fast loop (rails, clocks, scorecards, reports, catalogues, signals) are left out.
- HoldoutSoundness.ArithmeticDependsOnReadsOnly: for modules whose attributes, imported members, operators and builtins are on a list of arithmetic, and in which the checked definition is all that binds `resolve`. The language has literals, names, subscripts, attributes, calls, operators, conditionals, tuples, assignments to names and to items of the facts, if, while, for, return, functions of positional parameters, imports and global declarations. Left out of it: closures over an enclosing function, classes, comprehensions, exceptions caught, break, unpacking, keyword arguments, callbacks run by a builtin, mutable lists, and sharing of mutable values. Operators evaluate all operands; short circuits are conditionals.
- HoldoutRuns.RunSame: a list is any sets of names, and what its names do is one arbitrary pure function of plain values, so a list for an interpreter must hold only names that are; `HoldoutSemantics.ARITHMETIC` is one for CPython. Code that does not parse is refused before the model begins.
- HoldoutHost.HostDecidesExactly: a host answers with any value, and can see the facts, but does not change them or the module's own names.
- FillBand.ReportedIsWorth: each fill's booked figure is taken within a stated slack of the average-cost one; the venue that books it is not part of this model. Sizes are magnitudes.
- Triage.SkeletonReadsBack: the lines above the table are given; they hold no line break and do not begin with a pipe. How the bindings are worded is left out.
- Gate.ReleaseGate: with the expected findings given; a bare reading of a file, which also needs its header's family and score, is left out, and so are allowed dispositions, provenance findings, canaries and the corpus.
- Attempts.AtMostOnePayer: for runs that do not continue. A continuing run may by design run a step again whose result says it failed after a charge was sent.
- Attempts.EveryRun: follows one step's two files; the report step, dry runs, symbolic links and unreadable results are left out, and other steps appear only as syncs of the directory.
- Drafting.Draft: begins at proposals that met the preflight; prompts, replies' parsing and starting prices are left out.
- Network, chain, venue, model providers, git and subprocesses are nondeterministic results or are left out.
