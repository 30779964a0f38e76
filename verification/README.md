# Monopoly Bank, modelled and proved in Dafny

A verification project beside the Monopoly Bank repository. It models four parts of the program and
proves what they promise, for all inputs and over all runs.

**The local QR encoder.** Byte arithmetic modulo 0x11d and its log and antilog tables
(`GaloisField`), Reed-Solomon checks computed by a shift register (`ReedSolomon`), the data stream
and block interleaving (`QrData`), the function patterns and their two BCH words (`QrPatterns`,
`QrBch`), the count of free modules (`QrCapacity`), the masked zigzag walk (`QrWalk`), and the
encoder with a reader that follows the decoding steps of ISO/IEC 18004:2015, sections 7.4 to 7.10
(`LocalQr`). The main result: for every byte string of at most 192 bytes, every mask and every way of
scoring, the reader returns exactly those bytes.

**The bank.** The registry rules (`Property`), planning a whole colour group against building one
house at a time (`BuildingPlan`), every operation with its checks in the program's order (`Banking`),
the guarded write and the money it conserves (`BankState`, `BankRuns`), the order of the registry
(`RegistryOrder`), the mortgage records beside it (`MortgageRecords`), the absence of free money
(`Arbitrage`), reversals (`Reversal`) and the runs that contain them (`ReversalRuns`, `RecordRuns`,
`OrderRuns`), the live auction beside such runs (`Auction`), and the stack of builds and sales that
brings a group's house levels back (`HouseLevels`, `HouseRuns`). Where the bank's own rules part, a
run from a new game leads there (`SmallTable`, `Counterexamples`).

**The coordinator.** The command ledger (`CommandLedger`), the queue, the shared command in flight and
a crash after any stage (`GameSession`), and snapshots that share reads (`SnapshotReads`).

**Second implementations.** Client views and previews (`PropertyView`), typed amounts (`MoneyInput`),
loan rounds (`RoundTracking`), and the balance curves and summary rebuilt from the ledger
(`BalanceSeries`).

Each source loop or updated object is a method or class proved against a specification function;
expressions are functions, and the lemmas are about those functions. An operation is written as the
checks in their source order followed by the change to commit; `Settles` says what it adds up to,
`Transfers`, `FansOut` or `PaysTrade` who pays whom, and `Effect` what it writes beside the wallets.
The bank keeps no account in the program, so the model gives it one, credited by each operation's own
formula.

Where the code and its own words differ, the model follows the code:

- The encoder's header comment speaks of 194 bytes; the code accepts 192, since mode, count and
  terminator take two codewords (`src/utils/local-qr.ts:4`, `src/utils/local-qr.ts:16`).
- `declareBankruptcy` writes no change for a wallet it read as empty, and the batch then clears that
  wallet without a guard. One step at a time nothing is lost; worked out on an older read, money that
  arrived since is. `BankRuns.MoneyIsConserved` says exactly when, and
  `Counterexamples.MoneyThatArrivedSinceIsLost` shows it happen.
- `rentDue` ignores a dice total given for a street or a railway, where the server refuses it;
  `PropertyView.RentDueIsTheRent` says exactly when the two agree, and
  `PropertyView.StrayDiceAreShownARent` shows them differ.
- The contract of the balance curves says that `endIndex` is set for a player who went bankrupt and for
  nobody else (`shared/contracts/api.ts:628`); the code sets it for whoever a bankruptcy takes money
  from. `BalanceSeries.WhoseCurveEnds` says exactly who that is, and `Counterexamples.CreditorsCurveEnds`
  shows it be the creditor alone.
- A bankruptcy releases a mortgage whose name the creditor already has, while its tile stays mortgaged
  with the creditor. `MortgageRecords.BankruptcyKeepsStep` says that records and flags part exactly
  then, `Counterexamples.NamesakeLosesItsRecord` shows it happen, and on a board whose tiles bear
  different names it never does.
- A reversal is refused for later operations on the tiles and group of the original, but not for a
  trade of a group mate, and a later work that is itself reversed no longer counts
  (`shared/domain/reversal.ts:111-118`, `shared/domain/reversal.ts:142`). So a sale can be reversed
  into a group of two owners (`Counterexamples.SaleReversalBreaksOrder`), and a trade can be
  reversed beside a house that an undone sale put back
  (`Counterexamples.TradeReversalBreaksOrder`). `OrderRuns.ReversalKeepsOrderExactly` gives the exact
  condition on the registry at that moment, `OrderRuns.GameStaysInOrderExactly` the runs that keep
  the order.

Standing assumptions, each a constraint the tables or the services enforce: one row per tile, levels
not negative, nobody lends to themselves, one atomic batch per operation under its `before` guards,
a transaction's identifier is its command's, an auction is closed in the batch that pays for it. A
board may ask for even building or not. Runs of the bank read the state they write, as the
coordinator's queue arranges; the conservation step is also proved for reads of any age. A payload
hash is taken to be injective and stands for the payload. Identifiers are numbers; the refund rate is
an exact fraction.

## Model

| member | source | states |
|---|---|---|
| GaloisField.MulXorLeft | src/utils/local-qr-ecc.ts:54-56 | the product distributes over addition (exclusive-or) on the left |
| GaloisField.MulCommutes | src/utils/local-qr-ecc.ts:54-56 | the product is commutative |
| GaloisField.MulAssoc | src/utils/local-qr-ecc.ts:54-56 | the product is associative |
| GaloisField.NoZeroDivisors | src/utils/local-qr-ecc.ts:54-56 | two nonzero bytes never multiply to zero |
| GaloisField.ExpAdd | src/utils/local-qr-ecc.ts:6-12 | powers of x multiply by adding exponents |
| GaloisField.ExpOrder | src/utils/local-qr-ecc.ts:6-12 | x has order exactly 255 modulo 0x11d |
| GaloisField.EveryNonzeroIsPower | src/utils/local-qr-ecc.ts:6-12 | every nonzero byte is one of the powers x^0 to x^254 |
| GaloisField.Tables.constructor | src/utils/local-qr-ecc.ts:3-12 | the two tables hold all powers and, for every power, its exponent |
| GaloisField.Tables.FillFirstPeriod | src/utils/local-qr-ecc.ts:6-11 | one period of powers by doubling and reducing, with every logarithm recorded once |
| GaloisField.Tables.RepeatPeriod | src/utils/local-qr-ecc.ts:12 | the second half of the antilog table repeats the first |
| GaloisField.Tables.Multiply | src/utils/local-qr-ecc.ts:54-56 | multiplying through the tables is carry-less multiplication modulo 0x11d |
| ReedSolomon.GeneratorRoots | src/utils/local-qr-ecc.ts:41-52 | the generator of a degree vanishes at x^0 up to x^(degree-1) |
| ReedSolomon.Polynomial | src/utils/local-qr-ecc.ts:41-52 | the loop computes the tail of the monic generator |
| ReedSolomon.MultiplyByLinear | src/utils/local-qr-ecc.ts:44-49 | one pass multiplies a polynomial by a linear factor |
| ReedSolomon.Feed | src/utils/local-qr-ecc.ts:31-37 | one symbol steps the shift register as polynomial division does |
| ReedSolomon.RegisterAtRoot | src/utils/local-qr-ecc.ts:28-39 | at every root of the generator the register takes the value of data(x) times x to its length |
| ReedSolomon.ComputeCheckCodewords | src/utils/local-qr-ecc.ts:28-39 | the in-place loop returns the check codewords of the data |
| ReedSolomon.CodewordHasZeroSyndromes | src/utils/local-qr-ecc.ts:28-39 | data of any length followed by its checks is a polynomial that vanishes at x^0 to x^23 |
| ReedSolomon.CheckCodewordsAreUnique | src/utils/local-qr-ecc.ts:28-39 | no other 24 symbols after the data pass the check, so the checks are the remainder |
| ReedSolomon.MinimumDistance | src/utils/local-qr-ecc.ts:28-39 | two different words of at most 255 symbols that pass the check differ in at least 25 places |
| ReedSolomon.TwelveErrorsAreCorrectable | src/utils/local-qr-ecc.ts:28-39 | up to twelve wrong symbols leave the written word the only nearest codeword |
| QrData.PackData | src/utils/local-qr.ts:33-46 | the packed bytes spell mode, count, data, terminator and alternating padding, bit for bit |
| QrData.Push | src/utils/local-qr.ts:48-50 | appends the bits of a value, the most significant first |
| QrData.WriteBits | src/utils/local-qr.ts:40-42 | or-ing bits into a zeroed buffer spells exactly those bits |
| QrData.WritePadding | src/utils/local-qr.ts:43-44 | fills the rest with 0xec and 0x11 in turn and nothing before it |
| QrData.ParseUndoesStream | src/utils/local-qr.ts:33-46 | reading mode, count and bytes from the stream gives the bytes back, for every length accepted |
| QrData.Interleave | src/utils/local-qr-ecc.ts:14-26 | picking every second symbol gives each block followed by its own checks |
| QrData.DataOfInterleaved | src/utils/local-qr-ecc.ts:14-26 | taking the data symbols out of the interleaved sequence gives the data back |
| QrWalk.WalkReachesEveryModule | src/utils/local-qr.ts:58-73 | every module outside column 6 is reached by the zigzag |
| QrWalk.WalkVisitsOnce | src/utils/local-qr.ts:58-73 | no module is reached at two different steps |
| QrWalk.FillCodewords | src/utils/local-qr.ts:58-73 | each empty module gets the masked bit of its turn among the empty ones; drawn modules are untouched |
| QrWalk.FillPair | src/utils/local-qr.ts:63-70 | one pair of columns advances the walk by 98 steps |
| QrWalk.FillingIsComplete | src/utils/local-qr.ts:58-73 | with column 6 drawn no module stays empty and none already drawn changes |
| QrWalk.ReadUndoesFill | src/utils/local-qr.ts:52-73 | the same walk with the same mask reads the written bits back in order |
| QrBch.StepDrops | src/utils/local-qr-patterns.ts:76-81 | subtracting the aligned generator lowers the degree, so the loop ends |
| QrBch.Bch | src/utils/local-qr-patterns.ts:76-82 | the loop returns the remainder of division over GF(2) |
| QrBch.RemainderLeavesMultiple | src/utils/local-qr-patterns.ts:76-82 | what was subtracted is a multiple of the generator and the remainder has a smaller degree |
| QrBch.WordIsCodeword | src/utils/local-qr-patterns.ts:53 | a shifted value or-ed with its remainder is a multiple of the generator that still carries the value |
| QrPatterns.Finder | src/utils/local-qr-patterns.ts:35-43 | draws the finder rings clipped to the matrix and nothing else |
| QrPatterns.Alignment | src/utils/local-qr-patterns.ts:45-50 | draws the three square rings around a centre and nothing else |
| QrPatterns.PlacePatterns | src/utils/local-qr-patterns.ts:5-25 | the drawn matrix is the fixed pattern: finders, timing, six alignments, dark module, version |
| QrPatterns.ReserveVersion | src/utils/local-qr-patterns.ts:52-59 | draws the BCH word of version 8 in both blocks |
| QrPatterns.PlaceFormat | src/utils/local-qr-patterns.ts:61-74 | draws the masked BCH word of level L and the mask in both copies |
| QrCapacity.PatternIsFunction | src/utils/local-qr-patterns.ts:5-74 | which modules the patterns occupy, whatever the mask |
| QrCapacity.FreeModules | src/utils/local-qr.ts:58-73 | the free modules number exactly eight for each of the 242 codewords |
| QrCapacity.WalkPlacesEveryBit | src/utils/local-qr.ts:58-83 | over the drawn patterns the walk meets 1936 empty modules |
| LocalQr.FormatIsDrawn | src/utils/local-qr-patterns.ts:61-74 | both copies of the format word can be read from the finished symbol |
| LocalQr.MaskIsRead | src/utils/local-qr-patterns.ts:61-74 | level L and the mask are recovered from the format bits |
| LocalQr.BitsAreRead | src/utils/local-qr.ts:58-83 | reading the symbol gives all the bits of the codewords |
| LocalQr.ReaderRecoversBytes | src/utils/local-qr.ts:14-83 | a reader following the standard recovers the bytes from the symbol of any mask; both blocks pass the check |
| LocalQr.SymbolsDiffer | src/utils/local-qr.ts:14-83 | different byte strings or masks never give the same symbol |
| LocalQr.BuildMatrix | src/utils/local-qr.ts:75-83 | the drawn matrix is the specified symbol of the codewords and mask |
| LocalQr.ChooseMask | src/utils/local-qr.ts:20-30 | keeps the lowest penalty, the first of equals, whatever the scoring |
| LocalQr.CreateLocalQr | src/utils/local-qr.ts:14-31 | refuses exactly the strings over 192 bytes; otherwise the result draws the only codewords that encode the bytes, keeps the lowest penalty and reads back as the bytes |
| Property.FullGroupMeansEveryTile | shared/domain/property.ts:47-66 | counting to the group size means owning every tile of it |
| Property.MortgageChecksAgree | shared/domain/property.ts:77-107 | the check gives a reason exactly when the tile cannot be mortgaged |
| Property.StateAfterChanges | shared/domain/property.ts:352-368 | a tile after the changes: as its change says, or as it was |
| Property.InvertUndoesApply | shared/domain/property.ts:343-368 | inverted changes are guarded by what the changes left and restore exactly the registry before them |
| BuildingPlan.PlanIsStepByStep | shared/domain/property.ts:112-143 | a group plan is accepted exactly when allowed single steps lead to its levels; each such sequence has the same price and count |
| BuildingPlan.PlanHasSteps | shared/domain/property.ts:197-244 | an accepted plan can be carried out one allowed building at a time |
| BuildingPlan.StepsMakePlan | shared/domain/property.ts:197-254 | levels reached by allowed steps form an accepted plan with the summed price |
| BuildingPlan.BlockerMeansMayRise | shared/domain/property.ts:112-143 | a step is allowed exactly on a buildable street that is lowest (for a sale highest) and not at its end |
| BuildingPlan.PlanGroup | shared/domain/property.ts:197-244 | the planning loops compute the plan or the first reason against it |
| BuildingPlan.CollectChanges | shared/domain/property.ts:224-239 | one pass collects the changes, the count and the final levels |
| Banking.ValidGameIsSound | shared/domain/banking.ts:1302-1326 | the validation passes exactly an active game of two to six distinct players with sound wallets |
| Banking.CheckGame | shared/domain/banking.ts:1302-1326 | the validating loop decides the same |
| Banking.Transfer | shared/domain/banking.ts:1373-1421 | accepted exactly when both wallets bear it; the payer loses and the payee gains the amount, nobody else moves |
| Banking.FansBalance | shared/domain/banking.ts:1380-1400 | what one pays to all, all receive, and the other way round |
| Banking.PlayerToPlayer | shared/domain/banking.ts:375-394 | source loses and destination gains the amount; the bank gains nothing |
| Banking.PlayerToPlayerIsAccepted | shared/domain/banking.ts:375-394 | accepted exactly under its stated conditions |
| Banking.PlayerToBank | shared/domain/banking.ts:396-412 | the player loses the amount to the bank |
| Banking.PlayerToBankIsAccepted | shared/domain/banking.ts:396-437 | accepted exactly under its stated conditions, a pot payment under the same |
| Banking.ToJackpot | shared/domain/banking.ts:415-437 | the player loses the amount to the pot |
| Banking.JackpotPayout | shared/domain/banking.ts:443-466 | the player gains the whole pot |
| Banking.JackpotPayoutIsAccepted | shared/domain/banking.ts:443-466 | accepted exactly when the pot is valid, is the one reviewed and fits the wallet |
| Banking.AuctionPayment | shared/domain/banking.ts:469-493 | the winner pays the bid; a tile must be unowned and passes to them |
| Banking.MortgageTile | shared/domain/banking.ts:505-526 | only a mortgageable tile, paid its own mortgage value, its flag on and recorded |
| Banking.PropertyPurchase | shared/domain/banking.ts:529-555 | an unowned tile passes to the buyer, who pays list price or override |
| Banking.PropertyPurchaseIsAccepted | shared/domain/banking.ts:529-555 | accepted exactly under its stated conditions |
| Banking.TransferProperties | shared/domain/banking.ts:567-619 | tiles change hands, both sides active; each side gets the other's cash less its own and its fee, the bank gains both fees |
| Banking.CollectMoves | shared/domain/banking.ts:582-599 | the accumulating loops compute the changes and both fees or the first refusal |
| Banking.BuildProperty | shared/domain/banking.ts:645-672 | the changes are an accepted plan and the builder pays its price |
| Banking.SellBuilding | shared/domain/banking.ts:675-701 | the changes are an accepted plan and the seller gets its refund |
| Banking.PayRent | shared/domain/banking.ts:704-730 | the payer pays the owner the rent the registry gives |
| Banking.MortgageProperty | shared/domain/banking.ts:733-758 | the player gains the value and a record of it |
| Banking.RedeemMortgage | shared/domain/banking.ts:761-791 | the player pays the redemption cost; a tile must be theirs and flagged, and its flag goes off |
| Banking.IssueLoan | shared/domain/banking.ts:794-823 | lender loses and borrower gains the amount |
| Banking.RepayLoan | shared/domain/banking.ts:826-866 | borrower pays the lender no more than is outstanding |
| Banking.IssueBankLoan | shared/domain/banking.ts:873-908 | the borrower gains the amount from the bank |
| Banking.RepayBankLoan | shared/domain/banking.ts:914-958 | the borrower pays exactly the outstanding principal plus interest |
| Banking.RepayBankLoanIsAccepted | shared/domain/banking.ts:914-958 | accepted exactly under its stated conditions |
| Banking.BankToPlayer | shared/domain/banking.ts:960-976 | the player gains the amount from the bank |
| Banking.PlayerToAll | shared/domain/banking.ts:978-1006 | the payer loses the amount once for each other active player, each of whom gains it |
| Banking.AllToPlayer | shared/domain/banking.ts:1008-1038 | each other active player loses the amount, the recipient gains their sum |
| Banking.PassGo | shared/domain/banking.ts:1040-1055 | the player gains the reward, doubled on an exact landing |
| Banking.SettleBankLoan | shared/domain/banking.ts:1263-1291 | the bank takes principal before interest, never more than the wallet, and the loan is repaid exactly when the wallet covers the principal |
| Banking.PreviewBankruptcy | shared/domain/banking.ts:1188-1204 | the loop totals tiles, buildings, proceeds and fee |
| Banking.BankruptcyAccount | shared/domain/banking.ts:1139-1179 | loan first, then creditor or bank; buildings bought back; the wallet emptied; every tile handed over |
| BankState.WalletTable.GuardedBalanceUpdate | worker/repositories/balance-statements.ts:8-39 | every wallet changes or none does, as all still hold what was read |
| BankState.CommitConserves | shared/domain/banking.ts:1414-1421 | a committed operation, however stale its read, moves money and loses only what a bankruptcy clears |
| BankState.CommitKeepsWalletsSafe | shared/domain/banking.ts:1499-1513 | committed wallets stay non-negative safe integers |
| BankRuns.PerformSettles | shared/domain/banking.ts:375-1179 | every operation balances against the bank by its own formula and writes the tiles, records and pot its kind names |
| BankRuns.MoneyIsConserved | worker/repositories/operation-statements/bankruptcy-statements.ts:4-19 | a step keeps wallets, pot and bank account together; the total falls exactly when a bankruptcy worked out on an empty wallet clears money that arrived since |
| Counterexamples.MoneyThatArrivedSinceIsLost | worker/repositories/operation-statements/bankruptcy-statements.ts:4-19 | a run from a new game: a bankruptcy read with an empty wallet, paid before it commits, and the total falls |
| ReversalRuns.RunConservesMoney | shared/domain/banking.ts:375-1124 | over every run of operations, bankruptcies and reversals the total is constant and wallets stay safe |
| RegistryOrder.BuiltGroups | shared/domain/property.ts:113-128 | a built group is held by one active player, unmortgaged, with levels at most one apart if the board builds evenly |
| RegistryOrder.TradeSwapsTiles | shared/domain/banking.ts:586-599 | given tiles end with the counterparty, taken ones with the proposer, nothing else moves |
| RegistryOrder.HandedOver | shared/domain/banking.ts:1213-1244 | a bankrupt player's tiles, and only those, pass to the creditor or the bank without buildings |
| RegistryOrder.StepKeepsOrder | shared/domain/banking.ts:469-791 | every operation keeps the order of the registry |
| RegistryOrder.NewGameInOrder | migrations/0028_game_properties.sql:1-15 | a new game starts in order |
| MortgageRecords.StepKeepsRecords | worker/repositories/operation-statements/mortgage-statements.ts:4-103 | one operation keeps records and flags in step, exactly unless a bankruptcy meets a name the creditor already has |
| RecordRuns.RunKeepsRecordsExactly | worker/repositories/operation-statements/mortgage-statements.ts:45-103 | throughout a run, reversals included, a tile is flagged exactly when one record in force says so, at the tile's value and name, held by its owner: exactly if no bankruptcy of the run meets a name the creditor already has; every entry that can be reversed then still names its record |
| RecordRuns.MortgageComesBack | worker/repositories/operation-statements/mortgage-statements.ts:50-60 | cancelling a mortgage releases the one record as the flag goes off |
| RecordRuns.RedemptionComesBack | worker/repositories/operation-statements/mortgage-statements.ts:61-72 | restoring a redeemed mortgage puts its record in force, with the owner, as the flag comes back on |
| RecordRuns.FlagsAreRecorded | migrations/0022_mortgages.sql:86-108 | from a new game on any board, records and flags stay in step throughout exactly if no bankruptcy meets such a name |
| RecordRuns.DistinctNamesAreClashFree | migrations/0022_mortgages.sql:108 | on a board whose tiles bear different names no run ever meets one |
| MortgageRecords.BankruptcyKeepsStep | worker/repositories/operation-statements/bankruptcy-statements.ts:21-49 | a bankruptcy moves or releases the records with the tiles exactly when no mortgaged tile bears a name the creditor already has |
| MortgageRecords.DistinctNamesNeverClash | migrations/0022_mortgages.sql:108 | on a board whose tiles bear different names that never happens |
| Counterexamples.NamesakeLosesItsRecord | worker/repositories/operation-statements/bankruptcy-statements.ts:21-49 | a run from a new game whose bankruptcy meets such a name: a tile stays mortgaged without a record |
| Arbitrage.PlanWorth | shared/domain/property.ts:247-254 | a build adds no more resale value than it costs; a sale pays out exactly the value lost |
| Arbitrage.TradingNeverGains | shared/domain/banking.ts:561-791 | no trading step raises cash plus resale value less mortgage debt, whether or not the board builds evenly |
| Arbitrage.NoArbitrage | shared/domain/mortgage.ts:8-10 | a run of trading that ends in its starting registry leaves no more cash |
| Auction.ValidateBid | shared/domain/auction.ts:121-133 | an accepted bid is safe, covered, on an open unchanged auction, and above the current one for a positive step |
| Auction.AuctionRow.PlaceBid | worker/repositories/auction-repository.ts:121-150 | the row takes a bid only if it is the row that was read; bid and version rise, the end never falls and leaves ten seconds |
| Auction.AuctionRow.CloseWithoutSale | worker/repositories/auction-repository.ts:152-169 | closes exactly an active row at the version read |
| Auction.AuctionRow.WithdrawBid | worker/repositories/operation-statements/auction-statements.ts:28-36 | a bankrupt leader goes, the floor stays |
| Auction.LeaderKeepsBid | shared/domain/auction.ts:139-154 | a committed operation that respects the reserve leaves the leader the bid |
| Auction.UndoKeepsLeader | worker/services/banking-service.ts:246-258 | a reversal that respects the reserve leaves the leader the bid |
| Auction.NextIsSound | shared/domain/auction.ts:121-203 | every bid, operation, bankruptcy, reversal and settlement keeps a leader in the game holding the bid, bids and versions rising, the end not falling |
| Auction.DueLotIsSold | shared/domain/auction.ts:163-203 | a due free-text lot with a leader in an active game is sold at the leading bid and the sale commits |
| Auction.EveryLedLotIsSold | worker/services/auction-service.ts:228-268 | over every run of these, whatever the ledger held before, such a lot is sold at the last accepted bid |
| Reversal.FindReversalDependency | shared/domain/reversal.ts:127-151 | finds a blocking later transaction exactly when there is one |
| Reversal.MoveBack | shared/domain/banking.ts:1094-1101 | every participant is active and gets exactly the negated delta |
| Reversal.ReverseTransaction | shared/domain/banking.ts:1061-1124 | accepted only if reversible, unreversed and unblocked; deltas negated, changes inverted |
| ReversalRuns.ReversalIsExact | shared/domain/banking.ts:1075-1123 | wallets move back by exactly the original deltas and each changed tile from the state it was left in to the state it was found in |
| ReversalRuns.ReversedAtMostOnce | shared/domain/banking.ts:1066-1067 | over every run no transaction is reversed twice |
| OrderRuns.OrderExactlyIfPermitted | shared/domain/property.ts:343-368 | giving changes back to a registry in order keeps the order exactly if every group allows it (a tile that changes hands or is flagged again has no house in its group; a level that comes back finds the group held by the tile's owner and unmortgaged) and the levels come back even |
| OrderRuns.ReversalKeepsOrderExactly | shared/domain/banking.ts:1061-1124 | on any ledger in order, whatever was reversed before, an accepted reversal keeps the order exactly under that condition on the registry as it stands |
| OrderRuns.OrderedReversalExactly | shared/domain/reversal.ts:127-151 | where every step so far kept the order the levels always come back even, so the groups alone decide |
| OrderRuns.RunStaysInOrderExactly | shared/domain/banking.ts:1061-1244 | a run of operations, bankruptcies and reversals stays in order throughout exactly if every accepted reversal is allowed by its groups when it is made |
| OrderRuns.GameStaysInOrderExactly | shared/domain/reversal.ts:111-151 | the same from a new game; runs without reversals always stay in order |
| OrderRuns.ReversalInAnyGame | shared/domain/reversal.ts:111-151 | after any run from a new game, even one that left the order and came back, the condition decides the next reversal |
| Counterexamples.SaleReversalBreaksOrder | shared/domain/reversal.ts:115 | a run from a new game: a sale is reversed after a mate of its group was given away, and a house stands in a group of two owners |
| Counterexamples.SaleReversalMayKeepOrder | shared/domain/reversal.ts:115 | the mate comes back first: the same sale is reversed and the order stays |
| Counterexamples.TradeReversalBreaksOrder | shared/domain/reversal.ts:143-148 | the trade that brought the mate back is reversed next: nothing blocks it, and the house stands in a group of two owners |
| HouseLevels.Pushed | shared/domain/reversal.ts:111-118 | a build or sale goes on top of its group's stack |
| HouseLevels.Popped | shared/domain/reversal.ts:111-118 | reversing the top restores the whole group's levels and the stack below |
| HouseLevels.Barred | shared/domain/banking.ts:1225-1242 | a bankruptcy that clears buildings ends the stack for good |
| HouseRuns.LaterWorkBlocks | shared/domain/reversal.ts:139-148 | a later unreversed build or sale of the group refuses the reversal |
| HouseRuns.RunKeepsStacks | shared/domain/reversal.ts:111-151 | every run of operations, bankruptcies and reversals keeps the stacks |
| HouseRuns.ReversalRestoresGroup | shared/domain/banking.ts:1061-1124 | an accepted reversal of a build or sale gives the whole group the levels it had just before |
| CommandLedger.LedgerRepository.ClaimCommand | worker/repositories/command-ledger-repository.ts:41-74 | a claim of another command's identifier is refused; a pending one is remembered; the table is not written |
| CommandLedger.LedgerRepository.CompleteCommand | worker/repositories/command-ledger-repository.ts:75-121 | inserts or completes the claimed row, never touches a completed one |
| CommandLedger.CompletedIsFinal | worker/repositories/command-ledger-repository.ts:99-116 | a completed row never changes |
| GameSession.NextIsSound | worker/game-session.ts:213-217 | every event, a crash included, keeps the coordinator sound |
| GameSession.AnswersAgree | worker/game-session.ts:322-402 | all successful answers for an identifier are the one stored result of one command; each execution has a fresh larger version; a command's transaction, like the settlement of an auction its identifier names, is written at most once |
| GameSession.CompletedStays | worker/game-session.ts:355-402 | what was completed stays stored unchanged over every run |
| SnapshotReads.NextIsSound | worker/game-session.ts:719-729 | every event keeps shared reads at least as new as their version |
| SnapshotReads.SnapshotsAreNeverOlderThanTheirStamp | worker/game-session.ts:731-768 | under every interleaving a snapshot stamped v holds every commit numbered v or less |
| SnapshotReads.StampedLateWouldBeOld | worker/game-session.ts:738-741 | a read stamped with a version bumped after it would miss a commit |
| PropertyView.LastRowIsTheRow | src/utils/property-view.ts:51-65 | the lookup table shows the registry state, with one row per tile |
| PropertyView.RentDueIsTheRent | src/utils/property-view.ts:137-208 | the shown rent is the charged rent exactly when the dice total is given for utilities only, 2 to 12, or the tile is unowned, mortgaged or without a listed rent |
| PropertyView.StrayDiceAreShownARent | src/utils/property-view.ts:192-208 | a built street with a dice total: the client shows its rent, the server refuses |
| PropertyView.MortgageableIsMortgageable | src/utils/property-view.ts:216-223 | the tiles offered for mortgage are those the server accepts |
| PropertyView.CollectTargets | src/utils/property-view.ts:375-379 | the loop keeps exactly the streets whose level changes |
| PropertyView.PreviewIsThePlan | src/utils/property-view.ts:368-396 | the preview is the server's plan, its refusal or its price |
| PropertyView.BuildIsChargedAsPreviewed | src/utils/property-view.ts:368-396 | for an accepted build the builder pays the bank the previewed amount and nobody else pays |
| PropertyView.SaleIsRefundedAsPreviewed | src/utils/property-view.ts:368-396 | for an accepted sale the bank pays the seller the previewed amount and nobody else |
| PropertyView.OutcomeIsTheTrade | src/utils/trade-view.ts:19-39 | an accepted trade moves exactly the previewed deltas |
| MoneyInput.EveryKeypadRunIsAnAmount | src/utils/money-input.ts:49-70 | whatever keys are pressed in one unit, the digits are a whole amount within the limit |
| MoneyInput.SanitizeIsIdempotent | src/utils/money-input.ts:73-89 | sanitizing twice is sanitizing once |
| MoneyInput.SanitizeUndoesDisplay | src/utils/money-input.ts:109-114 | sanitizing the display of a sanitized text gives the text back |
| MoneyInput.CleanUngroups | src/utils/money.ts:4-6 | dropping the spaces of grouped digits gives the digits back |
| MoneyInput.CanonicalRoundTrip | src/utils/money-input.ts:92-124 | an amount shown in any unit comes back exactly when it is within the limit |
| RoundTracking.CountTurns | shared/domain/round-tracking.ts:48-66 | the run-collapsing loop counts the turns |
| RoundTracking.TurnsAreActorChanges | shared/domain/round-tracking.ts:48-66 | turns started are the changes of actor into the player, counted in one pass |
| RoundTracking.TurnsAddUp | shared/domain/round-tracking.ts:60-65 | over all players the turns are one fewer than the runs, or none |
| RoundTracking.AppendingNeverLowersARound | shared/domain/round-tracking.ts:68-82 | one more transaction raises a round by at most one and lowers neither round nor rate |
| RoundTracking.BankLoanCooldowns | shared/domain/round-tracking.ts:100-115 | exactly the players in the game whose latest repayment is fewer than two turns back, with the rounds left, in the order of their first repayments |
| BalanceSeries.GroupingKeepsTotals | shared/domain/game-awards.ts:25-39 | grouping rows by transaction loses no money |
| BalanceSeries.KeptIndicesRise | shared/domain/game-awards.ts:128-134 | at most 61 indices, strictly rising from 0 to the last step |
| BalanceSeries.CalculateBalanceSeries | shared/domain/game-awards.ts:111-147 | every kept point is the start plus the deltas before it, the last one plus them all; an end is marked at the first kept point from the first bankruptcy that takes money from the player, and only then |
| BalanceSeries.GroupsAreEntries | shared/domain/game-awards.ts:25-39 | grouping the rows of a counted ledger gives back its transactions, one group each |
| BalanceSeries.CurveEnds | shared/domain/game-awards.ts:120-125 | over a counted ledger a curve has an end exactly if a bankruptcy took money from the player |
| BalanceSeries.WhoseCurveEnds | shared/domain/banking.ts:1139-1179 | that is the bankrupt player exactly if they had money, and the creditor exactly if the fees outweigh what they get |
| Counterexamples.CreditorsCurveEnds | shared/domain/game-awards.ts:123-124 | a run from a new game whose bankruptcy ends the creditor's curve and not the bankrupt player's |
| BalanceSeries.SeriesEndsAtTheWallets | shared/domain/game-summary.ts:56-73 | after any run of operations and reversals the series over the counted ledger ends at every wallet |
| BalanceSeries.Summarize | shared/domain/game-summary.ts:66-89 | the loop computes what each player sent and received |
| BalanceSeries.SummaryExplainsTheWallets | shared/domain/game-summary.ts:80-89 | received less sent, with the loans left out of both, is what each wallet gained |

## Left out

- Mask penalty scoring: `createLocalQr` is modelled for any scoring function; the code's own score leaves out the finder-like pattern of section 7.8.3, so nothing is claimed about which mask it picks.
- Error correction by the reader: the code's distance is proved, decoding of damaged symbols is not part of the encoder.
- HouseRuns.ReversalRestoresGroup: speaks of house levels; who then owns the group is for `OrderRuns`.
- RecordRuns.RunKeepsRecordsExactly: the unique indexes on records in force, which only refuse more, are not modelled.
- Arbitrage.NoArbitrage: for boards whose prices are not negative and whose refund rate is at most one, building evenly or not; reversals are not among the trading steps.
- GameSession.AnswersAgree: one coordinator per game; what else a command writes, a request or a bid, is not counted. A settlement's payment bears a random identifier in the program; what is written once is the closing of the auction it is batched with (`worker/repositories/operation-statements/auction-statements.ts:8-27`).
- Loan rows: loans are given to the operations that read them; their table is not part of this model.
- Payment and trade requests, game start and finish, authorization rules, board presets, SQL text, transport and user interface.
- Unicode normalisation of property names: whether a name survives it is a parameter.
- BalanceSeries.Summarize: transaction counts, the totals over all players and the biggest payer and recipient are not modelled.
- Award cards, tile intents and the order of pickers.
- `scaleBoardAmount`, the calculator and reconnect delays: floating point.
