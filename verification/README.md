# HyperExchange in Dafny

HyperExchange is a chain node derived from Graphene that moves assets to and from
foreign chains. This project models its hardest parts and proves what they promise.
Each part is a module of its own.

| file | what it models |
|---|---|
| `Commons.dfy`, `Sums.dfy`, `Balances.dfy` | wrappers and block ids, finite sums, and the table of balances |
| `CashAddrChecksum.dfy`, `CashAddr.dfy` | the checksum over GF(32) and the CashAddr encoder and decoder |
| `GaloisField.dfy`, `RootField.dfy`, `CashAddrDistance.dfy`, `CashAddrErrors.dfy` | the minimum distance of the checksum code, from the roots of its generator |
| `KeccakPermutation.dfy`, `Keccak.dfy` | the in-place permutation, and the hasher that buffers, pads and squeezes |
| `LaneBits.dfy`, `KeccakBits.dfy`, `KeccakSponge.dfy` | the bits of a lane, Keccak on bit strings as FIPS 202 writes it, and the digest against it |
| `CrossChain.dfy`, `CrossChainRuns.dfy`, `CrossChainDatabase.dfy` | deposits and withdrawals across chains: the protocol as a step relation, its runs, and the evaluators that change the database |
| `CrossChainLedger.dfy` | every balance, the supply and the collected fees, by operation and over runs |
| `CrossChainHistory.dfy`, `CrossChainChecks.dfy` | what the records say, and what is accepted next, in terms of the operations of a run alone |
| `WithoutSignCheck.dfy` | the comparison of a foreign transaction with the withdrawals it pays |
| `CrossChainSolvency.dfy` | what leaves for foreign transactions against what the withdrawals took, asset by asset |
| `CrossChainCases.dfy` | inputs on which the cross-chain protocol does less than expected |
| `ContractLedger.dfy`, `ContractAccounts.dfy`, `ContractExecution.dfy` | what a contract run moves and how it is committed; whom it pays, added up over its calls; gas, refunds and stored results |
| `ForkSwitch.dfy`, `ForkRuns.dfy` | switching forks with undo, finding the branches, and any sequence of pushed blocks |
| `BlockLog.dfy` | the block log: an index file and an append-only blob file |
| `Synopsis.dfy` | the summary of a chain sent to a peer, and the peer's reply |
| `LockBalance.dfy` | balances locked to miners, and each miner's total |
| `MemberIndex.dfy` | the reverse index from authority members to accounts |
| `AmountText.dfy`, `AmountValue.dfy`, `AmountSign.dfy` | amounts as decimal text, the numbers the text denotes, and minus signs anywhere in it |

Code that works on fields or files in place is a class; loops are methods proved
against a function of their input; the properties are lemmas about those functions and
about whole runs.

## Where the code does less than expected

Some properties one would expect hold only under a condition. The model follows the
code, and each condition is proved to be exact. Inputs that fail are lemmas of their own,
except where the condition itself names them.

- The cross-chain protocol conserves each asset exactly when the fee kept back by a
  without-sign operation is in the asset whose supply it raises
  (`CrossChainRuns.ConservesIff`). The evaluator does not compare the two assets. Failing
  input: `CrossChainRuns.MismatchedFeeDrifts`.
- A withdrawal credits its owner, and raises the supply, if and only if its text reads below
  zero (`CrossChainSolvency.WithdrawalCredits`); which texts do is `AmountSign.ReadsBelow`.
  The evaluator compares the amount with the withdrawal limit only where the symbol, which
  need not name the asset debited, has a valid handle. Over every run what was withdrawn
  in an asset is what has been claimed and what is still open, so that what was claimed is
  covered if and only if what is open does not come to less than nothing; it never does
  when no text reads below zero (`CrossChainSolvency.Solvent`), and while a withdrawal
  below zero is open, claiming all others goes beyond what was withdrawn
  (`CrossChainSolvency.NegativeOvertakes`).
  Failing input: `CrossChainCases.CreditPaidOut`, where 10 leave and nothing was withdrawn.
- A without-sign record of positive withdrawals whose symbol and id name one asset pays out,
  in every asset, exactly what they took if and only if it names none twice and the symbol of
  each names the asset that it debits (`CrossChainSolvency.PaidOutExactly`). The evaluators
  accept a repeated id and compare neither symbol and asset of a withdrawal nor symbol and id
  of the record. Failing inputs: `CrossChainCases.RepeatAccepted`, where 20 leave for a
  withdrawal of 10, and `CrossChainCases.WrongSymbolAccepted`, where 10 leave in an asset in
  which nothing was taken. With withdrawals of any sign, each in its own asset, the
  condition is that what repeated ids add comes to nothing; it can, as in
  `CrossChainCases.NothingRepeats`.
- When symbol and id name different assets, the fee kept back and what leaves abroad are in
  different assets. With positive withdrawals in the asset of the symbol, none named twice,
  the record pays out what was taken if and only if it keeps no fee and the two assets have
  the same precision (`CrossChainSolvency.OtherIdExactly`). Failing input:
  `CrossChainCases.PrecisionPaysMore`, where 90 and 91 leave for 100. Otherwise two faults
  have to cancel, as they do in `CrossChainCases.FaultsOffset`; the exact equations, whatever
  the signs, are `CrossChainSolvency.OtherIdEquation` and `CrossChainSolvency.PaidInTwoAssets`.
- The without-sign check reads the payouts with the asset found by symbol and with the one
  found by id. The fees come to one fee for each withdrawal exactly when the two have the
  same precision or nothing is paid (`WithoutSignCheck.FeesAreExact`). Failing input:
  `WithoutSignCheck.PrecisionsDiffer`. This is for payouts without a sign; signed ones can
  cancel (`WithoutSignCheck.SignsCancel`).
- The evaluators leave the kinds of the records named to the programs that build the
  operations. An accepted operation keeps the protocol invariant exactly when its builder
  saw to them (`CrossChain.BuilderNeeded`). Otherwise a withdrawal can be confirmed without
  any record that pays it (`CrossChain.ConfirmedUnpaid`), or combined without the record that
  does (`CrossChain.CombinedAlone`). Failing inputs: `CrossChainCases.SignatureOnWithdrawal`,
  `CrossChainCases.RecordAsSignature`.
- More than two thirds of the present guards stand behind a combination exactly when it
  has enough signatures without those of former guards
  (`CrossChainDatabase.QuorumOfGuards`); the test does not sort them out. Failing input:
  `CrossChainCases.FormerGuards`, where no present guard has signed.
- Gas fees are multiplied in 64 bits and read as signed. Every use of gas up to a limit
  has a fee no larger than that of the limit exactly when the price of the limit is
  below 2^63 (`ContractExecution.RefundsExactly`). Failing input:
  `ContractExecution.WrappedRefund`.
- An invocation evaluated again, with the same execution, has the same outcome exactly when
  its result holds something, or the contract is native, or there is no caller
  (`ContractExecution.SecondVisit`). A stored empty result is discarded together with the
  invoker noted before. Failing input: `ContractExecution.InvokerLost`.
- A switch to a fork that branches off below the start of the undo history undoes all of it
  and fails. It cannot happen while the chain holds a block and the fork database holds
  nothing below that start (`ForkRuns.NeverExhausted`). Failing input:
  `ForkRuns.ForkBelowRoot`.
- The blocks of a synopsis are the reference point's chain exactly when the log is linked
  up to it (`Synopsis.ChosenChain`): `fetch_block_id` still returns the ids of blocks that
  were popped. Failing input: `Synopsis.PoppedReference`.
- The reply to a synopsis starts at the highest shared entry exactly when the peer knows no
  block above the fork point that its log still holds above its head, or does not hold at
  all (`Synopsis.StartIsHighestShared`, `Synopsis.Exchange`). Failing input:
  `Synopsis.StaleStart`, where the reply is empty.
- Encoding and decoding a CashAddr are inverse exactly for prefixes that are nonempty
  and made of lower-case letters (`CashAddr.RoundTrip`).
- A printed amount reads back as itself exactly when it is not negative or has no decimals
  (`AmountValue.RoundTripExactly`).
- A minus sign is accepted anywhere in an amount. The string is read as the number it stands
  for exactly when the supply covers it and the sign does no harm
  (`AmountSign.ReadsNumber`): in front of a digit or of nothing, or elsewhere when neither
  the character passed over nor the digits cut off count. Failing input:
  `AmountSign.SignInside`, where "12-5" is read as -2.

Smaller differences between code and comments: `contract_invoke_result::validate` adds
up the transfer fees but leaves them out of its comparison; a negative decimal number
without digits before its point is refused, although the same number without a sign is
read (`AmountText.ReadNegative`).

## Model

| member | source | states |
|---|---|---|
| CashAddrChecksum.PolyMod | libraries/chain/cashaddr.cpp:47-152 | the loop with its five conditional masks computes the remainder of the linear register run over the input |
| CashAddrChecksum.FeedbackIsScaledTail | libraries/chain/cashaddr.cpp:112-141 | the five mask constants combine to the multiples, in GF(32), of the tail of the generator |
| CashAddrChecksum.UnpackStep | libraries/chain/cashaddr.cpp:82-141 | one step, symbol by symbol, multiplies by x, adds the input and subtracts the multiple of the generator that clears the overflow |
| CashAddrChecksum.RegisterIsRemainder | libraries/chain/cashaddr.cpp:48-80 | for every input, x^n + v(x) is a quotient times the generator plus the register |
| CashAddrChecksum.ZeroMeansOne | libraries/chain/cashaddr.cpp:42-80 | the remainder is zero exactly when x^n + v(x), divided by the generator, leaves 1 |
| CashAddrChecksum.AppendedZero | libraries/chain/cashaddr.cpp:144-151 | a zero appended to a valid input is never valid |
| CashAddrChecksum.ZeroInFront | libraries/chain/cashaddr.cpp:50-53 | a zero in front of the input changes the remainder, as the implicit leading 1 is there for |
| CashAddrChecksum.RunLinear | libraries/chain/cashaddr.cpp:82-142 | the loop is linear over XOR for every length |
| CashAddrChecksum.ZeroRunInjective | libraries/chain/cashaddr.cpp:106-141 | feeding zeros never takes a nonzero register to zero |
| CashAddrChecksum.BurstChangesRemainder | libraries/chain/cashaddr.cpp:58-63 | two inputs of any length that differ inside eight consecutive symbols have different remainders |
| CashAddrChecksum.RemainderCancels | libraries/chain/cashaddr.cpp:42-46 | the remainder written over eight trailing zeros makes the remainder vanish |
| CashAddrChecksum.SplitGroups | libraries/chain/cashaddr.cpp:194-198 | the shifts and masks take the 40-bit word apart into its eight symbols |
| CashAddr.SymbolRoundTrip | libraries/chain/cashaddr.cpp:14-33 | the reverse table undoes the character table, whose characters are lower-case letters or digits |
| CashAddr.SymbolIs | libraries/chain/cashaddr.cpp:14-32 | the table of characters, entry by entry |
| CashAddr.ReverseRoundTrip | libraries/chain/cashaddr.cpp:14-33 | every character with a value is the symbol of that value, up to letter case |
| CashAddr.ExpandPrefix | libraries/chain/cashaddr.cpp:167-176 | one symbol for each character and a zero behind; each symbol is below 32 and congruent to its character modulo 32 |
| CashAddr.ExpandedOnly | libraries/chain/cashaddr.cpp:167-176 | nothing else has those properties |
| CashAddr.ValidMeans | libraries/chain/cashaddr.cpp:181-183 | a payload is valid exactly when the low five bits of the prefix, a zero and the payload, divided by the generator, leave 1 |
| CashAddr.PrefixCovered | libraries/chain/cashaddr.cpp:178-183 | prefixes of lower-case letters and one length that differ inside eight consecutive letters never validate the same payload |
| CashAddr.VerifyChecksum | libraries/chain/cashaddr.cpp:181-183 | accepts exactly the payloads whose expanded form has remainder zero |
| CashAddr.CreateChecksum | libraries/chain/cashaddr.cpp:188-201 | returns the checksum symbols of the prefix and payload |
| CashAddr.ChecksumVerifies | libraries/chain/cashaddr.cpp:181-201 | a payload followed by its checksum verifies |
| CashAddr.ChecksumUnique | libraries/chain/cashaddr.cpp:181-201 | no other eight symbols complete the payload |
| CashAddr.BurstDetected | libraries/chain/cashaddr.cpp:58-63 | for every prefix and length, a nonzero change within eight consecutive symbols of a valid payload makes it invalid |
| CashAddr.Encode | libraries/chain/cashaddr.cpp:205-216 | prefix, separator, and the characters of payload and checksum |
| CashAddr.Scan | libraries/chain/cashaddr.cpp:224-257 | succeeds exactly on strings with allowed characters, one well-placed separator and no digit before it; reports the letter cases and the separator |
| CashAddr.ReadValues | libraries/chain/cashaddr.cpp:278-289 | succeeds exactly when every character has a value, and returns the values |
| CashAddr.Decode | libraries/chain/cashaddr.cpp:221-297 | returns the prefix and the data with its checksum symbols, or nothing, as the acceptance condition says |
| CashAddr.RoundTrip | libraries/chain/cashaddr.cpp:205-297 | decoding an encoding gives the prefix, the payload and the checksum if and only if the prefix is of lower-case letters |
| CashAddr.EncodingDecodes | libraries/chain/cashaddr.cpp:221-297 | any string in one letter case that lower-cases to an encoding is accepted and decodes to it |
| CashAddr.OneCaseOnly | libraries/chain/cashaddr.cpp:224-250 | a string that lower-cases to an encoding is accepted if and only if it does not mix letter cases |
| CashAddr.DefaultStandsInFront | libraries/chain/cashaddr.cpp:258-297 | a string without separator decodes as if the default prefix stood in front of it |
| CashAddr.DefaultReturned | libraries/chain/cashaddr.cpp:258-297 | it is accepted exactly when all its characters have a value, in one letter case, and the default prefix validates them, and then that prefix is returned with them |
| CashAddr.AcceptedIsEncoding | libraries/chain/cashaddr.cpp:221-297 | every accepted string with a separator and eight data symbols lower-cases to the encoding of what it decodes to |
| CashAddr.AcceptsExactly | libraries/chain/cashaddr.cpp:221-297 | such strings are accepted if and only if they are encodings in one letter case |
| CashAddr.NothingMeansRejected | libraries/chain/cashaddr.cpp:247-297 | the empty result stands for rejection and for nothing else |
| CashAddr.CorruptionRejected | libraries/chain/cashaddr.cpp:58-63 | an accepted string with up to eight consecutive characters of its data changed is rejected |
| GaloisField.TimesAssoc | libraries/chain/cashaddr.cpp:65-72 | multiplication in GF(32) is associative; with the laws beside it the symbols form a commutative ring |
| RootField.HighPowers | libraries/chain/cashaddr.cpp:56-60 | in the extension by a root y of a factor of the generator, y to the power 1025 is one |
| RootField.OnlyZeroFixed | libraries/chain/cashaddr.cpp:58-60 | a power of y that is not a multiple of 1025 leaves only zero in place |
| CashAddrDistance.RootPowers | libraries/chain/cashaddr.cpp:56-60 | y, y^30 and y^32 are roots of the generator |
| CashAddrDistance.InverseRootPowers | libraries/chain/cashaddr.cpp:56-60 | so are their inverses |
| CashAddrDistance.SyndromeStep | libraries/chain/cashaddr.cpp:82-141 | a step of the register multiplies its value at a root by the root |
| CashAddrDistance.SomeSyndrome | libraries/chain/cashaddr.cpp:58-60 | up to four errors less than 1025 places apart show at one of the six roots |
| CashAddrDistance.FewErrorsChangeRemainder | libraries/chain/cashaddr.cpp:58-60 | inputs of any length that differ at up to four places less than 1025 apart have different remainders |
| CashAddrErrors.FewErrorsDetected | libraries/chain/cashaddr.cpp:58-60 | for every prefix, a valid payload changed at up to four places within 1025 is invalid |
| CashAddrErrors.FewErrorsWithPrefix | libraries/chain/cashaddr.cpp:58-60 | the same for letters of the prefix and symbols of the payload taken together |
| CashAddrErrors.FewWrongRejected | libraries/chain/cashaddr.cpp:58-60 | an accepted string with up to four characters of its data changed within 1025 places is rejected |
| KeccakPermutation.ThetaInPlace | libraries/chain/Keccak.cpp:106-119 | the in-place loops are the lane form of theta, which ThetaMatches ties to bits |
| KeccakPermutation.RhoPiInPlace | libraries/chain/Keccak.cpp:121-149 | the chain of 24 moves through one temporary is pi after rho, on every lane |
| KeccakPermutation.OffsetsFollowWalk | libraries/chain/Keccak.cpp:125-149 | the rotation offsets are those of the walk in Algorithm 2 of FIPS 202 |
| KeccakPermutation.ChiInPlace | libraries/chain/Keccak.cpp:151-163 | the rows overwritten with two temporaries are chi |
| KeccakPermutation.IotaInPlace | libraries/chain/Keccak.cpp:165-166 | the round constant is added to lane 0 only |
| KeccakPermutation.ConstantsFollowRegister | libraries/chain/Keccak.cpp:37-49 | the 24 constants listed are those of the shift register in Algorithms 5 and 6 of FIPS 202 |
| KeccakPermutation.RoundInPlace | libraries/chain/Keccak.cpp:104-167 | one round is the composition of the five step mappings |
| KeccakPermutation.PermuteInPlace | libraries/chain/Keccak.cpp:104-168 | the 24 rounds are the permutation of section 3.3 of FIPS 202 |
| KeccakBits.ThetaMatches | libraries/chain/Keccak.cpp:106-119 | bit for bit, theta of Algorithm 1 of FIPS 202: each bit gains the parities of columns (x-1, z) and (x+1, z-1) |
| KeccakBits.RhoMatches | libraries/chain/Keccak.cpp:121-149 | bit for bit, rho of Algorithm 2, with the offsets of the walk and positions modulo 64 |
| KeccakBits.PiMatches | libraries/chain/Keccak.cpp:121-149 | bit for bit, pi of Algorithm 3 |
| KeccakBits.ChiMatches | libraries/chain/Keccak.cpp:151-163 | bit for bit, chi of Algorithm 4 |
| KeccakBits.IotaMatches | libraries/chain/Keccak.cpp:165-166 | bit for bit, iota of Algorithm 6, with the round bits of the shift register at positions 2^j - 1 |
| KeccakBits.PermutationMatches | libraries/chain/Keccak.cpp:104-168 | the 24 rounds are Keccak-f[1600] on the string of 1600 bits |
| KeccakSponge.LaneBit | libraries/chain/Keccak.cpp:90-101 | a lane read from a block has the bits of its eight bytes in order |
| KeccakSponge.AbsorbAllMatches | libraries/chain/Keccak.cpp:90-168 | absorbing blocks of bytes is absorbing their bits, with zeros for the capacity |
| KeccakSponge.PaddedMatches | libraries/chain/Keccak.cpp:216-232 | the padded bytes are the bits of the message followed by pad10*1 of section 5.1 of FIPS 202 |
| KeccakSponge.HexMatches | libraries/chain/Keccak.cpp:241-270 | the digits printed stand for the leading bits of the state |
| KeccakSponge.DigestIsKeccak | libraries/chain/Keccak.cpp:172-271 | for every message and length, the digest is Keccak[2d] of the message: pad10*1, the sponge of section 4 of FIPS 202 over Keccak-f[1600], truncated |
| Keccak.Hasher.constructor | libraries/chain/Keccak.cpp:16-21 | a new hasher has absorbed the empty message |
| Keccak.Hasher.Reset | libraries/chain/Keccak.cpp:25-32 | forgets everything added |
| Keccak.Hasher.ProcessBlock | libraries/chain/Keccak.cpp:90-168 | mixes a block into the leading lanes and permutes |
| Keccak.Hasher.Add | libraries/chain/Keccak.cpp:172-212 | whatever is buffered, the message absorbed grows by exactly the data, and less than a block stays in the buffer |
| Keccak.Hasher.PadBuffer | libraries/chain/Keccak.cpp:216-229 | the rest of the block becomes 01, zeros and a final top bit, also when one byte is missing |
| Keccak.Hasher.ProcessBuffer | libraries/chain/Keccak.cpp:216-232 | the state becomes that of absorbing the whole padded message |
| Keccak.Hasher.GetHash | libraries/chain/Keccak.cpp:236-271 | returns the digest of everything added |
| Keccak.ToHex | libraries/chain/Keccak.cpp:241-270 | the leading bytes of the state in hexadecimal, also for 224 bits, where the last lane is halved |
| Keccak.HashChunks | libraries/chain/Keccak.cpp:172-271 | any sequence of additions gives the digest of their concatenation |
| Keccak.PaddedSplits | libraries/chain/Keccak.cpp:172-232 | absorbing whole blocks and then the padded rest is absorbing the padded message |
| Keccak.PaddedIsPad101 | libraries/chain/Keccak.cpp:218-229 | the padding is pad10*1 of section 5.1 of FIPS 202, with as few zeros as needed |
| Keccak.PaddedInjective | libraries/chain/Keccak.cpp:218-229 | different messages are padded differently |
| Balances.AdjustedTotal | libraries/chain/db_balance.cpp:118-150 | an adjustment moves the sum of all balances of its asset by its amount and of no other |
| Balances.AdjustableIff | libraries/chain/db_balance.cpp:118-150 | where there is no debt, an adjustment goes through if and only if it leaves none and the address is real, or it is of nothing |
| CrossChain.EmptyInv | libraries/chain/db_crosschain_trx.cpp:66-239 | the protocol invariant holds without records |
| CrossChain.ApplyKeeps | libraries/chain/db_crosschain_trx.cpp:66-239 | every operation that passes its evaluator keeps the invariant: withdrawals belong to at most one without-sign record and share its state, signatures and combinations follow theirs, one signature for each guard, one combination, confirmed transactions are spent |
| CrossChain.RunKeeps | libraries/chain/db_crosschain_trx.cpp:66-239 | the invariant holds in every state a run reaches |
| CrossChain.BuilderNeeded | libraries/chain/crosschain_record_evaluate.cpp:527-545 | an accepted operation keeps the invariant if and only if it names the kinds of records its builder picks |
| CrossChain.ConfirmedUnpaid | libraries/chain/crosschain_record_evaluate.cpp:590-633 | any open withdrawal can be signed, combined and confirmed by accepted operations, and no record ever pays it |
| CrossChain.CombinedAlone | libraries/chain/crosschain_record_evaluate.cpp:527-545 | a combination that names a without-sign record is accepted, and combines its first withdrawal but not the record |
| CrossChain.SignFindsCreated | libraries/chain/crosschain_record_evaluate.cpp:590-633 | a signature is only accepted on a record that is not combined |
| CrossChain.SignNamesWithoutSign | libraries/chain/crosschain_record_evaluate.cpp:527-545 | a combination names a without-sign record that is still open |
| CrossChain.ResultFindsCombined | libraries/chain/crosschain_record_evaluate.cpp:206-278 | a result names a record that is combined and not confirmed |
| CrossChainRuns.ConsumedOnce | libraries/chain/crosschain_record_evaluate.cpp:9-17 | over any run, deposits, results and cold-hot results together consume a foreign transaction at most once |
| CrossChainRuns.RunAdvances | libraries/chain/db_crosschain_trx.cpp:66-239 | over any run no record disappears, changes kind or link, or goes back |
| CrossChainRuns.ClaimedOnce | libraries/chain/crosschain_record_evaluate.cpp:342-355 | two different without-sign operations of a run never name the same withdrawal |
| CrossChainRuns.SignedOnce | libraries/chain/crosschain_record_evaluate.cpp:590-633 | a guard signs a without-sign record at most once |
| CrossChainRuns.CombinedOnce | libraries/chain/crosschain_record_evaluate.cpp:527-545 | a record is combined at most once, and never signed afterwards |
| CrossChainRuns.ConfirmedOnce | libraries/chain/crosschain_record_evaluate.cpp:206-304 | a record is confirmed at most once |
| CrossChainRuns.ApplyDrift | libraries/chain/crosschain_record_evaluate.cpp:280-304 | supply less balances, collected fees and kept fees moves, for every asset and operation, by exactly a kept fee counted in the wrong asset |
| CrossChainRuns.ConservesIff | libraries/chain/crosschain_record_evaluate.cpp:506-524 | an operation conserves every asset if and only if its fee is in its own asset |
| CrossChainRuns.MismatchedFeeDrifts | libraries/chain/crosschain_record_evaluate.cpp:506-524 | a fee of 5 in another asset passes evaluation and raises the difference by 5 |
| CrossChainRuns.RunConserves | libraries/chain/crosschain_record_evaluate.cpp:87-131 | over every run with fees in their own asset each asset is conserved |
| CrossChainLedger.Moves | libraries/chain/crosschain_record_evaluate.cpp:87-201 | every balance, supply and collected fee, one by one: a deposit raises its owner's balance and the supply, a withdrawal lowers both by what its text reads, a without-sign operation raises the supply by its fee, a result collects it, a cold-hot result takes the pool off supply and collected fees; nothing else moves |
| CrossChainLedger.Marks | libraries/chain/crosschain_record_evaluate.cpp:9-17 | the mark of every foreign transaction after an operation |
| CrossChainLedger.DepositAccepted | libraries/chain/crosschain_record_evaluate.cpp:87-131 | accepted if and only if the foreign transaction is unused, the asset known and the owner real and left without debt |
| CrossChainLedger.WithdrawalAccepted | libraries/chain/crosschain_record_evaluate.cpp:135-201 | accepted if and only if it is new, its text reads with no more decimals than the asset has, and the owner's balance covers it |
| CrossChainLedger.RunBalances | libraries/chain/crosschain_record_evaluate.cpp:87-201 | over every run each balance is what it was, with the deposits to it and without the withdrawals from it |
| CrossChainLedger.NoDebts | libraries/chain/crosschain_record_evaluate.cpp:135-201 | no run leaves a debt |
| CrossChainLedger.RunSupply | libraries/chain/crosschain_record_evaluate.cpp:87-201 | over every run the supply moves by deposits, less withdrawals, and fees kept back, less the pools settled |
| CrossChainLedger.RunCollects | libraries/chain/crosschain_record_evaluate.cpp:280-304 | over every run the fees collected are those of the records confirmed, less the pools settled |
| CrossChainLedger.CarriedThrough | libraries/chain/crosschain_record_evaluate.cpp:206-633 | every open withdrawal can be claimed, signed, combined and confirmed: the four operations are accepted in turn, and it ends confirmed with the foreign transaction of the combination |
| CrossChainHistory.Story | libraries/chain/db_crosschain_trx.cpp:66-239 | over every run from the beginning the table holds exactly the withdrawals made, each open until a without-sign operation names it, claimed until a combination names a signature for that, combined with the combination's foreign transaction until a result names both, and then confirmed |
| CrossChainChecks.CreateAccepted | libraries/chain/crosschain_record_evaluate.cpp:342-355 | after every run, accepted if and only if it is new, its assets are known and no operation before it has claimed a withdrawal it names |
| CrossChainChecks.SignAccepted | libraries/chain/crosschain_record_evaluate.cpp:590-633 | after every run, accepted if and only if it is new, the operation signed has not been combined and this guard has not signed it |
| CrossChainChecks.CombinationAccepted | libraries/chain/crosschain_record_evaluate.cpp:527-545 | after every run, accepted if and only if it is new and the operation signed has not been combined |
| CrossChainChecks.ResultAccepted | libraries/chain/crosschain_record_evaluate.cpp:206-278 | after every run, accepted if and only if it names a combination with its foreign transaction, and no operation has used that transaction |
| CrossChainChecks.ForeignAccepted | libraries/chain/crosschain_record_evaluate.cpp:9-17 | cold-hot results, observations and failures are accepted by whether the run has used or seen the foreign transaction |
| CrossChainSolvency.ListedTotal | libraries/chain/crosschain_record_evaluate.cpp:441-475 | withdrawals listed with repetitions come to their worth and what repeated ids add; positive ones to at least their worth, and to exactly that if and only if no id repeats |
| CrossChainCases.RepeatAccepted | libraries/chain/crosschain_record_evaluate.cpp:346-355 | a withdrawal of 10 named twice passes evaluation and the full check, and 20 leave for it |
| CrossChainCases.WrongSymbolAccepted | libraries/chain/crosschain_record_evaluate.cpp:148-183 | a withdrawal that debits one asset under the symbol of another passes evaluation and the full check, and 10 leave in the asset of the symbol, in which nothing was taken |
| CrossChainCases.PrecisionPaysMore | libraries/chain/crosschain_record_evaluate.cpp:479-498 | a record whose id names an asset of less precision passes, and 90 and 91 leave for 100 taken, though no id repeats and symbols name the assets debited |
| CrossChainCases.FaultsOffset | libraries/chain/crosschain_record_evaluate.cpp:436-498 | a record with both faults passes and pays out exactly what was taken |
| CrossChainCases.NothingRepeats | libraries/chain/crosschain_record_evaluate.cpp:436-498 | a withdrawal of nothing named twice passes, and the record pays out exactly what was taken |
| CrossChainCases.CreditPaidOut | libraries/chain/crosschain_record_evaluate.cpp:135-201 | a withdrawal of "-10" under any symbol without a handle is accepted and credits 10; withdrawn and paid out, 10 leave over a run in which withdrawals took nothing |
| CrossChainCases.SignatureOnWithdrawal | libraries/chain/crosschain_record_evaluate.cpp:590-633 | an accepted signature on a withdrawal leads to its confirmation with no record that pays it |
| CrossChainCases.RecordAsSignature | libraries/chain/crosschain_record_evaluate.cpp:527-545 | a combination naming a without-sign record is accepted and combines the withdrawal without it |
| CrossChainCases.FormerGuards | libraries/chain/db_crosschain_trx.cpp:998-1003 | three signatures pass the test for three present guards, none of whom has signed |
| CrossChainSolvency.PaidOutExactly | libraries/chain/crosschain_record_evaluate.cpp:436-498 | a record that passed the check, whose symbol and id name one asset, pays out in every asset what its withdrawals took if and only if its list comes to that; with positive withdrawals, if and only if no id repeats and every symbol names the asset debited; with withdrawals in their own asset it pays what was taken and what repeated ids add |
| CrossChainSolvency.PaidInTwoAssets | libraries/chain/crosschain_record_evaluate.cpp:479-498 | when they name different assets, exactly when the withdrawals debit only the two, the fee kept back is what they debited in the asset of the id, and what the list counts too much is what the precision of the id's asset hides |
| CrossChainSolvency.OtherIdEquation | libraries/chain/crosschain_record_evaluate.cpp:479-498 | and with withdrawals in the asset of the symbol, of any sign, exactly when no fee is kept and what repeated ids add is what the precision hides |
| CrossChainSolvency.OtherIdExactly | libraries/chain/crosschain_record_evaluate.cpp:479-498 | and with positive ones, none named twice, exactly when no fee is kept and the precisions are equal |
| CrossChainSolvency.AllPaidExactly | libraries/chain/crosschain_record_evaluate.cpp:436-498 | in every state of the invariant whose records passed the check, all records pay out in every asset what was taken if and only if each meets its exact condition, and then so do their totals |
| CrossChainSolvency.RepeatsAddUp | libraries/chain/crosschain_record_evaluate.cpp:441-475 | among records with one asset and withdrawals in it each asset pays out what was claimed and what repeated ids add; when the claims are positive nothing makes up for a repeated id: at least what was claimed leaves, and exactly that if and only if none repeats |
| CrossChainSolvency.Solvent | libraries/chain/crosschain_record_evaluate.cpp:135-201 | over every run from the beginning in which each without-sign operation passed the full check: what was withdrawn in an asset is what was claimed and what is open, so that claims are covered if and only if the open ones do not come to less than nothing, as when no text reads below zero; every record pays out in every asset what its withdrawals took if and only if each meets its exact condition, and then each asset pays out what was claimed in it |
| CrossChainSolvency.WithdrawalCredits | libraries/chain/crosschain_record_evaluate.cpp:148-200 | a withdrawal raises its owner's balance and the supply if and only if its text reads below zero; if and only if the number it stands for is negative, when that is covered and the sign does no harm |
| CrossChainSolvency.NegativeOvertakes | libraries/chain/crosschain_record_evaluate.cpp:185-201 | while a withdrawal below zero is open, claiming all other open ones is enabled and claims more than all withdrawals took |
| CrossChainDatabase.Database.EvaluateCreateWithoutSign | libraries/chain/crosschain_record_evaluate.cpp:342-355 | accepts exactly when every withdrawal named is open, also when none is named |
| CrossChainDatabase.Database.EvaluateAddSign | libraries/chain/crosschain_record_evaluate.cpp:590-633 | for every target, the scan of the related records accepts exactly when all are before combining and none is a signature of this guard |
| CrossChainDatabase.Database.EvaluateCombineSigns | libraries/chain/crosschain_record_evaluate.cpp:527-545 | for every first id, accepts exactly when the record it relates to exists and its withdrawals are claimed |
| CrossChainDatabase.Database.EvaluateConfirmResult | libraries/chain/crosschain_record_evaluate.cpp:206-278 | accepts exactly a combination of the foreign transaction that is not yet spent |
| CrossChainDatabase.Database.Perform | libraries/chain/crosschain_record_evaluate.cpp:280-304 | evaluates any operation and applies it exactly when it is accepted, whoever built it, with the effect of the protocol step; every balance, supply and collected fee moves by what the operation credits, issues and collects |
| CrossChainDatabase.Database.PerformAll | libraries/chain/crosschain_record_evaluate.cpp:87-131 | any sequence of operations performs exactly the accepted ones; when builders made these, it ends in the final state of that run, in the invariant, and with every asset conserved when fees are in their own asset |
| CrossChainDatabase.Database.ApplyCreateWithoutSign | libraries/chain/db_crosschain_trx.cpp:89-113 | the loop over the claimed withdrawals moves each and creates one record |
| CrossChainDatabase.Database.ApplyCombineSigns | libraries/chain/db_crosschain_trx.cpp:114-188 | the loops over withdrawals and signatures have the effect of moving all of them at once |
| CrossChainDatabase.Database.ApplyConfirmResult | libraries/chain/crosschain_record_evaluate.cpp:280-304 | the loops confirm every linked record, and supply, fees and the acquired table move as the protocol step says |
| CrossChainDatabase.Database.OpenSigns | libraries/chain/db_crosschain_trx.cpp:987-997 | the scan groups exactly the open signatures, each once, by the record they sign |
| CrossChainDatabase.QuorumOfGuards | libraries/chain/db_crosschain_trx.cpp:998-1003 | in every state of the invariant the signatures of a group are those of as many guards, and more than two thirds of the present guards have signed if and only if the group passes the test without former guards |
| CrossChainDatabase.QuorumOfPresentGuards | libraries/chain/db_crosschain_trx.cpp:998-1003 | when all signers are still guards, passing the test takes more than two thirds of them |
| WithoutSignCheck.Check | libraries/chain/crosschain_record_evaluate.cpp:436-498 | the three loops accept exactly when every withdrawal has the symbol of the transaction, every amount reads with its assets, each destination is paid its withdrawals less one fee for each, and the totals add up |
| WithoutSignCheck.PassesExactly | libraries/chain/crosschain_record_evaluate.cpp:436-498 | passing means: destinations and outputs are the same, each output reads as the sum of its withdrawals each less the fee, nothing negative is kept, and the withdrawals come to what leaves and what is kept |
| WithoutSignCheck.GroupsAddUp | libraries/chain/crosschain_record_evaluate.cpp:436-498 | grouping by destination loses no amount and no withdrawal |
| WithoutSignCheck.FeesCoverWithdrawals | libraries/chain/crosschain_record_evaluate.cpp:436-498 | whenever the check passes, network fee plus kept fee exceeds the number of withdrawals times the fee by exactly the difference of the two readings of the payouts |
| WithoutSignCheck.FeesAreExact | libraries/chain/crosschain_record_evaluate.cpp:436-498 | for payouts without a sign it equals that product if and only if the two assets have the same precision or nothing is paid |
| WithoutSignCheck.PrecisionsDiffer | libraries/chain/crosschain_record_evaluate.cpp:436-498 | a payout "9" read with precisions 1 and 0 passes with fees of 91 instead of 10 |
| WithoutSignCheck.SignsCancel | libraries/chain/crosschain_record_evaluate.cpp:436-498 | payouts "9" and "-9" pass with exact fees although the precisions differ |
| ContractLedger.RunNets | libraries/chain/contract_evaluate.cpp:1327-1577 | after any run of deposits, transfers and queries no contract has both a pending deposit and a pending withdrawal of an asset, and withdrawals are covered by what is stored |
| ContractLedger.DepositNets | libraries/chain/contract_evaluate.cpp:1327-1360 | a deposit keeps that and raises the running balance by its amount |
| ContractLedger.TransferNets | libraries/chain/contract_evaluate.cpp:1487-1577 | a transfer keeps that and lowers the running balance by its amount |
| ContractLedger.RunningNonNegative | libraries/chain/contract_evaluate.cpp:1578-1609 | the running balance is never negative |
| ContractLedger.RunConserves | libraries/chain/contract_evaluate.cpp:1327-1577 | after any run, withdrawals plus external deposits equal pending deposits plus payouts plus transfer fees, asset by asset |
| ContractLedger.Commit | libraries/chain/contract_evaluate.cpp:1371-1397 | committing fails for a null address only, never for lack of funds, and leaves every address at its old balance plus deposits minus withdrawals plus payouts |
| ContractLedger.DebitsBookable | libraries/chain/contract_evaluate.cpp:1372-1397 | pending withdrawals are covered after the deposits have been booked |
| ContractLedger.CommitMovesTotal | libraries/chain/contract_evaluate.cpp:1372-1397 | committing a run moves the sum of all balances by external deposits less transfer fees |
| ContractLedger.TransferLosesFees | libraries/chain/contract_evaluate.cpp:1203-1221 | a transfer to a contract, with the caller debited, changes the sum of all balances by exactly minus the transfer fees |
| ContractLedger.Validate | libraries/chain/contract.cpp:54-116 | the summing loops accept exactly when no asset goes out beyond what came in |
| ContractLedger.ValidIff | libraries/chain/contract.cpp:54-116 | for the ledger of any run an asset is accepted if and only if nothing goes out in it or the fees make up for what came from outside |
| ContractLedger.ClosedRunIsValid | libraries/chain/contract.cpp:54-116 | every ledger built without external deposits is accepted |
| ContractAccounts.RunPays | libraries/chain/contract_evaluate.cpp:1543-1577 | over every run the payout of each address is the sum of the transfers to it, each less its fee, and the fees are those of the transfers |
| ContractAccounts.RunEntries | libraries/chain/contract_evaluate.cpp:1327-1577 | pending deposit, pending withdrawal, payout, fee and running balance of every address after a run, each in closed form in its calls |
| ContractAccounts.TransferCovered | libraries/chain/contract_evaluate.cpp:1487-1577 | after every run a transfer goes through if and only if the stored balance, with what entered and without what was spent, covers it |
| ContractAccounts.CommittedBalance | libraries/chain/contract_evaluate.cpp:1371-1397 | a committed run leaves every address at its old balance, with what was deposited and transferred to it and without what it transferred away |
| ContractAccounts.CommitFails | libraries/chain/contract_evaluate.cpp:1371-1397 | a commit fails if and only if the run pays the null address or leaves it with a balance moved |
| ContractExecution.Evaluator.DepositToContract | libraries/chain/contract_evaluate.cpp:1327-1360 | the contract's deposits less its withdrawals grow by the amount, in that asset alone; payouts and fees stay; an unknown contract changes nothing |
| ContractExecution.Evaluator.TransferToAddress | libraries/chain/contract_evaluate.cpp:1487-1577 | succeeds exactly when the running balance covers the amount; then the contract's entry falls by the amount, the payout of the address named grows by the amount less the fee, the fees of the asset by the fee, and nothing else moves |
| ContractExecution.Evaluator.GetContractBalance | libraries/chain/contract_evaluate.cpp:1578-1609 | returns the running balance, which caching the stored one does not change |
| ContractExecution.RefundsExactly | libraries/chain/contract_evaluate.cpp:89-95 | fees of all uses up to the limit are in order if and only if the price of the limit is below 2^63 |
| ContractExecution.UnitsCover | libraries/chain/contract_evaluate.cpp:89-95 | gas is charged by the least number of hundreds that cover it |
| ContractExecution.FeeWraps | libraries/chain/contract_evaluate.cpp:89-95 | the fee is the price of the units up to a multiple of 2^64, in the range of 64 signed bits |
| ContractExecution.WrappedRefund | libraries/chain/contract_evaluate.cpp:89-95 | four units at 2^62 give a negative refund |
| ContractExecution.RefundSplits | libraries/chain/contract_evaluate.cpp:460-465 | with gas within the limit and the fee of the limit paid, the refund is not negative and what is kept covers the gas used |
| ContractExecution.PayFeeAndRefund | libraries/chain/contract_evaluate.cpp:1753-1781 | the caller gets the unspent fee back, the rest and the transfer fees are collected |
| ContractExecution.CopyResult | libraries/chain/contract.cpp:118-158 | field by field, entries already present stay and missing ones are added |
| ContractExecution.ResultStore.Put | libraries/chain/db_contract_trx.cpp:490-595 | stores the result under its transaction and operation, and counts its gas |
| ContractExecution.ResultStore.Evaluate | libraries/chain/contract_evaluate.cpp:376-395 | replays a stored result that holds something, with its gas and fee, otherwise removes it, and with it the invoker, and hands on everything the execution changed |
| ContractExecution.ResultStore.Visit | libraries/chain/contract_evaluate.cpp:376-395 | an applied evaluation leaves its result and gas stored, one not applied stores nothing, gas of the block is counted once, and no other entry changes |
| ContractExecution.ResultStore.VisitAll | libraries/chain/contract_evaluate.cpp:376-395 | any sequence of evaluations, applied or not, gives the outcomes and the store of the specification |
| ContractExecution.UsableStays | libraries/chain/db_contract_trx.cpp:490-595 | over any sequence of visits a usable stored result is never replaced or removed |
| ContractExecution.ReplayAgrees | libraries/chain/contract_evaluate.cpp:376-395 | whatever executing again would give, every visit after an applied one whose result holds something returns its result and gas, and for the same fee paid its refund, and keeps the entry |
| ContractExecution.SecondVisit | libraries/chain/contract_evaluate.cpp:369-395 | visited again with the same execution and only other operations between, the outcome is the same if and only if the result holds something, the contract is native or there is no caller; otherwise it differs in the invoker alone |
| ContractExecution.InvokerLost | libraries/chain/contract_evaluate.cpp:369-395 | an empty result visited twice has its invoker the first time and none the second |
| ForkSwitch.Chain.ApplyInSession | libraries/chain/db_block.cpp:211-214 | a block that builds on the head and applies is applied with one undo step; any other leaves no trace |
| ForkSwitch.Chain.PopBlock | libraries/chain/db_block.cpp:692-713 | head and state are those before the last block |
| ForkSwitch.Chain.PopTo | libraries/chain/db_block.cpp:190-192 | the loop of pops ends exactly at the ancestor and in its state |
| ForkSwitch.Chain.PushBranch | libraries/chain/db_block.cpp:194-216 | succeeds exactly when every block of the branch applies in order; otherwise the blocks before the failing one stand |
| ForkSwitch.Chain.SwitchFork | libraries/chain/db_block.cpp:185-254 | success ends in the state of the new branch applied from the ancestor; a failure at any block ends with the old head, state and undo history |
| ForkSwitch.Chain.PushBlock | libraries/chain/db_block.cpp:155-284 | extends, switches or ignores if and only if the heads and the blocks say so, also when the fork database's head is another block on top of ours, and any failure leaves head and state as they were |
| ForkSwitch.FetchBranchFrom | libraries/chain/fork_database.cpp:263-304 | the three loops succeed if and only if known blocks lead from both heads to a common block, and return the branches down to the highest one |
| ForkSwitch.FailureStays | libraries/chain/db_block.cpp:194-216 | a branch with a failing prefix has no state |
| ForkRuns.PushFork | libraries/chain/db_block.cpp:185-254 | with the branches the fork database finds: the chain becomes the new branch on the common block if its blocks apply, and stays otherwise; without a common block nothing happens; below the start of the undo history all is undone |
| ForkRuns.PushAll | libraries/chain/db_block.cpp:155-284 | any sequence of pushes, whatever the fork database holds, keeps the state that of the chain's blocks applied from the root, with an undo history that leads back to it |
| ForkRuns.HigherForkWins | libraries/chain/db_block.cpp:176-254 | when the fork database's head does not build on ours, a push makes it ours if and only if it is higher and leads to a common block from which its branch applies |
| ForkRuns.HeadNeverFalls | libraries/chain/db_block.cpp:155-284 | over any run the height of the head never falls and stays only with the chain, unless the undo history is used up |
| ForkRuns.NeverExhausted | libraries/chain/db_block.cpp:185-192 | with nothing in the index at or below the root but the root, a chain above it never uses the undo history up |
| ForkRuns.ForkBelowRoot | libraries/chain/db_block.cpp:190-192 | a fork from below the root undoes all blocks and fails |
| BlockLog.BlockDatabase.constructor | libraries/chain/block_database.cpp:42-60 | a new log holds nothing |
| BlockLog.BlockDatabase.Store | libraries/chain/block_database.cpp:81-99 | the number of the id given, or of the block's own id when none is, holds the block under that id; every other number is as before, and the blob file only grows at its end |
| BlockLog.BlockDatabase.Remove | libraries/chain/block_database.cpp:101-118 | fails beyond the index; a number that holds that id holds nothing afterwards, and in all other cases, and at all other numbers, nothing changes; ids in the index stay |
| BlockLog.BlockDatabase.Contains | libraries/chain/block_database.cpp:120-134 | true exactly for an id the map holds |
| BlockLog.BlockDatabase.FetchBlockId | libraries/chain/block_database.cpp:136-150 | the id last stored at a number, removed or not; fails beyond the index and at holes |
| BlockLog.BlockDatabase.FetchOptional | libraries/chain/block_database.cpp:152-182 | the block the map holds under the id, if its own id agrees, in spite of holes and removed entries |
| BlockLog.BlockDatabase.FetchByNumber | libraries/chain/block_database.cpp:184-211 | the same by number |
| BlockLog.BlockDatabase.Last | libraries/chain/block_database.cpp:213-249 | the block with the highest live number, or nothing when none lives |
| BlockLog.BlockDatabase.LastId | libraries/chain/block_database.cpp:251-283 | the id stored at the highest live number |
| BlockLog.BlockDatabase.DropAfterGap | libraries/chain/db_management.cpp:112-124 | the loop ends with exactly the blocks up to the gap |
| BlockLog.RunCoherent | libraries/chain/block_database.cpp:81-211 | after any sequence of changes that stores blocks under their own ids, every entry is that of its own number and id, so the lookups agree |
| BlockLog.HoldsLast | libraries/chain/block_database.cpp:81-211 | after any sequence of changes a number holds a block if and only if it was stored there and neither stored over nor removed under its id since |
| BlockLog.Replay | libraries/chain/block_database.cpp:81-118 | the two files follow the map through any sequence of stores and removals, and older blobs are never disturbed |
| Synopsis.Choose | libraries/app/application.cpp:988-1074 | the low block lies between 1 and the high block in every case that is not an error |
| Synopsis.ChosenLow | libraries/app/application.cpp:988-1074 | the low block is the last that cannot be undone, or the reference point when that is on the chain below it, and never below 1 |
| Synopsis.ChosenErr | libraries/app/application.cpp:988-1066 | there is no synopsis exactly when the reference point has no number in the log, or is off the chain without a fork history that leaves it at or above the last block that cannot be undone |
| Synopsis.ChosenChain | libraries/app/application.cpp:989-1066 | the chain summarized ends at the reference point, or the head, and is linked by parents if and only if the log is linked from the head up to the reference point |
| Synopsis.PoppedReference | libraries/app/application.cpp:835-839 | a popped reference point at number 3 whose number 2 was replaced counts as included, and its chain is not linked |
| Synopsis.Summarize | libraries/app/application.cpp:1076-1095 | every index into the log and the fork history is in range, and the ids collected are those of the chain at the loop's numbers |
| Synopsis.GetBlockchainSynopsis | libraries/app/application.cpp:979-1099 | the synopsis is the chain at the loop's numbers, which increase strictly from the low block on; empty without blocks |
| Synopsis.MarksIncrease | libraries/app/application.cpp:1081-1095 | the numbers increase strictly between the low and the high block |
| Synopsis.MarksEndAtHigh | libraries/app/application.cpp:1081-1095 | with nothing trailing, the last number is the high block |
| Synopsis.MarksAreFew | libraries/app/application.cpp:1081-1095 | there are at most floor(log2(true high - low + 1)) + 1 of them |
| Synopsis.MarksAreDense | libraries/app/application.cpp:1081-1095 | every block is at most as far above the nearest number below it as it is below the true high |
| Synopsis.MarksHalve | libraries/app/application.cpp:931-943 | the first number is the low block, and from each number the next goes half the way to the true high, rounded up |
| Synopsis.SynopsisEnds | libraries/app/application.cpp:934-941 | the synopsis starts at the low block and, with nothing trailing, ends at the reference point or the head |
| Synopsis.TwentySixBlocks | libraries/app/application.cpp:942-943 | of 26 blocks a to z the synopsis is a n u x z |
| Synopsis.GetBlockIds | libraries/app/application.cpp:850-895 | the reply has as many ids as the limit and the head allow, from the last known block or from block 1: id i is that of the block i places on, there are never more than the limit, and the count of what remains is exact |
| Synopsis.FindStart | libraries/app/application.cpp:860-883 | the search backwards stops at the first entry that is block 0 or known and on the log; all entries passed are known not to be; it fails when none is left or an entry can be told neither way |
| Synopsis.StartIsHighestShared | libraries/app/application.cpp:871-882 | the start is the highest shared entry if and only if no entry above the fork point is stale or missing, and the peer fails if and only if it meets a missing one first |
| Synopsis.NothingShared | libraries/app/application.cpp:871-882 | a synopsis wholly above the fork point is refused if and only if the peer meets no stale entry before a missing one |
| Synopsis.Exchange | libraries/app/application.cpp:850-895 | for a synopsis reaching the fork point, the highest shared entry is no further below the fork point than our end of the chain is above it, a reply from there passes the fork point, and the reply is from there if and only if no entry above is stale or missing |
| Synopsis.StaleStart | libraries/app/application.cpp:871-889 | a peer that popped our block 3 but still knows it answers with nothing although block 1 is shared |
| LockBalance.AdjustedSum | libraries/chain/db_lock_balance.cpp:76-107 | an adjustment moves exactly the sums that include its lock, also when the lock is removed |
| LockBalance.AdjustShifts | libraries/chain/db_lock_balance.cpp:76-122 | an adjustment is allowed if and only if the miner is known and no negative lock results, a new lock included, and moves one lock and one total by its amount |
| LockBalance.AdjustKeeps | libraries/chain/db_lock_balance.cpp:76-122 | locks stay positive, and each total that equals its sum still does |
| LockBalance.RunAgrees | libraries/chain/db_lock_balance.cpp:76-122 | over every run each miner's total equals the sum of its locks, and sums are what went in |
| LockBalance.Database.AdjustLockBalance | libraries/chain/db_lock_balance.cpp:76-122 | succeeds exactly when the miner is known and the lock, 0 when there is none, covers the change; one lock and one total move by the amount, and no other |
| LockBalance.Database.SumLocks | libraries/chain/balance_evaluator.cpp:126-131 | the loop adds up the account's locks in the asset |
| LockBalance.Database.ReleaseLocks | libraries/chain/balance_evaluator.cpp:143-151 | all these locks are removed, totals follow, and the address's record falls by their sum |
| LockBalance.ChosenReleased | libraries/chain/balance_evaluator.cpp:143-151 | the locks given up are all those of the account in the asset and no others |
| LockBalance.Database.SetBalance | libraries/chain/balance_evaluator.cpp:121-164 | balance plus locks end at the claimed amount, supply moves by exactly the difference, and no other balance moves |
| LockBalance.Database.CitizenLocks | libraries/chain/balance_evaluator.cpp:216-230 | the loops add a citizen's locks up, asset by asset |
| LockBalance.Database.CorrectChainData | libraries/chain/balance_evaluator.cpp:188-240 | from any state, the named citizens' totals, or all, become the sums of their locks, and no other total changes |
| MemberIndex.InsertAll | libraries/chain/account_object.cpp:148-158 | the loop adds the id to exactly the sets of the items |
| MemberIndex.EraseAll | libraries/chain/account_object.cpp:166-176 | the loop takes the id out of exactly the sets of the items |
| MemberIndex.ApplyDifference | libraries/chain/account_object.cpp:194-211 | only what was removed and what was added changes |
| MemberIndex.AccountMemberIndex.ObjectInserted | libraries/chain/account_object.cpp:142-158 | the three maps are the reverse relation of the table with the new account |
| MemberIndex.AccountMemberIndex.ObjectRemoved | libraries/chain/account_object.cpp:160-176 | likewise without the account |
| MemberIndex.AccountMemberIndex.AboutToModify | libraries/chain/account_object.cpp:178-187 | remembers all members of the old version |
| MemberIndex.AccountMemberIndex.ObjectModified | libraries/chain/account_object.cpp:189-252 | likewise with the new version |
| MemberIndex.RunChanges | libraries/chain/account_object.cpp:112-252 | over every run of changes told one at a time the maps answer, for every account, key and address, exactly which accounts name it in their owner or active authority, or as memo key |
| AmountText.AmountToString | libraries/chain/asset_object.cpp:195-207 | prints every amount, negative ones with division towards zero, and fails when ten to the precision leaves 64 bits |
| AmountText.PrintedForm | libraries/chain/asset_object.cpp:195-207 | an amount that is not negative prints as a plain numeral of its whole units and, only if there are any, a point and as many decimals as the precision |
| AmountText.PrintedNegative | libraries/chain/asset_object.cpp:195-207 | a negative one has its sign only in front of whole units, and behind the point the digits of the scale less the decimals |
| AmountText.Scan | libraries/chain/asset_object.cpp:143-161 | accepts exactly digits with at most one minus sign and one point |
| AmountText.AmountFromString | libraries/chain/asset_object.cpp:141-193 | scans, scales, cuts or fills the decimals and checks the supply, failing where the source throws |
| AmountText.PaddedDigits | libraries/chain/asset_object.cpp:204-205 | the numeral of 10^p + d without its first digit is d with p digits |
| AmountText.ReadDecimal | libraries/chain/asset_object.cpp:163-187 | digits around a point read as the decimal number cut off below the precision, refused exactly above the supply |
| AmountText.ReadWhole | libraries/chain/asset_object.cpp:163-187 | digits alone read as whole units, refused exactly above the supply |
| AmountText.ReadNegative | libraries/chain/asset_object.cpp:163-192 | a minus sign negates, except that it is refused when no digit comes before the point |
| AmountText.ReadNegativeWhole | libraries/chain/asset_object.cpp:163-192 | a minus sign before digits alone negates them |
| AmountValue.ReadUnsigned | libraries/chain/asset_object.cpp:163-187 | every accepted string without a sign is read as the number it denotes, refused exactly above the supply |
| AmountValue.DenotesGrows | libraries/chain/asset_object.cpp:165-185 | read with more precision a number counts more units, unless it counts none |
| AmountSign.ReadsNumber | libraries/chain/asset_object.cpp:141-193 | every string the scan accepts is read as the signed number it stands for if and only if the supply covers the number and its sign does no harm |
| AmountSign.ReadsFirst | libraries/chain/asset_object.cpp:163-192 | the case of a sign before the point: in front of a digit or of nothing, or where dropping the first digit and what follows the sign changes nothing |
| AmountSign.ReadsPoint | libraries/chain/asset_object.cpp:163-192 | the case of a sign after the point: the first character is passed over and the digits behind the sign are lost or negated |
| AmountSign.ReadsFirstExactly | libraries/chain/asset_object.cpp:163-192 | what every string with a sign before the point is read as, harm or not |
| AmountSign.ReadsPointExactly | libraries/chain/asset_object.cpp:163-192 | what every string with a sign after the point is read as, harm or not |
| AmountSign.SignInside | libraries/chain/asset_object.cpp:163-192 | "12-5" is read as -2 and stands for -125 |
| AmountSign.ReadsBelow | libraries/chain/asset_object.cpp:141-193 | every string that is read comes out below zero if and only if digits that count are left once the sign has taken its effect, wherever it is |
| AmountText.RoundTrip | libraries/chain/asset_object.cpp:141-207 | every nonnegative amount up to the supply, in every precision, reads back as itself |
| AmountValue.RoundTripExactly | libraries/chain/asset_object.cpp:141-207 | an amount, negative or not, reads back as itself if and only if it is not negative or has no decimals |
| AmountText.PrintedInjective | libraries/chain/asset_object.cpp:195-207 | different amounts print differently |

## Left out

- The detection of 5 scattered errors within 160 characters and of 6 within 126: the generator was selected for it by search, and no structure proves it.
- Keccak.Hasher.Add: does not model the wrap-around of the 64-bit byte counter, which nothing reads.
- The ETH and ERC path of the cross-chain protocol, changes of signers, and the cold-hot lifecycle before its result: part of their order rests on code outside these evaluators.
- Refund operations, and the operation that resets the state of an acquired transaction: administrative steps outside the protocol modelled.
- CrossChainDatabase.Database.Perform: requires a without-sign operation to name some withdrawal and a combination some id, because the source otherwise dereferences an end iterator.
- CrossChainDatabase.Database.PerformAll: requires the same of every operation.
- CrossChainDatabase.Database.EvaluateCombineSigns: requires some id, because the source dereferences the first one unchecked.
- CrossChainDatabase.Database.ApplyCreateWithoutSign: requires some withdrawal, for the same reason.
- WithoutSignCheck.FeesAreExact: payouts carry no sign, as the handles of foreign chains print them; with signs the condition is not exact, and the difference is that of FeesCoverWithdrawals.
- CrossChainSolvency.OtherIdExactly: withdrawals are positive and amounts of the foreign transaction carry no sign; OtherIdEquation and PaidInTwoAssets are without that.
- CrossChainSolvency.Solvent: counts only operations whose full check was made; a node without the handle of the chain skips it. Withdrawals may be of any amount, since a symbol without a handle skips the withdrawal limit.
- The handles of foreign chains, broadcasting and wall-clock checks: their answers are inputs.
- Block heights below the gates that switch the evaluators to their present form, and below the height from which miner totals are kept.
- 64-bit overflow of balances, supplies and locks, which the source's checked integers turn into a failure, and 32-bit wrap-around of block numbers in the synopsis.
- The floating-point transfer fee: ContractLedger takes any fee between zero and the amount.
- The guarantee branch of the fee refund, UVM execution, native contracts and storage gas: gas used and ledger calls are inputs.
- ForkSwitch.Chain.PushBlock: takes block application as a deterministic function and undo as exact; it says nothing about the size limit of the undo history or the block log after a failed switch.
- ForkRuns.PushAll: what the fork database holds and calls its head at each push is an input; block ids determine their blocks.
- Serialization of blocks: any pair of functions where unpacking undoes packing and fails on empty data.
- MemberIndex.RunChanges: changes are told one at a time; the index remembers only one account about to change.
- An asset's symbol as the key of a miner's total: the model uses the asset itself, since symbols are unique.
- SHA-1, SHA-256 and RIPEMD-160: abstract where they occur, since nothing here depends on how a hash is computed.
- The query interfaces, price feeds, account and asset creation, OTC indexing and command-line handling are not part of this model.
