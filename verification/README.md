# Block layer, config compiler and crypto of the 2.6 kernel tree, in Dafny

A model of three parts of the repository, with proofs of what they promise over all inputs and all runs.

* **The block request layer.** The barrier protocol of `ll_rw_blk.c` with the insert, requeue and completion paths of
  `elevator.c` (`Barrier`, `BarrierStray`, `BarrierEnds`, `BarrierQueue`); the deadline scheduler (`Deadline`,
  `DeadlineFair`, `DeadlineSharp`, `DeadlineSched`); the merge hash and bio merging (`Merging`, `BioConservation`,
  `MergeQueue`, `MergeDeadline`, `ElevatorRun`); partial completion (`Completion`); the request pool and the scheduler
  switch (`RequestPool`, `RequestList`); batches of the anticipatory scheduler (`Anticipatory`, `AnticipatorySched`);
  the priority rotation of CFQ (`CfqRotation`); sorted dispatch (`DispatchSort`).
* **The condition compiler of the config tool**, `tkcond.c`: `Conditions`, `TkCond`, `TkMeaning`, `TkDuplicates`,
  `TkProgram`.
* **Crypto where a fast form must equal a simple one**: table-driven AES (`Gf256`, `AesSpec`, `AesWords`, `AesRounds`,
  `AesTables`, `AesTableRounds`, `Aes`, and on 32-bit words `AesMachine`), CBC (`Cbc`, `AesCbc`), buffered digests and
  HMAC (`Digest`, `Sha1`, `Md5`, `Hmac`, `HmacSha1`).

`Lists`, `Directions` and `Runs` are shared. Code that changes state in place is a class whose methods are proved
against specification functions on values; the run-long properties are lemmas about those functions. Sections that hold
a lock are single steps, `jiffies` is an integer that does not go back, a red-black tree is a list sorted by sector,
and allocation failures, hash failures and the driver's behaviour are inputs. `dafny verify dfyconfig.toml` checks the
project.

## Findings

Where a property fails for the code, the code is modelled as it is, a lemma gives an input, and the condition under
which the property holds is proved.

* **A refused barrier can break a later one.** A request from before a refused barrier can have another colour than the
  next barrier. If the driver gives it back while that barrier's sequence is in progress it lands behind the sequence
  (`BarrierStray.RefusalBreaksSafety`), or the queue hangs (`BarrierStray.RefusalHangs`). Barrier safety holds for all
  runs in which no such request is given back (`Barrier.BarrierSafety`); a run that gives one back hangs for good or
  can be continued to an unsafe one (`BarrierStray.GuardExact`, `BarrierStray.GuardNeeded`). Runs without refusals in
  flight are never affected (`Barrier.QuietSafety`).
* **Writes can wait one call longer than the batch bound.** Moving an alias sets a next request without a call having
  begun a batch. `DeadlineFair.WritesWaitLess` has the bound for all other states, `DeadlineSharp.OneTooMany` a run
  that exceeds it for every setting with fifo_batch at least 1.
* **Mixed conditions.** An -a that an undefined variable decides before an -o is compiled wrongly
  (`TkProgram.UndefinedFails`); `TkMeaning.ElimExact` says exactly when. The else of a mixed condition can be compiled
  wrongly too (`TkProgram.MixedElseFails`), by a chain that is true too often, never too rarely: `TkProgram.HoldsExact`
  and `TkProgram.ElseExact` are the exact conditions under an assignment, `TkProgram.ElseSound` the one under all.
* **Two partial completions are not always one.** Vectors that are done may differ (`Completion.DoneVectorsDiffer`),
  and the call that finishes a request leaves its sector fields alone (`Completion.FieldsDiffer`).
  `Completion.Additive` and `Completion.FieldsAdditive` say exactly when they are.
* **Requests enter the old scheduler during a switch.** One that was allocated before it does
  (`RequestPool.VeteranEnters`); `RequestPool.EntersWhileSwitching` says exactly which.
* **Aliases can mix directions** in the anticipatory scheduler (`Anticipatory.AliasMixes`), and so can forced
  dispatches. Directions stay apart in all runs that meet the conditions of `Anticipatory.NeverMixed`; what does not
  meet them mixes directions, at once or later (`Anticipatory.AliasExact`, `Anticipatory.AliasNeeded`,
  `Anticipatory.ForceNeeded`).

## Model

| member | source | states |
|---|---|---|
| Barrier.BarrierSafety | linux-2.6.x/block/ll_rw_blk.c:330-523 | every run in which the driver gives back, while a sequence is in progress, only requests of the barrier's colour obeys all ordering rules: no step before every earlier request is finished, proxy after pre-flush, post-flush after proxy, no later request before the barrier ends, the barrier reported with its first error and ended at most once, a refused one with -EOPNOTSUPP; refusals are allowed at any time |
| Barrier.QuietSafety | linux-2.6.x/block/ll_rw_blk.c:476-523 | runs without refusals in flight, in particular without any, always keep to the colours and are safe, whatever the driver gives back |
| BarrierStray.GuardExact | linux-2.6.x/block/elevator.c:567-594 | the condition is exact: from any state that meets the invariant, giving back a request of the barrier's colour keeps the invariant; giving back another one leaves a queue that hangs for good or leads to an unsafe trace |
| BarrierStray.GuardNeeded | linux-2.6.x/block/elevator.c:567-594 | the same for runs: the first request given back against the condition leads to a hang or to an unsafe trace |
| BarrierStray.HungForever | linux-2.6.x/block/ll_rw_blk.c:476-523 | a hung queue stays hung under every continuation, and only submissions are ever added to its trace |
| BarrierStray.LostIsOvertaken | linux-2.6.x/block/elevator.c:826-852 | while other requests of the drain remain, a request that landed behind the sequence is overtaken by the pre-flush or the proxy |
| BarrierStray.RefusalBreaksSafety | linux-2.6.x/block/ll_rw_blk.c:481-500 | a run from an idle queue: after a refusal with two requests in flight, a later barrier's pre-flush reaches the driver before request 0 is finished |
| BarrierStray.RefusalHangs | linux-2.6.x/block/ll_rw_blk.c:476-523 | a run from an idle queue that ends with the sequence at the head, nothing with the driver, and nothing that can be handed out, ever |
| Barrier.StepKeeps | linux-2.6.x/block/ll_rw_blk.c:330-523 | every step of the block layer and of a driver that keeps to the colours preserves the invariant |
| Barrier.RunKeeps | linux-2.6.x/block/ll_rw_blk.c:330-523 | the invariant holds in every state of every such run |
| Barrier.NoBugs | linux-2.6.x/block/ll_rw_blk.c:357-381 | the WARN_ON of blk_do_ordered, the BUG_ON of blk_ordered_complete_seq and the list access of elv_completed_request never fail |
| Barrier.IssueInTurn | linux-2.6.x/block/ll_rw_blk.c:515-520 | what is handed out during a sequence is exactly the step that is due |
| Barrier.NeverStuck | linux-2.6.x/block/ll_rw_blk.c:476-523 | with a request queued, the driver holds one, or a barrier can be started or refused, or a request handed out |
| Barrier.RequeueAtHead | linux-2.6.x/block/elevator.c:567-594 | a request of the barrier's colour that is given back during a sequence always goes to the head of the queue |
| Barrier.StartOffers | linux-2.6.x/block/ll_rw_blk.c:425-474 | start_ordered hands out its first step at once exactly when nothing is in flight |
| Barrier.OfferedIsDue | linux-2.6.x/block/ll_rw_blk.c:515-520 | a step handed out during a sequence finds the drain over, and the steps before it done |
| Barrier.EarlierDrains | linux-2.6.x/block/ll_rw_blk.c:337-355 | without refusals in flight, every unfinished request from before the barrier has the barrier's colour |
| Barrier.FirstLaterWaits | linux-2.6.x/block/ll_rw_blk.c:337-355 | the first request behind the sequence has the other colour and waits for its end |
| BarrierEnds.EndsInTime | linux-2.6.x/block/ll_rw_blk.c:357-523 | while a barrier is in progress, every hand-out, dequeue and completion uses up one of the steps that its earlier requests, flushes and proxy had left, and only a request given back adds to them, two at a time; so a barrier ends after boundedly many such steps |
| BarrierEnds.CanAdvance | linux-2.6.x/block/ll_rw_blk.c:476-523 | and as long as it has not ended one of these steps is possible |
| BarrierEnds.StepWorks | linux-2.6.x/block/ll_rw_blk.c:357-523 | the same for a single step |
| BarrierQueue.RequestQueue.AddSorted | linux-2.6.x/block/elevator.c:549-565 | a sorted insertion takes the model's submission step and keeps the invariant |
| BarrierQueue.RequestQueue.AddBack | linux-2.6.x/block/elevator.c:611-645 | a back insertion, of a barrier or not, takes the model's step, flipping the colour after a barrier, and keeps the invariant |
| BarrierQueue.RequestQueue.MoveIn | linux-2.6.x/block/elevator.c:365-396 | a dispatch by the scheduler in front of no fence keeps the invariant |
| BarrierQueue.RequestQueue.SetOrdered | linux-2.6.x/block/ll_rw_blk.c:281-306 | a change of the ordered mode keeps the invariant |
| BarrierQueue.RequestQueue.TakeOff | linux-2.6.x/block/elevator.c:746-760 | taking a started request off the queue is the model's step and keeps the invariant |
| BarrierQueue.RequestQueue.CompleteSequence | linux-2.6.x/block/ll_rw_blk.c:357-381 | blk_ordered_complete_seq: records the first error and the bit, and ends the barrier when all bits are set |
| BarrierQueue.RequestQueue.QueueFlush | linux-2.6.x/block/ll_rw_blk.c:401-423 | a flush is put at the head, or its bit is set when the mode has none |
| BarrierQueue.RequestQueue.Start | linux-2.6.x/block/ll_rw_blk.c:425-474 | start_ordered: the barrier set aside, the sequence stacked last step first, the first step returned exactly when idle |
| BarrierQueue.RequestQueue.DoOrdered | linux-2.6.x/block/ll_rw_blk.c:476-523 | blk_do_ordered: refuses, starts, holds back or offers the head as the model does, and keeps the invariant |
| BarrierQueue.RequestQueue.NextRequest | linux-2.6.x/block/elevator.c:661-742 | elv_next_request: a sequence of model steps that ends with the offered head marked as started, the invariant kept |
| BarrierQueue.RequestQueue.Walk | linux-2.6.x/block/elevator.c:580-588 | the walk stops at the first entry that is not earlier in the sequence |
| BarrierQueue.RequestQueue.GiveBack | linux-2.6.x/block/elevator.c:481-498 | elv_requeue_request is the model's step; the invariant is kept if the request meets the condition on colours |
| BarrierQueue.RequestQueue.CheckDrain | linux-2.6.x/block/elevator.c:826-852 | the drain is recorded exactly when nothing is in flight and the head is past it |
| BarrierQueue.RequestQueue.EndRequest | linux-2.6.x/block/ll_rw_blk.c:383-399 | a completion records the step, ends the sequence when it was the last, and keeps the invariant |
| AesMachine.MachineRoundTrip | linux-2.6.x/crypto/aes.c:251-416 | on 32-bit words, with the tables of GeneratedReads: for every key of 16, 24 or 32 bytes and every block, decryption gives back the words that were encrypted |
| AesMachine.RoundTrip | linux-2.6.x/crypto/aes.c:251-416 | the same for any words obeying the laws of words, and encryption computes Cipher of FIPS 197 with the expanded key |
| AesMachine.MachineLaws | linux-2.6.x/crypto/aes.c:70-74 | xor, ror32, rol32, byte, star_x and word assembly on 32-bit words act on columns as FIPS 197 needs, and a word is known by its column |
| AesMachine.GeneratedReads | linux-2.6.x/crypto/aes.c:168-203 | the words gen_tabs stores, with their rotated copies, are the tables the four kinds of round need |
| AesMachine.MachineTables | linux-2.6.x/crypto/aes.c:135-204 | on 32-bit words there are tables as gen_tabs fills them in and the round trip asks for |
| AesMachine.TablesExist | linux-2.6.x/crypto/aes.c:135-204 | the same for any words obeying the laws of words |
| AesMachine.ImixWordIs | linux-2.6.x/crypto/aes.c:206-216 | imix_col on a word is InvMixColumns on its column |
| AesMachine.FullRoundIs | linux-2.6.x/crypto/aes.c:309-314 | f_nround on four words is a round of Cipher |
| AesMachine.InvFullRoundIs | linux-2.6.x/crypto/aes.c:364-369 | i_nround on four words is a round of the equivalent inverse cipher |
| AesMachine.EncryptWordsIs | linux-2.6.x/crypto/aes.c:322-360 | aes_encrypt on words computes Cipher (section 5.1 of FIPS 197) |
| AesMachine.DecryptWordsIs | linux-2.6.x/crypto/aes.c:377-416 | aes_decrypt on words computes the equivalent inverse cipher (section 5.3.5 of FIPS 197) |
| AesMachine.ScheduleWordIs | linux-2.6.x/crypto/aes.c:220-293 | the words of E_KEY are the key expansion of section 5.2 of FIPS 197 |
| Aes.RoundTrip | linux-2.6.x/crypto/aes.c:251-416 | EqInvCipher with the keys of aes_set_key undoes Cipher, for every key of 16, 24 or 32 bytes and every block |
| Aes.AesCtx.SetKey | linux-2.6.x/crypto/aes.c:251-305 | key lengths that are no multiple of 8 are refused with nothing changed; otherwise the context holds the expanded key and its decryption form |
| Aes.AesCtx.Encrypt | linux-2.6.x/crypto/aes.c:322-360 | the output block is Cipher of the input block, also in place |
| Aes.AesCtx.Decrypt | linux-2.6.x/crypto/aes.c:377-416 | the output block is the equivalent inverse cipher of the input block |
| Aes.GenTabs | linux-2.6.x/crypto/aes.c:135-204 | after gen_tabs all five tables hold what the rounds and the key schedule need |
| Aes.FillRcon | linux-2.6.x/crypto/aes.c:154-158 | rco_tab holds the powers of x |
| Aes.LsBox | linux-2.6.x/crypto/aes.c:117-121 | ls_box substitutes each byte of a word |
| Aes.Loop4 | linux-2.6.x/crypto/aes.c:220-226 | loop4 extends the schedule by the next four words of the key expansion |
| Aes.Loop6 | linux-2.6.x/crypto/aes.c:228-236 | loop6 extends the schedule by the next six words |
| Aes.Loop8 | linux-2.6.x/crypto/aes.c:238-249 | loop8 extends the schedule by the next eight words, with the extra substitution |
| Aes.Expand | linux-2.6.x/crypto/aes.c:266-293 | E_KEY holds the expanded key, for all three lengths |
| Aes.MakeDecryptionKeys | linux-2.6.x/crypto/aes.c:295-302 | D_KEY holds InvMixColumns of the round keys, but for the first |
| Aes.EncryptRounds | linux-2.6.x/crypto/aes.c:335-354 | the rounds of aes_encrypt, for all three key lengths |
| Aes.DecryptRounds | linux-2.6.x/crypto/aes.c:391-410 | the rounds of aes_decrypt, keys read downwards |
| AesTables.FillPowers | linux-2.6.x/crypto/aes.c:145-152 | pow_tab and log_tab are the powers of 3 and the logarithms |
| AesTables.FillSboxes | linux-2.6.x/crypto/aes.c:160-166 | sbx_tab is the S-box of FIPS 197 and isb_tab its inverse |
| AesTables.FillForward | linux-2.6.x/crypto/aes.c:168-184 | ft_tab and fl_tab hold the mixed and the plain S-box entries with their rotations |
| AesTables.FillInverse | linux-2.6.x/crypto/aes.c:186-202 | it_tab and il_tab hold the inverse entries with their rotations |
| AesTables.FMultIs | linux-2.6.x/crypto/aes.c:95-101 | f_mult, with its eight-bit carry, is multiplication in the field |
| AesTables.FFMultIs | linux-2.6.x/crypto/aes.c:103 | ff_mult is multiplication in the field, zero included |
| AesRounds.ImixIs | linux-2.6.x/crypto/aes.c:206-216 | imix_col on a column is InvMixColumns |
| AesTableRounds.FNround | linux-2.6.x/crypto/aes.c:309-314 | f_nround computes the round its table stands for, and moves the key pointer on |
| AesTableRounds.INround | linux-2.6.x/crypto/aes.c:364-369 | i_nround computes the inverse round, and moves the key pointer back |
| AesSpec.AffineBits | linux-2.6.x/crypto/aes.c:162-163 | the rotations of gen_tabs are the bit equation of section 5.1.1 of FIPS 197 |
| AesSpec.InverseIs | linux-2.6.x/crypto/aes.c:161 | the table look-up is the multiplicative inverse of the field |
| AesSpec.EqInvCipherIs | linux-2.6.x/crypto/aes.c:377-416 | the equivalent inverse cipher is the inverse cipher, for keys passed through InvMixColumns |
| AesSpec.InvCipherUndoes | linux-2.6.x/crypto/aes.c:322-416 | the inverse cipher undoes the cipher, for any round keys |
| AesCbc.CbcRoundTrip | linux-2.6.x/crypto/cbc.c:42-181 | AES in CBC mode: deciphering a message undoes enciphering it, for every key and chaining value |
| TkProgram.CompilationPreserves | config/scripts/tkcond.c:423-550 | under every assignment a script can meet, the chain of a statement is true exactly when all enclosing branches are taken and its dependencies hold; a statement is dropped only if its branches are never all taken |
| TkProgram.UnmixedIsSafe | config/scripts/tkcond.c:289-416 | scripts whose conditions do not mix -a with -o meet the condition of CompilationPreserves, whatever the architecture and the definitions |
| TkProgram.CompilationExact | config/scripts/tkcond.c:423-550 | for every well-formed script, mixed conditions and undefined variables included: the chain of a statement is true exactly when its dependencies hold and each enclosing if holds as compiled, that is, what elimination leaves is true, or in its else some stretch of comparisons joined by -o has none that holds |
| TkProgram.HoldsExact | config/scripts/tkcond.c:454-487 | an if or else as compiled has the truth of its branch if and only if its condition is false, or elimination is safe and it is not an else with such a failing stretch |
| TkProgram.ElseExact | config/scripts/tkcond.c:460-487 | with elses of mixed conditions allowed, a statement whose branches are taken keeps a true chain; the chain is right if and only if a dependency or an enclosing condition as compiled fails, or no enclosing else belongs to a true condition |
| TkProgram.ElseSound | config/scripts/tkcond.c:460-487 | for a condition on different defined variables, the statement in its else keeps its meaning under every assignment if and only if the condition does not mix -a with -o |
| TkProgram.MixedElseFails | config/scripts/tkcond.c:460-487 | a script with a mixed condition whose else branch has a true chain although it is not taken, under every assignment it can meet |
| TkProgram.UndefinedFails | config/scripts/tkcond.c:386-402 | a script in which an undefined variable before -a decides a condition, so that a statement whose branch is taken is dropped or has a false chain |
| TkProgram.NeverGivesUp | config/scripts/tkcond.c:423-550 | a well-formed script meets no error exit |
| TkProgram.CompiledTruth | config/scripts/tkcond.c:454-487 | without mixing, a condition after safe elimination, removal of ! and inversion has the truth of its branch |
| TkProgram.ChainOfEntries | config/scripts/tkcond.c:128-280 | the joined chain is false for good, or true exactly when all conditions on the stack and the dependencies are |
| TkProgram.Tracks | config/scripts/tkcond.c:423-550 | before each line the condition stack holds the compiled conditions of the open ifs |
| TkMeaning.ElimExact | config/scripts/tkcond.c:289-416 | eliminate_other_arch keeps the truth of a condition if and only if no undefined variable decides an -a that an -o follows, or the condition is false anyway |
| TkMeaning.EliminatedTokens | config/scripts/tkcond.c:289-416 | on the tokens of a condition the function does what the model on conditions does, and never exits |
| TkMeaning.PureIsSafe | config/scripts/tkcond.c:289-416 | conditions that do not mix -a with -o are always safe to eliminate |
| TkMeaning.UnbangTruth | config/scripts/tkcond.c:91-120 | removing ! keeps the truth of a condition |
| TkMeaning.InvertExact | config/scripts/tkcond.c:460-487 | a condition or its token-wise inversion is always true, and inversion is negation if and only if the condition is not at once true and in possession of a stretch joined by -o of which nothing holds |
| TkMeaning.InvertMeans | config/scripts/tkcond.c:460-487 | the inversion is true exactly when such a stretch fails |
| TkMeaning.InvertSound | config/scripts/tkcond.c:460-487 | for comparisons of different defined variables inversion is negation under every assignment if and only if nothing is mixed |
| TkMeaning.UndefinedDecides | config/scripts/tkcond.c:386-402 | elimination takes a true condition for false when an undefined variable stands before its -a |
| TkMeaning.InvertTruth | config/scripts/tkcond.c:460-487 | token-wise inversion of an unmixed condition is its negation |
| TkDuplicates.DedupGroups | config/scripts/tkcond.c:214-276 | duplicate removal leaves the chain of the distinct groups |
| TkDuplicates.DistinctTrue | config/scripts/tkcond.c:214-276 | which is true exactly when the whole chain was |
| Conditions.GroupsValue | config/scripts/tkcond.c:151-212 | a chain of groups in parentheses is true exactly when every group is |
| Conditions.EvalTokens | config/scripts/tkparse.c:205-323 | the tokens of a condition have the condition's truth as their value |
| TkCond.RemoveBang | config/scripts/tkcond.c:91-120 | remove_bang: each ! two tokens before a comparison goes and flips it |
| TkCond.EliminateOtherArch | config/scripts/tkcond.c:289-416 | decides leading comparisons with ARCH and with undefined variables as the specification says |
| TkCond.FindOr | config/scripts/tkcond.c:353-369 | the search for an -o outside parentheses |
| TkCond.InvertChain | config/scripts/tkcond.c:460-487 | the inversion loop of token_else |
| TkCond.SearchDuplicate | config/scripts/tkcond.c:235-272 | the inner loop of duplicate removal |
| TkCond.RemoveDuplicates | config/scripts/tkcond.c:214-276 | both loops of duplicate removal |
| TkCond.JoinConditionStack | config/scripts/tkcond.c:128-280 | the chain joined from a condition stack |
| TkCond.MarkVariables | config/scripts/tkcond.c:39-70 | exactly the variables that some statement defines are marked |
| TkCond.ChainFor | config/scripts/tkcond.c:493-544 | the chain of a statement, or its removal, with the stack left as it was |
| TkCond.FixConditionals | config/scripts/tkcond.c:423-550 | the remaining statements with their chains, or the error exit, as stepping through the script gives them |
| Deadline.AlwaysCoherent | linux-2.6.x/block/deadline-iosched.c:58-336 | in every run of adds, merges, alias evictions and dispatches, tree and FIFO hold the same requests per direction, at most one next request is set and it is in its tree, and nr_sorted counts what is queued |
| Deadline.StepKeeps | linux-2.6.x/block/deadline-iosched.c:58-336 | each operation keeps that |
| Deadline.AddToTreeIs | linux-2.6.x/block/deadline-iosched.c:58-70 | sectors are unique, so the alias loop moves at most one request |
| Deadline.DispatchTakesOne | linux-2.6.x/block/deadline-iosched.c:239-336 | nr_sorted is zero exactly when a call finds nothing, and otherwise a call moves exactly one queued request |
| Deadline.DrainEmpties | linux-2.6.x/block/elevator.c:500-512 | draining ends with nr_sorted 0, every queued request in the dispatch queue once, behind what was there |
| DeadlineFair.AlwaysInOrder | linux-2.6.x/block/deadline-iosched.c:91-180 | with monotone time and fixed settings both FIFOs stay in order of expiry in every run, request merges included |
| DeadlineFair.HeadTellsAll | linux-2.6.x/block/deadline-iosched.c:222-233 | an unexpired head means that no request of the direction has expired |
| DeadlineFair.WritesWait | linux-2.6.x/block/deadline-iosched.c:239-336 | whatever is added or merged in between, no more dispatch calls pass a waiting write over than the rest of the batch and the remaining whole batches |
| DeadlineFair.BudgetBound | linux-2.6.x/block/deadline-iosched.c:239-336 | that is at most fifo_batch + writes_starved * max(fifo_batch, 1), and one less once a batch has begun |
| DeadlineFair.WritesWaitLess | linux-2.6.x/block/deadline-iosched.c:239-336 | the tighter bound for every run that starts with a dispatch call, unless a batch of reads that no call has begun goes on |
| DeadlineSharp.OneTooMany | linux-2.6.x/block/deadline-iosched.c:58-70 | in that case it fails for every setting with fifo_batch at least 1: a run from the start has one starving call more than the tighter bound |
| DeadlineSched.DeadlineData.constructor | linux-2.6.x/block/deadline-iosched.c:359-378 | deadline_init_queue: the empty state |
| DeadlineSched.DeadlineData.RbNext | linux-2.6.x/block/deadline-iosched.c:72-86 | the successor in the sorted tree |
| DeadlineSched.DeadlineData.RbAdd | linux-2.6.x/block/elevator.c:305-326 | inserts in sector order, or returns the request already at that sector |
| DeadlineSched.DeadlineData.AddRqRb | linux-2.6.x/block/deadline-iosched.c:58-70 | deadline_add_rq_rb, with the aliases moved to the dispatch queue |
| DeadlineSched.DeadlineData.MoveRequest | linux-2.6.x/block/deadline-iosched.c:197-216 | deadline_move_request: next request, last sector, tree, FIFO, queue and count |
| DeadlineSched.DeadlineData.AddRequest | linux-2.6.x/block/deadline-iosched.c:91-104 | deadline_add_request keeps the scheduler coherent |
| DeadlineSched.DeadlineData.MergedFront | linux-2.6.x/block/deadline-iosched.c:147-159 | a front merge repositions the request and keeps the scheduler coherent |
| DeadlineSched.DeadlineData.MergedRequests | linux-2.6.x/block/deadline-iosched.c:161-180 | merging two requests takes the earlier time and place and keeps the scheduler coherent |
| DeadlineSched.DeadlineData.ChooseRequest | linux-2.6.x/block/deadline-iosched.c:239-328 | the choice made by deadline_dispatch_requests, with batch and starvation counts |
| DeadlineSched.DeadlineData.DispatchRequests | linux-2.6.x/block/deadline-iosched.c:239-336 | a call moves the chosen request, or returns 0 exactly when nothing is queued |
| DeadlineSched.DeadlineData.DrainElevator | linux-2.6.x/block/elevator.c:500-512 | the loop ends with nothing queued |
| Merging.FindExact | linux-2.6.x/block/elevator.c:279-299 | elv_rqhash_find succeeds exactly when a mergeable scheduled request ends at the offset, and dropping closed entries on the way keeps the hash in order |
| Merging.InsertKeeps | linux-2.6.x/block/elevator.c:549-565 | hashing a new request keeps the hash in order |
| Merging.DispatchedKeeps | linux-2.6.x/block/elevator.c:365-417 | a dispatched request is no longer hashed, and the hash stays in order |
| Merging.BackKeeps | linux-2.6.x/block/elevator.c:453-464 | a back merge re-hashes and keeps the hash in order |
| Merging.PrependKeeps | linux-2.6.x/block/elevator.c:453-464 | a front merge moves no end, so it needs no re-hashing |
| Merging.RehashKeeps | linux-2.6.x/block/elevator.c:273-277 | re-hashing puts a request whose end has moved where it belongs |
| Merging.JoinKeeps | linux-2.6.x/block/elevator.c:466-479 | a merge of two requests keeps the hash in order |
| BioConservation.AlwaysKept | linux-2.6.x/block/ll_rw_blk.c:2725-2939 | in every run: the hash is exact, each request's bios tile its sectors in order without gap or overlap, no merged request exceeds max_sectors, and every bio is waiting, finished or in exactly one request |
| BioConservation.StepKeeps | linux-2.6.x/block/ll_rw_blk.c:2832-2939 | each submission, allocation, dispatch and completion keeps that |
| BioConservation.ExactlyOnce | linux-2.6.x/block/ll_rw_blk.c:2832-2939 | a bio held by a request is in it at one place only, and in no other request |
| BioConservation.StartsKept | linux-2.6.x/block/elevator.c:202-237 | the empty queue is in order |
| BioConservation.AppendOk | linux-2.6.x/block/ll_rw_blk.c:1415-1451 | a bio appended within the limit leaves the request tiled, uniform and within max_sectors |
| BioConservation.PrependOk | linux-2.6.x/block/ll_rw_blk.c:1453-1490 | the same for a bio in front |
| BioConservation.JoinOk | linux-2.6.x/block/ll_rw_blk.c:1492-1538 | the same for two adjacent requests |
| BioConservation.ElvMergeFits | linux-2.6.x/block/elevator.c:421-451 | elv_merge only proposes merges at which bio and request are adjacent and alike |
| BioConservation.ElvMergeComplete | linux-2.6.x/block/elevator.c:421-451 | if a compatible request ends where the bio starts, elv_merge proposes a merge |
| MergeDeadline.SuppliedFits | linux-2.6.x/block/deadline-iosched.c:117-145 | the look-up of deadline_merge, its neighbours in the tree and the request a front merge displaces are what merging takes from the scheduler |
| MergeDeadline.InsertAgrees | linux-2.6.x/block/elevator.c:549-565 | elevator and deadline scheduler agree on the queued requests after an insertion that may dispatch an alias |
| MergeDeadline.AppendAgrees | linux-2.6.x/block/elevator.c:453-464 | and after a back merge |
| MergeDeadline.PrependAgrees | linux-2.6.x/block/deadline-iosched.c:147-159 | and after a front merge that may displace a request |
| MergeDeadline.JoinAgrees | linux-2.6.x/block/deadline-iosched.c:161-180 | and after a merge of two requests |
| MergeDeadline.DispatchAgrees | linux-2.6.x/block/deadline-iosched.c:185-216 | and after a dispatch |
| ElevatorRun.AlwaysKept | linux-2.6.x/block/ll_rw_blk.c:2832-2939 | in every run of submissions, allocations, dispatch calls and completions over the deadline scheduler: the hash is exact, every bio is where it belongs, tree and FIFO are coherent, and elevator and scheduler agree on what is queued; all choices are the ones the scheduler makes |
| ElevatorRun.StepKeeps | linux-2.6.x/block/ll_rw_blk.c:2832-2939 | each operation keeps that |
| ElevatorRun.StartsKept | linux-2.6.x/block/elevator.c:202-237 | the empty queue over the empty scheduler meets it |
| ElevatorRun.JoinFrontAgrees | linux-2.6.x/block/ll_rw_blk.c:2788-2796 | a front merge that is joined with the preceding request at once, before the tree is told of the new sector, leaves the scheduler coherent and both in agreement |
| ElevatorRun.JoinFrontIs | linux-2.6.x/block/ll_rw_blk.c:2788-2796 | it amounts to joining first and growing at the end, but for what the removed request remembers |
| MergeQueue.MergeableQueue.RqHashAdd | linux-2.6.x/block/elevator.c:265-271 | links the request into the bucket of its end |
| MergeQueue.MergeableQueue.RqHashDel | linux-2.6.x/block/elevator.c:259-263 | unlinks it if it is linked |
| MergeQueue.MergeableQueue.RqHashReposition | linux-2.6.x/block/elevator.c:273-277 | unlinks and links it again |
| MergeQueue.MergeableQueue.RqHashFind | linux-2.6.x/block/elevator.c:279-299 | the walk over a bucket with lazy removal gives what the specification says |
| MergeQueue.MergeableQueue.InsertSorted | linux-2.6.x/block/elevator.c:549-565 | keeps the hash in order and fills the one-hit cache |
| MergeQueue.MergeableQueue.LeaveScheduler | linux-2.6.x/block/elevator.c:365-417 | a dispatched request leaves hash and cache |
| MergeQueue.MergeableQueue.FindMerge | linux-2.6.x/block/elevator.c:421-451 | elv_merge: the cache, then the hash, then the scheduler's candidate; only merges that fit |
| MergeQueue.MergeableQueue.AttemptMerge | linux-2.6.x/block/ll_rw_blk.c:2725-2776 | attempt_merge joins two requests exactly when its checks allow it |
| MergeQueue.MergeableQueue.MakeRequest | linux-2.6.x/block/ll_rw_blk.c:2832-2939 | the merging part of __make_request |
| Completion.Additive | linux-2.6.x/block/ll_rw_blk.c:3203-3311 | completing a and then b bytes leaves what completing a + b leaves: vectors and sizes always, sectors if and only if whole sectors add up where both end in one bio, the very same chain if and only if besides no cut vector was finished |
| Completion.RemovesFirst | linux-2.6.x/block/ll_rw_blk.c:3203-3311 | completing n bytes removes exactly the first n bytes and leaves every bio's size the sum of its remaining vectors |
| Completion.DoneExactly | linux-2.6.x/block/ll_rw_blk.c:3203-3311 | the request is finished exactly when n covers all that is left |
| Completion.WholeSectorsChain | linux-2.6.x/block/ll_rw_blk.c:3203-3311 | for bios and a first part in whole sectors the condition on sectors holds |
| Completion.DoneVectorsDiffer | linux-2.6.x/block/ll_rw_blk.c:3300-3306 | vectors already done can differ between the two ways |
| Completion.FieldsKeep | linux-2.6.x/block/ll_rw_blk.c:3174-3201 | for whole sectors the request's sector fields stay in step with its bios |
| Completion.FieldsAdditive | linux-2.6.x/block/ll_rw_blk.c:3174-3201 | for whole sectors they add up if and only if the second part does not finish the request, or is not needed, or the first is empty and finds the fields settled |
| Completion.FieldsDiffer | linux-2.6.x/block/ll_rw_blk.c:3291-3308 | an input: one bio of two sectors completed in halves leaves other sector fields than completed at once |
| Completion.WalkEnds | linux-2.6.x/block/ll_rw_blk.c:3239-3306 | writing down where the loop stops completes exactly the first n bytes |
| Completion.Request.EndOne | linux-2.6.x/block/ll_rw_blk.c:3240-3288 | one turn of the loop, its bi_idx error exit and bv_len bug check never taken |
| Completion.Request.EndBios | linux-2.6.x/block/ll_rw_blk.c:3239-3289 | the loop over the bio chain stops where the walk of the specification does |
| Completion.Request.EndThatRequestFirst | linux-2.6.x/block/ll_rw_blk.c:3203-3311 | the new chain and fields, and 0 exactly when the request is finished |
| RequestPool.AlwaysInv | linux-2.6.x/block/ll_rw_blk.c:2029-2164 | under every interleaving of allocations, failures, frees, nr_requests changes and scheduler switches: full exactly when count >= nr_requests, congestion flags between their thresholds, counts equal the outstanding requests, elvpriv those with scheduler data |
| RequestPool.NextKeeps | linux-2.6.x/block/ll_rw_blk.c:2029-2164 | each step keeps that |
| RequestPool.AlwaysBounded | linux-2.6.x/block/ll_rw_blk.c:2107-2115 | as long as nr_requests is not changed, count never exceeds 3 * nr_requests / 2 |
| RequestPool.AttachClean | linux-2.6.x/block/elevator.c:980-1050 | when elevator_attach runs no live request carries data of the old scheduler |
| RequestPool.EntersWhileSwitching | linux-2.6.x/block/elevator.c:611-645 | during a switch a request enters a scheduler if and only if it is inserted sorted and carries scheduler data; then it was allocated before, the new scheduler is not attached, and it enters the old one |
| RequestPool.NoneEntersAttached | linux-2.6.x/block/elevator.c:980-1050 | from attachment to the end of the switch no request is in a scheduler or enters one |
| RequestPool.NewcomersPlain | linux-2.6.x/block/ll_rw_blk.c:2115-2120 | requests allocated during a switch carry no scheduler data |
| RequestPool.VeteranEnters | linux-2.6.x/block/elevator.c:611-645 | a request allocated before the switch does enter the old scheduler during it |
| RequestList.RequestQueue.constructor | linux-2.6.x/block/ll_rw_blk.c:1808-1825 | an empty pool with its thresholds meets the invariant |
| RequestList.RequestQueue.CongestionThreshold | linux-2.6.x/block/ll_rw_blk.c:95-108 | the on and off thresholds for a value of nr_requests |
| RequestList.RequestQueue.GetRequest | linux-2.6.x/block/ll_rw_blk.c:2068-2147 | get_request up to the allocation: refused, or counted and flagged, the invariant kept |
| RequestList.RequestQueue.AllocationFailed | linux-2.6.x/block/ll_rw_blk.c:2125-2148 | a failed allocation gives the count back and marks starvation |
| RequestList.RequestQueue.FreedRequest | linux-2.6.x/block/ll_rw_blk.c:2048-2060 | freed_request takes the request off the counts and relaxes the flags |
| RequestList.RequestQueue.RequestsStore | linux-2.6.x/block/ll_rw_blk.c:3700-3738 | a new nr_requests recomputes thresholds and flags, the invariant kept |
| RequestList.RequestQueue.AddRequest | linux-2.6.x/block/elevator.c:611-645 | an insertion goes to the scheduler only with scheduler data |
| RequestList.RequestQueue.SwitchStart | linux-2.6.x/block/elevator.c:998-1005 | the first part of elevator_switch drains the old scheduler |
| RequestList.RequestQueue.TryAttach | linux-2.6.x/block/elevator.c:1007-1026 | a turn of the waiting loop attaches the new scheduler exactly when elvpriv is zero |
| Anticipatory.NeverMixed | linux-2.6.x/block/as-iosched.c:930-1137 | in every run whose alias moves have the direction in flight and whose forced dispatches find nothing asynchronous: all requests in flight have the batch's direction, or the other one while a change is pending, nr_dispatched counts them, and a pending change has something in flight |
| Anticipatory.DispatchKeeps | linux-2.6.x/block/as-iosched.c:981-1137 | a dispatch call keeps that |
| Anticipatory.CompletedKeeps | linux-2.6.x/block/as-iosched.c:799-848 | a completion keeps that, and the last one ends a pending change |
| Anticipatory.ChangeEnds | linux-2.6.x/block/as-iosched.c:799-848 | with nothing in flight no change is pending |
| Anticipatory.AliasExact | linux-2.6.x/block/as-iosched.c:250-258 | moving an alias mixes directions at once if and only if something of the other direction is in flight, and keeps the invariant if and only if it has the direction in flight |
| Anticipatory.AliasNeeded | linux-2.6.x/block/as-iosched.c:250-258 | any alias move of the other direction mixes directions, at once or in a continuation of the run |
| Anticipatory.ForceNeeded | linux-2.6.x/block/as-iosched.c:988-1015 | so does any forced dispatch that does not meet its condition |
| Anticipatory.AliasMixes | linux-2.6.x/block/as-iosched.c:250-258 | a run from the empty scheduler: a read is dispatched, a write is added, an alias moves it, and both are in flight |
| Anticipatory.AlwaysTimed | linux-2.6.x/block/as-iosched.c:1069-1117 | in every run a new batch is one of reads whose change is over, so that the warnings on new_batch never fire |
| AnticipatorySched.AsData.MoveToDispatch | linux-2.6.x/block/as-iosched.c:930-974 | as_move_to_dispatch |
| AnticipatorySched.AsData.SelectDirection | linux-2.6.x/block/as-iosched.c:1054-1104 | the choice of a direction, which may change the batch |
| AnticipatorySched.AsData.DispatchRequest | linux-2.6.x/block/as-iosched.c:981-1137 | as_dispatch_request without force moves at most one request and keeps the invariant |
| AnticipatorySched.AsData.CompletedRequest | linux-2.6.x/block/as-iosched.c:799-848 | as_completed_request keeps the invariant |
| AnticipatorySched.AsData.AddRqRb | linux-2.6.x/block/as-iosched.c:250-258 | the loop moves each alias in turn |
| AnticipatorySched.AsData.AddRequest | linux-2.6.x/block/as-iosched.c:1142-1168 | a new request goes behind the moves of its aliases, and the invariant is kept if these have the direction in flight |
| AnticipatorySched.AsData.ForceDispatch | linux-2.6.x/block/as-iosched.c:988-1015 | the forced call moves all that is queued, and keeps the invariant if it meets the condition |
| CfqRotation.ServedInTime | linux-2.6.x/block/cfq-iosched.c:647-692 | for any number n of levels, a level that stays non-empty is chosen within n(n+1)/2 calls, whatever happens to the other lists |
| CfqRotation.ChooseIs | linux-2.6.x/block/cfq-iosched.c:647-692 | a call returns -1 exactly when all lists are empty, otherwise a non-empty level, and keeps 0 <= cur_prio <= cur_end_prio < n |
| CfqRotation.DistanceBound | linux-2.6.x/block/cfq-iosched.c:638-646 | no level is further away than one round of the rotation |
| CfqRotation.LastLevelWaits | linux-2.6.x/block/cfq-iosched.c:638-646 | the bound cannot be lowered: the last level is exactly that far away at the start |
| CfqRotation.AllBusyWait | linux-2.6.x/block/cfq-iosched.c:647-692 | with all levels non-empty it does wait that long |
| CfqRotation.CfqData.FindLevel | linux-2.6.x/block/cfq-iosched.c:651-672 | the scan over the levels, with its one wrap-around |
| CfqRotation.CfqData.GetNextPrioLevel | linux-2.6.x/block/cfq-iosched.c:647-692 | the level, the new rotation state and the spliced lists |
| Cbc.Encrypt | linux-2.6.x/crypto/cbc.c:94-119 | for any split of a message into steps, each in place or not, the output is flat CBC (section 6.2 of NIST SP 800-38A) and the carried block is the last ciphertext block |
| Cbc.Decrypt | linux-2.6.x/crypto/cbc.c:183-208 | the same for decryption |
| Cbc.RoundTrip | linux-2.6.x/crypto/cbc.c:42-181 | flat CBC decryption undoes encryption for any invertible block function |
| Cbc.EncSplit | linux-2.6.x/crypto/cbc.c:94-119 | enciphering in two parts with the carried block is enciphering the whole |
| Cbc.DecSplit | linux-2.6.x/crypto/cbc.c:183-208 | the same for deciphering |
| Cbc.EncryptSegment | linux-2.6.x/crypto/cbc.c:42-66 | flat CBC from one buffer to another |
| Cbc.EncryptInplace | linux-2.6.x/crypto/cbc.c:68-92 | flat CBC in place |
| Cbc.DecryptSegment | linux-2.6.x/crypto/cbc.c:121-147 | flat CBC decryption from one buffer to another |
| Cbc.DecryptInplace | linux-2.6.x/crypto/cbc.c:149-181 | the backward in-place walk gives flat CBC decryption |
| Cbc.ProcessEncrypt | linux-2.6.x/crypto/cipher.c:203-227 | the older form gives flat CBC, also in place |
| Cbc.ProcessDecrypt | linux-2.6.x/crypto/cipher.c:229-262 | the older forward form through a scratch block gives the same as the backward one |
| Sha1.HashPieces | linux-2.6.x/crypto/sha1.c:37-108 | for every split of a message into updates the digest is the transform folded over the padded message (section 5.1.1 of FIPS 180-2) |
| Sha1.Sha1Ctx.Update | linux-2.6.x/crypto/sha1.c:49-80 | the context has taken in the old message and the data |
| Sha1.Sha1Ctx.Final | linux-2.6.x/crypto/sha1.c:84-108 | the padding and length field are fed, and the state is the digest |
| Md5.HashPieces | linux-2.6.x/crypto/md5.c:150-215 | the same for MD5 (sections 3.1 and 3.2 of RFC 1321) |
| Md5.Md5Ctx.Update | linux-2.6.x/crypto/md5.c:161-189 | the context has taken in the old message and the data |
| Md5.Md5Ctx.Final | linux-2.6.x/crypto/md5.c:191-215 | the padding in one or two blocks, and the state is the digest |
| Md5.LengthWords | linux-2.6.x/crypto/md5.c:207-208 | the two last words are the number of bits modulo 2 to the 64, least significant byte first |
| Digest.FoldOn | linux-2.6.x/crypto/sha1.c:49-80 | hashing on from what is left over is hashing the whole |
| Digest.PaddedFits | linux-2.6.x/crypto/sha1.c:84-108 | the padded message is a whole number of blocks |
| Digest.ShiftedCount | linux-2.6.x/crypto/sha1.c:92 | a 64-bit count shifted left by three is the number of bits modulo 2 to the 64 |
| Hmac.StreamAndDigest | linux-2.6.x/crypto/hmac.c:44-171 | streaming in any pieces and hmac_digest give the same, and both are the formula of section 2 of RFC 2104, for any key length |
| Hmac.HmacCtx.SetKey | linux-2.6.x/crypto/hmac.c:44-84 | the pads hold the key, hashed first if it is longer than a block |
| Hmac.HmacCtx.Init | linux-2.6.x/crypto/hmac.c:86-106 | the hash underneath has been fed the inner pad |
| Hmac.HmacCtx.Update | linux-2.6.x/crypto/hmac.c:108-118 | and the data |
| Hmac.HmacCtx.Final | linux-2.6.x/crypto/hmac.c:120-141 | the result is HMAC of what was fed, or an error |
| Hmac.HmacCtx.DigestMessage | linux-2.6.x/crypto/hmac.c:143-171 | the same in one call |
| HmacSha1.Mac | linux-2.6.x/crypto/hmac.c:44-141 | the context of hmac.c with SHA-1 underneath, message in pieces: an error exactly when a call fails that is made, otherwise the formula of RFC 2104 with SHA-1 |
| HmacSha1.TwoPasses | linux-2.6.x/crypto/hmac.c:120-141 | which is what two passes of the buffered SHA-1 of sha1.c compute |
| DispatchSort.DispatchQueue.Sort | linux-2.6.x/block/elevator.c:365-396 | the request goes where it belongs: behind every fence, in one-way elevator order from the boundary |
| DispatchSort.DispatchQueue.AddTail | linux-2.6.x/block/elevator.c:405-417 | the request goes to the tail and its end becomes the boundary, for which, if the request is not empty, the run is in elevator order if and only if it is a fence, or what precedes it is in order and nothing there starts inside the request |
| DispatchSort.TailSorted | linux-2.6.x/block/elevator.c:405-417 | the same for any queue |
| DispatchSort.InsertKeeps | linux-2.6.x/block/elevator.c:365-396 | exactly one entry is added, the others keep their order, no fence is passed |
| DispatchSort.InsertSorted | linux-2.6.x/block/elevator.c:365-396 | a tail in elevator order stays in elevator order |
| DispatchSort.BelongsUnique | linux-2.6.x/block/elevator.c:365-396 | the place is unique |

## Left out

- Barrier: tag ordering, prep_rq_fn, and requests that are not file system requests.
- BarrierEnds.EndsInTime: counts steps, not time; a driver that gives requests back for ever can hold a barrier up.
- Completion.Additive: bar_rq, whose bios are rewound and completed a second time by ordered_bio_endio.
- Completion.FieldsAdditive: parts that are not whole sectors.
- DeadlineFair.WritesWait: the counters batching and starved are unbounded, and a negative writes_starved is left out.
- DeadlineFair.WritesWaitLess: in the excluded states the bound of BudgetBound, one call more, holds.
- BioConservation.AlwaysKept: the segment limits are a yes or no for each merge; their counting is not modelled.
- MergeDeadline: the front_merges setting being off.
- Anticipatory.NeverMixed: the sorted tree; aliases, anticipation and expiry are inputs.
- AnticipatorySched.AsData.ForceDispatch: moves requests in the order of the FIFO and not of the tree; only which are
  in flight is stated.
- CfqRotation: queues of processes, slices and the choice within a level.
- RequestPool.AlwaysBounded: nr_requests is an unbounded number, and sysfs parsing is left out.
- TkProgram.CompilationPreserves: no parentheses or doubled ! in if-conditions, and no more open ifs than cond_stack,
  which the source does not check, can hold; dependency lists come as groups without !.
- TkProgram.ElseSound: where comparisons share variables the condition is per assignment, that of ElseExact.
- Aes.AesCtx.SetKey: arrays of 32-bit words are arrays of four-byte columns here; AesMachine has the same computation
  on 32-bit words, as functions. Key lengths are 16 to 32, the range that setkey in `cipher.c` lets through.
- Aes.GenTabs: called once at start-up; SetKey, Encrypt and Decrypt take its result as a precondition.
- Cbc.Encrypt: scatterlists and page mapping; a step is a chunk of at least one block, and of a partial block only the
  size is kept.
- Sha1.Sha1Ctx.Update: `partial + len` is a 32-bit sum in sha1_update and wraps for lengths close to 2 to the 32;
  lengths are unbounded here.
- Sha1.Sha1Ctx.Final: the output byte order and the wiping of the context; the digest is the final state.
- Md5.Md5Ctx.Final: the same.
- Sha1.HashPieces: the transforms of SHA-1 and MD5 are parameters.
- Hmac.HmacCtx.constructor: the digest must fit into a block, which hmac_alloc does not check.
- The rest of the tree: drivers, file systems, other ciphers, tag queueing, sysfs, ioctl, tracing, CFQ and anticipatory
  trees, and the Tk output of the config tool.
