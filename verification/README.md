# Verified model of the secure-computation stack

The repository evaluates arithmetic circuits among nP parties and one dealer over a
broadcast bus with time slots.  This project models its five cores and proves what they
are for.

**Masked evaluation** (`Sharing`, `Dealing`, `Offline`, `Masks`, `Preprocess`, `CompareMasks`,
`Opening`, `Aggregation`, `Online`, `Masking`, `Levels`, `Run`, `MacCheck`, `OnlineMac`, `Ltz`,
`LtzProtocol`, `Plain`, `EndToEnd`, `OpeningWeights`, `OfflineCells`, `StreamUse`).  The dealer gives every wire a mask that is shared with
authentication tags; the parties work on masked wires and open products level by level.
Streams of random numbers are arbitrary functions with positions; the field is the integers
modulo any odd p with 2 < p < 2^64.  `EndToEnd.ProtocolCorrect` runs everything together, from
the keys to the outputs, less-than-zero tests included.  `EndToEnd.ReleasedIff` and
`EndToEnd.ComparisonsUnchecked` say what becomes of changes to opened values,
`OpeningWeights.SingleReleased` with which random factors each enters the check, and
`StreamUse.SharesInPlace` which positions of the streams each share is made of: none is used
twice (`StreamUse.CellsApart`).  `OfflineEvaluator` and
`OnlineEvaluator` are the programs themselves, as classes whose loops are tied to the functions
these theorems are about; `OfflinePhase` and `OnlinePhase` run them together, packed messages
included, and `OnlinePhase.EvaluateCircuit` is the whole protocol as one program.

**Circuits** (`Circuits`, `CircuitBuilder`, `Adder`, `Comparator`, `Generators`, `ProductTree`).  The
builder, level ordering, the plaintext evaluator, and four generators: the parallel-prefix adder
and its pruned form, the radix-4 prefix network, the product tree.  The generators' results are
stated for every assignment of the inputs.

**The bus** (`BusFrames`, `BusReceiver`, `BusDelivery`, `BusNack`, `BusSender`, `BusSystem`, `BusBudget`,
`BusRequests`, `BusTurns`, `BusRetries`, `BusCaveats`, `Witness`, `BusState`).  One stream is a state machine over sends, losses,
duplications, reorderings, requests and pump ticks; each region under a mutex is one step.  The
theorems are about every run.  The cipher is an involution keyed by the nonce, as counter mode
is (section 6.5 of NIST SP 800-38A).  `BusState` holds the classes whose methods are these steps.

**Time slots** (`Tdma`) and **gridlock netting** (`Netting`, `Gridlock`).  The program builds one round of
netting; `Netting.LargestFeasible` says what repeating it leads to.

`ZMod` is arithmetic modulo m, for the field and, with m = 2, for the Boolean ring;
`BoolPacking` is the byte form of Boolean vectors; `Counting` is about sizes of sets; `Wrappers`
holds the result types.

Where the obvious claim is false of the code, the model keeps the code and the project proves
when the claim holds:

- Online, a value counts as negative from (p-1)/2 on; the plaintext evaluator reads bit 63.
  The two evaluations agree if and only if no comparison reads a value in between
  (`PlainEvaluation.PlainIsEval`, example in `PlainEvaluation.MisreadExample`).
- The check takes no random factor for comparisons.  Whatever is added to their openings, over
  the field or inside them over bits, passes (`EndToEnd.UncheckedChangesPass`); if it is the field
  openings, every party returns the outputs of the circuit in which each comparison's result is
  off by minus twice the change (`EndToEnd.ComparisonsUnchecked`), and a single change that is
  not a multiple of p makes a released output wrong (`EndToEnd.WrongOutput`).
- The selecting scalar product of the prefix network begins with copies of wire 0.  They cancel
  because there are 64 of them for each lane (`Comparator.PaddingCancels`).
- Fragment numbers and counts are cut to 16 bits.  In every run the bytes handed over are the
  messages' if and only if each message handed over has at most 65535 fragments
  (`BusTurns.StreamIff`); a longer one, all of whose frames arrived, is handed over as something
  else (`BusTurns.AllArrived`): as nothing, as one fragment, or as one fragment for each slot
  (`BusTurns.EachMessage`, examples in `BusCaveats.LongExamples`).
- Every frame is to have a nonce of its own under the key its two ends share.  Within a message
  that holds if and only if it has at most 65536 fragments (`BusFrames.OwnNoncesIff`), and between
  messages of a stream as long as their numbers differ in 32 bits (`BusFrames.SameNonceIff`).
- An empty message is handed over in its turn if and only if its frame arrived exactly once
  before, or arrives when it is the next (`BusTurns.HandedOverIff`, `BusCaveats.TurnComes`).  Two early
  copies stop the stream (`BusCaveats.EarlyEmptyTwice`); the frame is then asked for again, and any
  further copy sets the stream going (`BusCaveats.StuckIsAsked`, `BusCaveats.ResentFrees`,
  `BusCaveats.Recovers`).
- A first fragment that the socket refuses is entered into the retention list again on every
  attempt.  A first fragment is gone if and only if 4096 entries follow one of its message
  (`BusRetries.GoneIff`), which retries of a single later message can bring about
  (`BusRetries.RetriesEvict`).
- In the check the cases of the switch run into each other, so a product enters with four
  random factors, a scalar product with three, a triple product with two (`MacCheck.Draws`).
- The netting round reads a balance's sign from the top bit of its word.  That is the sign of
  exactly the balances in [2^63 - p, 2^63) (`GridlockCircuit.MsbIsSign`); beyond, a bank counts as
  solvent if the bit is clear.  The program's product tree has no result over an empty list
  (its loop bound is the size minus one, unsigned), so `GridlockCircuit.SoDoGridLock.TreeMult`
  asks for a wire and the round for a bank and a payment.
- A send is booked as in order if it starts and ends in the same owned slot of the cycle
  (`TdmaGate.BookedIff`); for sends of less than a cycle this is the same slot on the clock
  (`TdmaGate.ShortSendIff`).
- Time slots exclude each other if and only if transmission time plus clock difference is
  within the guard (`TdmaGate.ExclusionIff`); a party that owns no slot is never held back
  (`TdmaGate.OpensIff`).

`dafny verify dfyconfig.toml` checks the whole project.

## Model

| member | source | states |
|---|---|---|
| EndToEnd.ProtocolCorrect | code/src/asterisk/online_evaluator_load_balanced.cpp:1017-1037 | every honest run, for all circuits of the supported gates, all inputs and all random streams: every party returns the outputs of plain evaluation |
| EndToEnd.ProtocolIsEvaluate | code/src/utils/circuit.h:375-528 | the same outputs are those of `Circuit::evaluate`, unless a comparison reads a value on which the two disagree |
| EndToEnd.ReleasedIff | code/src/asterisk/online_evaluator_load_balanced.cpp:863-1037 | whatever is added to opened values, outputs are released if and only if the key annihilates the weighted sum of the changes to openings that the check takes factors for; otherwise all parties return zeros |
| EndToEnd.UncheckedChangesPass | code/src/asterisk/online_evaluator_load_balanced.cpp:888-929 | the check takes no factor for comparisons: changes to their openings, over the field or over bits inside them, always pass and what was opened is released |
| EndToEnd.ComparisonsUnchecked | code/src/asterisk/online_evaluator_load_balanced.cpp:863-1037 | if only the field openings of comparisons are changed, every party returns the outputs of the circuit in which each comparison is off by minus twice its change |
| EndToEnd.WrongOutput | code/src/asterisk/online_evaluator_load_balanced.cpp:863-1037 | one input and one test: for every input and every change that is not a multiple of p, the released output is wrong, and by how much |
| OpeningWeights.SingleChange | code/src/asterisk/online_evaluator_load_balanced.cpp:881-929 | one change e, to one gate: the residue is the key times e times the sum of four consecutive factors for a product, three for a scalar product, two for a triple product, one for four factors, none for any other gate |
| OpeningWeights.FactorsBefore | code/src/asterisk/online_evaluator_load_balanced.cpp:890-920 | a gate's factors begin after four for each product, three for each scalar product, two for each triple product and one for each product of four before it in the traversal |
| OpeningWeights.SingleReleased | code/src/asterisk/online_evaluator_load_balanced.cpp:881-1037 | such a change is released if and only if the key times e times that sum is zero in the field; otherwise every party returns zeros |
| EndToEnd.BitsAgree | code/src/asterisk/online_evaluator_load_balanced.cpp:171-262 | each party, from its own table, wires and view of the comparators, computes the same comparison bits |
| EndToEnd.FinalHides | code/src/asterisk/online_evaluator_load_balanced.cpp:563-861 | after the last level all parties agree on every wire, and it is the plain value plus the sum of the mask shares |
| EndToEnd.SessionResidueIs | code/src/asterisk/online_evaluator_load_balanced.cpp:863-958 | the residue of any run is the key times the weighted sum of the changes |
| EndToEnd.TablesInStep | code/src/asterisk/offline_evaluator.cpp:1124-1248 | each party ends the offline phase with the shares the dealer recorded for it |
| EndToEnd.DealerTableGood | code/src/asterisk/offline_evaluator.cpp:238-1121 | the dealer's table holds, for every gate, a sharing of the mask and of the products that gate needs, and the inside of every comparison |
| EndToEnd.SessionStart | code/src/asterisk/online_evaluator_load_balanced.cpp:48-83 | after the inputs are announced all parties hold the same masked values |
| PlainEvaluation.PlainIsEval | code/src/utils/circuit.h:449-459 | the protocol's plain values equal the plaintext evaluator's if and only if no comparison reads a value in the upper half of the field with bit 63 clear |
| PlainEvaluation.ReadingsDiffer | code/src/utils/circuit.h:449-459 | upper half of the field and bit 63 agree on a value exactly outside that window |
| PlainEvaluation.MisreadExample | code/src/utils/circuit.h:449-459 | an input on which the two readings differ |
| Sharing.Homomorphism | code/src/asterisk/sharing.h:52-138 | evaluating a share expression party by party evaluates it on the secrets and keeps the tag sum equal to key times value sum |
| Sharing.DealerInStep | code/src/asterisk/sharing.h:216-255 | the dealer's component-wise record gives party i exactly what party i computes from its own share |
| Sharing.SharesPublic | code/src/asterisk/sharing.h:52-138 | adding a public value at one designated party adds it to the secret once and keeps the tags right |
| Dealing.RandomShareDealt | code/src/asterisk/offline_evaluator.cpp:45-100 | the values and tags dealt for a random mask form an authenticated sharing of it |
| Dealing.DealSecretDealt | code/src/asterisk/offline_evaluator.cpp:110-164 | the values and tags dealt for a known value form an authenticated sharing of it |
| Dealing.RandomShareInStep | code/src/asterisk/offline_evaluator.cpp:45-100 | dealer and party stay at the same stream positions, the last party at the end of the list, and hold the same share |
| Dealing.RandomShareSecretInStep | code/src/asterisk/offline_evaluator.cpp:110-164 | the same for a value the dealer knows |
| Dealing.RandomShareWithPartyInStep | code/src/asterisk/offline_evaluator.cpp:166-236 | the same for an input mask, and its owner draws the value the dealer draws |
| StreamUse.SharesInPlace | code/src/asterisk/offline_evaluator.cpp:238-1248 | over the whole pass, both rings, at the dealer and every party: each share in the table is made of the stream positions of its own number in the traversal, or of its own places on the lists for the last party |
| StreamUse.CellsApart | code/src/asterisk/offline_evaluator.cpp:45-236 | no stream position is part of two sharings, and the two of the keys are part of none |
| StreamUse.MasksApart | code/src/asterisk/offline_evaluator.cpp:172-180 | an input mask is drawn at a position of its own |
| StreamUse.RanksApart | code/src/asterisk/offline_evaluator.cpp:83-88 | no place on a list for the last party serves two sharings |
| StreamUse.PlanApart | code/src/asterisk/offline_evaluator.cpp:238-1121 | the numbers of one gate's sharings come before those of any later gate |
| StreamUse.CursorsEnd | code/src/asterisk/offline_evaluator.cpp:238-1248 | after the pass each cursor stands at 2 for the keys, 2 for each sharing with a part from the stream, 1 for each input its party owns, and the public one at the number of comparisons' pads |
| StreamUse.ListsEnd | code/src/asterisk/offline_evaluator.cpp:1124-1248 | the lists for the last party hold one element for each share of a random value and two for each of a known value or an input mask, and it reads them all |
| StreamUse.KeyCells | code/src/asterisk/offline_evaluator.cpp:255-291 | the key shares of the two rings are the first and the second element of each party's stream |
| StreamUse.ProductCells | code/src/asterisk/offline_evaluator.cpp:416-440 | the mask of a product and the share of the product of its input masks are drawn at four different positions behind the keys |
| Offline.RunBasicInStep | code/src/asterisk/offline_evaluator.cpp:295-572 | over a whole pass of gates without comparisons dealer and party stay in step and their tables match |
| Offline.FlattenTopological | code/src/utils/circuit.h:267-372 | walking the levels one after the other visits each gate once and after its inputs |
| Masks.RunBasicGood | code/src/asterisk/offline_evaluator.cpp:295-572 | after the pass every entry of the dealer's table is a good sharing of its mask and of all products of input masks |
| Preprocess.RunFullInStep | code/src/asterisk/offline_evaluator.cpp:238-1121 | dealer and party stay in step over both rings for every circuit, comparisons included |
| Preprocess.CompareInStep | code/src/asterisk/offline_evaluator.cpp:765-1112 | a comparison in the middle of the pass keeps the streams and both rings' lists in step |
| CompareMasks.RunFullGood | code/src/asterisk/offline_evaluator.cpp:238-1121 | the whole pass leaves a good table, comparisons included |
| CompareMasks.ComparePreGood | code/src/asterisk/offline_evaluator.cpp:765-1112 | a comparison's entry: the comparator masked, its output mask bit shared in the field, and the result mask -2 w - b |
| Opening.OpenMul2 | code/src/asterisk/online_evaluator_load_balanced.cpp:275-298 | the opened combination of two masked factors is the plain product plus the gate's mask |
| Opening.OpenMul3 | code/src/asterisk/online_evaluator_load_balanced.cpp:300-335 | the same for three factors |
| Opening.OpenMul4 | code/src/asterisk/online_evaluator_load_balanced.cpp:337-376 | the same for four factors, all fourteen cross terms cancelling |
| Opening.OpenDot | code/src/asterisk/online_evaluator_load_balanced.cpp:378-404 | the same for a scalar product of any length |
| Masking.ItemOpens | code/src/asterisk/online_evaluator_load_balanced.cpp:264-426 | the sum of all parties' shares of a gate is congruent to the masked result, whatever the tables, as long as they are good |
| Masking.JointTags | code/src/asterisk/sharing.h:52-138 | the tags of all parties' shares of any expression add up to the key times its secret |
| Aggregation.ChunksAbut | code/src/asterisk/online_evaluator_load_balanced.cpp:685-712 | the chunks lie one after the other, cover the vector and end with it, for every length and number of parties |
| Aggregation.ChunksEven | code/src/asterisk/online_evaluator_load_balanced.cpp:685-687 | every party but the last gets the vector's length divided by the number of parties, and the last one fewer than that number of elements more |
| Aggregation.PartIsSlice | code/src/asterisk/online_evaluator_load_balanced.cpp:714-755 | the sums a party hands out are its slice of the vector of sums |
| Aggregation.SumChunk | code/src/asterisk/online_evaluator_load_balanced.cpp:714-755 | adding the received chunks one by one gives the column sums |
| Aggregation.Assemble | code/src/asterisk/online_evaluator_load_balanced.cpp:772-811 | putting the chunks back gives every party the vector of sums of all shares |
| BoolPacking.Pack | code/src/utils/types.cpp:42-55 | bit i of the vector is bit i mod 8 of byte i / 8, unused places are 0, and there are no more bytes than needed |
| BoolPacking.Unpack | code/src/utils/types.cpp:57-68 | element i is bit i mod 8 of byte i / 8 |
| BoolPacking.SendBits | code/src/utils/types.cpp:42-68 | packing and unpacking gives back the vector, for every length |
| BoolPacking.PackedUnique | code/src/utils/types.cpp:42-55 | a bit vector has exactly one packed form |
| Online.PlaceIsOwn | code/src/asterisk/online_evaluator_load_balanced.cpp:432-561 | counting per gate type while reading back finds every gate its own opened value |
| LevelSteps.OpenedShifted | code/src/asterisk/online_evaluator_load_balanced.cpp:685-811 | an opened value is the sum of what was sent plus what was added on the way |
| LevelSteps.LocalStep | code/src/asterisk/online_evaluator_load_balanced.cpp:449-480 | a gate without communication keeps the masking of its wire |
| LevelSteps.OpenStep | code/src/asterisk/online_evaluator_load_balanced.cpp:264-561 | an opened gate keeps the masking of its wire |
| LevelSteps.StepKeeps | code/src/asterisk/online_evaluator_load_balanced.cpp:563-861 | one level run by everybody: all parties agree and every wire of the level is its plain value plus its mask |
| OnlineRun.LevelIsPlaced | code/src/asterisk/online_evaluator_load_balanced.cpp:563-861 | the two passes over a level read only wires that are already set |
| OnlineRun.RunMasks | code/src/asterisk/online_evaluator_load_balanced.cpp:1017-1024 | the same after every level of a run |
| OnlineProgram.Exchange | code/src/asterisk/online_evaluator_load_balanced.cpp:685-811 | cutting, summing and assembling by all parties leaves each of them with the column sums |
| OnlineProgram.SumOwn | code/src/asterisk/online_evaluator_load_balanced.cpp:2011-2087 | over the two-element ring every chunk is packed and unpacked on its way; a party adds up the same sums |
| OnlineProgram.Gather | code/src/asterisk/online_evaluator_load_balanced.cpp:2089-2137 | the sums of the other chunks, packed and unpacked again, and its own give a party the whole vector |
| OnlineProgram.CutChunk | code/src/asterisk/online_evaluator_load_balanced.cpp:688-712 | the loop copies exactly the receiver's chunk |
| OnlineProgram.OnlineEvaluator.PartySend | code/src/asterisk/online_evaluator_load_balanced.cpp:264-426 | the party's shares of all interactive gates, grouped by type, and the vector it sends |
| OnlineProgram.OnlineEvaluator.PartyRecv | code/src/asterisk/online_evaluator_load_balanced.cpp:428-561 | wires, opened values and kept shares after reading back, with one counter for each type |
| OnlineProgram.OnlineEvaluator.MacOmega | code/src/asterisk/online_evaluator_load_balanced.cpp:881-929 | the party's combination, with the number of factors the run-through cases take |
| OnlineProgram.OnlineEvaluator.GetOutputs | code/src/asterisk/online_evaluator_load_balanced.cpp:983-994 | each output wire without its announced mask |
| OnlineProgram.RunLevel | code/src/asterisk/online_evaluator_load_balanced.cpp:563-861 | the nP programs run together on a level make one step of the joint model |
| OnlineProgram.MacVerification | code/src/asterisk/online_evaluator_load_balanced.cpp:930-948 | the sum the dealer sends round is the residue the theorems are about |
| OnlinePhase.RunComparators | code/src/asterisk/online_evaluator_load_balanced.cpp:1919-2176 | the Boolean programs of all parties, with packed openings, run the comparators of a level to the joint Boolean run of the theorems |
| OnlinePhase.FieldRun | code/src/asterisk/online_evaluator_load_balanced.cpp:1017-1024 | comparators and openings, level by level, end in the joint run of the theorems |
| OnlinePhase.RunAndCheck | code/src/asterisk/online_evaluator_load_balanced.cpp:863-1024 | tables, levels and check leave the parties with the final views and the residue of the theorems |
| OnlinePhase.EvaluateCircuit | code/src/asterisk/online_evaluator_load_balanced.cpp:1017-1037 | the whole protocol as a program: in any session each party returns what the theorems speak of, in an honest one the outputs of plain evaluation |
| MacCheck.StepTags | code/src/asterisk/online_evaluator_load_balanced.cpp:264-426 | whatever was opened before, the kept shares of a gate carry matching tags |
| MacCheck.ResidueIsKeyTimesChanges | code/src/asterisk/online_evaluator_load_balanced.cpp:863-958 | with matching tags the residue is the key times the weighted sum of the changes |
| OnlineMac.RunResidue | code/src/asterisk/online_evaluator_load_balanced.cpp:863-958 | over a whole run each change enters with the sum of exactly its gate's draws |
| OnlineMac.NoShifts | code/src/asterisk/online_evaluator_load_balanced.cpp:949-957 | without changes the weighted sum is zero, so the check passes |
| OfflineProgram.OfflineEvaluator.RandomShare | code/src/asterisk/offline_evaluator.cpp:45-100 | the method makes the share and advances streams and lists exactly as the specification function |
| OfflineProgram.OfflineEvaluator.RandomShareSecret | code/src/asterisk/offline_evaluator.cpp:110-164 | the same for a known value |
| OfflineProgram.OfflineEvaluator.RandomShareWithParty | code/src/asterisk/offline_evaluator.cpp:166-236 | the same for an input mask |
| OfflineProgram.OfflineEvaluator.DrawShares | code/src/asterisk/offline_evaluator.cpp:70-81 | the interleaved draws leave every stream where the specification expects it |
| OfflineProgram.OfflineEvaluator.LtzGate | code/src/asterisk/offline_evaluator.cpp:765-1112 | a comparison gate: draws, Boolean pass, mask bit and result mask as specified |
| OfflineProgram.OfflineEvaluator.SetWireMasksParty | code/src/asterisk/offline_evaluator.cpp:293-1121 | the nested loops over levels and gates fill the table of the specification |
| OfflineProgram.OfflineEvaluator.SetWireMasks | code/src/asterisk/offline_evaluator.cpp:1124-1248 | keys and pass together give the table and the lists the theorems are about, for every id |
| OfflineProgram.OfflineEvaluator.KeyGen | code/src/asterisk/offline_evaluator.cpp:255-291 | the key shares of both rings, and two draws used of every shared stream |
| OfflineProgram.ShareLists.Receive | code/src/asterisk/offline_evaluator.cpp:1189-1245 | the lists cut out of the one message are the sender's, nothing read yet |
| OfflinePhase.FullInRing | code/src/asterisk/offline_evaluator.cpp:1124-1180 | all corrections of the Boolean ring are bits, so they can be packed |
| OfflinePhase.SendLists | code/src/asterisk/offline_evaluator.cpp:1140-1245 | lengths, one vector, packing, unpacking and cutting: the last party has the dealer's lists |
| OfflinePhase.RunAll | code/src/asterisk/offline_evaluator.cpp:1124-1248 | the dealer's pass, its message to the last party and all other passes leave every id with the table of the theorems |
| Comparator.PrefixOrWellFormed | code/src/utils/circuit.h:635-700 | every gate of the network reads earlier wires only, for any number of lanes |
| Comparator.LevelAnds | code/src/utils/circuit.h:656-672 | one radix-4 level turns ANDs over blocks of h into ANDs over blocks of 4h |
| Comparator.PrefixAnds | code/src/utils/circuit.h:656-672 | after three levels every lane holds all its prefix ANDs |
| Comparator.MarkerAt | code/src/utils/circuit.h:675-688 | the neighbour sums are 1 exactly at the first 0 of the lane |
| Comparator.AtFirstZeroIs | code/src/utils/circuit.h:635-700 | the selected value is the data bit at the first 0 |
| Comparator.PaddingCancels | code/src/utils/circuit.h:690-695 | an even number of leading copies of wire 0 adds nothing |
| Comparator.PrefixOrValue | code/src/utils/circuit.h:635-700 | for any number of lanes the output is the exclusive or, over all lanes, of the data bit at the first 0, and 0 for a lane without one |
| Comparator.FourRounds | code/src/utils/circuit.h:277-348 | whatever the number of lanes, the network needs no more than four rounds of communication |
| Generators.PrefixLevel | code/src/utils/circuit.h:657-671 | the loops over groups and places append exactly the level's gates and place its wires |
| Generators.GenerateParaPrefixOR | code/src/utils/circuit.h:635-700 | the generator's loops build the network the lemmas are about |
| LtzArithmetic.ComparePrefix | code/src/asterisk/online_evaluator_load_balanced.cpp:197-224 | the data bit at the first difference decides the comparison of two numbers |
| LtzArithmetic.LaneCompares | code/src/asterisk/online_evaluator_load_balanced.cpp:197-224 | a lane fed with equality bits and one number's bits compares the two 64-bit numbers |
| LtzArithmetic.WrapCount | code/src/asterisk/online_evaluator_load_balanced.cpp:187-193 | the three wrap-arounds of the padded sums add up to the upper-half bit |
| LtzProtocol.BoolRunHides | code/src/asterisk/online_evaluator_load_balanced.cpp:1919-2176 | the joint Boolean run keeps every wire masked on all lanes |
| LtzProtocol.ComparatorValue | code/src/asterisk/online_evaluator_load_balanced.cpp:195-243 | the two lanes together compute the exclusive or of the two comparisons |
| LtzProtocol.LtzXor | code/src/asterisk/online_evaluator_load_balanced.cpp:228-243 | the comparator's output and the third comparison give the exclusive or of the test bit and the output's mask bit |
| LtzProtocol.LtzBitGood | code/src/asterisk/online_evaluator_load_balanced.cpp:171-262 | for every value, padding and mask: the unmasked bit is 1 exactly for values of at least (p-1)/2 |
| LevelSteps.CompareHides | code/src/asterisk/online_evaluator_load_balanced.cpp:539-556 | turning the Boolean bit into a field element keeps the wire's mask |
| Circuits.LevelOrderSound | code/src/utils/circuit.h:267-372 | every gate is on some level, once, behind its inputs; interactive gates strictly above them |
| Circuits.LevelOrderIsPermutation | code/src/utils/circuit.h:350-372 | the levels hold each gate exactly once |
| Circuits.LevelOfInput | code/src/utils/circuit.h:277-348 | an input's level is at most its reader's and below it if the reader is interactive |
| Circuits.LevelsLeast | code/src/utils/circuit.h:277-348 | no numbering that puts gates behind their inputs, interactive ones a round later, puts any gate on an earlier level |
| Circuits.DepthLeast | code/src/utils/circuit.h:277-356 | the level order has no more rounds than any such numbering |
| Circuits.EvalSays | code/src/utils/circuit.h:375-528 | what each gate computes, in integers modulo the ring: sums, products, tests, rectifier, scalar products with and without their last 16 places |
| Circuits.EvalAllAt | code/src/utils/circuit.h:375-528 | in the creation-order valuation every wire satisfies its gate's equation |
| CircuitBuilder.Circuit.AddGate2 | code/src/utils/circuit.h:159-174 | unknown types and missing wires are refused without effect; otherwise one gate is appended |
| CircuitBuilder.Circuit.AddGate3 | code/src/utils/circuit.h:176-191 | the same for three factors |
| CircuitBuilder.Circuit.AddGate4 | code/src/utils/circuit.h:192-210 | the same for four factors |
| CircuitBuilder.Circuit.AddConstOpGate | code/src/utils/circuit.h:212-227 | the same for a constant operand |
| CircuitBuilder.Circuit.AddGate1 | code/src/utils/circuit.h:228-242 | the same for tests of one wire |
| CircuitBuilder.Circuit.AddGateSimd | code/src/utils/circuit.h:245-263 | the same for two vectors, which must be of equal length |
| CircuitBuilder.Circuit.SetAsOutput | code/src/utils/circuit.h:150-156 | only existing wires become outputs |
| CircuitBuilder.Circuit.OrderGatesByLevel | code/src/utils/circuit.h:267-372 | the loops group the gates by multiplicative level and count them by type |
| CircuitBuilder.CountIsSize | code/src/utils/circuit.h:358-366 | the count of a type is the number of gates added with it |
| CircuitBuilder.Circuit.Evaluate | code/src/utils/circuit.h:375-528 | level-order evaluation gives the creation-order values, and fails exactly on a wrong number of inputs, a missing input, or a rectifier or truncating gate over the two-element ring |
| PrefixAdder.GeneratePPA | code/src/utils/circuit.h:727-781 | for all inputs the outputs are the digits of the sum modulo 2^n, n = 2^levels (n = 64 in the program) |
| PrefixAdder.GeneratePPAMSB | code/src/utils/circuit.h:783-837 | for all inputs the pruned sweep outputs the top digit of that sum |
| PrefixAdder.SweepLevel | code/src/utils/circuit.h:751-766 | in place, blocks of h become blocks of 2h |
| PrefixAdder.CarrySplit | code/src/utils/circuit.h:754-765 | the carry over two adjoining groups, from their carries and the upper group's propagate, never both |
| PrefixAdder.SumIsNumber | code/src/utils/circuit.h:769-775 | the sum bits and the last carry are the sum of the two numbers |
| PrefixAdder.SumModulo | code/src/utils/circuit.h:769-779 | hence the sum modulo 2^n and its top digit |
| ProductTree.GenerateMultK | code/src/utils/circuit.h:702-724 | in every ring the output is the product of all 4^levels inputs |
| Netting.Conserved | code/src/utils/liquidity_matching.h:70-113 | settling any set of payments leaves the sum of all balances unchanged |
| Netting.SettlesOne | code/src/utils/liquidity_matching.h:70-113 | settling one more payment moves its amount from its source to its destination |
| Netting.DropsExactlyLast | code/src/utils/liquidity_matching.h:144-164 | a round drops exactly the last selected payment of each overdrawn bank |
| Netting.KeepsShape | code/src/utils/liquidity_matching.h:144-164 | each bank's selection stays a prefix of its queue |
| Netting.StopsWhenFeasible | code/src/utils/liquidity_matching.h:116-178 | a round changes nothing if and only if nobody is overdrawn |
| Netting.KeepsFeasible | code/src/utils/liquidity_matching.h:116-178 | no feasible set inside the selection loses a payment |
| Netting.RoundsKeep | code/src/utils/liquidity_matching.h:116-178 | every round before the end removes a payment |
| Netting.LargestFeasible | code/src/utils/liquidity_matching.h:116-178 | from the whole queue at most as many rounds as payments reach the largest feasible set |
| GridlockCircuit.SoDoGridLock.NewTransaction | code/src/utils/liquidity_matching.h:35-44 | unknown banks are refused; otherwise one input and one queue entry |
| GridlockCircuit.SoDoGridLock.TreeMult | code/src/utils/liquidity_matching.h:46-63 | the tree, odd wires moving up, multiplies all inputs |
| GridlockCircuit.SoDoGridLock.NewBalances | code/src/utils/liquidity_matching.h:70-113 | the wires hold the balances after the filtered payments, modulo the ring |
| GridlockCircuit.SoDoGridLock.UpdateSelectedTransactions | code/src/utils/liquidity_matching.h:116-178 | for all balances: the wires hold the round in which a bank is solvent if the top bit of its balance is clear, and the outputs say whether all are solvent and whether nothing is left; for balances the ring can hold this is the netting rule |
| GridlockCircuit.KeptIsUpdate | code/src/utils/liquidity_matching.h:116-178 | with balances the ring can hold, the gates' round is the netting rule and the first output is feasibility |
| GridlockCircuit.MsbIsSign | code/src/utils/liquidity_matching.h:119-121 | the top bit is the sign exactly for the balances in [2^63 - p, 2^63) |
| GridlockCircuit.SrcListNext | code/src/utils/liquidity_matching.h:139-157 | neighbours in a source's list are successive payments of that source |
| TdmaGate.RoundRobinExclusive | code/src/net/tdma_scheduler.cpp:16-22 | under round robin no slot has two owners |
| TdmaGate.SlotInCycle | code/src/net/tdma_scheduler.h:91-98 | cutting into cycles, then slots, is counting slots modulo the cycle |
| TdmaGate.OpensIff | code/src/net/tdma_scheduler.cpp:127-144 | the gate opens exactly in an owned slot with more than the guard left, or for a party without slots |
| TdmaGate.SleepsToNextSlot | code/src/net/tdma_scheduler.cpp:134-148 | a sleep ends at the start of the next owned slot and skips none |
| TdmaGate.OneSleepIsEnough | code/src/net/tdma_scheduler.cpp:126-150 | waking late by less than slot - guard, the party may start |
| TdmaGate.AtMostOneWait | code/src/net/tdma_scheduler.cpp:126-150 | with such sleeps there is at most one wait |
| TdmaGate.NeverOpens | code/src/net/tdma_scheduler.cpp:120-132 | an owner can ever start if and only if the guard is below the slot length |
| TdmaGate.NoOverlap | code/src/net/tdma_scheduler.cpp:109-151 | with d + eps within the guard, transmissions of parties without a common slot never overlap |
| TdmaGate.ExclusionIff | code/src/net/tdma_scheduler.cpp:109-151 | under round robin that bound is exact |
| TdmaGate.GuardedSendIsClean | code/src/net/tdma_scheduler.cpp:91-107 | a send that starts when allowed and ends within the guard is booked as in-slot |
| TdmaGate.BookedIff | code/src/net/tdma_scheduler.cpp:91-107 | which sends are booked as in order, as spills and in which slot, exactly |
| TdmaGate.ShortSendIff | code/src/net/tdma_scheduler.cpp:91-107 | for sends of less than a cycle: in order if and only if they end in the slot they started in, an owned one |
| TdmaGate.CountIs | code/src/net/tdma_scheduler.cpp:91-107 | a counter is the number of recorded sends it is about |
| TdmaGate.TDMAScheduler.WaitForSlot | code/src/net/tdma_scheduler.cpp:109-151 | the loop stops at the first clock reading at which the gate is open; waits and waited time add up |
| TdmaGate.TDMAScheduler.MarkPost | code/src/net/tdma_scheduler.cpp:91-107 | the counters and the histogram always tell the recorded sends apart |
| BusFrames.NonceUnique | code/src/io/aes_ctr.h:42-63 | role, sender, target, message number and fragment number can all be read off the nonce |
| BusFrames.PayloadIs | code/src/io/bcast_bus.cpp:289-295 | byte j of fragment i goes out under byte j of the key stream of the twelve bytes 0, sender, target, 0, message number, fragment number, 0, 0 |
| BusFrames.FrameNonces | code/src/io/aes_ctr.h:27-63 | data frames of different streams, messages or fragments go out under different nonces |
| BusFrames.SameNonceIff | code/src/io/aes_ctr.h:42-63 | on one stream nonces agree exactly if the message numbers agree in 32 bits and the fragment numbers in 16 |
| BusFrames.OwnNoncesIff | code/src/io/bcast_bus.cpp:266-295 | the fragments of a message all have nonces of their own if and only if there are at most 65536 |
| BusFrames.FragmentSizes | code/src/io/bcast_bus.cpp:270-272 | all fragments but the last carry 1400 bytes |
| BusFrames.CryptTwice | code/src/io/aes_ctr.h:65-83 | deciphering undoes enciphering |
| BusFrames.Reassemble | code/src/io/bcast_bus.cpp:260-335 | the fragments of a message, in order, are the message |
| BusFrames.FrameIs | code/src/io/bcast_bus.cpp:270-303 | a message within the size limit has frames with its own index and count in 16 bits |
| BusReceiver.HandleSafe | code/src/io/bcast_bus.cpp:443-517 | an arriving frame keeps what was delivered a prefix of what was sent |
| BusReceiver.RecvSafe | code/src/io/bcast_bus.cpp:343-371 | taking bytes moves them from the queue to the program, in order |
| BusDelivery.HandleExact | code/src/io/bcast_bus.cpp:443-538 | exactly the fragments that arrived are held or delivered |
| BusDelivery.Complete | code/src/io/bcast_bus.cpp:519-538 | all fragments of the first n messages there: all n delivered |
| BusDelivery.OrderDoesNotMatter | code/src/io/bcast_bus.cpp:443-538 | the delivered stream depends only on which frames arrived |
| BusNack.MissingIff | code/src/io/bcast_bus.cpp:637-658 | after the scan a fragment is recorded if and only if it was before or is a known gap; old records stay as they are, new ones start with the present time |
| BusNack.MissingExact | code/src/io/bcast_bus.cpp:637-658 | with the arrivals known: nothing that arrived is recorded, and of what is missing the first fragment, or every one of a message begun to arrive |
| BusNack.TickIs | code/src/io/bcast_bus.cpp:660-710 | what one tick does to each gap: dropped if no longer missing, asked for exactly once if due, left alone if not due or not reached |
| BusNack.TickAsks | code/src/io/bcast_bus.cpp:660-710 | a tick that goes through asks, once each, for exactly the gaps still missing and due |
| BusNack.TickDrops | code/src/io/bcast_bus.cpp:668-680 | a tick that goes through drops exactly the gaps of messages handed over and of fragments held |
| BusNack.PoisonIff | code/src/io/bcast_bus.cpp:660-710 | a tick poisons if and only if some recorded gap is missing, due and out of attempts |
| BusSender.InsertRetains | code/src/io/bcast_bus.cpp:297-316 | the retained streams are the last 4096 and their frames the original ones |
| BusSender.AnswerIs | code/src/io/bcast_bus.cpp:581-621 | a request is answered with the original frame while it is kept and below the cap, passed over while its message is under way, and otherwise refused |
| BusRetries.GoneIff | code/src/io/bcast_bus.cpp:297-331 | in every run, refused sends included: a first fragment is out of the buffer if and only if 4096 entries follow one of its message; a later one if and only if, besides, another message has been entered since |
| BusRetries.AnsweredAs | code/src/io/bcast_bus.cpp:540-621 | in every run each request, of whatever was or was not sent, is answered as that fate says: again, nothing or the end of the pipe |
| BusRetries.RetriesEvict | code/src/io/bcast_bus.cpp:305-331 | refusing one message's first frame 4095 times drops the message before it |
| BusRequests.CountIsSince | code/src/io/bcast_bus.cpp:581-597 | in every run the count kept for a fragment is the number of requests for it that arrived since it was last kept |
| BusRequests.NextRequest | code/src/io/bcast_bus.cpp:581-608 | the next request is answered with the fragment if and only if fewer than the cap have come; otherwise it ends the pipe |
| BusRequests.CapActs | code/src/io/bcast_bus.cpp:598-608 | more requests than the cap allows, and the pipe has been given up |
| BusRequests.PoisonLasts | code/src/io/bcast_bus.cpp:540-621 | a pipe that was given up stays so, whatever follows |
| BusRequests.NothingMore | code/src/io/bcast_bus.cpp:581-621 | and from then on requests get nothing |
| BusSender.NackRetains | code/src/io/bcast_bus.cpp:540-621 | answering a request changes no retained frame |
| BusSystem.StreamSafety | code/src/io/bcast_bus.cpp:245-538 | in every run with loss, duplication and reordering: bytes received plus bytes queued are the messages in order, once, and the byte counter is the queue's length |
| BusSystem.Retention | code/src/io/bcast_bus.cpp:297-316 | at most 4096 streams are kept and every frame on the wire is the original frame |
| BusBudget.BudgetAgreement | code/src/io/bcast_bus.cpp:582-710 | per fragment the sender's count plus requests under way is within the receiver's attempts; with agreeing budgets and no eviction the sender never gives up |
| BusBudget.NeverAskedAgain | code/src/io/bcast_bus.cpp:637-710 | a fragment that arrived is never recorded as missing again |
| BusBudget.RunsAgree | code/src/io/bcast_bus.cpp:443-538 | two runs with the same arrivals delivered the same bytes |
| BusBudget.RunComplete | code/src/io/bcast_bus.cpp:519-538 | the first n messages are delivered if and only if all their fragments arrived |
| BusBudget.GapsAreAsked | code/src/io/bcast_bus.cpp:660-710 | in every run a tick that does not poison asks once for each fragment known to be missing and due, and for none that arrived |
| BusBudget.PoisonTiming | code/src/io/bcast_bus.cpp:660-710 | the receiver gives up only after its full budget and no sooner than k + 1 cycles after it noticed the gap |
| BusBudget.EvictedLongAgo | code/src/io/bcast_bus.cpp:581-619 | without repeated first fragments a request is refused as evicted only after at least 4096 later streams |
| BusTurns.HandedOverIff | code/src/io/bcast_bus.cpp:480-538 | in every run, for all messages: message m has been handed over if and only if those before it have and its arrivals make it ready; for an empty one, one early copy or a copy in turn |
| BusTurns.FirstReady | code/src/io/bcast_bus.cpp:480-538 | the first n messages have been handed over if and only if each of them is ready |
| BusTurns.EachMessage | code/src/io/bcast_bus.cpp:480-538 | in every run the bytes handed out and queued are one text for each message handed over: the message if it fits, otherwise nothing, one fragment, or one fragment for each slot |
| BusTurns.StreamIff | code/src/io/bcast_bus.cpp:480-538 | the stream is the concatenation of the messages handed over if and only if all of them fit |
| BusTurns.AllArrived | code/src/io/bcast_bus.cpp:480-538 | all frames of a message in turn have arrived: it is handed over, as it was sent if and only if it fits |
| BusCaveats.SlotsSuffice | code/src/io/bcast_bus.cpp:273-274 | the 16-bit fragment count suffices if and only if the message has at most 65535 fragments |
| BusCaveats.TooLongIsLost | code/src/io/bcast_bus.cpp:480-517 | in every run in which a message beyond that limit was handed over, bytes are missing from the stream |
| BusCaveats.LongIsSkipped | code/src/io/bcast_bus.cpp:499-538 | a message whose fragment count is a multiple of 65536 is skipped by its first frame in turn |
| BusCaveats.LongIsCut | code/src/io/bcast_bus.cpp:489-498 | one with one fragment more is cut to the fragment that arrives first in turn |
| BusCaveats.LongExamples | code/src/io/bcast_bus.cpp:480-517 | the shortest messages that are skipped and cut |
| BusCaveats.TurnComes | code/src/io/bcast_bus.cpp:480-511 | in every run an empty message in turn has been handed over if and only if its frame arrived in turn, or exactly once before |
| BusCaveats.EarlyEmptyTwice | code/src/io/bcast_bus.cpp:506-511 | an early empty message whose frame arrives twice stops the stream; the frame is recorded as missing, and a third copy sets the stream going |
| BusCaveats.StuckIsAsked | code/src/io/bcast_bus.cpp:637-658 | in every run, a stream that stands at an empty message with early frames has that frame on the list of what to ask for |
| BusCaveats.ResentFrees | code/src/io/bcast_bus.cpp:480-538 | in every run, any further frame of that message takes the stream past it |
| BusCaveats.Recovers | code/src/io/bcast_bus.cpp:540-710 | a tick, the request and the answer take the stream past it, while the frame is due, kept and within both budgets |
| Witness.DrainIs | code/src/io/bcast_bus.cpp:818-844 | a drain complains about exactly the unobserved, not yet reported numbers below the highest one |
| Witness.OneComplaintEach | code/src/io/bcast_bus.cpp:802-844 | over any run each number is reported at most once |
| Witness.ComplaintIff | code/src/io/bcast_bus.cpp:802-844 | a number is reported exactly if it was unobserved when a later one had been observed |
| Witness.WitnessState.WitnessObserve | code/src/io/bcast_bus.cpp:802-816 | the method makes the specified observation |
| Witness.WitnessState.WitnessDrain | code/src/io/bcast_bus.cpp:818-844 | the method makes the specified complaints |
| BusState.RxState.Handle | code/src/io/bcast_bus.cpp:480-517 | the method on the receiver's fields is the specified step |
| BusState.RxState.DrainPendingLocked | code/src/io/bcast_bus.cpp:519-538 | the loop delivers every completed message in turn |
| BusState.RxState.Recv | code/src/io/bcast_bus.cpp:351-370 | the loop takes bytes from the front chunks |
| BusState.RxState.ComputeMissingLocked | code/src/io/bcast_bus.cpp:637-658 | the loops record the gaps of the specification |
| BusState.RxState.DrainNackState | code/src/io/bcast_bus.cpp:660-710 | the loop over gaps, in key order, is the specified tick |
| BusState.TxState.Send | code/src/io/bcast_bus.cpp:245-341 | on a pipe not given up the loop emits the frames of the message and retains them, however often each is refused; on one given up nothing happens |
| BusState.TxState.HandleNack | code/src/io/bcast_bus.cpp:540-621 | the method answers as specified |
| BusState.SentRetains | code/src/io/bcast_bus.cpp:245-341 | a whole send keeps the retention invariant, with one entry for each attempt at the first frame |

## Left out

- OnlinePhase.EvaluateCircuit: the parties' programs take turns, as they only meet at the openings; the masked inputs are announced by a function (`EndToEnd.StartViews`), and the comparison bits are those of party 1 (`EndToEnd.BitsAgree`: everybody has the same).
- OfflinePhase.RunAll: the dealer's message, packed and unpacked, is taken as delivered; the bus theorems are separate.
- GridlockCircuit.SoDoGridLock.UpdateSelectedTransactions: for at least one bank and one payment: over an empty list the program's product tree has no result.
- BusRetries.GoneIff: for runs whose messages have at most 65535 fragments, like BusRetries.AnsweredAs, BusSystem.StreamSafety and BusSystem.Retention; BusTurns is about all messages.
- EndToEnd.ComparisonsUnchecked: the exact outputs are stated for changes to the field openings of comparisons; for changes inside them, that the check passes.
- BusBudget.BudgetAgreement: for non-empty messages; see BusCaveats for empty ones.
- The equality test as a gate of the protocol: its result share adds the opened bit with the wrong sign for an exclusive or; only its product tree is modelled.
- Relu, most-significant-bit and truncating scalar products online: built like the comparison and the scalar product, without a new kind of step.
- `generatePrefixAND`, `generateParaPrefixAND`, `generateAuction`: the first multiplies by a wire that is not the end of the block before; the others repeat loops that are modelled.
- The variant with an assisting party, and the older socket channel: near-copies of code that is modelled.
- The stand-alone Boolean evaluator and its offline phase: the Boolean evaluator inside comparisons is the modelled one.
- Inputs owned by the dealer, circuits without gates, and several threads sending to one target.
- The shift operators of shares and their push and set methods: shares are built and combined as values.
- Wrap-around of 32-bit message numbers and of 64-bit times, byte counters and slot products: numbers are unbounded.
- Floating-point logarithms and powers as loop bounds: exact powers of two and four.
- AES, SHA and random generators: an involution keyed by the nonce, and arbitrary streams.  One position stands for one drawn element.
- Sockets, threads, timeouts, the start-up barrier, environment variables, JSON schedules, logging and statistics other than the slot counters.
- The clock source: clock readings are parameters, and a wait ends with the readings.
- Dark pool, neural network, benchmarks, plotting and scripts: they put modelled parts together.
