# ReKernel-X in Dafny

ReKernel-X is a kernel module that watches binder traffic to frozen Android processes, with a client library that talks to it over generic netlink. The module probes every one-way transaction on its way to a frozen process. If an equivalent transaction is still waiting, the probe takes the old one off the list and frees it on a work queue. Rules that the client sets choose, for each interface and code, whether equivalent means the same code, the same data, or never. This project models that machinery and proves what it keeps.

How the files fit together:

- `BinderTypes`, `AsyncSystem`: the binder objects of one target process, and a step system in which a step is one locked section or one unlocked action. Senders, probes, the unlocked tail of a probe, the free worker, delivery, other reference holders, freezing, and the death and release of the process interleave freely. History variables record what was released, by whom each transaction was superseded and in which order the probes ran.
- `AsyncInvariant`, `AsyncLists`, `AsyncMoves`, `AsyncSteps`: the invariant, in parts, and that every step keeps it.
- `AsyncTheorems`, `AsyncBound`: what follows for every run. `AsyncTight`: runs on which the bound is reached.
- `RuleTable`: the hash table of rules as a class, proved against a map. `RuleRcu`, `RuleRcuProof`: the same table at the grain of single pointer writes, with lock-free readers and deferred reclaim. `RuleRcuMap`: it refines the map that the writers' steps build. `RuleRcuMoment`, `RuleRcuMissed`: when a lookup answers as at one single moment, and runs in which it does not. `RuleRcuProgress`: neither lookups nor reclaim are held up.
- `BinderAlloc`, `InterfaceToken`: the page-by-page copy, the chunked comparison, and the two readers of interface names.
- `Probe`: the probe and the worker as code, composed from the three above. The probe is proved to be the probe step of `AsyncSystem`, and all of it to keep the invariant; so the bound of `AsyncBound` carries over to the code under the rules of the table.
- `NlAttr`, `EventCodec`, `EventCode`, `EventRoundTrip`, `PollWalk`: netlink attributes as bytes (the layout of sections 2.2 and 2.3.2 of RFC 3549), the kernel's event encoder, the client's decoders, and the walk over a received datagram.
- `RuleRequest`: a rule on its way from the client call through a request message and the kernel's dispatch by its header into the kernel's table.
- `Connection`, `ConnectionProof`, `ConnectionWake`: connect, pollEvent and disconnect over a mutex, three atomics and an event descriptor.
- `Registration`: registering and unregistering the probe and its work queue.

Two claims one might expect turn out to be false of the code on some inputs, and each is given its exact condition and a failing input. The datagram walk of pollEvent compares an unsigned size with a signed remainder, so it stays inside the received bytes if and only if the datagram does not end raggedly (`PollWalk.LeavesExactly`, `PollWalk.OneOddMessageLeaves`). The message builder computes with 16-bit lengths, so it takes an attribute that does not end in its buffer if and only if the payload has more than 65528 bytes and the wrapped length fits (`NlAttr.PutOutsideExactly`, `NlAttr.PutOutsideAt`); for the client's rule requests that means names whose 16-bit length is above 65528, and of other names of 65535 bytes and more at most a part is put (`RuleRequest.NameOutsideExactly`, `RuleRequest.LongNames`). A third is false on some runs: a lookup of a rule next to writers need not answer as the table would at any one moment of it, for there are runs in which a rule for the call is there all the time and the lookup finds none (`RuleRcuMissed.CoveredCallIsMissed`, `RuleRcuMissed.HalfAddedIsMissed`); it does if at most one step meanwhile changes the rules of that name and none of them is half added when it begins (`RuleRcuMoment.AnswerOfOneMoment`). Two further results show by runs from the start that a condition is needed: two pollers at once can be left with closed descriptors (`ConnectionProof.TwoPollersClash`), and n overlapping senders can leave n of their kind queued (`AsyncTight.BoundIsReached`).

## Model

| member | source | states |
|---|---|---|
| `AsyncInvariant.StepSafe` | LKM-Source/rkx_binder_kp.c:197-276 | in every state of the invariant, no step that can happen follows a dangling pointer, scans a list with a null buffer in it, or touches a freed process |
| `AsyncSteps.StepKeeps` | LKM-Source/rkx_binder_kp.c:197-276 | every step of every actor keeps the whole invariant: objects, lists, references, counts, tickets and heirs |
| `AsyncTheorems.RunSafe` | LKM-Source/rkx_binder_kp.c:220-276 | at no point of any run is any step one that faults |
| `AsyncTheorems.FreedExactlyOnce` | LKM-Source/rkx_binder_kp.c:197-273 | from the moment it is unlinked, a transaction is never on a list again; its buffer and record are freed at most once, exactly once when the worker is done, and until then the process is not freed |
| `AsyncTheorems.NothingFreedTwice` | LKM-Source/rkx_binder_kp.c:180-208 | over every run each buffer, each transaction record and the process are freed at most once, whoever frees them |
| `AsyncTheorems.ProcessOutlivesFrees` | LKM-Source/rkx_binder_kp.c:180-208 | tmp_ref is exactly the senders, pending frees, holders and the releaser; a freed process is dead and has none of them, no buffers and empty lists |
| `AsyncTheorems.FreedExactlyWhenDeserted` | LKM-Source/rkx_binder_kp.c:180-195 | in every state of every run the process has been freed if and only if it is dead, has no threads, and no sender, pending free, holder or releaser is left |
| `AsyncTheorems.Conservation` | LKM-Source/rkx_binder_kp.c:241-264 | enqueued = outstanding + delivered + being freed + freed + drained, and outstanding_txns counts exactly the waiting and handed-over transactions |
| `AsyncTheorems.FreeProgresses` | LKM-Source/rkx_binder_kp.c:197-218 | a pending free always has an enabled, safe next step that brings it nearer its end |
| `AsyncTheorems.FreeUndisturbed` | LKM-Source/rkx_binder_kp.c:197-218 | no other step of any actor moves a pending free on or takes it away |
| `AsyncTheorems.Survivor` | LKM-Source/rkx_binder_kp.c:127-161 | following who superseded whom ends at a later-probed transaction of the same key that was not dropped |
| `AsyncTheorems.LatestWins` | LKM-Source/rkx_binder_kp.c:252-272 | in every state of every run each dropped transaction has such a survivor, with the same data if those of its kind were dropped only after a comparison of data; when all senders are through and the process lives, the survivor waits, is handed over or delivered |
| `AsyncBound.ProbeFinds` | LKM-Source/rkx_binder_kp.c:146-161 | a probing member of a class unlinks a member of it whenever one is queued; the class is that of the same call under BY_CODE, and that of the same call with the same bytes under BY_DATA |
| `AsyncBound.LoadBounded` | LKM-Source/rkx_binder_kp.c:241-264 | for both kinds of class: queued members plus member senders past their probe never exceed the larger of the starting total and the peak number of concurrent member senders, whatever other senders do |
| `AsyncBound.SerialisedSendersQueueOne` | LKM-Source/rkx_binder_kp.c:241-264 | for both kinds of class: senders that take turns, from an empty start, leave at most one of their class queued |
| `AsyncTight.BoundIsReached` | LKM-Source/rkx_binder_kp.c:241-273 | the bound is reached: for every kind of message, under BY_CODE and under BY_DATA, and every n there is a run from a new process, with at most n members sent at once and every probe superseding, that leaves n of them queued |
| `BinderTypes.FirstOutdated` | LKM-Source/rkx_binder_kp.c:146-161 | the index found is of a superseded item and no earlier item is superseded; none is found only if no item is |
| `Probe.ChooseStrategy` | LKM-Source/rkx_binder_kp.c:234-239 | by the map of the table and the name in the parcel: the value of the exact key if it is there, else of the any-code key, else BY_CODE; the count test and a parcel without a name change nothing |
| `Probe.ParcelStrategy` | LKM-Source/rkx_binder_kp.c:234-239 | for a parcel in a live, complete buffer, the rule for its interface name, if that has at most 62 characters, decides the strategy: exact, else any-code, else BY_CODE |
| `Probe.CanUpdateTransaction` | LKM-Source/rkx_binder_kp.c:127-144 | under BY_CODE the pairwise test holds exactly when the two calls agree; under BY_DATA exactly when they agree and both buffers can be copied and have the same bytes; else never; calls that agree have the same flags, code, target, sender pid and node and no offsets; whether buffers are live is not assumed |
| `Probe.FindOutdated` | LKM-Source/rkx_binder_kp.c:146-161 | the scan returns the first item the pairwise test accepts, and none only if it accepts none; whether buffers are live is not assumed |
| `Probe.FoundIsVictim` | LKM-Source/rkx_binder_kp.c:146-161 | when the buffers of the sender and of the listed transactions are live and complete, what the scan finds in the pages is the first superseded item of the protocol |
| `Probe.UndeliveredShown` | LKM-Source/rkx_binder_alloc.c:53-63 | the buffers of a sender and of all waiting transactions pass the buffer check and are complete, because user space may free only delivered ones |
| `Probe.UnruledSupersedes` | LKM-Source/rkx_binder_kp.c:234-264 | when no rule has the name in the parcel, the handler's probe is one that supersedes by code |
| `Probe.HandlerBound` | LKM-Source/rkx_binder_kp.c:220-264 | the bound of AsyncBound.LoadBounded for every run whose class members are probed by the handler under rules that grant their parcels the strategy of the class, BY_CODE also without a rule |
| `Probe.ProbeQueueSpec` | LKM-Source/rkx_binder_kp.c:241-264 | the probe leaves the node's list alone, or removes exactly its first superseded transaction and keeps the order of the rest; when it looks and removes nothing, nothing is superseded; no other node changes |
| `Probe.Driver.Pre` | LKM-Source/rkx_binder_kp.c:220-264 | the handler up to the release of its locks keeps the invariant and is one probe step of the protocol, under the strategy that the rule table, the token in the parcel and the code determine |
| `Probe.Driver.Tail` | LKM-Source/rkx_binder_kp.c:210-272 | the invariant is kept; the victim and its buffer no longer lead to each other and no other record or buffer changes; the victim is on no list, so every list can still be scanned |
| `Probe.Driver.FreeTxnFunc` | LKM-Source/rkx_binder_kp.c:197-208 | the invariant is kept; record, buffer and pending free of the victim are gone, each freed this once; the process is freed, with all its buffers and nothing left at work in it, exactly when this was the last reference of a dead process without threads, and otherwise only one reference changes besides |
| `Probe.Driver.DecTmpref` | LKM-Source/rkx_binder_kp.c:180-195 | from a state in order but for one reference it restores the invariant; the process is freed exactly when that was the last reference of a dead process without threads, and then has no sender, pending free, holder or queued transaction; else nothing but the reference changes |
| `Probe.WholeFree` | LKM-Source/rkx_binder_kp.c:197-272 | a probe that unlinks, with its worker, takes away exactly the victim, its buffer and its list item, counts one transaction less, and leaves everything else, tmp_ref included, as it was |
| `RuleTable.FreeAsyncTable.constructor` | LKM-Source/rkx_free_async.c:175-179 | an empty table: the empty map |
| `RuleTable.FreeAsyncTable.HasEntries` | LKM-Source/rkx_free_async.c:47-50 | the count is positive exactly when the map has a rule |
| `RuleTable.FreeAsyncTable.Lookup` | LKM-Source/rkx_free_async.c:52-86 | the exact rule, else the any-code rule, else nothing, whatever the order of the chain; a null name finds nothing |
| `RuleTable.FreeAsyncTable.Add` | LKM-Source/rkx_free_async.c:88-129 | the map gains or overwrites exactly that rule; bad arguments and failed allocation are told apart and change nothing; the table stays well formed |
| `RuleTable.FreeAsyncTable.Del` | LKM-Source/rkx_free_async.c:131-157 | the map loses exactly that rule, also when it had none; bad arguments change nothing |
| `RuleTable.FreeAsyncTable.Destroy` | LKM-Source/rkx_free_async.c:159-173 | the map is empty and the table well formed |
| `RuleTable.TableRulesAre` | LKM-Source/rkx_free_async.c:35-38 | a rule is in the map exactly when its entry is in the chain its name hashes to, with that strategy |
| `RuleTable.TableSize` | LKM-Source/rkx_free_async.c:33-50 | the map has as many rules as the chains have entries |
| `RuleRcuProof.StepKeeps` | LKM-Source/rkx_free_async.c:52-173 | every single step of readers, writers and reclaim keeps the invariant of the linked table and of every reader in it |
| `RuleRcuMap.StepRefines` | LKM-Source/rkx_free_async.c:88-173 | besides keeping the invariant, each writer step does to the rules in the table exactly what the map operation does: an update sets the value of its key, a link adds its rule, an unlink takes its key away; no other step changes a rule, and when a destroy ends there is none |
| `RuleRcuProof.RunSafe` | LKM-Source/rkx_free_async.c:64-75 | in every run, no lookup touches a reclaimed entry |
| `RuleRcuProof.StayingRuleIsFound` | LKM-Source/rkx_free_async.c:59-85 | a lookup that ends finds the exact rule that was there when it began and stayed linked until its end, whatever is added and deleted meanwhile |
| `RuleRcuProof.AnswerWasARule` | LKM-Source/rkx_free_async.c:64-85 | a strategy returned was, at some moment during the lookup, that of an exact or any-code rule of that name |
| `RuleRcuMap.RunRefines` | LKM-Source/rkx_free_async.c:88-173 | at every moment of every run the table holds exactly the rules recorded from the writers' steps alone |
| `RuleRcuMap.QuietLookup` | LKM-Source/rkx_free_async.c:52-86 | a lookup during which no writer touches the rules answers by the record of the writers' steps before it, unless a rule of its name is linked but not yet counted when it begins |
| `RuleRcuMap.AnswerIsMeant` | LKM-Source/rkx_free_async.c:52-86 | under the conditions of RuleRcuMoment.AnswerOfOneMoment the answer is that of the record at one moment of the lookup |
| `RuleRcuProgress.LookupIsWaitFree` | LKM-Source/rkx_free_async.c:63-75 | a lookup can always make its next step, whatever writers do, and makes at most two for each entry number given out before it entered, and two more |
| `RuleRcuProgress.GraceEnds` | LKM-Source/rkx_free_async.c:144-146 | once the lookups that were inside at an unlink have answered, the entry can be reclaimed at any later time, however many lookups have begun since |
| `RuleRcuMoment.AnswerOfOneMoment` | LKM-Source/rkx_free_async.c:52-86 | if at most one step between the begin and the end of a lookup changes the rules of its name, and none of these is linked but not yet counted when it begins, then its answer is the exact rule, else the any-code rule, else nothing, of the table at one moment of the lookup |
| `RuleRcuMoment.ExactAnswer` | LKM-Source/rkx_free_async.c:64-80 | an answer that is an exact rule is that of one moment in every run, without any condition |
| `RuleRcuMissed.CoveredCallIsMissed` | LKM-Source/rkx_free_async.c:64-85 | for every hash there is a run from the empty table in which one rule is added and another deleted during a lookup, a rule for the call is in the table at every moment of it, no rule is half added when it begins, and it finds nothing |
| `RuleRcuMissed.HalfAddedIsMissed` | LKM-Source/rkx_free_async.c:59-60 | for every hash and every rule there is a run in which nothing changes during a lookup for that rule, the rule is linked throughout, and the lookup finds nothing because it is not yet counted |
| `BinderAlloc.PageRun` | LKM-Source/rkx_binder_alloc.c:65-77 | page index and offset are in range, and the rest of that page is the run of the flat space from there |
| `BinderAlloc.GetPage` | LKM-Source/rkx_binder_alloc.c:65-77 | the page and offset returned hold the byte asked for and those after it |
| `BinderAlloc.DoBufferCopy` | LKM-Source/rkx_binder_alloc.c:79-102 | a copy is refused exactly when it would go beyond the buffer, is not aligned, the buffer is free or is being served, or it goes into the buffer; else the destination gets exactly the requested bytes of that buffer and no other byte changes |
| `BinderAlloc.CopyFromBuffer` | LKM-Source/rkx_binder_alloc.c:104-109 | accepted exactly by the check, and then the flat slice |
| `BinderAlloc.BuffersDisjoint` | LKM-Source/rkx_binder_alloc.c:38-51 | each buffer ends where the next begins, at the latest, so a copy from one reads no byte of another |
| `BinderAlloc.BufferDataEqual` | LKM-Source/rkx_binder_kp.c:63-90 | true exactly when the sizes agree and, unless empty, both buffers are live, hold their data and have the same bytes |
| `InterfaceToken.ParseInterfaceToken` | LKM-Source/rkx_binder_kp.c:92-125 | the name buffer ends up with the token of the parcel, and success means it is not empty |
| `InterfaceToken.TransName` | LKM-Source/rkx_binder.c:161-171 | the trace hook's loop finds the same token in the same bytes and reads only copied bytes |
| `InterfaceToken.TokenBound` | LKM-Source/rkx_binder_kp.c:105-124 | a token has at most 62 characters, none of them NUL |
| `InterfaceToken.TokenRoundTrip` | LKM-Source/rkx_binder_kp.c:105-124 | an ASCII name written as terminated UTF-16LE behind any 16 bytes comes out as its first 62 characters |
| `InterfaceToken.TokenOfParcel` | LKM-Source/rkx_binder_kp.c:92-125 | in every live buffer that holds all its data, the probe sees the first 62 characters of the interface name of the parcel in it, however short or long the parcel is |
| `InterfaceToken.NamelessExactly` | LKM-Source/rkx_binder_kp.c:101-124 | the probe sees no name if and only if the data has under 18 bytes, the copy is refused, or the first character is NUL |
| `InterfaceToken.LongNamesAreNeverSelected` | LKM-Source/rkx_free_async.c:98-100 | rules with names over 62 characters make no difference to any lookup by the probe |
| `NlAttr.WalkInside` | Develop/rekernel_x/src/main/cpp/rkx_nla.h:26-41 | on arbitrary bytes and any signed length, every attribute met lies in the range, one after the other |
| `NlAttr.Parse` | Develop/rekernel_x/src/main/cpp/rkx_nla.h:87-100 | the loop ends, and each slot holds the last complete attribute of its type; slot 0 stays empty |
| `NlAttr.NestedInside` | Develop/rekernel_x/src/main/cpp/rkx_nla.h:102-104 | at any depth of nesting, what is found lies inside the payload of the attribute it was found in |
| `NlAttr.ParseEncoded` | Develop/rekernel_x/src/main/cpp/rkx_nla.h:87-131 | parsing encoded attributes gives, under each type, the last payload put under it, and nothing under other types |
| `NlAttr.PutOutsideExactly` | Develop/rekernel_x/src/main/cpp/rkx_nla.h:114-119 | for every 16-bit payload length, put takes an attribute that does not end in the buffer if and only if the payload has more than 65528 bytes, the wrapped length fits and the payload does not; up to 65528 bytes it stores exactly what fits |
| `NlAttr.PutOutsideAt` | Develop/rekernel_x/src/main/cpp/rkx_nla.h:114-131 | 65529 bytes put first into a buffer of 256 are such an attribute |
| `NlAttr.WrittenIs` | Develop/rekernel_x/src/main/cpp/rkx_nla.h:120-128 | up to 65528 bytes the four writes of put leave exactly the encoded attribute |
| `NlAttr.NlaBuilder.constructor` | Develop/rekernel_x/src/main/cpp/rkx_nla.h:134-136 | a message of 20 bytes without attributes |
| `NlAttr.NlaBuilder.PutAttr` | Develop/rekernel_x/src/main/cpp/rkx_nla.h:114-131 | for every 16-bit payload length: stored, refused or outside exactly as the wrapped lengths say; refused changes nothing; stored keeps all before it and adds the attribute if it has at most 65528 bytes; above that parsing finds only the attributes before it, up to 65532 because the message does not grow, and from 65533 on because it grows by a header with a length below four |
| `NlAttr.NlaBuilder.PutGenlHeader` | Develop/rekernel_x/src/main/cpp/rkx_nla.h:138-150 | at their offsets a reader finds length 0, the family as type, the request flag, the sequence number, port 0, the command and the version, and everything behind the header stays |
| `NlAttr.HeaderReads` | Develop/rekernel_x/src/main/cpp/rkx_nla.h:138-150 | what a receiver reads field by field in a request header |
| `NlAttr.NlaBuilder.Finish` | Develop/rekernel_x/src/main/cpp/rkx_nla.h:168-171 | the first four bytes become the length and every other byte stays |
| `NlAttr.BuiltParses` | Develop/rekernel_x/src/main/cpp/rkx_nla.h:87-171 | parsing a built message gives, under each type, the last payload put successfully |
| `EventCodec.Message` | LKM-Source/rkx_genl.c:151-228 | an event's message has a multiple of four bytes, at most 228 |
| `EventCode.NestClosed` | LKM-Source/rkx_genl.c:166-227 | patching the length of a started nest gives the nested attribute around all that was put since |
| `EventCode.Skb.PutBinder` | LKM-Source/rkx_genl.c:181-189 | fails exactly when the eight attributes do not all fit, else appends them in order |
| `EventCode.Skb.PutSignal` | LKM-Source/rkx_genl.c:200-205 | the same for the five attributes of a signal |
| `EventCode.Skb.PutNetwork` | LKM-Source/rkx_genl.c:216-219 | the same for the three attributes of a packet |
| `EventCode.Skb.Send` | LKM-Source/rkx_genl.c:158-228 | in a buffer of any size, exactly an event of a known kind whose message fits is sent, and the bytes are that message |
| `EventCode.SendMessage` | LKM-Source/rkx_genl.c:144-244 | in the reserved 280 bytes every event of a known kind fits, however long its name |
| `EventCode.HandleBinder` | Develop/rekernel_x/src/main/cpp/rkx_jni.cpp:189-218 | the call made for a binder payload, with -1 or the empty name for what is missing or short |
| `EventCode.HandleSignal` | Develop/rekernel_x/src/main/cpp/rkx_jni.cpp:220-233 | the call made for a signal payload |
| `EventCode.HandleNetwork` | Develop/rekernel_x/src/main/cpp/rkx_jni.cpp:235-246 | the call made for a network payload |
| `EventCode.HandleEvent` | Develop/rekernel_x/src/main/cpp/rkx_jni.cpp:248-295 | on any message inside the received bytes, the calls of the payloads of its event, and none for errors, other families, short messages and other commands |
| `EventRoundTrip.BinderRound` | LKM-Source/rkx_genl.c:174-192 | the fields of a binder event decode to the call with the same values, field by field |
| `EventRoundTrip.SignalRound` | LKM-Source/rkx_genl.c:193-208 | the fields of a signal event decode to the call with the same values, field by field |
| `EventRoundTrip.NetworkRound` | LKM-Source/rkx_genl.c:209-222 | the fields of a network event decode to the call with the same values, field by field |
| `EventRoundTrip.RoundTrip` | Develop/rekernel_x/src/main/cpp/rkx_jni.cpp:248-289 | wherever an encoded event stands in the received bytes, the client makes exactly one call, of its kind and with the same values, unsigned ones as signed |
| `EventRoundTrip.FieldReads` | Develop/rekernel_x/src/main/cpp/rkx_jni.cpp:189-246 | in a payload of any attributes, a number is that of the last attribute of its type, and -1 if there is none or it is short; the name is that of the last one, or empty |
| `EventRoundTrip.OtherFamilyIsDeaf` | Develop/rekernel_x/src/main/cpp/rkx_jni.cpp:252-254 | a client with another family id makes no call for it |
| `PollWalk.MessagesInside` | Develop/rekernel_x/src/main/cpp/rkx_jni.cpp:432-436 | on arbitrary bytes every message handled lies completely in the received bytes, and messages do not overlap |
| `PollWalk.LeavesExactly` | Develop/rekernel_x/src/main/cpp/rkx_jni.cpp:432-434 | the loop test reads behind the received bytes if and only if the message at which the aligned part of the datagram stops ends in the odd bytes behind it; never when the length is a multiple of four |
| `PollWalk.OneOddMessageLeaves` | Develop/rekernel_x/src/main/cpp/rkx_jni.cpp:432-434 | one message of 17 bytes is such a datagram |
| `PollWalk.HandleDatagram` | Develop/rekernel_x/src/main/cpp/rkx_jni.cpp:431-436 | the loop ends on every datagram, makes the calls of its messages in order, and leaves it exactly when it is ragged |
| `PollWalk.EveryEventIsDelivered` | Develop/rekernel_x/src/main/cpp/rkx_jni.cpp:418-436 | a datagram of encoded events leads to one call for each, in order, with its values |
| `RuleRequest.AddRequest` | Develop/rekernel_x/src/main/cpp/rkx_jni.cpp:523-557 | for every name: a request is ready exactly when the client may ask and the 16-bit length of the name with its NUL is at most 216, and holds what was put of the name, the code and the strategy; the put of the name leaves the buffer exactly when that length is above 65528 |
| `RuleRequest.DelRequest` | Develop/rekernel_x/src/main/cpp/rkx_jni.cpp:567-600 | the same for name and code, up to a length of 224 |
| `RuleRequest.NameOutsideExactly` | Develop/rekernel_x/src/main/cpp/rkx_nla.h:164-166 | for every name, its put leaves the 256 bytes of the request if and only if its 16-bit length is above 65528, and is stored if and only if that length is at most 232 |
| `RuleRequest.LongNames` | Develop/rekernel_x/src/main/cpp/rkx_nla.h:164-166 | a name of 65528 bytes leaves the buffer, and of one of 65539 bytes the first four are put |
| `RuleRequest.PolicyIsTheBound` | LKM-Source/rkx_genl.c:101-107 | the attribute policy lets through what is put of a name exactly when the name has under 140 bytes; parts of longer names are refused |
| `RuleRequest.GenlAdd` | LKM-Source/rkx_genl.c:56-78 | the handler adds the rule of any request that has the three attributes and passes the policy, and reports success exactly when the table took it |
| `RuleRequest.GenlDel` | LKM-Source/rkx_genl.c:80-99 | the handler deletes the rule of a request with name and code |
| `RuleRequest.Dispatch` | LKM-Source/rkx_genl.c:109-142 | a whole message to the module's family with the request flag is handed to the add or delete handler by its command; any other message touches no rule |
| `RuleRequest.RequestReads` | Develop/rekernel_x/src/main/cpp/rkx_nla.h:138-171 | in what the client sends the kernel reads its own length, the family, the request flag, the sequence number, the command and the version |
| `RuleRequest.RequestMeans` | LKM-Source/rkx_genl.c:70-72 | the handler takes from the client's request exactly the name, code and strategy put in, or refuses it when the name is too long, also when only a part of it was put |
| `RuleRequest.AddFreeAsync` | Develop/rekernel_x/src/main/cpp/rkx_jni.cpp:523-564 | end to end, through the dispatch and for every name, unless the put of the name left its buffer: the kernel's map changes exactly by that rule, and only if the request was ready, went to the family the module is registered under, the name has under 140 bytes, the strategy modulo 256 is one of the three and memory was found |
| `RuleRequest.DelFreeAsync` | Develop/rekernel_x/src/main/cpp/rkx_jni.cpp:567-607 | end to end, through the dispatch and for every name, unless the put of the name left its buffer: the kernel's map loses exactly that rule if the request was ready and went to the module's family and the name has under 140 bytes, and otherwise stays |
| `ConnectionProof.StepKeeps` | Develop/rekernel_x/src/main/cpp/rkx_jni.cpp:326-467 | every atomic operation and system call of any number of threads keeps the invariant |
| `ConnectionProof.RunSound` | Develop/rekernel_x/src/main/cpp/rkx_jni.cpp:442-467 | in every interleaving only open descriptors are closed, and disconnect writes only to an open one |
| `ConnectionProof.ClosedOnce` | Develop/rekernel_x/src/main/cpp/rkx_jni.cpp:339-375 | no descriptor is closed by two steps of a run |
| `ConnectionProof.AtRest` | Develop/rekernel_x/src/main/cpp/rkx_jni.cpp:377-379 | whenever the mutex is free, socket, event descriptor and family are of one connection or all clear, and nothing else is open |
| `ConnectionProof.RunPollSound` | Develop/rekernel_x/src/main/cpp/rkx_jni.cpp:389-418 | one poller at a time always polls, reads and receives on two open descriptors of the same connection |
| `ConnectionWake.DisconnectHeard` | Develop/rekernel_x/src/main/cpp/rkx_jni.cpp:399-454 | with one poller at a time: from the write of a disconnect on, in every state its event descriptor is closed, or is still published and signalled or has a poller about to take it out, or is being taken out and closed |
| `ConnectionWake.DisconnectDone` | Develop/rekernel_x/src/main/cpp/rkx_jni.cpp:459-467 | a disconnect that finds a connection writes to its event descriptor: when it returns the connection is coming to its end |
| `ConnectionWake.DisconnectProgresses` | Develop/rekernel_x/src/main/cpp/rkx_jni.cpp:389-454 | until the descriptor is closed, some step of the poller or of the holder of the mutex is possible that brings the close nearer; the poller never waits for anything but the mutex |
| `ConnectionProof.TwoPollersClash` | Develop/rekernel_x/src/main/cpp/rkx_jni.cpp:389-454 | there is a run from the start, with one thread that connects and disconnects and two that poll, at whose end one is about to poll closed descriptors |
| `Registration.RunSafe` | LKM-Source/rkx_binder_kp.c:210-218 | in every run work is queued and run only on a queue that exists, and the queue is destroyed only when empty and out of reach |
| `Registration.QueueOutlivesProbe` | LKM-Source/rkx_binder_kp.c:288-349 | whenever the probe is registered or a handler runs, the work queue exists |
| `Registration.RegisterAllOrNothing` | LKM-Source/rkx_binder_kp.c:288-336 | when a registration returns, queue, pointer, probe and flag are all there if no step of it failed, and nothing is registered, pending or running if one did |
| `Registration.UnregisterLeavesQuiet` | LKM-Source/rkx_binder_kp.c:338-349 | however far registration got, when unregistering returns nothing is registered or pending and every queued free has run once, in order |
| `Registration.QuietStays` | LKM-Source/rkx_binder_kp.c:338-349 | in every run, from then until the next registration, however often unregistering is called again, all stays quiet, no step hits the probe or queues or runs work, and none of these is possible |
| `Registration.UnregisterProgresses` | LKM-Source/rkx_binder_kp.c:338-349 | unregistering always has a step that brings it nearer its end |

## Left out

- The binder driver itself is not part of the repository: how it creates, enqueues, hands over, delivers and drains transactions, frees a process, and that a sender holds a reference, is modelled from what the module relies on.
- Probe.Driver.Pre: takes the buffers of the sender and of the listed transactions to be live and complete in the allocator; Probe.UndeliveredShown derives that from how the driver keeps its records, and the scan itself is specified without it.
- Probe.Driver.FreeTxnFunc: stated for a worker that is not interrupted; its three steps interleave with everything else in the step system.
- RuleTable.FreeAsyncTable.Lookup: stated without concurrent writers; those are in the RuleRcuProof members.
- NlAttr.NlaBuilder.PutAttr: stops where put would write behind its buffer; what memory holds after that is not modelled, nor what RuleRequest.AddFreeAsync and RuleRequest.DelFreeAsync do from there.
- RuleRequest.GenlAdd: the policy is applied to the attributes the handlers use.
- RuleRequest.Dispatch: of the generic netlink core it models the tests of length, request flag, family and command; acknowledgements, permissions and several messages in one buffer are not modelled.
- PollWalk.HandleDatagram: stops where the loop would leave the received bytes; what would be read there is not modelled.
- Connection: descriptors are numbered as they are opened, so that the reuse of a closed number by the system is not modelled; setting and releasing the Java callback is left out.
- jhash is any function of the name; memory allocation, the frozen state of a task, poll and the outcome of system calls are inputs of the steps.
- Memory ordering below sequential consistency, and lock contention, are not modelled.
- Resolution of kernel symbols and of the netlink family, socket traffic, logging and statistics counters: input and output only.
- rkx_netuid.c and the monitor requests: the same shapes as the rule table and rule requests, with less in them.
- rkx_netfilter.c, rkx_signal.c, rkx_frozen.c, the tracepoint hooks of rkx_binder.c except the name loop, and rkx.c: single-branch filters and wiring.
