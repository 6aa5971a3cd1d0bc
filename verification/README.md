# A model of the banking server

A preforked TLS banking server keeps at most 100 accounts in shared memory, a separate server issues
one-time passwords, and clients talk to the bank in fixed-size packets. This project models that system
and proves what it keeps, over all inputs, all runs and all interleavings. `dafny verify dfyconfig.toml`
checks everything.

| file | what it models |
|---|---|
| Crypto.dfy | the 16-bit wrapping byte sum, and exactly which changes it notices |
| Protocol.dfy | the 1036-byte packet: packing, unpacking, damage |
| Accounts.dfy | the account table as a class over an array of slots, and `Apply`, one operation on the table as a value |
| AccountRuns.dfy | runs of operations: the table is a map from id to balance, with the exact exception; money |
| Answers.dfy | what the bank answers: on the map, and from the operations and answers so far alone, for runs and for any number of workers |
| Machine.dfy | the same operations under N workers (N arbitrary), one atomic step per lock operation, slot test, read and write |
| Linearizability.dfy | the table that runs ahead of memory, and its step by step agreement with the sequential run |
| Interleavings.dfy | whole runs: linearizability in real time, deadlock freedom, termination |
| Safety.dfy | races, overdrafts, conservation |
| Otp.dfy, OtpRuns.dfy | the first-fit password table as a map from account to stack of codes; one-time use |
| Server.dfy | request structs, dispatch, responses, and the packet loop of a worker |
| Service.dfy, ServiceRuns.dfy | the whole server: N workers in their packet loops over the concurrent database; it answers as one packet loop |
| Replies.dfy | what the clients of one and of N workers read from the replies |
| Stress.dfy | the stress test as an interleaving of exchanges, byte for byte over the wire |
| StressPasswords.dfy, StressBank.dfy, StressLimits.dfy | its outcome: passwords, accounts, and what happens to more than 100 clients |
| StressClient.dfy | one client thread as a program against one worker |
| StressService.dfy, ConcurrentStress.dfy, StressProgress.dfy | the clients against the whole server, served at the same time: same outcome, and every run can be finished |

How to read it:

- An id or code is the content of a C string (`seq<byte>`), of any length. Amounts are `real`, and every
  double addition or subtraction goes through a rounding function `rnd`. Linearizability and the packet
  loop hold for every `rnd`, the overdraft theorem for every monotone one that fixes 0, conservation
  for exact sums, the stress test when the sums that occur are exact (they are integers far below 2^53).
- The server forks five workers (server/banking_server.c:30, 444-459), and a worker serves one connection to
  its end before it accepts the next (lines 287-354); a stress client keeps one connection for all its rounds.
  The number of workers is a parameter `workers` of the theorems; `World.peak` is the largest number of clients
  that an interleaving has had in service (begun and not finished) at one time. Every run of the server with N
  workers is an interleaving with a peak of at most N (`ServedAsPlayed`).
- What the bank promises is stated in Answers.dfy without reference to the code's own functions: `Due` gives the
  answer to an operation from the operations and answers so far, in literals. Every other theorem about answers
  goes back to `Apply`, `ApplyMap` and `Settle`, which these rules determine.
- In `Machine`, `order` lists the operations as they acquired `db_lock`; a call whose arguments are
  rejected never takes the lock and is placed where it is rejected. `records` and `now` are history only.
- The request structs before they are filled, the memory behind a packet, uninitialised variables, `rand()`,
  the clock and the printed texts are parameters (`Arrival`, `Env`, `Turn`), so every theorem is about all
  their values.

Findings about the code:

- `account_create` looks for the full id but stores at most 19 characters. Ids therefore stay distinct
  exactly as long as no create of a longer id takes a slot whose shortened form is already there
  (`DistinctKeptExactly`, `RunDistinctExactly`, `SameLongIdTwice`), and the table is a map exactly as long
  as no create of a longer id takes a slot at all (`RefinesMapExactly`, `RunRefinesMapExactly`).
- The limit of the stress test is not the password table but the account table. With five workers no password
  request is ever turned down, for any number of clients (`CapacityIsExact`: it takes more than 100 workers and
  more than 100 clients). But a run of more than 100 clients that finishes has locked out some of them: all
  their creates are answered -3 and all their deposits -2 (`LimitIsExact`, `LockedOutExactly`); the stress
  client ignores these answers.
- The length field of a packet is not checked before the checksum is taken. Exactly the lengths from 12 to 1036
  keep the reads inside the packet (`ReadsInsideExactly`); with any other the worker reads on behind it and
  faults or refuses the packet (`ReceivedExactly`). A faulting worker is not replaced.
- A create packet can carry a 20-character id: an id that fills its field runs on into the amount, and stops
  there if the amount's first byte is 0 (`LongIdArrives`), as it is for 0 and for 1000.
- A new password does not always supersede the old one: first-fit may put it below a live entry of the same
  account, and the older code is accepted again once the newer is used (`OlderCodeRevives`);
  `SupersedesExactly` says exactly when it does supersede.
- The code departs from its comments and headers, and the model follows the code: the header has 12 bytes,
  not the 8 of the comment at common/include/protocol.h:4; create returns -2 for an existing id and -3 for a
  full table, not the -4 and -5 of common/include/protocol.h:31-32; a code's lifetime of five minutes is
  written but never read; the stress client stops its flow after the deposit.

## Model

| member | source | states |
|---|---|---|
| Crypto.CalculateChecksum | common/src/crypto.c:5-12 | the loop with its wrapping accumulator returns the exact byte sum modulo 65536 |
| Crypto.VerifyChecksum | common/src/crypto.c:30-33 | true exactly when the received value is that sum |
| Crypto.UnnoticedExactly | common/src/crypto.c:5-12 | two equally long byte strings have one checksum iff their differences sum to a multiple of 65536 |
| Crypto.FewChangesUnnoticedExactly | common/src/crypto.c:5-12 | with at most 257 changed bytes: iff the differences sum to exactly 0 |
| Crypto.RisingChangesNoticed | common/src/crypto.c:5-12 | any increase of up to 257 bytes changes the checksum |
| Crypto.SingleByteNoticed | common/src/crypto.c:5-12 | any change of one byte changes the checksum |
| Crypto.BoundIsSharp | common/src/crypto.c:5-12 | 257 cannot be raised: an increase of all of 258 bytes can go unnoticed |
| Protocol.ReadsInsideExactly | common/src/protocol.c:13-18 | the bytes that the checksum reads all lie in the packet iff the length field is from 12 to 1036 |
| Protocol.BankingPacket.VerifyChecksum | common/src/protocol.c:13-22 | for every length field: 0 iff the bytes it covers, behind the packet too, sum to the stored checksum; a fault iff they run off the memory |
| Protocol.CoveredExactly | common/src/protocol.c:15-18 | the bytes checked are those of the packet from byte 12 on and then of the memory behind it; a fault iff there are too few |
| Protocol.ReceivedExactly | common/src/protocol.c:50-64 | in range the memory behind the packet does not matter; out of range a receiver of up to 1024 bytes faults or refuses, whatever lies there |
| Protocol.BankingPacket.PackRequest | common/src/protocol.c:25-47 | the whole image after packing is header, payload and zeros, the header fields spelled out in bytes, most significant first; refused and unchanged above 1024 bytes |
| Protocol.BankingPacket.UnpackRequest | common/src/protocol.c:50-64 | for every length field: on success the buffer holds the bytes it covers followed by its own old tail; on refusal or fault it is unchanged |
| Protocol.FieldsRead | common/src/protocol.c:15-21 | what a receiver reads as length, opcode and checksum, from the bytes of any packet, most significant first; and the number of bytes it checks, with the wrap-around of size_t |
| Protocol.HeaderBytes | common/src/protocol.c:33-44 | byte by byte: length plus 12, opcode and byte sum modulo 65536 stand in bytes 0-3, 4-5 and 6-7, the most significant first; the data from byte 12 on |
| Protocol.PacketFields | common/src/protocol.c:30-44 | the receiver reads from a packed packet the length, opcode, checksum, request id and data that were packed |
| Protocol.RoundTrip | common/src/protocol.c:25-72 | unpacking a packed payload gives exactly that payload, for every opcode, payload and buffer size; -1 iff the buffer is too small |
| Protocol.DataChangeUnnoticedExactly | common/src/protocol.c:13-22 | data changed under an intact header passes iff the differences sum to 0 modulo 65536 (to 0 for up to 257 changes) |
| Protocol.AlteredLength | common/src/protocol.c:50-62 | a larger length passes the checksum and fails the size test; a smaller one is accepted iff the cut-off bytes sum to 0 modulo 65536 |
| Accounts.AccountDB.constructor | common/src/account.c:7-30 | the empty table, all slots inactive |
| Accounts.Truncate | common/src/account.c:66-67 | an id of up to 19 characters is kept, of a longer one exactly the first 19 |
| Accounts.Find | common/src/account.c:33-43 | the first active slot with the id, -1 iff there is none |
| Accounts.AccountDB.Lookup | common/src/account.c:33-43 | the linear scan finds that slot |
| Accounts.AccountDB.CreateAccount | common/src/account.c:46-77 | the new table and the code of a create on the old one; active slots stay the prefix below the count |
| Accounts.AccountDB.MakeDeposit | common/src/account.c:80-104 | the new table, code and balance of a deposit on the old one |
| Accounts.AccountDB.MakeWithdrawal | common/src/account.c:107-137 | the same for a withdrawal, unchanged when funds are short |
| Accounts.AccountDB.GetBalance | common/src/account.c:140-160 | the code and the balance of a query; nothing changes |
| AccountRuns.SlotsAreKept | common/src/account.c:36-77 | no operation gives up a slot or changes a stored id; the count never falls and never exceeds 100 |
| AccountRuns.DistinctKeptExactly | common/src/account.c:53-67 | an operation keeps ids distinct iff it is not a create of an over-long id whose shortened form exists |
| AccountRuns.RunDistinctExactly | common/src/account.c:46-77 | over any run ids are distinct at the end iff no create clashed |
| AccountRuns.SameLongIdTwice | common/src/account.c:53-67 | creating one 20-character id twice succeeds twice |
| AccountRuns.RefinesMapExactly | common/src/account.c:33-160 | every answer is that of a map from id to balance with room for 100; the table moves as the map does iff no over-long id takes a slot; so create succeeds iff the balance is not negative, the id is new and there is room |
| AccountRuns.RunRefinesMapExactly | common/src/account.c:33-160 | run table and run map agree iff no over-long id took a slot on the way; as long as none did, all answers agree too |
| AccountRuns.TotalApply | common/src/account.c:46-160 | an operation changes the sum of balances by exactly its amount when it succeeds, by 0 otherwise |
| AccountRuns.RunTotal | common/src/account.c:46-160 | over a run the balances add up to creates plus deposits less withdrawals |
| Answers.CreateAnswer | common/src/account.c:46-77 | on the map: 0 iff initial >= 0, the id is new and there are fewer than 100; -1 iff initial < 0; -2 and -3 exactly for an existing id and a full table |
| Answers.DepositAnswer | common/src/account.c:80-104 | on the map: 0 iff amount > 0 and the id exists, reporting and storing balance plus amount; -1 iff amount <= 0; -2 iff the id is missing |
| Answers.WithdrawAnswer | common/src/account.c:107-137 | on the map: 0 iff amount > 0, the id exists and holds at least that, reporting and storing balance minus amount; -1, -2, -3 exactly for a bad amount, a missing id, short funds |
| Answers.QueryAnswer | common/src/account.c:140-160 | on the map: a query reports the balance, or -2 iff the id is missing, and changes nothing |
| Answers.RunIsConsistent | common/src/account.c:33-160 | in every run, over-long ids included, every answer follows by plain rules from the operations and answers before it alone |
| Answers.ReportsAddUp | common/src/account.c:94-103 | after a successful operation on an account the next one on it goes on from the balance that was reported, whatever other accounts do: a query repeats it, a deposit adds to it, a withdrawal takes from it iff it is enough |
| Answers.ReportsAddUpExactly | common/src/account.c:96-97 | with exact sums the reported balances of a run are the last reported one plus or minus the amount |
| Answers.ConcurrentAnswers | common/src/account.c:46-160 | the same of what is returned under any number of workers and any interleaving |
| Answers.ConcurrentReportsAddUp | common/src/account.c:80-160 | what one call returned, the next call on the account by any worker goes on from |
| Machine.InitCoherent | common/src/account.c:7-30 | the initial state meets the lock and memory invariant |
| Machine.StepCoherent | common/src/account.c:46-160 | every step of every worker keeps it: each lock has the one owner its program counter says, slots below the count are active, and what each worker has learnt about memory stays true |
| Machine.NoSharing | common/src/account.c:92-102 | two workers never hold the same lock |
| Linearizability.AbstractStep | common/src/account.c:46-160 | the table with all pending work applied changes only when an operation takes its place, and then by that operation |
| Linearizability.StepAgrees | common/src/account.c:46-160 | every step keeps shared memory, local values and promised results in agreement with the sequential run |
| Interleavings.Linearizable | common/src/account.c:46-160 | in every interleaving of any number of workers each returned result is that of the sequential run in db_lock order, placed between invocation and return, respecting real time and each worker's own order |
| Interleavings.ConcurrentBankIsMap | common/src/account.c:46-160 | with ids that fit, each returned result is what the map from id to balance answers |
| Interleavings.FinishedMemory | common/src/account.c:46-160 | when all requests are served memory is the sequential table, and every request was placed once and answered |
| Interleavings.NoDeadlock | common/src/account.c:83-102 | in every coherent state with an unserved request some worker can step |
| Interleavings.StepWork | common/src/account.c:36-160 | every step of any worker lowers the total work left |
| Interleavings.RunsAreBounded | common/src/account.c:36-160 | no run without idle steps is longer than the work at its start |
| Interleavings.CanComplete | common/src/account.c:36-160 | from every reachable state all requests can be completed |
| Safety.WritesOnly | common/src/account.c:65-70 | a step changes no location outside its declared writes |
| Safety.ReadsOnly | common/src/account.c:36-70 | control flow and every value written (id, balance, active, count) depend on the declared reads alone |
| Safety.RaceFree | common/src/account.c:65-129 | no two workers are about to touch one location with one of them writing it, though create takes no account lock |
| Safety.BalanceStableWhileHeld | common/src/account.c:119-129 | nobody else changes a balance between a withdrawal's test and its write |
| Safety.NoOverdraft | common/src/account.c:119-129 | under any monotone rounding every balance in every reachable state is at least 0 |
| Safety.Conservation | common/src/account.c:46-160 | in every reachable state the balances in memory add up to the creates and deposits that were written less the withdrawals that were written |
| Otp.Slot | otp_server/otp_server.c:41-46 | the first slot that is free or bears the account |
| Otp.Top | otp_server/otp_server.c:68-78 | the first live slot of the account |
| Otp.CodeIsNumber | otp_server/otp_server.c:50-51 | the code, read as a number, is the draw modulo 900000 plus 100000; it has six digits and does not start with 0 |
| Otp.SameCodeExactly | otp_server/otp_server.c:50-51 | two draws give one code iff they agree modulo 900000 |
| Otp.CodesAreExactly | otp_server/otp_server.c:50-51 | a text is a possible code iff it is six digits not starting with 0 |
| Otp.CodeCount | otp_server/otp_server.c:50-51 | the draws below n give n codes, and any draw gives one of them iff its remainder is below n; so there are exactly 900000 |
| Otp.OtpServer.Generate | otp_server/otp_server.c:37-63 | the new table, success and code of a generate on the old table; the number that the code stands for, and the expiry |
| Otp.OtpServer.Verify | otp_server/otp_server.c:65-89 | the new table and success of a verify on the old table |
| Otp.GenerateRefines | otp_server/otp_server.c:41-63 | generate pushes on or replaces the top of the account's stack, touches no other account, and is refused iff every slot is live for other accounts |
| Otp.VerifyRefines | otp_server/otp_server.c:68-89 | verify succeeds iff the top equals the guess and then pops it; otherwise nothing changes, and other accounts never do |
| Otp.SupersedesExactly | otp_server/otp_server.c:41-57 | a new code leaves no older one valid iff the stack was empty, or had one code and that was overwritten |
| OtpRuns.LiveSlotIssued | otp_server/otp_server.c:48-57 | every live slot holds what an earlier successful generate put there |
| OtpRuns.SourcesOrdered | otp_server/otp_server.c:41-57 | of two live slots of one account the lower was issued later |
| OtpRuns.MatchIsEarlier | otp_server/otp_server.c:68-75 | a successful verify consumes an earlier successful generate of its account and code |
| OtpRuns.OneTimeUse | otp_server/otp_server.c:68-75 | two successful verifies never consume the same generate |
| OtpRuns.CodesAccountedFor | otp_server/otp_server.c:37-89 | codes issued to an account = overwritten + used + still live; so logins never exceed issues |
| OtpRuns.SlotsAccountedFor | otp_server/otp_server.c:39-75 | live slots = generates into free slots less successful verifies, at most 100; refusal iff all 100 are live for others |
| OtpRuns.StackIsolated | otp_server/otp_server.c:37-89 | other accounts' requests and wrong guesses leave an account's stack alone |
| OtpRuns.NewestCodeStaysFresh | otp_server/otp_server.c:41-78 | after any such requests the newest code still works, once, and removes exactly its entry |
| OtpRuns.OlderCodeRevives | otp_server/otp_server.c:41-46 | a run in which both the newer and the older code of one account are accepted |
| Server.CStrEnds | common/src/account.c:38 | a string ends at the first NUL, or with the bytes |
| Server.CStrField | server/banking_server.c:78-83 | a string shorter than its field is read back whatever follows the field |
| Server.RequestRoundTrip | server/banking_server.c:119-259 | for all six operations the server understands what the client's opcode and struct ask |
| Server.PacketsMean | server/banking_server.c:117-259 | for each of the six opcodes: a packet that starts with these literal bytes and has the right byte sum asks for this operation, its fields read at these places |
| Server.ShortStruct | server/banking_server.c:121-122 | a payload shorter than its struct leaves the rest of the struct as the stack had it |
| Server.LongIdArrives | server/banking_server.c:119-125 | a create packet with 20 id bytes, none of them NUL, and an amount whose first byte is 0 asks for a create of that 20-character id |
| Server.ReplyRoundTrip | common/src/protocol.c:66-72 | unpacking a packed response gives back status, message and balance |
| Server.ReplyBytes | common/src/protocol.c:66-72 | a reply byte by byte: header, status with the least significant byte first, message and NUL, balance |
| Server.Worker.Operate | server/banking_server.c:120-259 | the bank call of an operation: new table, code, and the balance for the response |
| Server.Worker.ReadRequest | server/banking_server.c:117-122 | the request decoded from the packet, the tail of a short payload left as it was |
| Server.Worker.ProcessRequest | server/banking_server.c:113-271 | new state of both servers and response, as specified for the decoded request |
| Server.Worker.Respond | server/banking_server.c:332-348 | one round of the loop on any full-size packet: new state and reply packet, a bad checksum included; no reply and no change iff the checksum faults |
| Server.Worker.ServeConnection | server/banking_server.c:319-349 | on any input: every packet is answered in order up to the first of another size, or that faults, and the state is that of this run; the worker survives iff it was not a fault |
| Server.StateIsRunOfRequests | server/banking_server.c:113-349 | the bank and the password server see exactly the requests decoded from intact packets, in order |
| Server.RepliesCarryResponses | server/banking_server.c:266-271 | one reply per packet; from the k-th the client reads the k-th response |
| Server.LoopRefinesBank | server/banking_server.c:113-349 | the k-th response has the status and balance of the map from id to balance after the earlier requests; password requests are answered as in PasswordsAnswered; rejected packets get -1 and change nothing |
| Server.PasswordsAnswered | server/banking_server.c:200-234 | after any packets: a login is accepted iff its code is the newest live one of its account, and -1 otherwise; a code is refused with -1 iff all 100 slots are live for others, and otherwise announced in the message and the newest one |
| Stress.RequestArrives | stress_test/stress_client.c:48-52 | the server reads exactly the struct the client filled |
| Stress.ReplyArrives | stress_test/stress_client.c:54-58 | the client unpacks exactly the server's status and message |
| Stress.CodeExtracted | stress_test/stress_client.c:127-130 | the code found after ": " in the message is the code that was issued |
| Stress.WireIsTransparent | stress_test/stress_client.c:48-59 | packing, checking, unpacking and parsing change nothing about an exchange |
| Stress.PlayIsTale | stress_test/stress_client.c:48-59 | ... nor about whole interleavings: bytes exchanged over the wire are requests and responses exchanged |
| StressPasswords.PasswordStep | stress_test/stress_client.c:122-138 | with a free slot every password request and every login succeeds, and each stack holds just its client's code |
| StressPasswords.CapacityIsExact | stress_test/stress_client.c:84-148 | no interleaving that a server with n workers can play turns a password request down iff n <= 100 or there are at most 100 clients; so never with five |
| StressBank.BankStep | stress_test/stress_client.c:116-142 | for any number of clients each request gets the status that is due, and every account stays in step with its client |
| StressBank.StressTest | stress_test/stress_client.c:104-145 | any number of clients, at most 100 in service together: password requests and logins succeed, creates and deposits get 0, -2 or -3 as due, an account holds 1000 + 100 for each finished round, and a client without one has met 100 others |
| StressLimits.AccountsAtTheEnd | stress_test/stress_client.c:104-148 | when all are through there are min(n, 100) accounts of n clients, each with 1000 + 100 for every round |
| StressLimits.LockedOutExactly | stress_test/stress_client.c:116-142 | a client has no account iff all its creates so far got -3 and all its deposits -2 |
| StressLimits.LimitIsExact | stress_test/stress_client.c:104-148 | a run that has finished has locked some client out iff there are more than 100 clients |
| StressLimits.CanFinish | stress_test/stress_client.c:104-148 | every interleaving can be finished without another worker |
| StressClient.PerformRequest | stress_test/stress_client.c:48-59 | the packet program computes the exchange of the model, whatever memory lies behind the client's packet |
| StressClient.WorkerThread | stress_test/stress_client.c:110-155 | the loop plays the single-client game and ends with 1000 + 100 for every round |
| Stress.OnlyAfterSuccess | stress_test/stress_client.c:121-141 | in every interleaving a client logs in only with the text that its last exchange, a password request answered 0, has after the first ": ", and deposits only if its last exchange was a login answered 0 |
| Service.NextKeeps | server/banking_server.c:274-354 | every step of every worker keeps the invariant that ties the concurrent database, the password table and each worker's packet to one log of packets |
| ServiceRuns.ServerIsPacketLoop | server/banking_server.c:287-354 | N workers, any interleaving: the packets of all connections have an order, each worker's own kept and real time respected, such that every reply is the one a single packet loop sends there and both servers are where it leaves them |
| ServiceRuns.AllAnsweredAtRest | server/banking_server.c:287-354 | when no worker has a packet in hand, every packet read has its place and its answer, and shared memory is what the single loop leaves |
| ServiceRuns.RepliesAreOfTheMap | server/banking_server.c:113-349 | read off the wire, every reply of the concurrent server to a bank request has the status and balance of the map from id to balance after the bank requests placed before it |
| Replies.LoopAnswers | server/banking_server.c:119-259 | the response to a bank request is the answer that is due after the earlier requests and answers, a create echoing its initial balance |
| Replies.ServerAnswers | server/banking_server.c:113-349 | what the clients of N workers read from the replies to bank requests, over-long ids included, follows by the plain rules from the requests and answers placed before |
| Replies.ServerPasswords | server/banking_server.c:200-234 | what they read from the replies to password requests: accepted iff the code is the newest of its account, refused iff all slots are live for others, on the table that the requests placed before leave |
| StressService.NextKeeps | stress_test/stress_client.c:84-148 | every move of clients, connections and workers keeps the server's log in step with an interleaving of single exchanges |
| ConcurrentStress.ServedAsPlayed | server/banking_server.c:287-354 | clients served at the same time by N workers take part in an interleaving with at most N in service, and with no request under way memory, passwords and clients are where it leads |
| ConcurrentStress.StressTestOnServer | stress_test/stress_client.c:104-145 | the stress test on the concurrent server: every reply has the status that is due, and when all clients are through shared memory holds their accounts, or 100 of them, with 1000 + 100 for every round, and some client has been locked out iff there are more than 100 |
| StressProgress.AllCanGetThrough | server/banking_server.c:287-354 | from every reachable state of the server and its clients all clients can get through |

## Left out

- TLS, sockets, certificates, signals, fork, System V shared memory, `account_cleanup` and the `main` functions; of these only that initialisation precedes the workers.
- Lost connections, a full backlog, short reads and writes, and workers that die holding a lock.
- NaN and infinite balances, and overflow to infinity; the rounding of finite doubles is the parameter `rnd`, and the bytes of a double are read and written by the parameters `dec` and `enc`.
- The content of the memory behind a packet: it is the parameter `beyond`, and a fault comes where it ends. `size_t` has 64 bits.
- A request struct without any NUL byte: the code reads on behind the struct, the model's string ends with it.
- Starvation of one worker by an endless stream of requests: nothing in the code makes the mutexes fair.
- Any claim that a login is needed for a deposit or a withdrawal: the server keeps no session.
- Matching replies by request id: replies carry an id of their own.
- Password expiry: it is stored and never read.
- The wording of replies other than "OTP Generated: ", and the log lines, which read the balance once more under the same lock.
- client/src, which the Makefile does not build, the menus of client/banking_client.c, and latency statistics.
- Machine.Step: the concurrent database and its locks are values and a step function rather than heap objects, because every interleaving is quantified over; the class `AccountDB` has the loops and the updates in place but no locks, and both are proved against `Apply`.
- Service.Next: workers, desks and connections are values for the same reason (one worker's program is the class `Server.Worker`); the exchange of a worker with the password server is one step, because that server serves one connection at a time.
- StressBank.StressTest: the client ids are given as distinct strings of at most 19 characters; that process and thread numbers make them so is not modelled.
