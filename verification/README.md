# Verified models of the Dropbear port and the littlefs checksum

A Dafny 4.11 project beside the Lua-RTOS-ESP32 sources. It models the parts of the SSH server and of the file
system utilities whose correctness is least obvious from the code, and proves what they are for. All files verify
together: `dafny verify dfyconfig.toml`.

## What is modelled

**Curve25519** (`Limbs`, `Field`, `Reduce`, `Ladder`, `CMult`, `Recip`, `Expand`, `Contract`, `Donna`, with the
reference in `Rfc7748`). Field elements are ten signed limbs in 64-bit words; `limb` is a newtype, so every step is
proved to stay inside int64. The arrays are updated in place as in the C code. The chain of results leads from the
schoolbook product up to `Curve25519Donna`, which is tied to the ladder of section 5 of RFC 7748. Two things the code
does are followed and not corrected: bit 255 of the point is not masked, and the output is below 2^255 but not always
below p. `StepCount` shows that the 256 steps of the code give the result of the 255 steps of the RFC; that 2^255 - 19
is prime is proved by `Primality` and `Certificate`. The inner loop of
`cmult` is written two rounds at a time, because after two rounds every pointer is back in place.

**Channels** (`CircBuffer`, `Channel`, `ChannelTable`, `FlowControl`). `Chan` is a server channel with its ring
buffer, flow control and EOF/CLOSE handling; reads, writes and the answers of the channel type are inputs, so `Run`
covers every behaviour of the environment, and `ChannelTable` holds such channels side by side. `FlowControl` puts two
peers together with packets under way in both directions and packets held back during key exchanges; its last part
shows that what a `Chan` does is a step of such a peer.

**Transport** (`Kex`, `KexServer`, `Packet`, `PacketIO`, `WriteQueue`, `Transport`, `KeyDerivation`, `Exchange`,
`Algo`). Key exchanges are a state machine over the flags of the session, run against any peer that follows section 7
of RFC 4253, wrong guesses included. Framing and reassembly work for any cipher that is a length-preserving stateful
bijection on blocks of 8 or 16 bytes and any MAC; the stream between the two ends is cut into reads and writes
arbitrarily, and the keys change at every NEWKEYS.

**Signatures and keys** (`Dss`, `GenDss`, `Rsa`, `GenRsa`, `RsaEqualPrimes`, `Mpint`, `Ber`, `KeyImport`, `KeyFiles`).
libtommath calls stand for their mathematical meaning. The number theory they need (Fermat's little theorem, Bezout,
roots of polynomials modulo a prime) is proved in `ModArith`, `Fermat` and `Lagrange`.

**Checksum** (`Crc`, `LfsCrc`). The nibble table against the bitwise register.

Conventions: `dropbear_exit` and a failed `dropbear_assert` end the session; they appear as a `halt` result, as
`None`, `Bad` or `Exit`, or as a `requires` that the callers are proved to meet. A session starts with an empty write
queue. Random numbers, clocks and the results of system calls are parameters. Some lemmas take a function as a
parameter together with a predicate that says which function it is (`Names`, `IsXor`, ...): this keeps definitions
from expanding in proofs and means nothing else.

Results that differ from what one might expect:

- Key generation for RSA never checks that the two primes differ. `Rsa.CorrectIffDistinct` proves that this is exactly
  the condition under which every message is recovered, and `RsaEqualPrimes.EqualPrimesHappen` gives random input for
  which the generator returns a key that fails.
- `buf_put_dss_sign` does not repeat for s = 0. `Dss.SignatureVerifies` proves that a signature verifies exactly if
  hash + x r is not a multiple of q, and `Dss.RefusedHash` gives a failing hash for every key and nonce.
- `close_chan_fd` with SHUT_RDWR leaves a separate errfd open for types with separate descriptors.
  `Channel.CloseAllCloses` gives the exact condition; no channel type of the server has such an errfd.
- The verdicts of client and server on a guessed key exchange packet can differ; `Algo.GuessesAgree` says exactly when.
- A packet sent on a wrong guess is ignored only if it is a KEXDH_INIT. One of another type is answered with
  UNIMPLEMENTED, the KEXDH_INIT that follows is ignored in its place, and the exchange is stuck
  (`KexServer.Server.AnsweredExactly`, `KexServer.StallsOnGroupExchange`).
- The BER reader takes a long identifier written with flags below 128 for zero (`Ber.ReadWrite`).
- The last borrow step of `fcontract` never borrows, and the padding rule for short packets never applies for block
  sizes 8 and 16.
- A session channel can send data after its EOF. A shell request is accepted as long as CLOSE has not been sent, the
  close handler has not run and no forced command is recorded, even if our EOF has been sent or a shell was started
  before. Where that holds, data after EOF can still come about (`Channel.Chan.StartTwice`), and where it does not,
  it cannot (`Channel.Chan.Run`). `Channel.DataAfterEof` is such a run.

## Model

| member | source | states |
|---|---|---|
| Field.FProduct | components/dropbear/curve25519-donna.c:101-202 | every limb of the result is the coefficient of the product of the two inputs, no step leaving 64 bits, for all inputs with even limbs up to 2^27 and odd limbs up to 2^26 |
| Field.FSquareInner | components/dropbear/curve25519-donna.c:336-391 | limb for limb the coefficients of the product of the input with itself, so the same limbs as the general product |
| Limbs.ProductValue | components/dropbear/curve25519-donna.c:101-202 | limbs that are the coefficients of a product stand for the product of the two numbers, with the doubled terms of odd limbs |
| Field.FReduceDegree | components/dropbear/curve25519-donna.c:205-233 | limbs 10 to 18 fold back with factor 19: the field element is unchanged and every limb stays below the 2^62 that the next step accepts |
| Limbs.FoldDegree | components/dropbear/curve25519-donna.c:205-233 | folding the upper limbs with factor 19 keeps the number modulo 2^255 - 19 |
| Reduce.DivBy2_26 | components/dropbear/curve25519-donna.c:241-252 | the shift with a rounding term is division towards zero by 2^26, for every 64-bit value |
| Reduce.DivBy2_25 | components/dropbear/curve25519-donna.c:255-266 | the same for 2^25 |
| Reduce.DivS32By2_25 | components/dropbear/curve25519-donna.c:268-276 | the same on 32 bits |
| Reduce.FReducePass | components/dropbear/curve25519-donna.c:279-310 | the carry chain keeps the number and leaves limbs 0 to 9 reduced |
| Reduce.FReduceCoefficients | components/dropbear/curve25519-donna.c:279-321 | the field element is unchanged, all limbs are reduced (limb 2 up to 2^26), and on an input that is already so every limb comes out strictly reduced |
| Reduce.FMul | components/dropbear/curve25519-donna.c:327-333 | the product in the field, reduced |
| Reduce.FSquare | components/dropbear/curve25519-donna.c:394-401 | the square in the field, reduced |
| Ladder.FSum | components/dropbear/curve25519-donna.c:70-75 | sum in the field of two elements whose sum stays within the bounds of the product |
| Ladder.FDifference | components/dropbear/curve25519-donna.c:81-86 | difference in the field, stored over the subtrahend |
| Ladder.FScalarProduct | components/dropbear/curve25519-donna.c:89-94 | multiple in the field, inside 64 bits |
| Ladder.FMonty | components/dropbear/curve25519-donna.c:520-566 | one ladder step of section 5 of RFC 7748 with a24 = 121665, on whatever limbs represent the four coordinates, and limbs fit for the next step |
| CMult.SwapConditional | components/dropbear/curve25519-donna.c:579-589 | the two arrays change places exactly if the flag is 1, by exclusive-or of signed 32-bit values |
| CMult.ScalarBit | components/dropbear/curve25519-donna.c:608-611 | the bit shifted out in round j of byte i is the bit of the scalar that the ladder needs |
| CMult.LadderByte | components/dropbear/curve25519-donna.c:608-637 | eight rounds of swap, step, swap back and pointer rotation process eight bits, and the pointers end where they were |
| CMult.CMult | components/dropbear/curve25519-donna.c:597-642 | for every scalar and point, X and Z of the abstract ladder of RFC 7748 over all bits of the scalar |
| Rfc7748.LazyIsEager | components/dropbear/curve25519-donna.c:613-621 | swapping back after every step, as the code does, gives what the delayed swap of the RFC gives |
| Recip.Extend | components/dropbear/curve25519-donna.c:676-704 | m squarings and a product turn z^(2^n - 1) and z^(2^m - 1) into z^(2^(n+m) - 1) |
| Recip.CRecip | components/dropbear/curve25519-donna.c:647-711 | the addition chain raises to exactly p - 2 |
| Expand.FExpand | components/dropbear/curve25519-donna.c:404-422 | the limbs stand for the whole 256-bit little-endian number: limb 9 takes 26 bits |
| Contract.BorrowPass | components/dropbear/curve25519-donna.c:436-462 | a borrow pass keeps the field element; after the first only limb 0 can be negative and only down to -19, after the second every limb is a digit |
| Contract.BorrowAll | components/dropbear/curve25519-donna.c:436-482 | all limbs are digits in the end; the last step from limb 0 to limb 1 never borrows |
| Contract.FContract | components/dropbear/curve25519-donna.c:431-509 | the bytes are a number below 2^255 congruent to the element |
| Contract.PutLimbValue | components/dropbear/curve25519-donna.c:483-508 | the or of overlapping bytes is their sum, since the earlier limbs leave exactly the low bits free |
| Donna.Curve25519Donna | components/dropbear/curve25519-donna.c:716-734 | output below 2^255 and congruent to X25519 of RFC 7748, with its 255 steps, of the clamped secret, for every secret and every 32-byte point |
| Donna.ClampedScalar | components/dropbear/curve25519-donna.c:722-725 | a clamped scalar is a multiple of 8 between 2^254 and 2^255 |
| StepCount.ExtraStep | components/dropbear/curve25519-donna.c:606-638 | the code takes 256 steps where the RFC takes 255: for every scalar below 2^255 the results are equal modulo p, for every point including u = 0 |
| Donna.SameAsRfc | components/dropbear/curve25519-donna.c:716-734 | on every clamped secret the 256 steps of the code compute the function of RFC 7748 with 255 steps |
| Primality.SievedPrime | components/dropbear/curve25519-donna.c:644-646 | Pocklington's criterion: a number whose predecessor has a big enough factor with an element of that order is prime |
| Certificate.PrimeP | components/dropbear/curve25519-donna.c:644-646 | 2^255 - 19, the modulus of the field, is prime, so that raising to p - 2 inverts |
| CircBuffer.Ring.ModularAssertions | components/dropbear/circbuffer.c:73-75 | the three assertions on the positions never fail |
| CircBuffer.Ring.WriteLen | components/dropbear/circbuffer.c:71-88 | room without wrapping around; zero exactly when full |
| CircBuffer.Ring.ReadPtrs | components/dropbear/circbuffer.c:90-102 | the two parts together are the contents, oldest first |
| CircBuffer.Ring.IncrWrite | components/dropbear/circbuffer.c:118-126 | the bytes at the write position join the end of the contents |
| CircBuffer.Ring.IncrRead | components/dropbear/circbuffer.c:129-133 | the oldest bytes leave the contents |
| CircBuffer.Ring.Append | components/dropbear/common-channel.c:866-883 | the append loop adds all the data to the contents and runs at most twice |
| Channel.CloseAllCloses | components/dropbear/common-channel.c:1077-1116 | after CLOSE all descriptors are closed, except exactly that a type with separate descriptors keeps an errfd of its own open |
| Channel.ErrfdSurvivesClose | components/dropbear/common-channel.c:1077-1116 | what CLOSE leaves open for a type with separate descriptors: an errfd that is not the readfd, and nothing else |
| Channel.OrderlyMeans | components/dropbear/common-channel.c:388-426 | what the message log guarantees by positions: nothing after CLOSE, no second EOF, and no data after EOF where the log says so |
| Channel.DataAfterEofMeans | components/dropbear/common-channel.c:388-426 | where the log does not say so, there is an EOF and later a data message |
| Channel.Chan.SendClose | components/dropbear/common-channel.c:388-410 | CLOSE is sent once, last, after the close handler ran, with everything closed |
| Channel.Chan.SendData | components/dropbear/common-channel.c:722-806 | one message with what was read, within window and packet size, or a closed descriptor, or nothing; the window shrinks by exactly what is sent |
| Channel.AfterReadConsistent | components/dropbear/common-channel.c:722-806 | reading and sending keeps the message log, the flags and the descriptors consistent |
| Channel.Chan.FlushOne | components/dropbear/common-channel.c:325-337 | after the program has exited, reads regardless of readiness, if there is a descriptor and a window |
| Channel.Chan.WriteOut | components/dropbear/common-channel.c:429-524 | what a partial write takes comes from the ring first and then from the new data, in both variants, and how much it is; an error closes the descriptor |
| Channel.Chan.WriteChannel | components/dropbear/common-channel.c:530-554 | after it fewer than a third of the window wait to be credited, and the window assertions hold |
| Channel.Chan.RecvData | components/dropbear/common-channel.c:820-886 | the session ends on data after EOF or beyond the window and on nothing else; otherwise the data is written or in the ring, in order |
| Channel.Chan.CheckClose | components/dropbear/common-channel.c:281-357 | the channel is removed exactly if the peer has sent CLOSE, nothing writable is pending and the type allows it, and then CLOSE has been sent; otherwise EOF and CLOSE have been sent if the descriptors call for it |
| Channel.Chan.RecvEnd | components/dropbear/common-channel.c:609-638 | EOF and CLOSE from the peer keep all invariants |
| Channel.Chan.RecvAdjust | components/dropbear/common-channel.c:891-905 | the send window grows by the increment, within both limits |
| Channel.Chan.RecvRequest | components/dropbear/common-channel.c:688-715 | nothing is sent and nothing opened after CLOSE; a program is started exactly if CLOSE has not been sent, the close handler has not run and no forced command is recorded, also if one was started before |
| Channel.Chan.SetFds | components/dropbear/svr-chansession.c:647-733 | setting the descriptors again keeps all invariants, also after a failed write or after our EOF |
| Channel.Chan.ChannelIo | components/dropbear/common-channel.c:204-264 | one round of input and output keeps all invariants and loses no received data |
| Channel.Chan.Run | components/dropbear/common-channel.c:204-264 | every sequence of events: bytes written followed by the ring are the bytes received, the window is fully accounted for until a write fails, at most one EOF and one CLOSE, close handler at most once and no check_close after it, removal only after CLOSE both ways; from a state in which no program may be started, no data will follow EOF |
| Channel.Chan.Step | components/dropbear/common-channel.c:204-264 | descriptors are set after our EOF exactly by a request that starts a program when EOF has been sent and a start is still possible |
| Channel.Chan.Reopen | components/dropbear/svr-chansession.c:647-733 | wherever EOF has been sent and a program may be started, three events lead to data after EOF |
| Channel.Chan.StartTwice | components/dropbear/svr-chansession.c:80-84 | the converse of the last part of Run: a session channel on which a program may be started, in any state, can come to send data after EOF if the peer takes packets that are not empty |
| Channel.DataAfterEof | components/dropbear/common-channel.c:281-357 | a run from a new session channel: EOF from the peer, a shell request, output of the shell; the messages sent have data after EOF |
| Channel.Chan.NoCreditDeadlock | components/dropbear/common-channel.c:541-551 | a window of zero means that more than the window less the credit threshold is waiting in the ring |
| ChannelTable.Table.NewChannel | components/dropbear/common-channel.c:109-178 | fails exactly if 1000 channels are open; else takes the lowest free number for a new channel in its initial state, moves no other channel and counts right |
| ChannelTable.Table.Open | components/dropbear/common-channel.c:109-178 | opening a channel keeps the invariants of all channels and shares nothing with them |
| ChannelTable.Table.Dispatch | components/dropbear/common-channel.c:204-264 | an event for a channel keeps the invariants of all of them and touches no other; the channel leaves the table exactly if it is removed; an unknown number ends the session |
| ChannelTable.Table.GetChannel | components/dropbear/common-channel.c:184-198 | finds exactly the open channels, each under its own number |
| ChannelTable.Table.RemoveChannel | components/dropbear/common-channel.c:642-684 | takes out that channel and no other |
| FlowControl.FlowControlled | components/dropbear/common-channel.c:530-554 | two peers, every interleaving with key exchanges, failing writes and restarts: no packet is ever oversized, no credit is created, and while all data reaches the local side, send window, data and credit under way or held back, and receiver state add up to the window |
| FlowControl.BytesKeep | components/dropbear/common-channel.c:820-886 | a delivered packet is within the receive window and the free space of the ring |
| FlowControl.NoDeadlock | components/dropbear/common-channel.c:530-554 | a sender without credit and nothing under way means that the receiver still has more than two thirds of its window to write |
| FlowControl.RecvDataSteps | components/dropbear/common-channel.c:820-886 | receiving data on a channel is a step of one of the two peers: same window, credit, ring and end of the session |
| FlowControl.WriteReadySteps | components/dropbear/common-channel.c:530-554 | so is writing from the ring, with or without an error |
| FlowControl.RecvAdjustSteps | components/dropbear/common-channel.c:891-905 | so is a window adjust message |
| FlowControl.SendDataSteps | components/dropbear/common-channel.c:722-806 | so is reading from the local side and sending what was read |
| KexServer.Server.DataAllowedExactly | components/dropbear/common-kex.c:105-108 | data is allowed except exactly between our KEXINIT and our NEWKEYS |
| KexServer.Server.SendKexinit | components/dropbear/common-kex.c:55-121 | KEXINIT is sent once per exchange, at a time when data is allowed |
| KexServer.Server.SwitchKeys | components/dropbear/common-kex.c:123-161 | each direction takes the new keys when its NEWKEYS has passed and they are ready; the exchange ends exactly when both have |
| KexServer.Server.RecvKexinit | components/dropbear/common-kex.c:456-530 | answers with our KEXINIT if it has not been sent, waits for KEXDH_INIT, and is set to ignore a packet exactly if the guess is found wrong |
| KexServer.Server.SendNewkeys | components/dropbear/common-kex.c:164-182 | NEWKEYS goes out under the old keys, what follows under the new |
| KexServer.Server.RecvKexdhInit | components/dropbear/svr-kex.c:46-85 | answers, switches our direction and waits for NEWKEYS |
| KexServer.Server.RecvNewkeys | components/dropbear/common-kex.c:185-193 | the new keys are freed only with both directions using them |
| KexServer.Server.ProcessPacket | components/dropbear/process-packet.c:43-160 | every packet of a conforming peer, including one sent on a wrong guess, is decrypted with the keys it was encrypted with and moves the exchange on |
| KexServer.Server.GateIs | components/dropbear/process-packet.c:85-137 | what the checks make of each packet of such a peer: a packet on a wrong guess is dropped if it is a KEXDH_INIT and answered with UNIMPLEMENTED otherwise; in the latter case it is the KEXDH_INIT that is dropped |
| KexServer.Server.AnsweredExactly | components/dropbear/process-packet.c:116-128 | in every reachable state in which the peer has sent its KEXDH_INIT, the server has answered it exactly if there was no wrong guess or the packet sent on it was a KEXDH_INIT |
| KexServer.Server.Exchange | components/dropbear/process-packet.c:85-128 | an exchange started by the peer completes exactly in these cases; else both sides wait with nothing under way |
| KexServer.StallsOnGroupExchange | components/dropbear/process-packet.c:95-107 | a run from a new session: a wrong guess with a packet of type 34 leaves the exchange stuck |
| KexServer.Server.React | components/dropbear/process-packet.c:139-158 | a packet type without a handler is answered with UNIMPLEMENTED, which disturbs nothing; only user authentication opens the gate for later types |
| KexServer.Server.SendOrdinary | components/dropbear/packet.c:430-511 | during a key exchange no service, authentication or connection packet goes out; it is held back |
| KexServer.Server.CheckTimeouts | components/dropbear/common-session.c:506-555 | rekeying and keepalives: an exchange is started unless one is going on |
| KexServer.Server.SendKex | components/dropbear/process-packet.c:169-180 | packets that are not held back go out at once and in order |
| KexServer.Server.MaybeFlush | components/dropbear/packet.c:461-481 | held packets go out once, in order |
| KexServer.Server.Turn | components/dropbear/common-session.c:149-277 | one turn of the main loop keeps all of this, and leaves nothing held back without need |
| KexServer.Server.PeerTakes | components/dropbear/common-kex.c:123-182 | a peer that switches at our NEWKEYS can decrypt every packet, and sees no forbidden packet during an exchange |
| KexServer.Server.Run | components/dropbear/common-kex.c:55-193 | any number of key exchanges started by either side: right keys for every packet, ordinary packets arrive once and in the order they were handed over, and an exchange that is stuck on a wrong guess stays so |
| Packet.PaddingFits | components/dropbear/packet.c:552-561 | at least four bytes of padding, a whole number of blocks, at least the minimum length |
| Packet.DecryptEncrypt | components/dropbear/packet.c:576-587 | block by block, decryption undoes encryption whatever the mode keeps as state |
| Packet.EncodeParts | components/dropbear/packet.c:485-613 | the first block decrypts on its own, the rest after it, and the MAC is at the end |
| Packet.NoCipherIsGood | components/dropbear/common-algo.c:40-93 | the null cipher and MAC of a new session fit the model of ciphers |
| Transport.Sender.EncryptPacket | components/dropbear/packet.c:485-613 | queues exactly the encoded packet; the buffer allocated for it is big enough |
| Transport.Sender.SendPacket | components/dropbear/common-kex.c:164-182 | NEWKEYS is the last packet under the old keys, and the sequence number goes on |
| PacketIO.Reader.Proceed | components/dropbear/common-kex.c:185-193 | the reader takes the next keys right after NEWKEYS, before anything more is read |
| WriteQueue.Writer.Enqueue | components/dropbear/packet.c:615-623 | the packet joins the unsent bytes and the count grows by its length |
| WriteQueue.Writer.Drop | components/dropbear/netio.c:269-285 | exactly the written bytes leave the queue, across packets and within one |
| WriteQueue.Writer.Offer | components/dropbear/netio.c:245-267 | the unsent bytes of the first packets, at most 50, which are not empty |
| WriteQueue.Writer.WritePacket | components/dropbear/packet.c:59-143 | bytes leave in order, each once, and writequeue_len is the number of unsent bytes |
| PacketIO.Reader.ReadInit | components/dropbear/packet.c:215-283 | after the first block the length is known, and the length checks pass for a conforming sender |
| PacketIO.Reader.Unwrap | components/dropbear/packet.c:286-354 | the MAC matches and the payload is the one sent |
| PacketIO.Reader.ReadPacket | components/dropbear/packet.c:148-209 | however the reads are split, no byte is lost or taken twice, payloads are those sent, and there is progress whenever bytes are there |
| Transport.Link.Run | components/dropbear/packet.c:59-376 | every way of splitting writes and reads, over any number of key changes: the payloads received are the beginning of those sent, in order, and all of them once everything has arrived |
| KeyDerivation.HashKeys | components/dropbear/common-kex.c:252-276 | fills an output of any length with the beginning of K1, K2, ... of section 7.2 of RFC 4253, for any hash size |
| KeyDerivation.GenNewKeys | components/dropbear/common-kex.c:285-378 | the letters A to F by role and direction |
| KeyDerivation.SameLetters | components/dropbear/common-kex.c:285-378 | each side transmits with the letters the other receives with |
| Exchange.FillKexinit | components/dropbear/common-kex.c:456-520 | client and server start the hash with the same bytes: client's before server's, whichever side it is |
| Exchange.CombKey | components/dropbear/common-kex.c:590-641 | refuses a public value outside 1..p-1 exclusive, and otherwise completes the hash buffer, if it has room, with host key, both public values and the secret |
| Exchange.SameSecret | components/dropbear/common-kex.c:606-609 | both sides compute the same secret |
| Exchange.HonestExchange | components/dropbear/common-kex.c:285-378 | two honest sides end with the same secret, exchange hash and session identifier, and each transmits with the keys the other receives with |
| Algo.PutAlgolist | components/dropbear/common-algo.c:335-353 | the usable names, in order, separated by commas, or the end of the session if they do not fit |
| Algo.ParseNames | components/dropbear/common-algo.c:376-399 | cuts the list at its commas, at most 20 names, and refuses a NUL |
| Algo.ParsePrinted | components/dropbear/common-algo.c:335-399 | parsing a printed list gives back the usable names |
| Algo.FindMatch | components/dropbear/common-algo.c:434-464 | the first match in the client's order, and for it in the server's |
| Algo.MatchAlgo | components/dropbear/common-algo.c:360-469 | chooses the first name of the client that the server has too, or fails |
| Algo.PeersAgree | components/dropbear/common-algo.c:360-469 | client and server choose the same name or both fail |
| Algo.ServerFinds | components/dropbear/common-algo.c:441-454 | the server's verdict on the guess in terms of the two lists, usable first entries or not |
| Algo.ClientFinds | components/dropbear/common-algo.c:441-454 | the client's verdict in the same terms |
| Algo.GuessesAgree | components/dropbear/common-algo.c:441-454 | for all lists the two verdicts are the same unless the lists meet one stated condition, and differ if they do |
| Algo.OneSidedMarker | components/dropbear/common-algo.c:441-454 | lists for which they differ because only one side knows the looser rule |
| Algo.UnusableFirst | components/dropbear/common-algo.c:441-454 | lists for which they differ because a first entry is unusable |
| Algo.Negotiate | components/dropbear/common-algo.c:360-469 | both sides run on what the other has printed: same choice, and the same verdict exactly under that condition |
| Dss.BufPutDssSign | components/dropbear/dss.c:256-348 | r and s of the signature, each padded to 20 bytes, for every nonce; never fails for a prime q of at most 160 bits |
| Dss.BufDssVerify | components/dropbear/dss.c:159-251 | accepts exactly the blobs whose r and s satisfy the verification equation |
| Dss.GeneratorOrder | components/dropbear/gendss.c:145-180 | g^q = 1 modulo p, by Fermat's little theorem |
| Dss.ZeroExactly | components/dropbear/dss.c:286-326 | s is zero exactly if hash + x r is a multiple of q, which the nonce, hash and key decide beforehand |
| Dss.SignatureVerifies | components/dropbear/dss.c:159-348 | for every key, hash and nonce: the signature is valid exactly if hash + x r is not a multiple of q |
| Dss.RefusedHash | components/dropbear/dss.c:159-348 | for every key and nonce there is a hash whose signature does not verify |
| Dss.SignedBlobVerifies | components/dropbear/dss.c:159-348 | the same for the bytes written: they are read back as r and s |
| GenDss.GetP | components/dropbear/gendss.c:86-143 | finds a p exactly if some candidate passes the test; it is prime and 1 modulo 2q |
| GenDss.GetG | components/dropbear/gendss.c:145-180 | the search for g ends, after at most (p-1)/q values, with g > 1 |
| GenDss.GenDssPrivKey | components/dropbear/gendss.c:46-66 | the key meets all that signing and verification need |
| Rsa.RsaPadEm | components/dropbear/rsa.c:371-412 | the padded message is the PKCS #1 form, always below n |
| Rsa.BufPutRsaSign | components/dropbear/rsa.c:265-357 | the blinded computation and the blob it writes, for every r that has an inverse |
| Rsa.BufRsaVerify | components/dropbear/rsa.c:210-259 | accepts exactly the blobs of the right length whose number to the power e is the padded message |
| Rsa.BlindedIsPlain | components/dropbear/rsa.c:286-316 | blinding changes nothing: the result is em^d modulo n |
| Rsa.FixedModN | components/dropbear/rsa.c:210-259 | m^(e d) = m modulo n for every m, for distinct primes |
| Rsa.SignedBlobVerifies | components/dropbear/rsa.c:210-357 | what is signed verifies |
| Rsa.CorrectIffDistinct | components/dropbear/genrsa.c:61-86 | exponentiation by e d recovers every message if and only if the two primes differ, which key generation does not check |
| GenRsa.GetRsaPrime | components/dropbear/genrsa.c:93-133 | the first candidate whose predecessor is coprime to e |
| GenRsa.GenRsaPrivKey | components/dropbear/genrsa.c:40-91 | succeeds exactly if the size is allowed and some two consecutive eligible candidates have a product of that size, and takes the first such pair, equal or not; e d = 1 modulo lcm(p-1, q-1) |
| GenRsa.EqualPrimesFail | components/dropbear/genrsa.c:61-86 | a key from equal primes does not recover every message |
| GenRsa.EqualPrimes | components/dropbear/genrsa.c:61-86 | for every eligible prime met twice the generator returns such a key |
| RsaEqualPrimes.EqualPrimesHappen | components/dropbear/genrsa.c:40-91 | a 256-bit prime, certified, for which that happens at size 512 |
| Mpint.PutMpint | components/dropbear/buffer.c:289-329 | the length computed from the bit count is that of the bytes written |
| Mpint.BodyIsMinimal | components/dropbear/buffer.c:289-329 | an mpint is minimal, not negative, and stands for its number |
| Mpint.GetPut | components/dropbear/buffer.c:334-359 | what is put is got back, wherever it stands, exactly if it is not longer than the limit |
| Ber.WriteIdLen | components/dropbear/keyimport.c:290-343 | writes the header, short or long identifier, and without a destination returns the size it would write |
| Ber.ReadHead | components/dropbear/keyimport.c:234-282 | reads identifier, length and flags, or refuses |
| Ber.ReadWrite | components/dropbear/keyimport.c:234-343 | a header is read back as written exactly if the identifier is at most 30 or the flags are at least 128; else the identifier is read as zero |
| Ber.ReadIdBack | components/dropbear/keyimport.c:244-256 | a long identifier is read back group by group |
| KeyImport.WriteBlob | components/dropbear/keyimport.c:1001-1034 | the two passes agree: the space computed is exactly filled with the SEQUENCE of INTEGERs |
| KeyImport.ReadIntegers | components/dropbear/keyimport.c:640-672 | collects the INTEGERs of any contents, or refuses them |
| KeyImport.ReadBlob | components/dropbear/keyimport.c:588-676 | for every blob: succeeds exactly if it is a sequence whose items are INTEGERs that fit, and puts e before n |
| KeyImport.ContentOfSequence | components/dropbear/keyimport.c:588-640 | a written blob is such a sequence |
| KeyFiles.PutPrivKey | components/dropbear/rsa.c:186-205 | the key blob: name and mpints |
| KeyFiles.GetRsaKey | components/dropbear/rsa.c:84-130 | reads back an RSA key, with p and q or without |
| KeyFiles.GetDssKey | components/dropbear/dss.c:75-93 | reads back a DSA key |
| KeyFiles.OrderUndone | components/dropbear/keyimport.c:651-672 | the reordering of n and e is undone |
| KeyFiles.Numbers | components/dropbear/keyimport.c:855-997 | the numbers of the OpenSSH key, found exactly if p and q are there, q has an inverse and the extra numbers fit |
| KeyFiles.WriteAndRead | components/dropbear/keyimport.c:588-1034 | reading an OpenSSH key just written gives back the key |
| Crc.TableIsFourSteps | components/lfs/lfs_util.c:15-20 | every table entry is what four ticks of the bitwise register make of its index |
| LfsCrc.LfsCrc | components/lfs/lfs_util.c:14-28 | equals the bit-at-a-time reflected CRC with polynomial 0xEDB88320 for every initial value and buffer |
| LfsCrc.CrcConcat | components/lfs/lfs_util.c:14-28 | splits over concatenation |
| LfsCrc.MessageForm | components/lfs/lfs_util.c:14-28 | the CRC is the message as one number, exclusive-or the initial value, after as many ticks as it has bits |
| LfsCrc.CrcInjective | components/lfs/lfs_util.c:14-28 | for fixed data the result determines the initial value |
| LfsCrc.BurstDetected | components/lfs/lfs_util.c:14-28 | buffers that differ only within four consecutive bytes never collide; one byte is a special case |

## Left out

- KexServer.Server.ProcessPacket: packets of a peer that breaks the protocol are not modelled; when the contents of an ordinary packet end the session is not either.
- PacketIO.Reader.ReadPacket: malformed packets, on which the code returns early, are not modelled; the stream is that of a conforming sender.
- Packet.EncodeParts: no compression; cipher and MAC are abstract.
- Channel.Chan.Run: the client's buffer for stderr (extrabuf), read_mangler, opening handshakes and forwarded connections in progress are not modelled.
- Channel.Chan.SetFds: that the descriptors replaced by a second start stay open in the operating system.
- CircBuffer.Ring.Append: the array exists from the start; the code allocates it on first use.
- WriteQueue.Writer.WritePacket: the linked list of queue.c is a sequence.
- Ber.WriteIdLen: identifiers from 2^28 and lengths from 2^24, for which the shifts of the code leave the width of int.
- KeyFiles.WriteAndRead: the PEM text around the blob, base64, encrypted keys and EC keys.
- Elliptic curve signatures and key exchange other than Curve25519: they rest on point arithmetic of a library.
- User authentication, host key loading, sessions, pty, forwarding, sockets and the remaining operating system glue.
- The buffer type of buffer.c beyond mpints and strings: positions, lengths and sizes, each checked at every access.
- Scripts, cloud services, CAN, captive DNS, MQTT and the Lua interpreter: not part of this model.
