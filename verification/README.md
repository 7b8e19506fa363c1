# Verification of the SimIMS core

A Dafny model of the parts of SimIMS, a small IMS core, that keep state or
compute something a peer relies on, with proofs about them. `dafny verify
dfyconfig.toml` checks all of it.

The model follows five groups of the source.

1. **AKA challenges, end to end.** `RijndaelTables`, `Aes`, `Rijndael`,
   `AesExamples`: AES-128 as written, in place and with its key table, against
   FIPS 197 and its examples.
   `Milenage`, `MilenageCode`: f1 to f5* and the authentication vector against
   3GPP TS 35.206. `SqnAdvance`: the compare-and-swap loop on the 48-bit SQN and
   its way through text to bytes. `AkaProvider`: the pending table with its
   owner and waiters, and the verification that checks, unlocks, verifies,
   locks again and erases. `AkaEndToEnd` puts HSS and S-CSCF in one machine: a
   distinct SQN gives a distinct AUTN, and that gives single use.
2. **Call state.** `MediaSessions`: the P-CSCF's media sessions and the threads
   of `PcscfService` over them. `SessionRouter`: the S-CSCF's dialog table.
3. **Registrations.** `RegistrationStore`, `RegistrationRuns`,
   `RegistrationEffects`: contacts, lazy and eager expiry, CSeq order, batches,
   and what one operation leaves to be looked up.
4. **Codecs and framing.** `Options`, `Texts`, `Numerals`, `NumberTexts`,
   `Bencode`, `BencodeBound`, `BencodeTexts`, `RtpengineClient` and
   `RtpengineExchanges` (the cookie protocol), `AuthManager` (base64 and
   nonces), `TcpFraming`, `TcpHeaders`.
5. **Timers.** `ClientTransaction`, `TransactionCourses`: Timer A against
   Timer B.

Code that changes state is a class or a method over arrays, proved against
functions on values; concurrency is a state machine whose steps are the locked
sections, and the main results speak about every run of it. What those functions
compute is tied down in turn without naming them: by the numbers of the
standards, by what a step or a run leaves behind, and by inverses.

Eight rules one would expect turned out not to hold of the code. Each has a
lemma with a concrete input and the exact condition under which it does hold:

- *Pending keys.* Call-ID and normalized identities are joined by a separator
  that nothing keeps out of them (src/s-cscf/ims_aka_auth_provider.cpp:197-200).
  So two challenges of different users can have one key, and a key does not name
  a subscriber (`DifferentChallengesCanShareAKey`, `JoinIsUnambiguousIfFree`,
  `OneKeyOneSubscriber`). Freshness and single use are therefore stated for each
  subscriber and not for each key (`ChallengesAreFreshAndUsedOnce`).
- *Termination plans.* A plan names its media by call and tags
  (src/p-cscf/pcscf_service.cpp:453, 476). If the call is set up again, or the
  branch copied again, before the plan is carried out, it deletes the media of
  the new session (`PlanCanDeleteANewCall`, `PlanMeetsALaterIncarnation`,
  `PlansDeleteNoLiveSession`).
- *Expiry.* `pruneExpiredLocked` hands back the result of `erase`, which is the
  next entry and not `end()` (src/sip/memory_store.cpp:45-48). So `lookup` and
  `isRegistered` of an identity whose contacts have all expired can answer with
  another identity's binding, and a purge then changes the answer
  (`ExpiredLookupCanAnswerAnother`, `AnswerIsDueUnlessItStrays`,
  `PurgesChangeNoAnswer`).
- *Final responses.* A 2xx whose rtpengine answer fails, or whose session is no
  longer live, returns before the other branches are marked
  (src/p-cscf/pcscf_service.cpp:235-251), so an early session outlives it
  (`FailedAnswerDoesNotSettle`, `RefusedBeginDoesNotSettle`,
  `SuccessEndsSettled`).
- *Framing.* The length of a message is a 64-bit sum
  (src/sip/transport.cpp:83). A negative Content-Length wraps it; when it comes
  to 0 the loop of the read never ends, and whether it ends does not depend on
  the reads (`NegativeLengthCanStall`, `LoopEndsIffItProgresses`,
  `MessageIsWholeUnlessItWraps`, `FramingIgnoresChunking`).
- *Parsing.* So is the position behind a bencoded string
  (src/rtp/bencode.cpp:69-74). A length that wraps it leads the parser
  backwards, and it need not end. It ends where no length wraps, and on any text
  it ends soon or never (`ParserNeedNotEnd`, `StringGetsOnUnlessItWraps`,
  `ReadingEndsUnlessItWraps`, `ParserEndsSoonOrNever`).
- *Retransmissions.* `processResponse` takes a provisional response in every
  state (src/sip/transaction.cpp:370-372). One that was looked up before the
  transaction timed out can set Timer A again with no Timer B left
  (`RevivalIsReachable`, `RevivedTransactionIsUnbounded`,
  `AtMostTenRetransmissions`, `OnlyTimeoutOrShutdownIsRevived`).
- *Refused refreshes.* A single refresh that is refused has already rewritten
  the binding's own fields (`RefusedRefreshChangesItsBinding`,
  `RefusedUpsertStillRewrites`); a refused batch has not
  (`BatchIsAllOrNothing`).

The comment in src/rtp/bencode.hpp:173 promises `std::runtime_error` on invalid
input; `std::stoul` and `std::stoll` throw `std::invalid_argument` and
`std::out_of_range` instead, and the model follows the code (`BadNumber`,
`NumberRange`).

Clocks, random bytes, the order in which a hash table is walked, and the
outcome of sends, of the HSS call and of the digest comparison are parameters of
the steps. Fields called `serial`, `incarnation`, `since`, `readAt`, `index`,
`writes`, `from`, `number`, `sent`, `armedAt`, `expired`, `answered` and `lookedUp` are history: no step
of the source has or reads them, and they only let a property say which vector,
entry or datagram it means. `steps` and `rounds` bound how long a run of the
bencode parser or of the framing loop is looked at; the code has no such bounds.

## Model

| member | source | states |
|---|---|---|
| RijndaelTables.XtimeIsTimes2 | src/crypt/milenage.cpp:44-62 | the Xtime table is multiplication by x modulo x^8+x^4+x^3+x+1 (FIPS 197, 4.2.1), for all 256 bytes |
| RijndaelTables.InvSUndoesS | src/crypt/milenage.cpp:22-42 | the S table is a permutation: an inverse table undoes it on every byte |
| RijndaelTables.SIsAffineOfInverse | src/crypt/milenage.cpp:22-42 | the S table is the affine map of the inverse in GF(2^8), as section 5.1.1 of FIPS 197 defines it |
| RijndaelTables.InverseInField | src/crypt/milenage.cpp:22-42 | the inverse used there is the multiplicative inverse: its product with every non-zero byte is 1 |
| Rijndael.KeyAdd | src/crypt/milenage.cpp:319-329 | the nested in-place loop is AddRoundKey of FIPS 197 on the whole state |
| Rijndael.ByteSub | src/crypt/milenage.cpp:332-342 | the nested in-place loop is SubBytes |
| Rijndael.ShiftRow | src/crypt/milenage.cpp:345-371 | the row-by-row assignments through one temporary are ShiftRows |
| Rijndael.MixOneColumn | src/crypt/milenage.cpp:380-393 | overwriting a column byte by byte, with the first byte saved, mixes the original column: no overwritten byte is read back |
| Rijndael.MixColumn | src/crypt/milenage.cpp:374-397 | the loop over columns is MixColumns |
| Rijndael.KeySchedule | src/crypt/milenage.cpp:290-316 | the global table filled by the key schedule, with its running round constant, is KeyExpansion of FIPS 197, 5.2 |
| AesExamples.RconValues | src/crypt/milenage.cpp:290-316 | the ten round constants are 01, 02, 04, 08, 10, 20, 40, 80, 1b, 36 |
| AesExamples.KeyExpansionExample | src/crypt/milenage.cpp:290-316 | the eleven round keys of FIPS 197, appendix A.1, byte by byte: a0fafe17 88542cb1 23a33939 2a6c7605 first, d014f9a8 c9ee2589 e13f0cc8 b6630ca6 last |
| Rijndael.Encrypt | src/crypt/milenage.cpp:404-431 | the nine-round loop with its final round is the FIPS 197 cipher under whatever round keys the table holds |
| AesExamples.CipherExample | src/crypt/milenage.cpp:404-431 | the block of FIPS 197, appendix B, encrypts under its key to 3925841d 02dc09fb dc118597 196a0b32, through the state of every round |
| Aes.MixColumnsFourTimes | src/crypt/milenage.cpp:374-397 | MixColumns applied four times is the identity, for every state |
| Aes.InvCipherUndoesCipher | src/crypt/milenage.cpp:404-431 | the inverse cipher undoes the cipher for every key expansion and block |
| Aes.EncryptIsInjective | src/crypt/milenage.cpp:290-431 | for every key, different blocks encrypt to different blocks |
| MilenageCode.XorRotated | src/crypt/milenage.cpp:97-99 | the loop writing to index (i + shift) mod 16 rotates the XOR of its operands |
| MilenageCode.F2345 | src/crypt/milenage.cpp:122-190 | RES, CK, IK and AK as written into the output buffers are the parts of OUT2, OUT3 and OUT4 that TS 35.206 names |
| MilenageCode.F5Star | src/crypt/milenage.cpp:242-273 | the resynchronisation AK is the first six bytes of OUT5 |
| MilenageCode.F1 | src/crypt/milenage.cpp:73-113 | MAC-A is the first half of OUT1 |
| MilenageCode.F1Star | src/crypt/milenage.cpp:192-232 | MAC-S is the second half of the same OUT1 |
| MilenageCode.ComputeOPc | src/crypt/milenage.cpp:275-285 | OPc is the encryption of OP XORed with OP; reached through compute_opc |
| Milenage.OpcAsInTheStandard | src/crypt/milenage.cpp:275-285 | byte by byte, OPc is the encryption of OP plus OP |
| MilenageCode.GenerateVector | src/crypt/milenage_adapter.cpp:17-51 | the whole vector computed over the arrays equals the TS 35.206 vector of K, OPc, SQN, AMF and RAND |
| Milenage.OutputsAsInTheStandard | src/crypt/milenage.cpp:122-190 | byte by byte, OUT2 to OUT5 are the rotations of 0, 4, 8 and 12 bytes with the constants 1, 2, 4 and 8 of TS 35.206, section 4.1 |
| Milenage.Out1AsInTheStandard | src/crypt/milenage.cpp:73-113 | byte by byte, OUT1 is that of SQN, AMF, SQN, AMF, rotated by 8 bytes and added to TEMP |
| Milenage.VectorOfItsOutputs | src/crypt/milenage_adapter.cpp:17-51 | which bytes of which output block RES, AK, CK, IK and each part of AUTN are |
| Milenage.RotKeepsClassSum | src/crypt/milenage.cpp:134-178 | rotating by a multiple of four bytes keeps the XOR of the bytes 3 mod 4 |
| Milenage.XorLastByteMovesClassSum | src/crypt/milenage.cpp:134-178 | adding a constant to the last byte moves that XOR by the constant |
| Milenage.OutputBlocksAreDistinct | src/crypt/milenage.cpp:122-190 | for every OPc, RAND and injective kernel, OUT2, OUT3, OUT4 and OUT5 are pairwise different |
| Milenage.CkIsNotIk | src/crypt/milenage.cpp:122-178 | for every K, OPc, SQN, AMF and RAND, CK differs from IK |
| Milenage.MacsDetermineSqnAndAmf | src/crypt/milenage.cpp:73-113 | for fixed K, OPc and RAND, MAC-A and MAC-S together are equal exactly for equal SQN and AMF |
| Milenage.ReceiverRecoversSqn | src/crypt/milenage_adapter.cpp:17-51 | from a generated AUTN the receiver gets SQN back with AK, and its recomputed f1 equals the received MAC |
| Milenage.RandAndAutnDetermineSqn | src/crypt/milenage_adapter.cpp:42-48 | for one RAND, two AUTNs are equal exactly when SQN and AMF are |
| SqnAdvance.RunKeepsInv | src/db/mongo_subscriber_repository.cpp:217-283 | in every run of concurrent callers, the k-th committed number is the k-th term of the progression and each commit is returned to exactly one caller |
| SqnAdvance.TermsDiffer | src/diameter/mongo_hss_client.cpp:15-16 | any two of 2^43 consecutive terms differ |
| SqnAdvance.ReturnedNumbersAreDistinct | src/db/mongo_subscriber_repository.cpp:217-283 | in commit order the returned numbers are, modulo 2^48, the progression of step 32; any 2^43 consecutive ones differ, and each returned call holds one of its own |
| SqnAdvance.ConflictNeedsFiveCommits | src/db/mongo_subscriber_repository.cpp:226-282 | a call ends in the CAS conflict only if at least five advances of others were committed during it |
| SqnAdvance.FiveLosingRoundsConflict | src/db/mongo_subscriber_repository.cpp:226-282 | a call that loses n rounds to another is in its attempt n + 1 below five, and in the conflict after the fifth |
| SqnAdvance.CommitsAreThirtyTwoApart | src/diameter/mongo_hss_client.cpp:15-16 | the first committed number is the stored one, and each next one is 32 more on 48 bits, in every run |
| SqnAdvance.UndisturbedCallAdvances | src/db/mongo_subscriber_repository.cpp:217-283 | a call nobody disturbs returns the stored number and leaves the next |
| SqnAdvance.AdvancesReturn | src/db/mongo_subscriber_repository.cpp:237-248 | n advances bring the stored number back, so that a stale compare-and-set still matches, exactly when n is a multiple of the period |
| SqnAdvance.Subscriber.AdvanceSqn | src/db/mongo_subscriber_repository.cpp:217-283 | the retry loop with its database faults: which attempt it ends in and how, and the stored number then; it conflicts exactly when all five attempts were disturbed and none faulty |
| SqnText.ParseHexExact | src/diameter/aka_vector_builder.cpp:22-46 | parsing succeeds exactly on texts of the right length with hex digits only, and gives their bytes |
| SqnText.HexTextParses | src/diameter/mongo_hss_client.cpp:39 | the twelve-digit text that is formatted for an SQN parses to its big-endian bytes |
| SqnText.HexDigitsOfBothCases | src/diameter/aka_vector_builder.cpp:13-46 | the digits 0 to 9 and the letters in either case have their values 0 to 15 |
| SqnText.OnlyHexDigitsHaveAValue | src/diameter/aka_vector_builder.cpp:13-18 | and no other character has one |
| SqnText.SqnBytesAreTheNumber | src/diameter/aka_vector_builder.cpp:22-46 | the six bytes, read as base 256 digits, are the number modulo 2^48 |
| SqnText.SqnTextRoundTrips | src/diameter/aka_vector_builder.cpp:22-46 | the byte path from number to text to bytes keeps two SQNs apart exactly when they differ modulo 2^48 |
| SqnText.ReturnedBytesAreDistinct | src/diameter/mongo_hss_client.cpp:98-121 | the six SQN bytes of different calls differ within a period of 2^43 advances |
| AkaTables.ImsAkaAuthProvider.FindPendingForAuthorization | src/s-cscf/ims_aka_auth_provider.cpp:203-211 | after purging, the scan finds an unexpired entry of the private identity under the Call-ID as prefix whenever there is one, and no other |
| AkaTables.PendingKeyNames | src/s-cscf/ims_aka_auth_provider.cpp:194-201 | two keys whose normalized identities are free of the separator are equal exactly for the same Call-ID and the same normalized identities |
| AkaTables.JoinIsUnambiguousIfFree | src/s-cscf/ims_aka_auth_provider.cpp:197-200 | three parts can be told from their join exactly when none of them contains the separator |
| AkaTables.DifferentChallengesCanShareAKey | src/s-cscf/ims_aka_auth_provider.cpp:194-201 | a concrete pair of challenges of different calls and users with one key |
| AkaProvider.VerifierFindsExactlyWhatFits | src/s-cscf/ims_aka_auth_provider.cpp:146-155 | in every run a lookup finds exactly the challenges of its private identity, under its Call-ID as prefix, whose answer came from the HSS less than 120,000 ms before; and nothing exactly when there is none |
| AkaProvider.NoSuccessOnAnExpiredChallenge | src/s-cscf/ims_aka_auth_provider.cpp:131-178 | in every run no success rests on a lookup 120,000 ms or more after the answer of the HSS |
| AkaProvider.ClaimGivesOutLiveChallenges | src/s-cscf/ims_aka_auth_provider.cpp:70-84 | in every run a repeated request gets the pending challenge while that is younger than 120,000 ms, else waits for the one in flight, else becomes the owner |
| AkaProvider.AnswerBecomesPending | src/s-cscf/ims_aka_auth_provider.cpp:100-128 | an answer of the HSS becomes pending for 120,000 ms with its identities and scheme, and is what the owner and its waiters get |
| AkaProvider.ErrorLeavesNothing | src/s-cscf/ims_aka_auth_provider.cpp:100-128 | an error leaves nothing pending and nothing in flight, and is what the owner and its waiters get |
| AkaProvider.RightAnswerIsAccepted | src/s-cscf/ims_aka_auth_provider.cpp:131-178 | undisturbed, the right digest succeeds exactly when the nonce is that of the pending vector, and only then the challenge is erased, and it alone |
| AkaProvider.WrongDigestIsRejected | src/s-cscf/ims_aka_auth_provider.cpp:157-159 | a wrong digest fails whatever the nonce, and changes no table |
| AkaProvider.ReplacedChallengeIsRejected | src/s-cscf/ims_aka_auth_provider.cpp:161-170 | a challenge that is gone or replaced by the time of the second lock is refused, and changes no table |
| AkaProvider.VerifierFindsItsOwnCall | src/s-cscf/ims_aka_auth_provider.cpp:203-211 | with Call-IDs free of the separator, the challenge a verifier finds by prefix was made for its own Call-ID, in every run |
| AkaProvider.RunKeepsInv | src/s-cscf/ims_aka_auth_provider.cpp:51-178 | the in-flight, future and vector invariants hold in every state of every interleaving |
| AkaProvider.OneOwnerPerKey | src/s-cscf/ims_aka_auth_provider.cpp:68-122 | no key is both pending and in flight, and a key in flight has exactly one thread that owes its commit |
| AkaProvider.CommitOverwritesNothing | src/s-cscf/ims_aka_auth_provider.cpp:116-122 | an owner never overwrites a pending vector |
| AkaProvider.WaitersGetTheirOwnersAnswer | src/s-cscf/ims_aka_auth_provider.cpp:86-92 | a waiter's future is set or its owner is still due to set it, and what it gets is its owner's answer |
| AkaProvider.UsesAreSound | src/s-cscf/ims_aka_auth_provider.cpp:161-178 | when no two vectors of one key share RAND and AUTN, a success erases the very vector it verified |
| AkaProvider.SingleUse | src/s-cscf/ims_aka_auth_provider.cpp:131-178 | under every interleaving each vector is erased by at most one successful verification |
| AkaEndToEnd.EqualVectorsEqualSqns | src/crypt/milenage_adapter.cpp:42-48 | for one subscriber and one RAND, two AUTNs are equal exactly when the SQNs they were built from are equal modulo 2^48 |
| AkaEndToEnd.OneKeyOneSubscriber | src/diameter/mongo_hss_client.cpp:85-98 | challenges with one key concern one subscriber, if their private identities are in normal form and no normalized identity contains the separator |
| AkaEndToEnd.PlainUsesAreSound | src/s-cscf/ims_aka_auth_provider.cpp:161-178 | a success on a key of such challenges erases the very challenge it verified |
| AkaEndToEnd.RunKeepsInv | src/diameter/mongo_hss_client.cpp:85-131 | every issued vector stems from its own commit of its own subscriber, whatever the interleaving of HSS and S-CSCF |
| AkaEndToEnd.SubscribersChallengesDiffer | src/diameter/mongo_hss_client.cpp:98-131 | two challenges issued for one subscriber, under whatever keys, share RAND and AUTN exactly when they are the same one, while its SQN has not gone round |
| AkaEndToEnd.SubscribersUsesAreSound | src/s-cscf/ims_aka_auth_provider.cpp:157-170 | a success within one subscriber erases the very challenge it verified |
| AkaEndToEnd.NonceSucceedsOnce | src/s-cscf/ims_aka_auth_provider.cpp:157-178 | no nonce is accepted in two successes of one subscriber, under whatever Call-IDs |
| AkaEndToEnd.ChallengesAreFreshAndUsedOnce | src/s-cscf/ims_aka_auth_provider.cpp:51-178 | HSS and S-CSCF together, for every interleaving and every normalization: no challenge is erased twice; and for every subscriber within a period its challenges are distinct, its successes erase what they verified, and none of its nonces succeeds twice |
| AuthManager.Base64Encode | src/s-cscf/auth_manager.cpp:53-69 | the loop over three-byte groups with padding computes the group-wise encoding |
| AuthManager.Base64Decode | src/s-cscf/auth_manager.cpp:71-95 | the loop over four-character groups, dropping an incomplete last one, computes the group-wise decoding |
| AuthManager.AlphabetIsStandard | src/s-cscf/auth_manager.cpp:17-19 | the 64 characters in the order of RFC 4648, table 1 |
| AuthManager.FullGroupIsStandard | src/s-cscf/auth_manager.cpp:53-69 | which bits of three bytes each of the four characters carries |
| AuthManager.LastGroupIsStandard | src/s-cscf/auth_manager.cpp:53-69 | the same for one and two bytes left over, with their padding |
| AuthManager.Foobar | src/s-cscf/auth_manager.cpp:53-69 | four test vectors of RFC 4648, section 10 |
| AuthManager.DecodeUndoesEncode | src/s-cscf/auth_manager.cpp:53-95 | for every byte string, decoding gives it back and the text has 4*ceil(n/3) characters (RFC 4648, section 4) |
| AuthManager.NonceMatchesExactly | src/s-cscf/auth_manager.cpp:104-168 | a challenge nonce is accepted against another vector exactly when the scheme is supported and the encoded bytes are the same and not empty |
| AuthManager.NonceCarries | src/s-cscf/auth_manager.cpp:107-121 | a nonce decodes to RAND followed by AUTN, under Digest-MD5 to RAND alone |
| AuthManager.SchemesAnswered | src/s-cscf/auth_manager.cpp:131-168 | only Digest-MD5 and the two names of AKAv1 are accepted, and each of these accepts its own challenge |
| AuthManager.AkaNonceNamesTheVector | src/s-cscf/auth_manager.cpp:114-121 | with 16-byte RAND and AUTN it is accepted exactly against the same RAND and AUTN |
| AuthManager.UnequalVectorsCanShareANonce | src/s-cscf/auth_manager.cpp:112-115 | without fixed lengths two different vectors can have one nonce, because only the concatenation is encoded |
| MediaSessions.MediaSessionManager.MarkInviteFinalSuccess | src/rtp/media_session.cpp:160-187 | the winner is established and exactly the other unestablished or untagged entries of the pair are marked, one plan each |
| MediaSessions.MediaSessionManager.MarkInviteFinalFailure | src/rtp/media_session.cpp:189-208 | exactly the unestablished or untagged entries of the pair are marked, one plan each |
| MediaSessions.MediaSessionManager.MarkTerminating | src/rtp/media_session.cpp:210-246 | the entry found through the four fallbacks is marked and planned, unless it already is |
| PcscfMedia.OwnSessionEnds | src/rtp/media_session.cpp:217-246 | a BYE or CANCEL whose own key has a live session ends that one: it is terminating, its thread holds its one plan with its media, Rx session and QoS state, and nothing else changes |
| PcscfMedia.InitialSessionEnds | src/rtp/media_session.cpp:217-222 | without an entry at its key it ends the live session of the INVITE |
| PcscfMedia.ReversedSessionEnds | src/rtp/media_session.cpp:223-230 | without either it ends the live session under the exchanged tags: the BYE of a callee |
| PcscfMedia.ReversedInitialSessionEnds | src/rtp/media_session.cpp:230-233 | without any of those, the live session of an INVITE from the tag in its To header |
| PcscfMedia.RequestIsInVainExactly | src/rtp/media_session.cpp:235-238 | it changes nothing exactly when the first of the four that exists is terminating already, or none exists, or only its own is looked for and is missing |
| PcscfMedia.HangingUpRemovesTheSession | src/p-cscf/pcscf_service.cpp:445-472 | once the plan is carried out that session is gone and every other is as it was |
| PcscfMedia.OtherCallsAreUntouched | src/rtp/media_session.cpp:28-254 | a step changes only entries of its own Call-ID, in every state |
| PcscfMedia.FailureEndsTheUnestablished | src/rtp/media_session.cpp:189-208 | a final failure makes exactly the entries of its leg terminating that are no established branches, and changes nothing else in them |
| PcscfMedia.SuccessEstablishesTheWinner | src/rtp/media_session.cpp:160-187 | a final success establishes its live session and does the same to the rest of its leg |
| PcscfMedia.MarkingPlansWhatItEnds | src/rtp/media_session.cpp:174-208 | the thread gets a plan for a live session exactly when that is ended, with its media, Rx session and QoS state |
| PcscfMedia.AnsweredCallIsEstablished | src/p-cscf/pcscf_service.cpp:205-265 | an INVITE, its offer, a 2xx and its answer, undisturbed: the dialog has both SDP bodies, its own tags and is established; the initial entry is terminating |
| PcscfMedia.BranchCopiesTheCall | src/rtp/media_session.cpp:344-364 | a response with a new tag copies the initial entry, early and under that tag; its answer sets the callee SDP, and establishes it only for a 2xx |
| PcscfMedia.LaterAnswersUpdate | src/rtp/media_session.cpp:130-157 | a later answer on a live session replaces the callee SDP, establishes it for a 2xx, and touches nothing else |
| PcscfMedia.LateAnswersAreDropped | src/rtp/media_session.cpp:145-152 | an answer for a session gone or ended meanwhile changes none |
| PcscfMedia.AnsweredSuccessSettles | src/p-cscf/pcscf_service.cpp:234-257 | a 2xx with SDP, handled undisturbed, leaves its pair settled exactly when its session is live, rtpengine answers and it has a To-tag, or when it returns early and the pair was settled before |
| PcscfMedia.SuccessEndsSettled | src/p-cscf/pcscf_service.cpp:225-257 | in every interleaving: when the handling of a 2xx ends by marking, its pair is settled exactly when it has a To-tag or names no live entry; when it ends in one of the two early returns, exactly when the pair was settled already |
| PcscfMedia.RefusedBeginDoesNotSettle | src/p-cscf/pcscf_service.cpp:235-239 | a 200 OK from one fork after a CANCEL, with another fork early, leaves that early session behind |
| PcscfMedia.FailedAnswerDoesNotSettle | src/p-cscf/pcscf_service.cpp:247-251 | a 200 OK with a To-tag whose rtpengine answer fails leaves an early session behind: the final-response rule is false of that return |
| PcscfMedia.FailureSettles | src/p-cscf/pcscf_service.cpp:220-223 | a 3xx to 6xx always settles its pair |
| PcscfMedia.RunKeepsSettled | src/p-cscf/pcscf_service.cpp:205-265 | a settled pair stays settled through every later step of every thread until its next createSession |
| PcscfMedia.PlansAreSound | src/p-cscf/pcscf_service.cpp:445-497 | in every reachable state entries and plans name the media of their own key, every terminating entry has a plan still to be carried out, and no incarnation is planned twice |
| PcscfMedia.PlanMeetsALaterIncarnation | src/p-cscf/pcscf_service.cpp:449-478 | in every reachable state a plan would delete the media of a live session exactly when a later incarnation, not planned itself, stands at its key |
| PcscfMedia.PlanCanDeleteANewCall | src/p-cscf/pcscf_service.cpp:443-476 | a call set up again between marking and carrying out: the plan deletes its new media |
| PcscfMedia.OnlyRenewalRevives | src/rtp/media_session.cpp:28-47 | a step makes a key live exactly when it creates a session there or copies a branch to it |
| PcscfMedia.PlansDeleteNoLiveSession | src/p-cscf/pcscf_service.cpp:464-493 | plans made in one step delete no live session, whatever other threads do, as long as no session is created at their keys and no branch copied there |
| PcscfMedia.LifecyclesOnlyAdvance | src/rtp/media_session.cpp:28-254 | over every run an incarnation only moves from early to established to terminating |
| DialogTable.SessionRouter.EraseInviteSessions | src/s-cscf/session_router.cpp:585-596 | exactly the untagged and unestablished entries of the INVITE are erased |
| DialogTable.SessionRouter.PurgeExpiredSessions | src/s-cscf/session_router.cpp:598-606 | exactly the unestablished entries older than three minutes are erased |
| RouterRuns.LookupsResolve | src/s-cscf/session_router.cpp:461-518 | in every reachable state a lookup with two tags that finds a session resolves, to the callee in the direct and to the caller in the reverse direction |
| RouterRuns.DialogLeadsWhereItsInviteDid | src/s-cscf/session_router.cpp:163-183 | an INVITE and a 2xx with a tag: the dialog is there exactly if the answer came within 180,000 ms, the caller is then routed where the INVITE went, and the callee where it came from |
| RouterRuns.InviteRecords | src/s-cscf/session_router.cpp:163-182 | whatever stood there, the initial entry has the endpoints, branch and time of the INVITE; a CANCEL seen stays seen, and other entries are only purged |
| RouterRuns.InitialEntriesFollowTheInvite | src/s-cscf/session_router.cpp:163-182 | in every run an unanswered entry has the endpoints and branch of the last INVITE of its leg |
| RouterRuns.DialogsFollowTheInvite | src/s-cscf/session_router.cpp:557-583 | in every run a dialog has the endpoints and branch of the last INVITE of its leg before the response that recorded it |
| RouterRuns.RequestsFollowTheInvite | src/s-cscf/session_router.cpp:461-518 | in every run a request with two tags is routed, in the direct direction where that INVITE went, in the reverse one where it came from |
| RouterRuns.UntaggedRequestsNeedACancel | src/s-cscf/session_router.cpp:504-509 | in every run a request without a To-tag finds its initial entry routed exactly when that has been canceled |
| RouterRuns.EstablishedDialogsSurvive | src/s-cscf/session_router.cpp:258-276 | an established, uncancelled dialog survives every run with both endpoints unchanged until a BYE of its own succeeds or a CANCEL finds it |
| RouterRuns.ByeEndsItsDialog | src/s-cscf/session_router.cpp:211-276 | a BYE answered with a 2xx erases its dialog and nothing else; under any other answer the dialog stays |
| RouterRuns.ProvisionalRecords | src/s-cscf/session_router.cpp:541-544 | a provisional response with a tag records the dialog exactly when it or the initial entry is still there, unestablished and otherwise as the initial entry, which stays |
| RouterRuns.ResponsesKeepOtherLegs | src/s-cscf/session_router.cpp:529-556 | a response changes no entry of another leg or, below 300, of another fork |
| RouterRuns.FailureErasesExactly | src/s-cscf/session_router.cpp:552-596 | a 3xx to 6xx erases exactly the unestablished entries of its leg, and changes no other |
| RouterRuns.CanceledCallIsForgotten | src/s-cscf/session_router.cpp:278-316 | the ACK behind a CANCEL goes where the INVITE went, and the call is forgotten |
| RouterRuns.CancelIsSeen | src/s-cscf/session_router.cpp:378-400 | a CANCEL marks the initial entry or, without one, the dialog it names in either direction, and no other |
| RouterRuns.AckFollowsItsDialog | src/s-cscf/session_router.cpp:290-316 | an ACK goes where its dialog leads and changes nothing, unless the dialog has been canceled, which it ends |
| RouterRuns.FailureForgets | src/s-cscf/session_router.cpp:552-554 | after a 3xx to 6xx no unestablished entry of the INVITE is left |
| RouterRuns.FailedInvitesStayForgotten | src/s-cscf/session_router.cpp:529-596 | and none comes back, whatever responses and requests follow, before a new INVITE of the same call and tag |
| RouterRuns.SuccessEstablishes | src/s-cscf/session_router.cpp:545-551 | a 2xx with a To-tag establishes its dialog exactly when that fork was known or the initial entry is still there, both not expired; it is otherwise as it was or as the initial entry, which is erased |
| RegistrationStore.MemoryRegistrationStore.PruneExpiredLocked | src/sip/memory_store.cpp:24-51 | expired contacts go, an empty binding with them; the iterator handed back after an erase is the next entry, not end() |
| RegistrationEffects.LookupIsDueExactly | src/sip/memory_store.cpp:61-72 | a lookup is due the binding exactly while a contact is unexpired, with exactly the unexpired ones and nothing else changed |
| RegistrationEffects.RegisteredExactly | src/sip/memory_store.cpp:305-313 | registered is due exactly for a binding in that state with an unexpired contact |
| RegistrationEffects.UnexpiredSplits | src/sip/memory_store.cpp:33-37 | pruning goes contact by contact and keeps their order |
| RegistrationEffects.UnexpiredOne | src/sip/memory_store.cpp:33-37 | a contact goes exactly when its time has come |
| RegistrationStore.MemoryRegistrationStore.UpsertContactLocked | src/sip/memory_store.cpp:74-135 | the new entry and the return value in every branch, the binding's own fields written before the match is known |
| RegistrationEffects.UpsertReplaces | src/sip/memory_store.cpp:114-134 | the first selected contact is replaced in its place, unless it is a newer one of the same Call-ID |
| RegistrationEffects.UpsertAdds | src/sip/memory_store.cpp:119-125 | a contact not selected before is added behind the others |
| RegistrationEffects.UpsertWrites | src/sip/memory_store.cpp:95-112 | state, private identity and S-CSCF of the binding afterwards, and its name |
| RegistrationEffects.RegisteringShows | src/sip/memory_store.cpp:177-188 | after an upsert that is not stale the contact is found until it expires, and the identity is answered as registered exactly for that state |
| RegistrationEffects.BatchIsSingleUpserts | src/sip/memory_store.cpp:200-235 | an accepted batch does to each identity what a single upsert does |
| RegistrationStore.MemoryRegistrationStore.RemoveContactLocked | src/sip/memory_store.cpp:137-175 | the entry without the removed contacts, gone when none is left, and whether anything changed |
| RegistrationEffects.RemovalLeavesARegisteredBinding | src/sip/memory_store.cpp:166-172 | a removal that takes a contact and leaves another leaves a registered binding with the same names, and those contacts |
| RegistrationEffects.RemovalLeavesRegistered | src/sip/memory_store.cpp:190-198 | after removing one of two contacts the identity is answered as registered until the other expires, by the code too |
| RegistrationEffects.BatchRemovalLeavesRegistered | src/sip/memory_store.cpp:237-253 | the same for each identity of a batch |
| RegistrationEffects.RemovalOfNoneOrAll | src/sip/memory_store.cpp:162-169 | the entry is unchanged exactly when no contact is selected, and gone exactly when all are |
| RegistrationEffects.RemovalByInstance | src/sip/memory_store.cpp:14-22 | a selector with instance-id and reg-id takes exactly the contacts that have both |
| RegistrationEffects.RemovalByUri | src/sip/memory_store.cpp:14-22 | without one of them it takes exactly those with the selected URI |
| RegistrationEffects.RemoveAllCounts | src/sip/memory_store.cpp:245-252 | a batch removal counts the identities it took a contact from |
| RegistrationEffects.KeptSplits | src/sip/memory_store.cpp:148-160 | removal goes contact by contact and keeps their order |
| RegistrationEffects.KeptOne | src/sip/memory_store.cpp:148-160 | a contact goes exactly when it is selected and not newer |
| RegistrationStore.MemoryRegistrationStore.UpsertContacts | src/sip/memory_store.cpp:200-235 | the two loops of a batch, their early returns and the count |
| RegistrationStore.MemoryRegistrationStore.RemoveContacts | src/sip/memory_store.cpp:237-253 | the batch removal and its count |
| RegistrationStore.MemoryRegistrationStore.RemoveBindings | src/sip/memory_store.cpp:255-265 | the bindings of the set are gone, and the count is how many there were |
| RegistrationStore.MemoryRegistrationStore.PurgeExpired | src/sip/memory_store.cpp:277-303 | erasing while iterating prunes every binding, and the count is that of the expired contacts |
| RegistrationEffects.WholeBindings | src/sip/memory_store.cpp:54-303 | storing puts a binding under its own name, removing takes those named, a purge those without an unexpired contact, and nothing else |
| RegistrationRuns.AnswerIsDueUnlessItStrays | src/sip/memory_store.cpp:24-72 | an answer is the one due to unexpired contacts exactly when no lookup erases an expired binding that has another entry behind it (for isRegistered: a registered one) |
| RegistrationRuns.ExpiredLookupCanAnswerAnother | src/sip/memory_store.cpp:45-71 | a concrete case: the lookup of an expired identity is answered with another identity's binding, and after a purge it is not |
| RegistrationRuns.DueAnswersIgnorePurges | src/sip/memory_store.cpp:277-303 | with a non-decreasing clock, purges at any points of any run, and any hash order, change none of the answers due |
| RegistrationRuns.PurgesChangeNoAnswer | src/sip/memory_store.cpp:177-313 | lazy expiry refines eager expiry: if no lookup of a run strays, purges inserted at any points change no answer and make no lookup stray |
| RegistrationRuns.RunsAnswerAlikeIffNeitherStrays | src/sip/memory_store.cpp:24-313 | a run with purges in which no lookup strays and the run without them answer alike exactly when none strays in the latter, each with its own hash order |
| RegistrationRuns.PurgesAndHashOrderChangeNoAnswer | src/sip/memory_store.cpp:24-313 | if no lookup meets its identity expired while another is stored, neither purges nor the hash order change an answer |
| RegistrationRuns.PurgingFirstGivesTheDueAnswers | src/sip/memory_store.cpp:24-313 | with a purge before every operation a run gives exactly the due answers |
| RegistrationRuns.BatchIsAllOrNothing | src/sip/memory_store.cpp:200-235 | a batch over distinct identities is refused with nothing changed but the pruning, or reaches all of them and nothing else; the return in the middle of its loop is never taken |
| RegistrationRuns.RefreshNeedsLiveContacts | src/sip/memory_store.cpp:200-235 | a refresh batch succeeds exactly when every identity holds an unexpired matching contact, so none revives an expired one |
| RegistrationRuns.SingleRefreshNeedsLiveContact | src/sip/memory_store.cpp:177-190 | the same for a single refresh |
| RegistrationRuns.RefusedUpsertStillRewrites | src/sip/memory_store.cpp:105-123 | a single refresh without an unexpired match is refused, and leaves the store as pruning does exactly when the entry has expired or already has the fields of the update |
| RegistrationRuns.RefusedRefreshChangesItsBinding | src/sip/memory_store.cpp:105-123 | a concrete refused refresh after which the binding has another private identity |
| RegistrationRuns.StaleUpsertDisplacesNothing | src/sip/memory_store.cpp:127-134 | with CSeq checking, a contact of the same Call-ID and larger CSeq keeps its place |
| RegistrationRuns.RemovalTakesExactly | src/sip/memory_store.cpp:152-162 | a removal takes exactly the matching contacts that are not newer in its own Call-ID |
| RegistrationRuns.ContactsLeaveOnlyForNewer | src/sip/memory_store.cpp:24-303 | over whole runs: a contact stays in its binding until it expires, the binding is removed or replaced, or a REGISTER selects it that is of another Call-ID, is not older, or comes without CSeq checking |
| Bencode.OutputStream.EncodeImpl | src/rtp/bencode.cpp:10-30 | what the recursive printer appends is the encoding of the value |
| BencodeTexts.EncodedTexts | src/rtp/bencode.cpp:10-30 | the usual examples: 4:spam, i-3e, l4:spami42ee, d3:bar4:spam3:fooi42ee and the empty ones |
| BencodeTexts.KeyOrder | src/rtp/bencode.cpp:20-27 | the order of keys is that of the first character that differs |
| Bencode.BencodeParser.Parse | src/rtp/bencode.cpp:37-56 | the recursive parser does what the step-counting reading says, on every text, wrapping lengths included |
| Bencode.BencodeParser.ParseString | src/rtp/bencode.cpp:59-76 | length prefix, colon, and the bounds check and the new position on 64 bits; the exceptions of stoul are kept apart |
| Bencode.BencodeParser.ParseList | src/rtp/bencode.cpp:90-104 | the loop over items |
| Bencode.BencodeParser.ParseDict | src/rtp/bencode.cpp:106-128 | the loop over key and value pairs, later keys overwriting earlier ones |
| BencodeTexts.TwoEntries | src/rtp/bencode.cpp:106-128 | two entries in any order are read sorted, and of two under one key the second counts |
| BencodeTexts.OtherStartsAreMalformed | src/rtp/bencode.cpp:37-56 | a value that starts with anything but i, l, d or a digit, or with nothing, is refused |
| BencodeTexts.IntegerTexts | src/rtp/bencode.cpp:78-88 | every integer is read exactly when it fits 64 bits, and is out of range otherwise |
| BencodeTexts.BrokenIntegers | src/rtp/bencode.cpp:78-88 | an integer without its e, and one without a digit, and which exception each gives |
| BencodeTexts.StringTexts | src/rtp/bencode.cpp:59-76 | a length n and a colon yield the next n characters, and a shorter text is refused |
| BencodeTexts.StringsNeedAColon | src/rtp/bencode.cpp:61-64 | a text that starts with a digit and has no colon is refused |
| BencodeTexts.KeysAreStrings | src/rtp/bencode.cpp:111-116 | a dictionary with an integer for a key is refused |
| BencodeTexts.CompositesNeedAnEnd | src/rtp/bencode.cpp:98-124 | every list and dictionary without its last e is refused |
| NumberTexts.StoulReads | src/rtp/bencode.cpp:66 | leading space, sign, digits and anything behind them: the number modulo 2^64, or out of range |
| NumberTexts.StollReads | src/rtp/bencode.cpp:85 | the same for signed 64-bit numbers |
| NumberTexts.NoDigitNoNumber | src/rtp/bencode.cpp:66 | a text without a digit is an invalid argument to both |
| Bencode.StringGetsOnUnlessItWraps | src/rtp/bencode.cpp:66-75 | a string read gets past its own prefix exactly when the sum of position and length does not wrap |
| Bencode.ReadingEndsUnlessItWraps | src/rtp/bencode.cpp:37-128 | where no length wraps the parser ends, within two steps a character, with what stands in the text |
| Bencode.OutcomeIsFinal | src/rtp/bencode.cpp:37-128 | an outcome does not depend on how many more steps there were |
| Bencode.ParserNeedNotEnd | src/rtp/bencode.cpp:69-96 | a list whose first length leads back to itself: no number of steps ends the parser |
| BencodeBound.ParserEndsSoonOrNever | src/rtp/bencode.cpp:37-128 | on every text, wrapping lengths included, the parser ends exactly when it ends within three steps for each position |
| Bencode.ValueIsRead | src/rtp/bencode.cpp:10-132 | wherever an encoded value stands in a text and whatever follows, the parser yields it and stops right behind it |
| Bencode.DecodeUndoesEncode | src/rtp/bencode.cpp:136-145 | decoding an encoding followed by any bytes gives the value and consumes exactly the encoding, for texts a std::string can hold |
| Bencode.EncodingIsPrefixFree | src/rtp/bencode.cpp:10-30 | encodings followed by anything are equal only for equal values: injective and prefix-free |
| Bencode.InsertedIsMapUpdate | src/rtp/bencode.cpp:119 | the ordered insertion behaves as assignment to a map |
| Bencode.ParsedIsWellFormed | src/rtp/bencode.cpp:37-132 | whatever the text, wrapping lengths included, a value the parser yields has sorted keys and 64-bit integers throughout |
| Bencode.PrintedFormIsCanonical | src/rtp/bencode.cpp:136-145 | printing a parsed value and parsing it again gives the same value |
| TcpFraming.ParseContentLength | src/sip/transport.cpp:42-71 | the loop over header lines gives the first Content-Length, long or compact form |
| TcpHeaders.NameDecides | src/sip/transport.cpp:54-57 | a line gives a length exactly when its name is content-length or l in any case |
| TcpHeaders.ValueDecides | src/sip/transport.cpp:59-68 | a value that fits 64 bits is the length; one that does not, or has no digit, counts as 0 |
| TcpHeaders.NoLengthLineNoBody | src/sip/transport.cpp:42-71 | a header without such a line gives 0 |
| TcpHeaders.MessageWithoutLength | src/sip/transport.cpp:73-91 | so a message without one ends with its blank line, whatever follows |
| TcpFraming.Connection.TryExtractSipMessage | src/sip/transport.cpp:73-91 | the cut-off length on 64 bits, and what becomes of the buffer |
| TcpFraming.Connection.OnRead | src/sip/transport.cpp:347-353 | whether the loop of a read has ended within a number of rounds, and if so messages and leftover are those of the reads so far, else where those rounds lead |
| TcpFraming.LoopEndsIffItProgresses | src/sip/transport.cpp:349-353 | the loop of a read ends exactly when no header it gets to has a full length of 0 |
| TcpFraming.NegativeLengthCanStall | src/sip/transport.cpp:81-90 | a Content-Length of -8 behind a header of eight bytes: the loop never ends |
| TcpFraming.MessageIsWholeUnlessItWraps | src/sip/transport.cpp:81-90 | a message is its header and as much as it says, and no shorter than its header, exactly when the sum does not wrap |
| TcpFraming.MoreBytesKeepTheMessage | src/sip/transport.cpp:73-91 | bytes arriving later never change where a complete message ends |
| TcpFraming.DrainKeepsTheBytes | src/sip/transport.cpp:347-353 | the messages followed by the leftover are the stream |
| TcpFraming.FramingIgnoresChunking | src/sip/transport.cpp:347-353 | for every stream and every split of it into reads, messages and leftover are those of one read of the whole; and the loop ends after every read exactly when it would after that one |
| TcpFraming.SentMessagesArrive | src/sip/transport.cpp:73-91 | messages written back to back with their lengths come out one by one as sent, however the stream is cut, and the loop ends after every read (RFC 3261, section 18.3) |
| RtpengineProtocol.EchoedCookieIsUnderstood | src/rtp/rtpengine_client.cpp:352-383 | the n-th cookie, a space and an encoded dictionary, followed by anything, give the cookie and the dictionary back |
| RtpengineExchanges.PingText | src/rtp/rtpengine_client.cpp:228-229 | the first ping is 1 d7:command4:pinge |
| RtpengineExchanges.OtherTextsAreNoReplies | src/rtp/rtpengine_client.cpp:352-383 | a text without a space, or with another value than a dictionary behind it, is no reply |
| RtpengineProtocol.RtpengineClientImpl.FailAllPendingRequests | src/rtp/rtpengine_client.cpp:406-421 | the table is emptied and every request in it completed with the error |
| RtpengineExchanges.CommandIsAnswered | src/rtp/rtpengine_client.cpp:208-264 | a whole command: filed under the next number, its cookie echoed with a dictionary, that dictionary is returned, and the table is what it was |
| RtpengineExchanges.UnansweredCommandFails | src/rtp/rtpengine_client.cpp:248-261 | a command not answered in time fails and leaves no entry |
| RtpengineExchanges.UnsentCommandFails | src/rtp/rtpengine_client.cpp:231-246 | nor does one that is not sent |
| RtpengineExchanges.ForeignReplyIsIgnored | src/rtp/rtpengine_client.cpp:385-404 | a reply under no cookie of the table completes nothing |
| RtpengineExchanges.EarlierEntryStays | src/rtp/rtpengine_client.cpp:221-226 | a command that meets its own cookie in the table leaves the entry to the other |
| RtpengineExchanges.ShutdownFailsTheWaiting | src/rtp/rtpengine_client.cpp:406-421 | a waiting command gets the error of a shutdown, and the table is empty |
| RtpengineExchanges.NoCommandAfterShutdown | src/rtp/rtpengine_client.cpp:208-219 | no command starts after a shutdown |
| RtpengineExchanges.NoCommandWithoutReceiver | src/rtp/rtpengine_client.cpp:216-219 | nor without a receiver thread |
| RtpengineRuns.RunKeepsInv | src/rtp/rtpengine_client.cpp:208-421 | the invariants of numbers, table, hands and calls hold in every state of every interleaving of senders, receiver, time-outs and shutdown, the counter wrapping or not |
| RtpengineRuns.CompletedAtMostOnce | src/rtp/rtpengine_client.cpp:385-421 | no request is completed twice |
| RtpengineRuns.ResponsesAreOwn | src/rtp/rtpengine_client.cpp:248-263 | a call that returns a dictionary returns that of a received datagram carrying its own cookie |
| RtpengineRuns.DatagramsAnswerOneCall | src/rtp/rtpengine_client.cpp:385-404 | no datagram answers two calls |
| RtpengineRuns.TableHoldsOpenCallsOnly | src/rtp/rtpengine_client.cpp:208-264 | an entry of the table belongs to a call that has registered, has not returned and is not completed |
| RtpengineRuns.OpenCallsCanBeAnswered | src/rtp/rtpengine_client.cpp:208-264 | while no call registers under the cookie of another open one, every open call is completed, about to be, or in the table under its cookie |
| RtpengineRuns.CollisionTakesAFullTurn | src/rtp/rtpengine_client.cpp:221-226 | such a collision takes a full turn of the 64-bit counter while the other call is open |
| TransactionRuns.RetransmissionsBackOff | src/sip/transaction.cpp:390-428 | in every run the k-th retransmission comes at least min(500*2^k, 4000) ms after the send before it |
| TransactionRuns.PromptIntervalsAreExact | src/sip/transaction.cpp:409-420 | with Timer A served when due and sends that take no time, the k-th interval is exactly min(500*2^k, 4000) ms |
| TransactionRuns.AtMostTenRetransmissions | src/sip/transaction.cpp:390-428 | at most ten retransmissions, eleven sends and a shift of ten, in every run where no provisional response revives an ended transaction |
| TransactionCourses.SilentPeerTimesOut | src/sip/transaction.cpp:272-428 | against a silent peer over UDP, timers served when due: sends exactly at 0, 500, 1500, 3500 ms and every 4000 ms from then on, eleven in all, and the time-out at 32,000 ms, not earlier and not later |
| TransactionCourses.ReliableTransportSendsOnce | src/sip/transaction.cpp:272-306 | over a reliable transport the request is sent at most once, in every run |
| TransactionCourses.ResponsesLeadTo | src/sip/transaction.cpp:362-388 | the state a response leads to and the timers it stops, for each class of status and both kinds of request |
| TransactionCourses.ResponseStopsRetransmission | src/sip/transaction.cpp:370-380 | after a response that meets no retransmission under way nothing is sent, whatever follows |
| TransactionCourses.EndedTransactionsSendNothing | src/sip/transaction.cpp:390-420 | a retransmission that finds the transaction ended neither sends nor sets Timer A again |
| TransactionCourses.EarlyResponsesKeepTimersOff | src/sip/transaction.cpp:292-310 | a response before the timers are set: after a provisional one Timer B alone is set, after a final one neither |
| TransactionCourses.TimeoutErases | src/sip/transaction.cpp:310-332 | Timer B ends an unanswered transaction, stops Timer A and has its entry erased |
| TransactionCourses.EndedTransactionsAreErased | src/sip/transaction.cpp:465-476 | the receiver of a final response erases the entry |
| TransactionCourses.UnsentRequestEnds | src/sip/transaction.cpp:272-284 | a request that cannot be sent ends its transaction at once |
| TransactionRuns.RevivedTransactionIsUnbounded | src/sip/transaction.cpp:370-372 | once one does, with a retransmission under way and Timer B gone, continuations reach every count |
| TransactionRuns.RevivalIsReachable | src/sip/transaction.cpp:310-332 | a run with one receiver leads there: a 180 is looked up, Timer B ends the transaction and its entry is erased, and then the 180 is processed |
| TransactionRuns.OnlyTimeoutOrShutdownIsRevived | src/sip/transaction.cpp:465-483 | with one receiver at a time a final response cannot be overtaken: only a time-out or a shutdown can |

## Left out

- Texts and buffers longer than 2^64 - 1 characters, which no `std::string` can hold, are excluded where positions are compared with lengths.
- Bytes of text are Dafny characters, one per byte; no character encoding is modelled.
- The tables S and Xtime are decision functions on bytes instead of arrays, and `^` is written `GaloisField.Add`.
- Bodies of long loops are split into helper methods (`RotateRow1`, `ExpandRow`, `EncodeGroup`, `ParseLine`, `EachHasMatch`, `MarkDoomed` and the like); the statements are those of the source in their order.
- The thread-local round-key table is passed as a parameter; every caller rewrites it before use.
- Hex parsing of K, OPc and AMF from the configuration and the choice between OP and OPc (src/diameter/aka_vector_builder.cpp:48-123): the same parser as for the SQN, with no state.
- No setSqn, deletion or web write to a subscriber happens during a run of advanceSqn.
- The HSS call returns a result; exceptions thrown inside it are not modelled.
- MD5 and the digest comparison are a free outcome of a verifier's step, and the fields of its Authorization header are parameters of it.
- URI normalization and the extraction of a URI from a Contact header are uninterpreted functions.
- `updateToTag`, the overloads by Call-ID alone, QoS and Rx fields set after creation, and `removeSession` of MediaSessionManager: the P-CSCF's INVITE handling does not use them.
- Media sessions with SDP rewriting, PCF requests and the texts sent to rtpengine: only the steps on the table are kept.
- Contacts keep the fields that selection, expiry and ordering read; q-value and User-Agent are not modelled.
- Uniqueness of contacts by URI is not claimed: selectors by instance-id and by URI can be mixed on one binding.
- Destruction of the rtpengine client while calls are running is modelled only as shutdown followed by failing all pending requests.
- TransactionRuns.AtMostTenRetransmissions: Timer B is taken to be served when it is due; Timer A may be served late.
- Server transactions, the table of the other transactions, Via and Route handling, registrar glue, I-CSCF selection, the Digest provider, web UI, DNS, Diameter and configuration: they would add only easy members.
