# Model of the virtual PIV card, its server, and the ebox formats

This project models two components of the repository and proves what they promise.

**fibby**, the virtual PIV card and the pcsc-lite server in front of it. `Card` gives what the card does
with each command as a function of its whole state, over commands following sections 3.2.1 to 3.2.4 of
NIST SP 800-73-4 Part 2; `VirtualCard` is the card as an object whose handlers update its fields, proved
against it. `Touch` is the touch pad, `TouchWait` the retry loop that parks an APDU until a touch comes
while everyone else goes on using the card. `CardHistory`, `CardTouch` and `CardContents` say what
every run keeps: the PIN-always rule, the guess budget, touches and admin authentication, key provenance,
the object store. `CardCommands`, `CardGates`, `CardPins`, `CardPolicies` and `CardKeys` say, in bytes and
from the history of what was answered, which command runs, which secrets the card holds, and when it signs,
agrees and takes keys. `Server` and `PcscServer` are the
server's handles and transactions as functions and as an object; `ServerHistory` and `ServerIsolation`
say what every interleaving of clients keeps, `ServerSessions` what each command does to its card's session,
`ServerHandles` and `ServerParked` where that ends, with
`ServerParkedRun` as a whole run of it. `WakeUp` is the register, notify and stop protocol over a
connection's two FIFOs.

**piggy-box**, the ebox format and its unlock path. `Wire`, `BoxFormat`, `PartFields`, `Many`,
`TemplateFormat` and `EboxFormat` are the formats as functions on byte strings; `PartIO`, `BoxIO` and
`TemplateFile` are the readers and writers that move a cursor and grow a buffer, proved against them.
`AgentExt` frames key blobs, `BoxCrypto` seals and opens a box, `EboxCreate` makes an ebox,
`EboxUnlock` unlocks and recovers one, `EboxObject` does all three in place. `EboxSearch`,
`EboxTheorems` and `EboxRecovery` prove that the search is exact and that recipients get the key
back, `EboxForeign` that nobody else does, `EboxContents` what an ebox is made of. `WireLayouts` has
the formats byte for byte. `StreamChunks` is the chunk encryption of streams. `Base` and `ApduParse` hold bytes, big-endian
numbers, exclusive-or and the card's parsers.

Bytes are integers below 256, text is UTF-8 bytes, time is in milliseconds. Integer widths that matter
are written out: wrapping handles, counts cut to a byte, lengths cut to 32 bits. Time, randomness and
other clients are inputs. Elliptic curves, ciphers, hashes, secret sharing and base64 are functions;
the laws asked of them, at the lengths `create` uses, are hypotheses (`BoxCrypto.Lawful`, which
`BoxCrypto.LawsCanBeMet` shows to be consistent, `StreamChunks.Lawful` and `TemplateFile.Lawful`).

Where the code does less than it promises, the exact condition is proved:

- The transaction is checked before the first attempt only, so an APDU parked for a touch can later run inside
  another client's transaction (`ServerParked.RetriesStayInTheirTransactionIffHeld`; `ServerParkedRun.SignatureInForeignTransaction` is a run from a fresh server).
- The reader-state array is built before the registration, so a toggle in between is lost (`WakeUp.ToggleCanBeMissed`).
- Handle values repeat after 2^32 connects (`ServerHistory.ConnectKeepsInvIffHandleIsFree`, reached in `ServerHandles.HandleIsGivenTwice`), although the comment beside the counter wants no live value repeated.
- A handle the connection never opened resolves to card 0 (`ServerHistory.BeginKeepsInvIffLive`). If its value was given to nobody, as -1 for a request that cannot be read, its transaction outlives every close and hang-up, until someone ends it by that value (`ServerHandles.StrangerKeepsCardZero`).
- Every admin challenge of an unseeded card is eight zero bytes, so an accepted response is accepted again after the next request (`CardTouch.ReplayIsAcceptedIffOutstanding`), although the challenge itself is spent.
- An ebox made for a key of 238 to 255 bytes cannot be printed (`EboxTheorems.CreatedEboxFitsIff`; `EboxRecovery.MadeButNotPrinted` makes one).
- List counts are cut to a byte and 32-bit lengths to 32 bits without an error (the `...Iff` lemmas of the formats).

## Model

| member | source | states |
|---|---|---|
| TouchWait.TransmitWaitingForTouch | crates/fibby/src/server.rs:957-996 | whatever the others do meanwhile, card, pad and answer are those of one dispatch at the last attempt, or, on timeout or hang-up, of none; at each look it goes on waiting exactly if the client is there, the pad has not moved and the timeout has not passed since the first attempt; attempts are one more than the looks that saw the pad move; it never sleeps longer than 200 ms without looking |
| CardHistory.BlockedAttemptChangesNothing | crates/fibby/src/virtual_card.rs:1362-1410 | an attempt that must wait for a touch leaves every field of the card and the pad as they were and answers 69 82 with the pad's current generation |
| TouchWait.AwaitTouch | crates/fibby/src/server.rs:978-994 | between two attempts only the others act; every look before the last saw the pad unmoved, the client there and the deadline ahead, and the last one says why the wait ends |
| TouchWait.World.WaitForChange | crates/fibby/src/touch.rs:109-123 | true exactly if the generation is no longer the one seen, false only once the slice has ended |
| TouchWait.RunKeepsGeneration | crates/fibby/src/touch.rs:42-46 | no operation of the card ever takes the pad's generation back |
| Touch.TouchPad.Grant | crates/fibby/src/touch.rs:65-71 | one more pending touch and a new generation |
| Touch.TouchPad.TryConsume | crates/fibby/src/touch.rs:77-104 | cached pass, granted pass or block, and exactly what each changes |
| Touch.TouchPad.ClearCache | crates/fibby/src/touch.rs:128-130 | closes every window, keeps pending touches and the generation |
| Touch.TouchesAreConserved | crates/fibby/src/touch.rs:65-104 | over every run: grants = pending + granted passes; generation = grants + windows opened |
| Touch.CachedPassIffRecentTouch | crates/fibby/src/touch.rs:77-104 | a cached pass happens exactly if the newest granted cached touch on that slot, with no clear since, is less than 15 s old |
| Touch.WindowHistory | crates/fibby/src/touch.rs:77-130 | the stored end of a slot's window is always that of its newest granted cached touch since the last clear, and there is none otherwise |
| Touch.NoLostWakeUp | crates/fibby/src/touch.rs:42-46 | while the generation a waiter saw is current there is no pending touch, its slot's window is closed, and retrying would block again |
| Touch.CountersFitTheirWidths | crates/fibby/src/touch.rs:32-46 | with fewer than 2^32 grants neither the u32 nor the u64 counter overflows |
| CardPolicies.SignaturesFollowThePolicy | crates/fibby/src/virtual_card.rs:2278-2395 | over every run: a signature is made exactly for a well-formed request, with the scalar that last arrived in the slot, once the PIN was verified as the policy it arrived with asks (none meaning each time in 9C, never in 9E, once elsewhere) and once touched as it asks; and which refusal it gets otherwise |
| CardPolicies.AgreementsFollowThePolicy | crates/fibby/src/virtual_card.rs:2143-2242 | the same for a key agreement in slot 9D with the point sent |
| CardPolicies.ResultsFollowVerify | crates/fibby/src/virtual_card.rs:853-877 | a result under policy 3, or none in 9C, follows an accepted VERIFY with nothing between but VERIFYs and blocked attempts; under 2, or none in 9A and 9D, a VERIFY that still counts; under 1, or none in 9E, the PIN is never what is missing |
| CardPolicies.VerifiedIffSince | crates/fibby/src/virtual_card.rs:1723-1777 | the session counts as verified exactly if a VERIFY was accepted and no session end, unblock, factory reset or PIN-always result came since |
| CardPolicies.ArmedIffFresh | crates/fibby/src/virtual_card.rs:1755-1760 | a card is ready for a PIN-always operation exactly if a VERIFY was accepted and nothing has intervened since |
| CardHistory.AlwaysOperationFollowsVerify | crates/fibby/src/virtual_card.rs:1390-1410 | every signature or key agreement on an effective PIN-always slot follows an accepted VERIFY with nothing between but VERIFYs and touch-blocked attempts |
| CardHistory.OneVerifyPerAlwaysOperation | crates/fibby/src/virtual_card.rs:2363-2387 | over every run, successful PIN-always operations never outnumber accepted VERIFYs |
| CardHistory.ArmingStep | crates/fibby/src/virtual_card.rs:1755-1760 | only an accepted VERIFY arms the card, whatever intervenes disarms it, and an operation on an always slot needs it armed and disarms it |
| CardTouch.CardPadsAreTouchRuns | crates/fibby/src/virtual_card.rs:893-926 | every run of the card leaves its pad where a run of the pad with the same grants leaves it, so what holds of every pad run holds of the card |
| CardTouch.TouchAlwaysOperationsAreTouched | crates/fibby/src/virtual_card.rs:893-926 | over every run, operations answered on touch-always slots plus pending touches never outnumber the touches given |
| CardTouch.PadStep | crates/fibby/src/virtual_card.rs:893-926 | what each operation does to the pad: an operation released on a touch slot asked the pad for that slot, under its policy and clock, and passed |
| CardTouch.AuthenticatedIffAnsweredThisSession | crates/fibby/src/virtual_card.rs:1845-1909 | admin authentication is present exactly if the challenge was answered right since the last power-down, removal or reset; factory reset does not end it |
| CardTouch.KeysChangeOnlyForAdmin | crates/fibby/src/virtual_card.rs:2455-2641 | seeding and factory reset aside, keys and the management key change only for whoever answered the challenge this session |
| CardTouch.EachAnswerNeedsAChallenge | crates/fibby/src/virtual_card.rs:1845-1909 | over every run: between any two right answers a challenge was asked for |
| CardTouch.ReplayIsAcceptedIffOutstanding | crates/fibby/src/virtual_card.rs:1851-1890 | every challenge of an unseeded card is eight zero bytes, so a response accepted once is accepted again, at any later time under the same key, exactly if a challenge is outstanding |
| CardTouch.SameResponseIsAcceptedAgain | crates/fibby/src/virtual_card.rs:1851-1890 | the replay: after a right answer and one more challenge request the identical response is accepted again |
| CardTouch.ChallengeIsSingleUse | crates/fibby/src/virtual_card.rs:1870-1909 | a right answer spends its challenge: the command right after it is not a right answer |
| CardTouch.ChallengeStep | crates/fibby/src/virtual_card.rs:1845-1909 | what each operation does to the outstanding challenge: only a request makes one, a right answer leaves none, nothing else replaces one |
| CardHistory.GuessBudget | crates/fibby/src/virtual_card.rs:1723-1777 | over every run and for both counters: wrong guesses since the last restore plus retries left equal what it was restored to, at most three |
| CardHistory.CountersStep | crates/fibby/src/virtual_card.rs:1921-2075 | what each operation does to both counters, in terms of what was presented to the card |
| CardHistory.BlockedPinIsRevivedOnlyByPukOrWipe | crates/fibby/src/virtual_card.rs:1985-2075 | a blocked PIN gets retries back exactly by an accepted unblock or factory reset |
| CardHistory.BlockedPukIsAbsorbing | crates/fibby/src/virtual_card.rs:1985-2075 | a blocked PUK stays blocked, and a blocked PIN with it, over any run without an accepted factory reset |
| CardHistory.PinsStayEightBytes | crates/fibby/src/virtual_card.rs:1723-2075 | the stored PIN and PUK are eight bytes in every reachable state |
| CardPins.ValuesFollowTheAnswers | crates/fibby/src/virtual_card.rs:1921-2075 | over every run: the stored PIN is the second half of the last accepted change or unblock since the last factory reset, the default after one, else the initial one; the same for the PUK |
| CardPins.VerifyAnswers | crates/fibby/src/virtual_card.rs:1723-1777 | VERIFY accepts exactly that PIN while the retries of the guess history are left, and otherwise answers how many are |
| CardPins.ChangeAnswers | crates/fibby/src/virtual_card.rs:1921-1972 | CHANGE REFERENCE DATA asks for the PIN or the PUK of the history, and what each case is answered |
| CardPins.UnblockAnswers | crates/fibby/src/virtual_card.rs:1985-2028 | RESET RETRY COUNTER asks for the PUK of the history, and what each case is answered |
| CardPins.WipeAnswers | crates/fibby/src/virtual_card.rs:2039-2075 | a factory reset is accepted exactly while the guess history has blocked both |
| CardPins.ChangedPinIsTheOneAsked | crates/fibby/src/virtual_card.rs:1921-1972 | in bytes: 00 24 00 80 with the PIN and a new one answers 90 00, and the next 00 20 00 80 is accepted with the new PIN and answers 63 C2 to any other |
| CardPins.MgmtKeyFollowsTheAnswers | crates/fibby/src/virtual_card.rs:2086-2112 | over every run: the management key is the 24 bytes of the last accepted rotation since the last factory reset, the default after one, else the initial one |
| CardCommands.PinHeaders | crates/fibby/src/virtual_card.rs:1440-1704 | exactly which four header bytes are VERIFY, CHANGE of PIN and of PUK, RESET RETRY COUNTER and factory reset |
| CardCommands.AdminHeaders | crates/fibby/src/virtual_card.rs:1500-1704 | exactly which are management-key authentication and rotation, GENERATE, IMPORT, ATTEST and GET METADATA |
| CardCommands.DataHeaders | crates/fibby/src/virtual_card.rs:1440-1704 | exactly which are SELECT, GET DATA, PUT DATA and the version and serial queries |
| CardCommands.KeyHeaders | crates/fibby/src/virtual_card.rs:1500-1704 | exactly which are signatures and key agreements, slot 9D being told apart by its template |
| CardGates.SelectionFollowsHistory | crates/fibby/src/virtual_card.rs:1436-1476 | over every run: the selected applet is the one last named by SELECT since the card was last powered up, reset or removed |
| CardGates.UnselectedRefuses | crates/fibby/src/virtual_card.rs:1390-1410 | a card that wants an applet selected answers 6D 00 to everything but SELECT until that history selects one, and nothing happens on it |
| CardGates.FaultsAreConserved | crates/fibby/src/virtual_card.rs:984-996 | over every run that never clears the queue: commands answered by faults plus answers still owed are the answers injected |
| CardGates.FaultAnswers | crates/fibby/src/virtual_card.rs:984-996 | the first queued fault that covers the instruction answers and loses one use, and nothing is processed |
| CardGates.EventsCountToggles | crates/fibby/src/virtual_card.rs:1267-1289 | over every run: the event counter counts insertions and removals that changed anything, modulo 2^32, and nothing else |
| CardKeys.KeysArriveIff | crates/fibby/src/virtual_card.rs:2455-2564 | a generated key arrives exactly for an authenticated admin with a well-formed request for P-256 in 9A, 9C or 9D with defined policies and a valid scalar, with the scalar and policy of that request |
| CardKeys.ImportsArriveIff | crates/fibby/src/virtual_card.rs:2576-2641 | the same for an imported key |
| CardContents.ProvenanceFollowsTheKey | crates/fibby/src/virtual_card.rs:834-859 | in every reachable state key, policy and origin tables agree with the history of generations, imports, seedings and resets; policy and origin entries cover the same slots, all populated |
| CardContents.AttestIffGeneratedHere | crates/fibby/src/virtual_card.rs:2651-2680 | ATTEST answers a certificate, of the key's point and arrival policy, exactly if the key in the slot was generated on this card |
| CardContents.MetadataReportsTheArrival | crates/fibby/src/virtual_card.rs:2702-2737 | GET METADATA answers the TLVs of the algorithm, of the policy and origin the key arrived with, and of its public point, and nothing more, or that there is no usable key |
| CardContents.ObjectsRefineTheMap | crates/fibby/src/virtual_card.rs:2401-2435 | after any history without queued faults, at any times, the object store is the map of last PUTs since the last factory reset |
| CardContents.HistoriesAreIntents | crates/fibby/src/virtual_card.rs:2401-2435 | every history without injected faults is one of those, each storing APDU a PUT of some tag, object form and remainder |
| CardContents.StoringApdusArePuts | crates/fibby/src/virtual_card.rs:2401-2435 | every APDU from which the card stores something is a PUT DATA in one of the two encodings |
| CardContents.GetDataReadsTheMap | crates/fibby/src/virtual_card.rs:1784-1825 | GET DATA in either encoding answers the map's entry byte for byte, or that there is none |
| CardContents.StoredBodiesArePutFields | crates/fibby/src/virtual_card.rs:3023-3064 | every body from which the card stores something is a tag field, a 53 object in one of its three length forms, and a remainder |
| ApduParse.ApduCarriesItsData | crates/fibby/src/virtual_card.rs:2828-2846 | both 7816-4 encodings carry every data field whose length they can express |
| ApduParse.ObjectFieldSplits | crates/fibby/src/virtual_card.rs:3023-3064 | a written 5C tag and 53 object, of every length form, split back into what was written |
| ApduParse.FindGaValue | crates/fibby/src/virtual_card.rs:2859-2927 | the cursor loop finds the first TLV with the tag, if only well-formed TLVs precede it |
| ApduParse.ParseGaSignRequest | crates/fibby/src/virtual_card.rs:2899-2927 | the prehash of a signing request: the first 81 value, refused if empty |
| ApduParse.ParseGaEcdhRequest | crates/fibby/src/virtual_card.rs:2859-2888 | the first 85 value, refused unless it is an uncompressed P-256 point |
| ApduParse.ParseGenerateRequest | crates/fibby/src/virtual_card.rs:2946-2975 | the loop yields the last algorithm, PIN and touch tags of a fully well-formed AC template |
| ApduParse.NormalizeScalar | crates/fibby/src/virtual_card.rs:2759-2792 | 32 bytes of the same number, refused for its size exactly if the number is at least 2^256 |
| ApduParse.ParseImportRequest | crates/fibby/src/virtual_card.rs:2759-2792 | scalar of the same value, and the last AA and AB of the longest well-formed TLV prefix |
| Server.ReaderFor | crates/fibby/src/server.rs:690-698 | the first reader of that name; if there is none, the only reader of a single-reader table, and otherwise none |
| ServerHistory.HandlesAndTransactionsAreAccounted | crates/fibby/src/server.rs:45-65 | in every reachable state: open_handles counts the live handles of the card over all connections, live handles are distinct, a holder is a live handle of its card, and a card with no open handle has no PIN verification, admin authentication or challenge |
| ServerHistory.StepKeepsInv | crates/fibby/src/server.rs:700-900 | each command handler, hang-up, retry and control command keeps those invariants |
| ServerHistory.ConnectKeepsInvIffHandleIsFree | crates/fibby/src/server.rs:385-420 | a connect keeps the accounting exactly if the wrapped handle value it mints is not in use |
| ServerHistory.OldestHandleIsReused | crates/fibby/src/server.rs:385-420 | after 2^32 connects the first handle's value is minted again, even while it is open, and the accounting breaks |
| ServerHandles.HandleIsGivenTwice | crates/fibby/src/server.rs:385-420 | that state is reached: from a fresh server, one client keeping its handle open while another connects and closes 2^32 - 1 times, one more connect gives the second client the first one's handle |
| ServerHistory.BeginKeepsInvIffLive | crates/fibby/src/server.rs:1046-1062 | a granted transaction keeps the accounting exactly if the handle is live on the card it resolves to, which unknown handles (card 0) need not be |
| ServerHandles.StrangerKeepsCardZero | crates/fibby/src/server.rs:1046-1099 | from a fresh server: a begin by a value nobody was given takes card 0, and whatever all clients then do, closes and hang-ups included, it keeps the card until someone ends the transaction by that value or the counter comes round to it |
| ServerHandles.OnlyItsOwnEndReleases | crates/fibby/src/server.rs:438-497 | one operation frees a card held by a value that is no open handle exactly if it ends the transaction by that very value |
| ServerHandles.StrangerBreaksTheBooks | crates/fibby/src/server.rs:1046-1062 | right after that begin the holder is a handle of nobody and no handle is open at all |
| ServerIsolation.OthersLeaveTheCardAlone | crates/fibby/src/server.rs:470-497 | connect, reconnect, close and hang-up by others, without reset or unpower, never change a card one keeps open |
| ServerIsolation.DroppedConnectionLeavesNothing | crates/fibby/src/server.rs:438-464 | a dropped connection leaves no count and no lock, and powers down exactly the cards only it had open, whatever the closing order |
| ServerIsolation.OthersKeepTheHolder | crates/fibby/src/server.rs:1064-1099 | no operation through any other handle, of another client or of the holder's own connection, ends or moves a transaction |
| ServerIsolation.TransactionsAreIsolated | crates/fibby/src/server.rs:884-900 | over every run of a fresh server: from a state in which a handle holds a card and nobody is parked there, until its own next operation, the card stays as it is, the holder stays, and every other handle's APDU or begin on it is refused |
| ServerIsolation.HolderHasTheCardToItself | crates/fibby/src/server.rs:884-900 | one step of that: while a handle holds the transaction nothing through any other handle changes the card, resets, control commands and already parked retries excepted |
| ServerIsolation.OtherHandlesAreRefused | crates/fibby/src/server.rs:884-900 | every other handle on a held card gets a sharing violation for an APDU or a begin, and its end does nothing |
| ServerSessions.HolderEndsTransaction | crates/fibby/src/server.rs:1064-1099 | the holder's end frees the card, and with reset or unpower costs it its whole session; nothing else changes |
| ServerSessions.ConnectingPowersUp | crates/fibby/src/server.rs:700-777 | the first handle powers the card up with nothing selected, a later one leaves it as it is |
| ServerSessions.ReconnectingPowersUp | crates/fibby/src/server.rs:779-826 | a sole handle re-powers the card, on a shared one only reset or unpower touches it, and costs the session |
| ServerSessions.ClosingPowersDown | crates/fibby/src/server.rs:470-497 | the last handle powers the card down and costs the session, before that only reset or unpower does |
| ServerParked.RetriesStayInTheirTransactionIffHeld | crates/fibby/src/server.rs:884-900 | the transaction is checked once, before the first attempt: as long as another client has an idle handle on the card or can still connect to it, a parked APDU can never run inside another's transaction exactly if its own handle holds it |
| ServerParkedRun.SignatureInForeignTransaction | crates/fibby/src/server.rs:957-996 | the run in which it does, from a fresh server: admin authentication, a touch key, a signature that parks, another client's begin, a touch, and the signature delivered inside that transaction |
| ServerParked.BeginThenRetryIsForeign | crates/fibby/src/server.rs:957-996 | another handle begins a transaction while an APDU is parked, and its retry would run inside it |
| WakeUp.FramingHolds | crates/fibby/src/server.rs:67-132 | for every interleaving the client only reads the kind of message it expects, and in the whole stream written to it each registration's array is followed by exactly one 8-byte message |
| WakeUp.RepliesComeInEveryRun | crates/fibby/src/server.rs:1111-1155 | a client that sent stop, wait or a command finds its reply once the server has worked off the requests |
| WakeUp.MoveKeepsStep | crates/fibby/src/server.rs:67-132 | the invariant over both FIFOs, the registration and the client, kept by every move |
| WakeUp.ClientSeesTheSnapshot | crates/fibby/src/server.rs:1111-1126 | over every run: the states a client reads are the events up to the moment its array was built |
| WakeUp.BlockedClientMissesOnlyTheGap | crates/fibby/src/server.rs:1111-1126 | a client left blocked has missed exactly the toggles between the building of its array and its registration |
| WakeUp.ToggleCanBeMissed | crates/fibby/src/server.rs:1111-1126 | a run in which a toggle falls into that gap and is neither seen nor signalled |
| WakeUp.ConnSink.WaitReaderState | crates/fibby/src/server.rs:1111-1126 | the array is appended and the registration set in one step |
| WakeUp.ConnSink.StopWaiting | crates/fibby/src/server.rs:1135-1155 | eight bytes and unregistered if still registered, nothing otherwise |
| WakeUp.NotifyWaiters | crates/fibby/src/server.rs:112-132 | every registered connection gets one wake-up and is unregistered, the others are untouched, and the count says how many |
| EboxTheorems.AnyRecipientDecrypts | crates/piggy-box/src/ebox.rs:84-174 | for every template whose lengths fit and every key of at most 237 bytes: create, print, parse in front of anything, unlock with sound oracles of which one holds one PRIMARY recipient's key: exactly the key |
| EboxForeign.ForeignSecretsNeverUnlock | crates/piggy-box/src/unlock.rs:36-87 | create, print, parse and unlock with any oracles none of whose secrets is the one a part's keys share: it fails and the ebox is as it was, if SHA-512 and the AEAD tell the secrets in play apart |
| EboxForeign.ArrivedPartOpensIff | crates/piggy-box/src/piv_box.rs:213-227 | a part off the wire opens with a secret in play exactly if that is the one its keys share |
| EboxForeign.ForeignersExist | crates/piggy-box/src/unlock.rs:36-87 | a concrete instance of the primitives and of an oracle that meets those hypotheses, and one that does not |
| EboxContents.CreatedPartsCarry | crates/piggy-box/src/ebox.rs:98-162 | in terms of the primitives alone: each part carries its template's description and, under the agreed secret's SHA-512, the key or its share of the recovery key masked bit by bit with the config's nonce |
| EboxContents.CreatedFrame | crates/piggy-box/src/ebox.rs:84-174 | version, kind, and the tagged key under the recovery key |
| EboxContents.KeyIsFoundBehindOthers | crates/piggy-box/src/ebox.rs:236-250 | recovery takes the first string tagged 2, whatever other tags stand before it and whatever follows |
| EboxContents.NoKeyIsFound | crates/piggy-box/src/ebox.rs:236-250 | and finds none where there is none |
| EboxTheorems.CreatedEboxFitsIff | crates/piggy-box/src/ebox.rs:269-294 | a created ebox survives the wire exactly if its template's lengths fit and its key is at most 237 bytes, although create accepts 255 |
| EboxTheorems.CreatedEboxPrintsIff | crates/piggy-box/src/ebox.rs:269-294 | with fitting lengths a created ebox can be printed exactly if its key is at most 237 bytes; the error is the too long recovery box |
| EboxRecovery.MadeButNotPrinted | crates/piggy-box/src/ebox.rs:84-174 | an instance: with a key of 238 bytes create succeeds and printing fails |
| EboxTheorems.ArrivedPartIsSealedTo | crates/piggy-box/src/unlock.rs:136-205 | after the wire, a part's query names its recipient and the hoisted key it was sealed under, and the shared secret opens it to its payload |
| EboxCreate.ConfigsAreMade | crates/piggy-box/src/ebox.rs:98-162 | every part of every config is sealed under the one ephemeral key of its curve |
| EboxCreate.SharedEphemeralIsTheRingKey | crates/piggy-box/src/ebox.rs:520-546 | looking a curve up in the hoisted list gives the public half of the key its parts were sealed under |
| EboxCreate.AtMostTwoEphemerals | crates/piggy-box/src/ebox.rs:520-546 | one key per curve, so the hoisted list never outgrows its count byte |
| EboxRecovery.AnyNOfMRecover | crates/piggy-box/src/ebox.rs:195-251 | opening any n or more parts of a RECOVERY config and recovering restores exactly the key and leaves nothing opened; with fewer the key stays unset |
| EboxRecovery.OpeningGivesTheShare | crates/piggy-box/src/ebox.rs:104-145 | each recipient is asked about its own key, and the secret opens its part to exactly its share |
| EboxRecovery.CreateSucceedsIff | crates/piggy-box/src/ebox.rs:84-174 | creation succeeds exactly if the key is at most 255 bytes, every public key is a point, and no RECOVERY config has 256 parts or more |
| EboxRecovery.HypothesesCanBeMet | crates/piggy-box/src/ebox.rs:84-174 | the hypotheses of these results hold of a concrete instance, for every key length they allow, and the key comes back |
| EboxSearch.SearchIsExact | crates/piggy-box/src/unlock.rs:36-87 | on a freshly parsed ebox: success exactly if some attempt opens; the first in order wins, its data is the key, nothing else changes, nothing is asked later; on failure the ebox is unchanged and the reason is the last one that says more than no-key |
| EboxSearch.OrderIsEveryAttemptInOrder | crates/piggy-box/src/unlock.rs:68-84 | the order holds every (PRIMARY config, supplied oracle, part) once, by config, then agent before card, then part |
| EboxSearch.AttemptIs | crates/piggy-box/src/unlock.rs:147-205 | one attempt in terms of the primitives alone: which two keys are asked about, when nothing is, when the box opens, and which failure is told about |
| EboxSearch.FailureNamesTheLastTold | crates/piggy-box/src/unlock.rs:36-87 | a failed search names the failure of the last attempt that had one to tell; if none had, that there are only RECOVERY configs exactly if that is so |
| EboxSearch.FirstOfItsCurve | crates/piggy-box/src/unlock.rs:136-160 | the ephemeral key taken from the list is the first of the curve |
| EboxFormat.EboxRoundTripsIff | crates/piggy-box/src/ebox.rs:269-350 | for version 2 and later: printed bytes in front of any suffix parse to the ebox, less the documented fields, with the suffix left over, exactly if every list and string fits |
| EboxFormat.EboxesPrintApart | crates/piggy-box/src/ebox.rs:269-294 | eboxes that print alike are alike up to the dropped fields |
| EboxFormat.PartRoundTrips | crates/piggy-box/src/ebox.rs:393-518 | a part comes back without its own public key, and its box without ephemeral key and plaintext but with the part's GUID and slot |
| EboxFormat.HeaderRoundTripsIff | crates/piggy-box/src/stream.rs:43-66 | a stream header comes back in front of any suffix exactly if its ebox and both names fit |
| TemplateFormat.TemplateRoundTripsIff | crates/piggy-box/src/template.rs:79-120 | a template comes back unchanged in front of any suffix exactly if every list and string fits and no PRIMARY config asks for more than one part |
| TemplateFormat.TemplatesPrintApart | crates/piggy-box/src/template.rs:79-92 | fitting templates that print alike are alike |
| BoxFormat.BoxRoundTripsIff | crates/piggy-box/src/piv_box.rs:229-323 | a box on its own comes back, unopened and without a version 1 nonce, exactly if its version is known and its fields fit |
| BoxFormat.CurveNamesRoundTrip | crates/piggy-box/src/piv_box.rs:30-54 | a name is read as a curve exactly if it is that curve's name |
| PartFields.FieldsRead | crates/piggy-box/src/template.rs:195-250 | readable fields, however many and whatever follows, are collected in order by the tag loop |
| PartFields.UnknownOptionalFieldsAreIgnored | crates/piggy-box/src/ebox.rs:438-518 | unknown optional fields, any number, any payload, between any fields and before anything, change nothing about the parse |
| PartFields.UnknownCriticalTagFails | crates/piggy-box/src/ebox.rs:505-511 | an unknown tag without the optional flag makes the part unreadable wherever it stands |
| PartFields.ReadPartsAreFields | crates/piggy-box/src/ebox.rs:438-518 | whatever reads as a part is a run of readable fields and an end tag, read back byte for byte |
| PartFields.GetFields | crates/piggy-box/src/template.rs:195-250 | the tag loop terminates on every byte string and consumes at least the end tag |
| TemplateFile.TemplateFilesRoundTripIff | crates/piggy-box/src/template.rs:127-157 | a base64 template file reads back as the template exactly if the template fits its wire form |
| TemplateFile.LinesAreFull | crates/piggy-box/src/template.rs:127-140 | newlines stand after every 65th character and at the end, and nowhere else |
| TemplateFile.WhitespaceIsIgnored | crates/piggy-box/src/template.rs:147-157 | whitespace anywhere in a file makes no difference |
| Wire.Cstring8RoundTrips | crates/piggy-box/src/wire.rs:71-77 | whatever text can be written is read back, whatever follows |
| Wire.String32RoundTripsIff | crates/piggy-box/src/wire.rs:85-170 | a 32-bit string comes back exactly if its length fits the prefix, which the writer truncates |
| Wire.String32ReadsBack | crates/piggy-box/src/wire.rs:85-91 | what is read, written again, is what was there |
| Wire.PaddingRoundTrips | crates/piggy-box/src/wire.rs:178-200 | unpadding undoes padding on every input, padding undoes unpadding on every block multiple that unpads |
| Wire.Pkcs7Unpad | crates/piggy-box/src/wire.rs:185-200 | succeeds exactly on well-padded data, with the data before the padding |
| WireLayouts.BoxLayout | crates/piggy-box/src/piv_box.rs:229-263 | the bytes of a box with every magic number, flag and length written out |
| WireLayouts.TemplatePartLayout | crates/piggy-box/src/template.rs:160-193 | the bytes of a template part with every tag and length written out |
| WireLayouts.TemplateLayout | crates/piggy-box/src/template.rs:79-92 | the frame of a template and of its configs |
| WireLayouts.EboxPartLayout | crates/piggy-box/src/ebox.rs:393-436 | the bytes of an ebox part with every tag and length written out |
| WireLayouts.EboxLayout | crates/piggy-box/src/ebox.rs:269-294 | the frame of an ebox |
| WireLayouts.ConfigLayout | crates/piggy-box/src/ebox.rs:353-370 | the frame of an ebox config |
| WireLayouts.EphemeralLayout | crates/piggy-box/src/ebox.rs:279-285 | the bytes of an ephemeral key |
| WireLayouts.HeaderLayout | crates/piggy-box/src/stream.rs:43-51 | what follows the ebox in a stream header |
| WireLayouts.ListsInOrder | crates/piggy-box/src/ebox.rs:269-294 | lists are written in their order |
| WireLayouts.KeyBlobLayout | crates/piggy-box/src/agent_ext.rs:86-92 | the bytes of a key blob |
| StreamChunks.ChunkRoundTripsIff | crates/piggy-box/src/stream.rs:68-127 | a chunk decrypts to its own number and bytes exactly if padded plaintext and MAC fit the 32-bit length |
| StreamChunks.CounterBlocksAreDistinct | crates/piggy-box/src/stream.rs:130-145 | different (sequence number, block index below 2^96) pairs never share a counter block |
| StreamChunks.CounterBlockIsSeqnrAndIndex | crates/piggy-box/src/stream.rs:130-145 | the counter block is the sequence number times 2^96 plus the index |
| StreamChunks.ChunkBytes | crates/piggy-box/src/stream.rs:68-145 | every bit of a chunk: number and length in front, each padded byte exclusive-ored with its byte of AES of the 16-byte block numbered seqnr * 2^96 + k / 16, then the MAC of those bytes |
| StreamChunks.TamperedChunksAreRefused | crates/piggy-box/src/stream.rs:111-119 | a frame is refused for its MAC exactly if the MAC is not the ciphertext's |
| StreamChunks.OutOfTurnChunksAreRefused | crates/piggy-box/src/stream.rs:88-127 | with an expected number, a chunk of another number is refused for that before anything else is looked at |
| AgentExt.PointSurvivesBlobIff | crates/piggy-box/src/agent_ext.rs:86-138 | a point comes back out of its key blob exactly if its length fits |
| AgentExt.BlobsAreDistinct | crates/piggy-box/src/agent_ext.rs:86-92 | different curves or points give different blobs |
| AgentExt.ResponseIsOneStringIff | crates/piggy-box/src/agent_ext.rs:48-69 | a reply is a secret exactly if it is that secret's one string and nothing more |
| AgentExt.RequestArrivesIff | crates/piggy-box/src/agent_ext.rs:32-41 | the agent reads both blobs and the flags back exactly if they fit one string |
| AgentExt.RequestsAreDistinct | crates/piggy-box/src/agent_ext.rs:32-41 | different blobs or flags give different requests |
| BoxCrypto.SealedOpens | crates/piggy-box/src/piv_box.rs:165-227 | a box opens with its recipient's secret to exactly what it was sealed around, wherever its fields have been |
| BoxCrypto.SealIs | crates/piggy-box/src/piv_box.rs:165-200 | a seal in terms of the primitives: the AEAD under the first half of the SHA-512 of the agreed secret and the nonce, over the padded data |
| BoxCrypto.OpensOnlyWithItsSecret | crates/piggy-box/src/piv_box.rs:213-227 | a sealed box opens with a secret in play exactly if that is its recipient's |
| BoxCrypto.BoxCarriesItsData | crates/piggy-box/src/piv_box.rs:165-323 | seal, print, parse in front of anything, open with the private key: the data that was put in |
| VirtualCard.VirtualCard.PassTouchGate | crates/fibby/src/virtual_card.rs:893-926 | opens or records the generation to wait on, as the gate function says, changing the pad only when it passes |
| VirtualCard.VirtualCard.HandleVerify | crates/fibby/src/virtual_card.rs:1723-1777 | PINs, session and answer of VERIFY, for the status query, wrong length, blocked, right and wrong PIN |
| VirtualCard.VirtualCard.HandleChangeReference | crates/fibby/src/virtual_card.rs:1921-1972 | PINs and answer of CHANGE REFERENCE DATA for PIN and PUK |
| VirtualCard.VirtualCard.HandleResetRetry | crates/fibby/src/virtual_card.rs:1985-2028 | PINs, session and answer of RESET RETRY COUNTER |
| VirtualCard.VirtualCard.HandleFactoryReset | crates/fibby/src/virtual_card.rs:2039-2075 | the whole card after a factory reset, refused unless both counters are blocked |
| VirtualCard.VirtualCard.HandleMgmtAuth | crates/fibby/src/virtual_card.rs:1845-1909 | both phases of management-key authentication, including the spent challenge |
| VirtualCard.VirtualCard.HandleSetMgmtKey | crates/fibby/src/virtual_card.rs:2086-2112 | the new management key, refused without admin authentication or with the wrong framing |
| VirtualCard.VirtualCard.InstallSlotKey | crates/fibby/src/virtual_card.rs:834-844 | key, policy and origin set together |
| VirtualCard.VirtualCard.HandleGenerate | crates/fibby/src/virtual_card.rs:2455-2564 | the key tables and answer of GENERATE in every branch |
| VirtualCard.VirtualCard.HandleImport | crates/fibby/src/virtual_card.rs:2576-2641 | the key tables and answer of IMPORT in every branch |
| VirtualCard.VirtualCard.SignEcdsaSlot | crates/fibby/src/virtual_card.rs:2278-2395 | session, pad, answer and awaited generation of a signature in every branch |
| VirtualCard.VirtualCard.HandleEcdh | crates/fibby/src/virtual_card.rs:2143-2242 | session, pad, answer and awaited generation of a slot 9D key agreement in every branch |
| VirtualCard.VirtualCard.ReleaseAfterTouch | crates/fibby/src/virtual_card.rs:2363-2387 | the result is handed out and an always verification spent only once the gate opens |
| VirtualCard.VirtualCard.HandlePutData | crates/fibby/src/virtual_card.rs:2401-2435 | the object store and answer of PUT DATA |
| VirtualCard.VirtualCard.HandleSelect | crates/fibby/src/virtual_card.rs:1436-1476 | which applet is selected, and the answer |
| VirtualCard.VirtualCard.TakeFault | crates/fibby/src/virtual_card.rs:984-996 | the first matching queued fault answers and loses one use, the others stay |
| VirtualCard.VirtualCard.DispatchCommand | crates/fibby/src/virtual_card.rs:1412-1704 | faults before any processing, then the command the header routes to |
| VirtualCard.VirtualCard.ExecuteCommand | crates/fibby/src/virtual_card.rs:1440-1704 | every command has exactly its handler's effect |
| VirtualCard.VirtualCard.ExecuteKeyCommand | crates/fibby/src/virtual_card.rs:1500-1704 | the same for the commands that use, install or describe a key |
| VirtualCard.VirtualCard.Dispatch | crates/fibby/src/virtual_card.rs:1390-1410 | applet gate, command, and the mark that spends a PIN-always verification |
| VirtualCard.VirtualCard.TransmitOrAwaitTouch | crates/fibby/src/virtual_card.rs:1362-1374 | one step of the card, and no blocked state left behind |
| VirtualCard.VirtualCard.SetPresent | crates/fibby/src/virtual_card.rs:1267-1289 | removal costs the session and the windows, and only a toggle counts as an event |
| VirtualCard.VirtualCard.Connect | crates/fibby/src/virtual_card.rs:1311-1316 | powered, with no applet selected |
| VirtualCard.VirtualCard.Disconnect | crates/fibby/src/virtual_card.rs:1318-1333 | unpowered, with no session left |
| VirtualCard.VirtualCard.EndTransaction | crates/fibby/src/virtual_card.rs:1335-1346 | only reset and unpower clear the session |
| VirtualCard.VirtualCard.InjectFault | crates/fibby/src/virtual_card.rs:1295-1301 | queued unless its count is zero |
| VirtualCard.VirtualCard.SeedSlotKey | crates/fibby/src/virtual_card.rs:1206-1246 | a seeded key has neither policy nor origin |
| VirtualCard.VirtualCard.PerformAll | crates/fibby/src/virtual_card.rs:1362-1378 | any list of operations on the object is the run the histories speak of |
| PcscServer.PcscServer.MintCard | crates/fibby/src/server.rs:415-420 | the next wrapped handle value, bound to its reader |
| PcscServer.PcscServer.Connect | crates/fibby/src/server.rs:700-777 | refusals, power-up for the first handle only, count, and minted handle |
| PcscServer.PcscServer.Reconnect | crates/fibby/src/server.rs:779-826 | a sole handle re-powers the card, otherwise only reset or unpower touches it |
| PcscServer.PcscServer.CloseHandle | crates/fibby/src/server.rs:470-497 | handle forgotten, transaction released, count lowered, card powered down or reset |
| PcscServer.PcscServer.BeginTransaction | crates/fibby/src/server.rs:1046-1062 | the holder is set, or the call refused |
| PcscServer.PcscServer.EndTransaction | crates/fibby/src/server.rs:1064-1099 | only the holder's call releases the card and reaches it |
| PcscServer.PcscServer.Try | crates/fibby/src/server.rs:957-976 | one attempt: answered and unparked, or parked |
| PcscServer.PcscServer.Transmit | crates/fibby/src/server.rs:863-935 | refused while another handle holds the transaction |
| PcscServer.PcscServer.DropConnection | crates/fibby/src/server.rs:438-464 | the loop over a gone client's handles closes each of them |
| Wire.WireReader.ReadString8 | crates/piggy-box/src/wire.rs:55-61 | reads what the format function says and leaves its rest, or its error |
| Wire.WireReader.ReadCstring8 | crates/piggy-box/src/wire.rs:71-77 | the same for text: interior NUL and malformed UTF-8 are errors |
| Wire.WireReader.ReadString | crates/piggy-box/src/wire.rs:85-91 | the same for 32-bit strings |
| Wire.WireWriter.PutString8 | crates/piggy-box/src/wire.rs:138-148 | appends length and bytes, or refuses more than 255 |
| Wire.WireWriter.PutCstring8 | crates/piggy-box/src/wire.rs:154-159 | refuses an interior NUL |
| Wire.WireWriter.PutString | crates/piggy-box/src/wire.rs:167-170 | appends the truncated length and the bytes |
| PartIO.ReadFields | crates/piggy-box/src/template.rs:195-250 | the loop over the cursor collects what the format function says, or its error |
| PartIO.ReadField | crates/piggy-box/src/ebox.rs:447-511 | one tag's field, known, skipped or refused |
| PartIO.ReadBox | crates/piggy-box/src/ebox.rs:465-495 | inline fields with the part's GUID and slot from version 2 on; before that the rest of the input, unconsumed |
| PartIO.WriteField | crates/piggy-box/src/ebox.rs:393-436 | one field's bytes, or the first that does not fit |
| BoxIO.WriteTplPart | crates/piggy-box/src/template.rs:160-193 | the bytes of a template part |
| BoxIO.ReadTplPart | crates/piggy-box/src/template.rs:195-250 | a template part, refused without a public key |
| BoxIO.WriteTplConfig | crates/piggy-box/src/template.rs:252-262 | header, truncated count and parts |
| BoxIO.ReadTplConfig | crates/piggy-box/src/template.rs:264-285 | a config, refused if PRIMARY with n above 1 |
| BoxIO.TemplateToBytes | crates/piggy-box/src/template.rs:79-92 | the bytes of a template |
| BoxIO.TemplateFromBytes | crates/piggy-box/src/template.rs:94-120 | a template, ignoring what follows it |
| BoxIO.WritePart | crates/piggy-box/src/ebox.rs:393-436 | the bytes of an ebox part of either version |
| BoxIO.ReadPart | crates/piggy-box/src/ebox.rs:438-518 | an ebox part, refused without a box |
| BoxIO.WriteConfig | crates/piggy-box/src/ebox.rs:353-370 | the bytes of an ebox config |
| BoxIO.ReadConfig | crates/piggy-box/src/ebox.rs:372-391 | an ebox config |
| BoxIO.WriteEphemerals | crates/piggy-box/src/ebox.rs:279-285 | count and keys |
| BoxIO.ReadEphemerals | crates/piggy-box/src/ebox.rs:323-332 | as many keys as the count says |
| BoxIO.EboxToBytes | crates/piggy-box/src/ebox.rs:269-294 | the bytes of an ebox |
| BoxIO.ReadEbox | crates/piggy-box/src/ebox.rs:301-350 | an ebox, and the cursor where it ends |
| BoxIO.StreamToBytes | crates/piggy-box/src/stream.rs:43-51 | the bytes of a stream header |
| BoxIO.StreamFromBytes | crates/piggy-box/src/stream.rs:53-66 | a stream header |
| TemplateFile.WrapLines | crates/piggy-box/src/template.rs:127-140 | lines of 65 characters, each ended |
| TemplateFile.StripWhitespace | crates/piggy-box/src/template.rs:147-157 | the text without its whitespace |
| TemplateFile.ToB64Wrapped | crates/piggy-box/src/template.rs:127-140 | the file of a template |
| TemplateFile.FromB64Bytes | crates/piggy-box/src/template.rs:147-157 | the template of a file |
| AgentExt.EcPointToSshPubkeyBlob | crates/piggy-box/src/agent_ext.rs:86-92 | key type, curve name and point as three strings |
| AgentExt.EncodeEcdhRequest | crates/piggy-box/src/agent_ext.rs:32-41 | both blobs and the flags inside one string, which the agent's reader (crates/piggy/src/cmd/agent/session.rs) takes apart again exactly if they fit it |
| AgentExt.DecodeEcdhResponse | crates/piggy-box/src/agent_ext.rs:48-69 | one string and nothing more, or an invalid reply |
| BoxCrypto.SealedBox.SetData | crates/piggy-box/src/piv_box.rs:117-119 | the plaintext is in the box |
| BoxCrypto.SealedBox.TakeData | crates/piggy-box/src/piv_box.rs:121-123 | the plaintext leaves the box; a second call finds nothing |
| BoxCrypto.SealedBox.SealOfflineWithEphemeral | crates/piggy-box/src/piv_box.rs:165-200 | every field a seal sets, or not sealed without data |
| BoxCrypto.SealedBox.OpenWithSecret | crates/piggy-box/src/piv_box.rs:213-227 | the plaintext set, or the box as it was and the error |
| BoxCrypto.SealedBox.OpenOffline | crates/piggy-box/src/piv_box.rs:202-211 | the same with the private key at hand |
| EboxObject.KeyHolder.Ecdh | crates/piggy-box/src/unlock.rs:176-190 | an answer that may depend on the questions before it |
| EboxObject.EboxObject.Unlock | crates/piggy-box/src/ebox.rs:178-191 | the first opened part's data becomes the key and leaves the part |
| EboxObject.EboxObject.TryPart | crates/piggy-box/src/unlock.rs:147-205 | skipped, refused, failed or opened, and what was asked |
| EboxObject.EboxObject.TryUnlockWithOracle | crates/piggy-box/src/unlock.rs:121-216 | the loop over a config's parts until one opens |
| EboxObject.EboxObject.UnlockEbox | crates/piggy-box/src/unlock.rs:36-87 | the loop over PRIMARY configs and both oracles: ebox, oracles, reason and result of the search function |
| EboxObject.EboxObject.TakeShares | crates/piggy-box/src/ebox.rs:201-210 | data leaves every opened part, and what parses as a share is kept in order |
| EboxObject.EboxObject.Recover | crates/piggy-box/src/ebox.rs:195-251 | threshold, combination, unmasking, recovery box and key, with every error |
| EboxObject.FindRecoveryKey | crates/piggy-box/src/ebox.rs:236-250 | the inner tag loop: the first key, unknown tags skipped |
| EboxObject.GetOrCreateEphemeral | crates/piggy-box/src/ebox.rs:520-546 | a key is drawn and listed only for a curve that has none |
| EboxObject.CreateParts | crates/piggy-box/src/ebox.rs:118-154 | the inner loop of create, and its first error |
| EboxObject.CreateEbox | crates/piggy-box/src/ebox.rs:84-174 | the whole of create, and its first error |
| StreamChunks.ChunkCipher.Encrypt | crates/piggy-box/src/stream.rs:68-86 | the chunk's bytes, or not unlocked |
| StreamChunks.ChunkCipher.Decrypt | crates/piggy-box/src/stream.rs:88-127 | number and bytes, or the first of six errors |

## Left out

- Sockets, threads, peeking for hang-ups, signals and logging: a connection is two FIFOs, a hang-up is a flag the environment sets, and each command handler is one step.
- Steps inside `close_handle`, `end_transaction` and `transmit`: the model takes each handler as one atomic step, though the source takes the share's lock and the card's lock one after the other.
- Cards inside the server are values, not objects: aliasing between the backend list and a parked thread is not modelled.
- Boxes inside the ebox object are values, and only the fields a box shares with the formats are grouped.
- A transmit that does not wait for a touch (the trait's default path): it is one step of the card without the retry loop.
- The class of the card groups its PINs, its session flags and its three key tables into one field each; each handler still updates them step by step.
- Contexts, GET_READERS_STATE, STATUS, CANCEL and the negotiated protocol, which is always T=1 here: they would only add easy members.
- The server's wire structs and frames (proto.rs and frame.rs), the hardware proxy and the control socket's text: fixed-offset codecs and thin wrappers.
- Certificates, ATRs and pinned data objects of each card model: constants, parameters of `Card.Chip`.
- Seeding of PINs, retries, data objects and management keys: an initial state is any that satisfies `Card.Initial`.
- Length prefixes of two or more bytes in `ber_len`: the source does not parse them either, so no round trip with `push_ber_len` beyond 255 bytes is claimed.
- Parts of version 1 eboxes: their reader is modelled, but no round trip is claimed, because it does not advance past the box.
- PartFields.ReadPartsAreFields: does not cover version 1 eboxes, whose box field is read without being consumed.
- EboxRecovery.AnyNOfMRecover: with a threshold of 0 and nothing opened, what combining no shares gives is up to the library, so at least one opened part is asked for.
- EboxSearch.SearchIsExact: is about eboxes fresh from the wire; one whose boxes are already open takes the first open part, as `EboxUnlock.AfterUnlock` says.
- ServerHistory.HandlesAndTransactionsAreAccounted: assumes clients name only handles of their own connection and that at most 2^32 handles are opened; the exact conditions are the two lemmas ending in `Iff` beside it.
- Error messages' texts: only which error it is, and which failure an unlocking error names.
- The interactive recovery of the C tool, age wrapping, Bech32 identifiers and the GTK passphrase prompt.
