# tlrpc: a verified model

tlrpc is an MTProto server framework. This project models its hard core in Dafny and proves what that
core promises, for every input, every budget and every interleaving:

- **TL codec.** `Schema.dfy` describes the wire format of a schema independently of any code: what bytes
  a value stands for, what they cost in objects, depth and vector elements, and the normal form a peer
  sees. `Codec.dfy` is the decoder the generator emits, as an interpreter over the schema. `RoundTrip.dfy`
  and `Sound.dfy` relate the two, `Witnesses.dfy` holds the schemas and inputs for which a stronger claim
  fails. `Encoder.dfy` and `Decoder.dfy` are the emitted code and its cursors in
  imperative form, `Stream.dfy` the stream readers and writers, `Budget.dfy` the budget that concurrent
  readers share, `Gzip.dfy` the bounded decompression that charges it.
- **Session leases** (`Lease.dfy`). A step system with one step per lock, unlock, context check and store
  call, any number of callers, and a ghost history of installations and store writes.
- **Push registry** (`Push.dfy`). The two tables, and every interleaving of updates, removals and
  projected publishing with its per-registration locks.
- **Encryption** (`Ige.dfy`, `Envelope.dfy`). AES-IGE over any block permutation, and the message envelope
  over abstract hashes.
- **Admission and shutdown** (`Admission.dfy`), **authorization keys** (`AuthKeys.dfy`), **obfuscated
  transport** (`Obfuscation.dfy`) and **layer dispatch** (`Dispatch.dfy`). `Bytes.dfy` and `Common.dfy`
  hold what they share.

Code that the source runs in place is a class or a method with a loop, tied by its postconditions to a
function on values; the theorems are lemmas about those functions and about all runs of the step systems.
Clocks, randomness, hashes, block ciphers, the inflater and context cancellation are parameters.

Properties that turned out to need a condition, with the condition proved exact:

- A value round-trips through the generated codec exactly when no conditional field of it is written
  before its flag word (`RoundTrip.RoundTripExactly`); schemas that declare flag words first always do.
  `Witnesses.EarlyFieldExample` is an input that does not. The schema validator asks only that a flag word
  exists (`internal/parser/validate.go:249-270`), so such schemas reach the generator.
- Whatever decodes can be written at the price paid and read again exactly when no conditional field
  precedes its flag word and no absent field shares a bit with a present one (`Sound.DecodedIsStable`).
  Schemas that declare each flag word once and first always meet this (`Sound.OrderlyIsStable`);
  `Witnesses.EarlySharedExample` and `Witnesses.RepeatedWordExample` are inputs that do not.
- A retired lease never saves or deletes again. It can still create its entry, at most once and only if its
  own Acquire was still running (`Lease.RetiredStaysSilent`); `Lease.RetiredMayCreate` is a run in which it
  does.
- An envelope round-trips exactly when its body is shorter than 2^31 bytes (`Envelope.EnvelopeRoundTrip`).
- A header of an obfuscated client is recognized by a server that merely allows obfuscation exactly when
  its first word is no plausible length of a full-protocol frame (`Obfuscation.NegotiationAgrees`).
- Deleting a key removes exactly the key and the keys bound to it, except for key 0 while another
  temporary key is unbound (`AuthKeys.DeleteRemovesExactly`); a binding to key 0 does not hold
  (`AuthKeys.BoundForGood`).

Check the project with `dafny verify dfyconfig.toml`.

## Model

| member | source | states |
|---|---|---|
| Budget.Normalize | mtproto/deserialize.go:87-121 | every limit asked for is kept, every zero becomes its own default, so all are positive |
| Budget.NextSound | mtproto/deserialize.go:134-161 | one reservation, refund, consume, node, wrapper, container, element or gzip charge keeps all counters within their limits and the byte balance |
| Budget.RunSound | mtproto/deserialize.go:134-266 | the same for every run, from any state that keeps them |
| Budget.BudgetHolds | mtproto/deserialize.go:134-266 | after any interleaving by any number of readers no counter exceeds its limit, and the bytes charged are the bytes delivered, plus those still reserved, plus gzip output |
| Budget.DecodeBudget.TryConsume | mtproto/cursor.go:290-298 | charges n bytes or refuses and charges nothing |
| Budget.DecodeBudget.TryEnter | mtproto/cursor.go:344-357 | one node and one level, refused exactly at either limit |
| Budget.DecodeBudget.TryElements | mtproto/deserialize.go:254-266 | charges vector elements within their limit |
| Budget.DecodeBudget.TryCharge | mtproto/gzip.go:90-99 | rechecks output and work before charging both |
| Budget.DecodeBudget.TryReserve | mtproto/deserialize.go:134-150 | reserves at most what is left, refused exactly when nothing is |
| Budget.DecodeBudget.Return | mtproto/deserialize.go:150-161 | gives back an unused part of a reservation |
| Cursor.ReadTextBack | mtproto/cursor.go:408-449 | reading a written byte string gives it back and leaves the suffix, or fails exactly when the budget is short, for all lengths up to 2^24-1 |
| Schema.FlagWordFaithful | internal/generator/cursor_codec.go:379-406 | a bit of the computed flag word is set exactly when some field that depends on it is present |
| Schema.NormKeepsFaithful | internal/generator/cursor_codec.go:54-90 | a value equals its normal form exactly when no nil slice stands for an empty one, kept flag words are the computed ones and fields sharing a bit agree |
| Codec.Lookup | internal/generator/cursor_codec.go:466-530 | the first constructor of that id available at the layer, or none |
| Codec.Decode | internal/generator/cursor_codec.go:169-248 | decoding any type terminates on every input, by remaining depth, and restores the depth on success and on error |
| Codec.DecodeCounted | internal/generator/cursor_codec.go:169-209 | a counted vector restores the depth |
| Codec.DecodeFields | internal/generator/cursor_codec.go:92-163 | the parameters of a constructor restore the depth |
| Codec.DecodeBody | internal/generator/cursor_codec.go:422-464 | an object body leaves the depth it found, also on error |
| RoundTrip.MinimumIsMinimum | internal/generator/cursor_codec.go:300-335 | no encoded element is shorter than minimumElementBytes, and fixed-size ones have exactly their size |
| RoundTrip.ElementsTakeMinimum | internal/generator/cursor_codec.go:318-335 | n encoded elements take at least n times the minimum |
| RoundTrip.VectorCountBack | mtproto/cursor.go:472-497 | the element pre-check rejects no count whose elements the byte budget could hold |
| RoundTrip.DecodeUndoesEmit | internal/generator/cursor_codec.go:92-248 | decoding an encoding followed by any suffix yields the normal form, leaves exactly the suffix and charges exactly the bytes, nodes and elements of the value, or fails exactly when the budget cannot hold them |
| RoundTrip.MisplacedNeverDecodes | internal/generator/cursor_codec.go:92-163 | no input at all decodes to a value with a conditional field written before its flag word |
| RoundTrip.RoundTripExactly | internal/generator/cursor_codec.go:22-248 | with enough budget the round trip holds if and only if no conditional field precedes its flag word; for faithful values it gives back the value itself |
| RoundTrip.EarlyFieldNeverDecodes | internal/generator/cursor_codec.go:92-163 | the failing family: a present field declared before its flag word |
| Witnesses.EarlyFieldExample | internal/generator/cursor_codec.go:92-163 | one member of that family: a well-formed schema and a value that is written, and that no input decodes to |
| RoundTrip.WordsFirstPlaces | internal/generator/cursor_codec.go:22-52 | schemas that declare flag words first meet the condition for every value |
| Sound.DecodeSound | internal/generator/cursor_codec.go:169-248 | for every well-formed schema whatever decodes is well typed and was charged the nodes and elements of its present parts exactly, and at least their bytes |
| Sound.FieldsSound | internal/generator/cursor_codec.go:92-163 | the same for the parameters of one constructor |
| Sound.EvenCostsNoMore | internal/generator/cursor_codec.go:22-90 | writing a value takes exactly what its present parts cost if and only if no absent field shares a bit with a present one; otherwise it fails or takes more bytes |
| Sound.ReadAgain | internal/generator/cursor_codec.go:22-248 | what can be written is read back under a budget if and only if no conditional field precedes its flag word and the budget holds it |
| Sound.DecodedIsStable | internal/generator/cursor_codec.go:22-248 | decode, encode, decode again, for every well-formed schema: the normal form and the same suffix come back if and only if the value can be written, has no conditional field before its flag word and fits the budget; and at exactly the price paid if and only if no conditional field precedes its word and no absent field shares a bit with a present one |
| Sound.WordRecomputed | internal/generator/cursor_codec.go:379-406 | a flag word without unknown bits is the word computed from the fields it announced |
| Sound.OrderlyTidy | internal/generator/cursor_codec.go:92-163 | with flag words declared once and first, no decoded value has an absent field beside a present one on the same bit, and on a layered schema every decoded value is its own normal form |
| Sound.OrderlyIsStable | internal/generator/cursor_codec.go:22-248 | with flag words declared once and first, whatever decodes can be written for no more than was charged and decodes again under the same budget, on a layered schema to the very same value |
| Witnesses.EarlySharedExample | internal/generator/cursor_codec.go:92-163 | eight bytes that decode to a well-typed value which cannot be written |
| Witnesses.RepeatedWordExample | internal/generator/cursor_codec.go:92-163 | twelve bytes, for a schema that declares a flag word twice, that decode to a value which takes more bytes to write |
| Encoding.BytesHeader | mtproto/cursor.go:138-160 | the length prefix, short or long |
| Encoding.Encoder.Reserve | mtproto/cursor.go:67-80 | grows the buffer up to the limit, refused exactly when the limit is passed |
| Encoding.Encoder.WriteText | mtproto/cursor.go:166-193 | appends exactly what the stream writer emits, or leaves the buffer unchanged |
| Encoding.Encoder.EnterObject | mtproto/cursor.go:55-66 | depth and node counters, refused exactly at a limit |
| Encoding.Encoder.WriteVectorHeader | mtproto/cursor.go:194-214 | vector id and count |
| Encoding.ComputeFlags | internal/generator/cursor_codec.go:379-406 | the setup loop computes the flag word of the specification |
| Encoding.Serialize | internal/generator/cursor_codec.go:54-90 | the emitted writer succeeds exactly when there is room, and then appends exactly the bytes of the wire format |
| Encoding.SerializeVector | internal/generator/cursor_codec.go:65-76 | header, then each element, within one object level |
| Encoding.SerializeObject | internal/generator/cursor_codec.go:337-377 | layer check, object level, constructor id, body |
| Encoding.SerializeFields | internal/generator/cursor_codec.go:22-52 | parameters in order, conditional ones by their flag bit |
| Decoding.Decoder.TakeSpan | mtproto/cursor.go:299-325 | n bytes from the buffer under the budget, as the specification's Take |
| Decoding.Decoder.ByteSpan | mtproto/cursor.go:408-449 | the byte string reader of the specification |
| Decoding.Decoder.VectorCount | mtproto/cursor.go:472-497 | the vector count reader of the specification |
| Decoding.Deserialize | internal/generator/cursor_codec.go:169-248 | the emitted reader, over the mutable cursor and the shared budget, is the interpreter: same result, same state |
| Decoding.FamilyConstructor | internal/generator/cursor_codec.go:466-530 | picks the constructor of a boxed family by id and layer |
| Decoding.ElementLoop | internal/generator/cursor_codec.go:180-209 | the element loop is the recursive specification |
| Decoding.DeserializeFields | internal/generator/cursor_codec.go:92-163 | the parameter loop with its flag variables is the recursive specification |
| Stream.WriteBytes | mtproto/serialize.go:65-103 | succeeds exactly when the length is at most 2^24-1 and the sink takes everything, and then emits the same bytes as the cursor; a failing sink is left with a prefix of them, an illegal length writes nothing |
| Stream.BudgetReader.ReadSome | mtproto/deserialize.go:134-161 | reserve, read, refund: the charge is what arrived |
| Stream.BudgetReader.ReadFull | mtproto/deserialize.go:134-161 | however the source chunks its bytes, the result is the cursor's Take |
| Stream.BudgetReader.ReadSized | mtproto/deserialize.go:424-436 | a declared length is delivered exactly when input and budget hold it |
| Stream.BudgetReader.ReadBytes | mtproto/deserialize.go:376-423 | accepts the inputs the cursor accepts, with the same value and consumption |
| Gzip.SaturatingMultiply | mtproto/gzip.go:113-122 | the exact product, capped at the largest int64 |
| Gzip.MinInt64 | mtproto/gzip.go:103-111 | an element of the arguments, below all of them |
| Gzip.Expand | mtproto/gzip.go:55-89 | succeeds exactly when the whole output fits bytes, work and ratio; never a truncated prefix; limit+1 does not overflow |
| Gzip.Decompress | mtproto/gzip.go:47-101 | without contention: success exactly as above, charging output and work; failure charges nothing |
| Gzip.DecompressShared | mtproto/gzip.go:47-101 | whatever others charge between the two looks at the budget, it succeeds exactly when the whole output fits at both, and then the whole output and work are paid for within the limits; a failure charges nothing |
| Lease.MoveKeepsInvariant | session/coordinator.go:66-261 | every step of Acquire, Save, Delete, Snapshot, Retire and Release, and every outside cancellation, keeps the protocol invariant |
| Lease.ReachableInvariant | session/coordinator.go:66-261 | the invariant holds after every finite interleaving |
| Lease.Fencing | session/coordinator.go:166-261 | whoever is about to write the store is the lease in the table, with the newest generation; per key generations never fall in the history of writes, and every installation raises them |
| Lease.CacheAgrees | session/coordinator.go:99-113 | a ready, unreleased lease whose mutex is free is the table's entry and caches what is stored; a lease that is done has left the table |
| Lease.LeaseLostUnreachable | session/coordinator.go:247-261 | the test behind ErrLeaseLost never fails |
| Lease.RetireRetires | session/coordinator.go:222-229 | when Retire is about to let go of the lease's mutex no save or deletion of that lease is under way |
| Lease.RetiredForGood | session/coordinator.go:222-261 | one step of any call, of any kind, keeps it so |
| Lease.RetiredStaysSilent | session/coordinator.go:222-261 | over whole runs: after the retirement of a lease no save, deletion or installation of it is ever added to the history; the only write left to it is the creation by its own Acquire, and only if that call had not returned |
| Lease.RetiredCreatesOnce | session/coordinator.go:66-125 | that creation happens at most once |
| Lease.RetiredMayCreate | session/coordinator.go:66-125 | a reachable run in which it does happen |
| Lease.LawfulAt | session/store.go:48-87 | the history can be replayed write by write |
| Lease.WritesFindTheirEntry | session/coordinator.go:188-218 | the store is its history replayed; a save or deletion always finds its entry, so a save never brings a deleted session back |
| Lease.EntryLasts | session/store.go:48-87 | a created entry stays until a deletion |
| Lease.CreatedOnce | session/coordinator.go:151-155 | two leases of one key that were both created have a deletion between their creations |
| Lease.MemoryStore.Load | session/store.go:35-46 | the stored snapshot, or the error |
| Lease.MemoryStore.LoadOrCreate | session/store.go:48-64 | inserts only into an empty entry, and reports whether it did |
| Lease.MemoryStore.Save | session/store.go:66-77 | replaces one entry, or fails and changes nothing |
| Lease.MemoryStore.Delete | session/store.go:79-87 | removes one entry, or fails and changes nothing |
| Push.Bind | runtime_push.go:56-66 | the session key survives the signed conversion of the auth key id, and the layer is never 0 unless the server's own is |
| Push.CreatedAgrees | runtime_push.go:72-86 | registering a new sender keeps tables and index in agreement |
| Push.ReboundAgrees | runtime_push.go:89-105 | rebinding a registration keeps them in agreement |
| Push.DroppedAgrees | runtime_push.go:150-170 | removing a registration keeps them in agreement |
| Push.AddUserExact | runtime_push.go:178-185 | adding touches one list of the index and leaves no empty list |
| Push.RemoveUserExact | runtime_push.go:187-207 | removal touches one list, and no empty list or map survives |
| Push.ActiveMeansReachable | runtime_push.go:410-418 | a user is active exactly when a reachable registration of that positive user exists |
| Push.CollectedExactly | runtime_push.go:256-265 | a publish reads out exactly the registrations it is addressed to |
| Push.MoveKeepsInvariant | runtime_push.go:52-176 | every step of Update, Remove and projected publishing keeps the invariant |
| Push.ReachableInvariant | runtime_push.go:52-390 | the invariant holds after every finite interleaving |
| Push.IndexAgrees | runtime_push.go:139-207 | in every reachable state the index of a user under a key holds exactly, without duplicates, that key's reachable registrations of the user; senders are unique per key; nothing empty survives |
| Push.ProjectedPushIsCurrent | runtime_push.go:366-390 | a projected body goes out only while its registration is in the registry, accepts, is bound exactly as when it was projected, and is one the publish is addressed to, reachable in a push to a user |
| Push.PendingWasRead | runtime_push.go:246-355 | whatever a publish still has to send was read earlier in the run by that call, and was current then |
| Push.EverySendWasCurrent | runtime_push.go:366-390 | for every body sent in any run there are two steps of the same call, the one that read the binding it was projected for and a later one that sent it; at both its registration was in the registry, accepting, bound exactly so, and one the publish is addressed to, reachable in a push to a user |
| Push.PushRegistry.Find | runtime_push.go:113-120 | the first registration of a sender, or -1 |
| Push.PushRegistry.Contains | runtime_push.go:122-129 | membership by identity |
| Push.PushRegistry.AddUserLocked | runtime_push.go:178-185 | the index update of the specification |
| Push.PushRegistry.RemoveUserLocked | runtime_push.go:187-207 | removes the first occurrence, then empty lists and maps |
| Push.PushRegistry.CreateLocked | runtime_push.go:72-82 | registers exactly when the sender is missing |
| Push.PushRegistry.RebindLocked | runtime_push.go:90-105 | rebinds exactly when the registration is still listed |
| Push.PushRegistry.DropLocked | runtime_push.go:151-170 | removes exactly when the registration is still that sender's |
| Push.PushRegistry.HasActiveUser | runtime_push.go:410-418 | true exactly when a reachable registration of that positive user exists |
| Ige.CryptUndone | crypto/aes.go:82-121 | each direction undoes the other for any permutation, any IV and any number of blocks, and both end in the same chaining state |
| Ige.CryptSplit | crypto/aes.go:69-71 | splitting the input between calls changes neither output nor final state |
| Ige.XorBlock | crypto/aes.go:123-127 | 16 bytes of dst become the exclusive or, the rest stays |
| Ige.Mode.constructor | crypto/aes.go:16-47 | the IV's halves become the chaining state |
| Ige.Mode.CryptBlocks | crypto/aes.go:69-121 | the block loop computes the mode of the original input into dst, also when dst is src, and leaves the rest of dst alone |
| Envelope.Padding | mtproto/message.go:185-208 | 12 to 27 bytes that fill the last block |
| Envelope.ComputePadding | mtproto/message.go:185-208 | the source's rounding gives that padding; the cap of 1024 is never reached |
| Envelope.Serialize | mtproto/message.go:165-220 | header, body and padding, failing exactly when the random source does |
| Envelope.Encrypt | mtproto/message.go:138-153 | the ciphertext is a positive multiple of 16 bytes, made from the serialized message under the derived key |
| Envelope.Parse | mtproto/message.go:99-125 | field by field, with the errors for short input and negative length |
| Envelope.Decrypt | mtproto/message.go:85-126 | length check, decryption, message key check, then parsing |
| Envelope.EnvelopeRoundTrip | mtproto/message.go:85-220 | decryption gives the message back if and only if its body is shorter than 2^31 bytes |
| Admission.AdmitStep | resource_controls.go:210-242 | admission keeps counters equal to cardinalities and limits respected |
| Admission.FinishStep | resource_controls.go:244-292 | finishing a connection takes off exactly its address, key and sessions |
| Admission.BoundStep | resource_controls.go:294-337 | binding a session keeps the accounts, also when the key's limit refuses it |
| Admission.UnboundStep | resource_controls.go:339-361 | releasing a session keeps the accounts, and neither guard suppresses the decrement |
| Admission.MoveKeepsInvariant | server.go:337-471 | every step of serveConn, of session observation and of Stop keeps the invariant |
| Admission.AccountingHolds | resource_controls.go:210-361 | in every reachable state the per-address, per-key and session counters are the numbers they stand for, within their limits, admitted connections stay within the global limit, and the wait group counts exactly the connections not yet done |
| Admission.GuardsNeverSuppress | resource_controls.go:275-281 | a connection's sessions are always there to be taken off |
| Admission.ClosedOnce | server.go:103-114 | a connection is closed at most once, exactly once when it is gone; Stop's snapshot covers every registered connection and is closed whole before the wait |
| Admission.NothingEntersAfterStop | server.go:398-408 | from any reachable state in which Stop has begun, through any further steps: no connection enters the table or the wait group, Stop does not go back to serving, and what is left in the table is in its snapshot |
| Admission.StoppedIsEmpty | server.go:337-379 | when Stop returns all tables and counters are empty |
| Admission.Accounts.AdmitConnection | resource_controls.go:219-241 | the admission section |
| Admission.Accounts.DropSessions | resource_controls.go:275-280 | the loop of guarded decrements |
| Admission.Accounts.FinishConnection | resource_controls.go:248-287 | the finishing section, also for a connection without an account, which changes no counter |
| Admission.Accounts.SessionBound | resource_controls.go:297-327 | the binding section; a refusal changes no counter |
| Admission.Accounts.SessionUnbound | resource_controls.go:341-355 | the release section |
| AuthKeys.StepKeepsValid | crypto/authkey_memory.go:39-130 | every call and every timer keeps the invariant |
| AuthKeys.RunsStayValid | crypto/authkey_memory.go:39-130 | after any calls at any times temporary keys are stored keys, a bound key's parent is present and permanent, and there are at most 4096 |
| AuthKeys.BindingNeverSwitches | crypto/authkey_memory.go:106-130 | one step keeps the parent of a live bound key and never moves its expiry later |
| AuthKeys.BindingLasts | crypto/authkey_memory.go:106-130 | the same over the whole life of the key |
| AuthKeys.BoundForGood | crypto/authkey_memory.go:119-121 | another parent is turned away exactly when the first was not key 0 |
| AuthKeys.ZeroParentSwitches | crypto/authkey_memory.go:119-127 | a run in which a key moves from parent 0 to another |
| AuthKeys.DeleteRemovesExactly | crypto/authkey_memory.go:47-59 | Delete removes exactly the key and its bound children if and only if it is not asked for key 0 while another temporary key is unbound |
| AuthKeys.DeleteZeroTakesUnbound | crypto/authkey_memory.go:47-59 | a run in which deleting key 0 takes an unbound key |
| AuthKeys.OnlyExpiryOrDeletion | crypto/authkey_memory.go:85-94 | a key leaves only by deletion or its own expiry, so no stale timer or sweep takes a live key |
| AuthKeys.ParentTestRedundant | crypto/authkey_memory.go:21-36 | the parent test in Get never decides |
| AuthKeys.MemoryAuthKeyManager.Get | crypto/authkey_memory.go:21-36 | hands out exactly usable keys |
| AuthKeys.MemoryAuthKeyManager.Delete | crypto/authkey_memory.go:47-59 | the key and its children, as the specification removes them |
| AuthKeys.MemoryAuthKeyManager.DropChildren | crypto/authkey_memory.go:51-56 | the sweep over children, in any order |
| AuthKeys.MemoryAuthKeyManager.SweepExpired | crypto/authkey_memory.go:67-72 | removes exactly the expired keys, in any order |
| AuthKeys.MemoryAuthKeyManager.PutTemporaryKey | crypto/authkey_memory.go:61-83 | result and state of the specification |
| AuthKeys.MemoryAuthKeyManager.BindTemporary | crypto/authkey_memory.go:106-130 | result and state of the specification |
| AuthKeys.MemoryAuthKeyManager.OnTimer | crypto/authkey_memory.go:85-94 | the recheck when a timer fires |
| Obfuscation.ChunkingIrrelevant | transport/obfuscated2.go:160-173 | chunk by chunk gives the keystream of the whole |
| Obfuscation.ReadsWhatWasWritten | transport/obfuscated2.go:160-173 | whatever pieces are written and whatever pieces have been read, the reader has the front of the bytes written |
| Obfuscation.IsDisallowedHeader | transport/obfuscated2.go:28-47 | true exactly for headers another protocol could claim |
| Obfuscation.ReverseBytes | transport/obfuscated2.go:144-150 | the reversed bytes |
| Obfuscation.DrawInit | transport/obfuscated2.go:56-64 | the first acceptable draw, or none when the supply fails first |
| Obfuscation.NewClientObfuscated | transport/obfuscated2.go:65-90 | header and streams of the specification |
| Obfuscation.NewServerObfuscated | transport/obfuscated2.go:92-123 | streams of the specification, or the error |
| Obfuscation.EndsAgree | transport/obfuscated2.go:55-123 | for every accepted draw the server derives the mirrored keys, IVs and positions and reads the tag back |
| Obfuscation.EndsTalk | transport/obfuscated2.go:55-173 | for every accepted draw, whatever either end writes after the header, in any pieces, the other reads in any pieces |
| Obfuscation.ObfuscatedStream.Read | transport/obfuscated2.go:160-166 | what arrived, through the keystream at its position |
| Obfuscation.ObfuscatedStream.Write | transport/obfuscated2.go:168-173 | what was written, through the keystream at its position; a failing connection is left with a prefix, and the keystream has moved past the whole write |
| Obfuscation.CodecFromTag | transport/negotiator.go:112-123 | the inverse of the tags |
| Obfuscation.NegotiationAgrees | transport/negotiator.go:38-110 | the header is recognized always when obfuscation is required, and when allowed exactly if its first word is outside [12, 2^24] |
| Obfuscation.PlainAgrees | transport/negotiator.go:158-177 | a plain client is understood exactly when four bytes arrive; the full protocol exactly when its first frame length is plausible and does not start with the abridged byte |
| Obfuscation.NegotiateInput | transport/negotiator.go:38-74 | the server's choice on its buffered input, consuming exactly the header |
| Obfuscation.AcceptInput | transport/negotiator.go:76-110 | the obfuscated branch, consuming exactly 64 bytes |
| Obfuscation.MisreadAsFull | transport/negotiator.go:63-66 | a draw the server takes for the full protocol |
| Dispatch.OverlapExactly | method_layers.go:3-9 | two valid ranges overlap exactly when some layer supports both |
| Dispatch.AlwaysOk | server.go:218-286 | after any registrations constructor ids of services are disjoint and rows of one id do not overlap |
| Dispatch.HandlerUnique | server.go:218-286 | a constructor id at a layer has at most one handler |
| Dispatch.RowDecided | server.go:240-262 | the two tables kept during the walk decide compatibility with all earlier rows |
| Dispatch.Registrar.CheckRow | server.go:221-262 | one row is accepted exactly when it fits the server and all rows before it |
| Dispatch.Registrar.CheckRows | server.go:221-277 | the walk accepts exactly rows that fit the server and each other |
| Dispatch.Registrar.RegisterService | server.go:185-287 | accepts exactly acceptable services; a panic changes nothing |
| Dispatch.AddService | runtime_application.go:42-65 | one service's rows into the method table |
| Dispatch.BuildAdapter | runtime_application.go:37-68 | on a server built by registrations there is no setup error, and the table holds exactly the registered rows, in whatever order services come |
| Dispatch.SelectVariant | runtime_application.go:85-101 | the variant at the first index that supports the effective layer, or none when none does |
| Dispatch.SelectionDeterministic | runtime_application.go:85-101 | the variant chosen is the one registered row for the constructor and layer, whatever order the table was filled in |

## Left out

- Encoding.Serialize: the branch that writes through to a failing io.Writer; the buffer form is modelled.
- Ige.Mode.CryptBlocks: dst and src are one array or two; slices that overlap in part are not modelled.
- AuthKeys.MemoryAuthKeyManager.PutTemporaryKey: one clock reading per call; the source reads the clock several times.
- Push.IndexAgrees: Update and Remove are given as steps; the observer callbacks after them are modelled in Admission only.
- Lease.MoveKeepsInvariant: the lease methods are steps of an interleaving and not class methods, because what matters is what happens between their locks; stores other than the in-memory one are not modelled.
- Admission.AccountingHolds: connection ids are unbounded; the wrap-around after 2^64 connections is not modelled.
- Gzip.Expand: the sum of packed and unpacked size is unbounded; it could pass int64 only with an output near 2^63 bytes.
- Constructors written with a leading percent sign, `true` parameters without a flag bit, and the naming of layered variants in the generator.
- Flag words are computed where they are written, not before the first field; the value is the same.
- Handler slots and their gauge, listeners, the observer events and gauges.
- Non-projected publish beyond the set of recipients, and ActiveUserIDs, which sorts the keys of the same index.
- Frame codecs, sockets, WebSocket, deadlines.
- Message ids, sequence numbers, the Diffie-Hellman byte helpers, RSA, key files, command line tools: single counters, byte helpers and I/O.
