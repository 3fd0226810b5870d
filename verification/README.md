# Verification of the RDMA buffer runtime

This project models two parts of the runtime in Dafny and proves what they promise.

**The registration runtime and its backend** (`src/registry.cpp`, `src/synthetic_backend.cpp`).
`Registry.Rdmabuffer` and `Synthetic.SyntheticBackend` are classes whose methods update
their tables in place as the C++ does. Each is specified by a function on the abstract
state (`Runtime`, `BackendModel`, `Recovery`), and the theorems are about those functions:
first as whole operations, then with `register_buffer` and `deregister` taken apart where
the global lock is released and interleaved with everything else (`Worlds`).

**The binary formats and their checksum** (`src/persistence.cpp`, `src/protocol.cpp`,
`include/rdmabuffer/bytes.hpp`, `include/rdmabuffer/codec.hpp`, `src/crc32.cpp`). Writers
and readers are loops over a buffer and a cursor, specified by layouts and their encoding;
the checksum is the frame check sequence of IEEE 802.3 (section 3.2.9; reference code in
section 8 of RFC 1952).

| files | contents |
|---|---|
| `Bytes`, `Words`, `Totals` | little-endian numbers, 64-bit words, sums over tables |
| `Crc32`, `Generator` | the checksum loop, burst detection; the checksum as polynomial division |
| `Records`, `Checks` | value types; authority, ranges, rights, the lifecycle table |
| `Layouts`, `RecordFormats`, `Persistence`, `Digest` | the saved format and its theorems |
| `Images`, `Refusals` | what is saved, byte by byte; which error a refused input gets |
| `ByteIo`, `RowIo`, `PersistenceIo`, `WireCodec`, `Frames` | the code that writes and reads |
| `BackendModel`, `Synthetic` | the backend: its functions, and the class |
| `Runtime`, `Recovery`, `Registry` | the runtime: its functions, and the class |
| `Worlds`, `Evolution`, `StepFrames`, `Lifecycles` | the transition system; what every step does to a registration and to the rest; the lifecycle table |
| `Tables`, `Decisions`, `Admission` | the answers of every check, by the first condition that fails; what is admitted |
| `Rotation`, `Effects`, `Terms`, `Tallies` | what operations do to the tables, to keys, leases and event counters |
| `Safety`, `TwoLayers`, `SplitAccess` | what an allowed access means, and the agreement of the layers |
| `Interleavings`, `Flights`, `Placement`, `Revocation` | races of the two locks and when they cannot happen; revocation |
| `Leases`, `Charges`, `Releases`, `Buffers`, `Domains` | conservation laws |
| `Bridge`, `Restoration`, `Inertness` | saving and recovering |
| `Examples`, `Answers`, `Races`, `SavedRuns` | runs from the start that reach what the other modules speak of |

## What the code does differently from what one might expect

Each of these is proved by the lemma named.

- Between the two locks of `register_buffer` nothing is checked again, so two calls can
  leave one buffer with two active registrations (`Races.RaceReached`). An interleaving
  has single flight throughout exactly when no commit goes over an active registration
  (`Flights.RunFlight`). Callers who never let two register calls for one buffer overlap
  have it (`Flights.FlightWithoutOverlap`), and any overlap of calls the backend grants can
  be continued to lose it (`Flights.OverlapBreaks`).
- A registration can be active, or marked DEREGISTERING with its backend call to come, and
  allowed, in a destroyed domain or at a superseded generation: because it was committed
  late (`Races.CommittedIntoDestroyedDomain`), or because it was marked when domain or
  buffer went (`Races.AllowedInDestroyedDomain`, `Races.AllowedAtOldGeneration`). Without
  recovery these are the only two ways: `Placement.StepPlacement` and `Placement.PlacementExact` give the exact
  condition for a step and for a run.
- A soft revocation that meets leases never completes (`Revocation.RevokingForever`),
  although the comment in the code speaks of waiting until leases drain, and in runs of
  whole operations every later register call for the buffer is refused
  (`Flights.SoftRevocationBlocks`).
- Releasing a lease that a hard revocation has revoked counts it down a second time
  (`Leases.ReturningCounts`; reached in `Races.LeaseCountedTwice`), and deregistering a
  record whose buffer was reallocated or whose domain was destroyed releases its charge a
  second time (`Charges.SecondReleaseBreaks`; reached in `Races.ChargeReleasedTwice`).
- A buffer created without an identity is filed under a fresh number but keeps identity
  zero in its descriptor, and a new buffer may have generation zero. In any reachable state
  the saved blob can be read back exactly when no buffer has generation zero and at most
  one has identity zero (`Bridge.ReachableSaves`; both refusals are reached in `SavedRuns`).
  A single one is recovered under identity zero: the same identities come back exactly when
  every buffer carries its own (`Bridge.RecoveredIdentities`).
- `recover` does not move the identity counters on, so a new registration can take the
  place of a recovered one: some run does it exactly when the recovered identity is not
  below the counter (`Inertness.OverwrittenExactly`).
- Deregistering a recovered record moves it from REVALIDATION_REQUIRED to DEREGISTERING,
  which the table of `can_transition` does not have. `Lifecycles.LifecycleExact` lists this
  and the two other departures from the table, and shows that there are no more.
- Destroying a domain a second time counts it down a second time, and a domain created
  under the identity of an active recovered one is counted twice: `Domains.StepCounts` gives
  the exact condition, and `Answers.DestroyedTwice` reaches the first.
- A destroyed domain is active again after saving and recovering
  (`Restoration.DomainsComeBackActive`).
- A buffer whose alignment is a multiple of the one the backend requires is refused: only
  that alignment itself is accepted (`Admission.AlignmentExact`). The reason
  CUDA_DEVICE_UNSUPPORTED is never given (`Admission.RegisterableTable`).
- A registration that got the one region whose key identity is zero is never reused
  (`Admission.RegisterThenReuse`).
- A simulated access of length zero that the backend allows divides by zero
  (`Synthetic.DividesExactly`).
- The comment in `include/rdmabuffer/protocol.hpp` says that the frame decoder rejects
  trailing garbage, duplicate identities and malformed ranges. It checks none of these;
  bytes behind a frame are left for the next call. The model follows the code.

## Conventions

Identities, generations and counters are unbounded naturals: 64-bit counters are taken
not to wrap and byte sums to fit. Where a width matters it is explicit: `Wide` for the
saved format, `CheckedAdd` for ranges, `Shl64`, `Xor64` and the key identities for the
backend, with `SEQUENCE_LIMIT` (2^57) as the number of registrations up to which handles
are unique. Zero is an absent identity or generation. A loop over a hash map visits its
keys in an arbitrary order, which the methods report as a ghost result and the functions
take as a parameter.

## Model

| member | source | states |
|---|---|---|
| `Crc32.Compute` | src/crc32.cpp:8-19 | the nested loops, with the conditional exclusive-or written as a mask of the low bit, compute the checksum that `Generator.ChecksumIsRemainder` describes; the empty message has checksum 0 |
| `Crc32.BytesAreBits` | src/crc32.cpp:11-17 | running a byte at a time is running the shift register one message bit at a time, least significant bit first; `Generator` says which register |
| `Crc32.BitStepLinear` | src/crc32.cpp:13-16 | one shift of the register is linear over exclusive-or |
| `Crc32.BitStepInjective` | src/crc32.cpp:13-16 | one shift of the register loses nothing: different states stay different |
| `Crc32.BurstDetected` | src/crc32.cpp:8-19 | two bit streams of the same length, any length, that differ only inside a window of 32 bits leave the register in different states |
| `Crc32.TrailerResidue` | src/crc32.cpp:8-19 | four stored bytes are a message's checksum exactly when the register run over message and trailer ends in one fixed residue |
| `Crc32.BurstRejected` | src/crc32.cpp:8-19 | a checked message and trailer, damaged inside 32 consecutive bits anywhere or across both, no longer check |
| `Generator.PolynomialIsGenerator` | src/crc32.cpp:15 | what one shift of the register adds in has a coefficient exactly at the powers 26, 23, 22, 16, 12, 11, 10, 8, 7, 5, 4, 2, 1 and 0: the generator of section 3.2.9 of IEEE 802.3 |
| `Generator.RemainderExact` | src/crc32.cpp:11-17 | long division by that generator leaves the one polynomial of 32 coefficients that differs from the dividend by a multiple of it |
| `Generator.RegisterIsRemainder` | src/crc32.cpp:11-17 | a register fed any bits holds the remainder of its own coefficients and those bits behind them |
| `Generator.ChecksumIsRemainder` | src/crc32.cpp:8-19 | the checksum of a message is the complement of the remainder of the message, 32 zeros appended and its first 32 bits complemented |
| `Generator.KnownCode` | src/persistence.cpp:363-367 | the number stored for them is 0xCBF43926 |
| `Generator.KnownAnswer` | src/crc32.cpp:8-19 | the nine digits from 1 to 9 have checksum 0xCBF43926, and no bytes have checksum 0 |
| `Bytes.LEByte` | include/rdmabuffer/bytes.hpp:25-30 | byte `i` of the little-endian rendering is the value shifted right by `8 * i` bits and masked |
| `Bytes.FromLEOfLE` | include/rdmabuffer/bytes.hpp:25-75 | what the shift loops write the shift loops read back, for values within the width |
| `Bytes.LEOfFromLE` | include/rdmabuffer/bytes.hpp:25-75 | bytes read as a number are the bytes that number is written as |
| `ByteIo.Writer.U64` | include/rdmabuffer/bytes.hpp:28-30 | the push_back loop appends the eight little-endian bytes of the value and nothing else |
| `ByteIo.Writer.Str` | include/rdmabuffer/bytes.hpp:33-36 | a string is appended as its length and its characters |
| `ByteIo.Reader.U64` | include/rdmabuffer/bytes.hpp:70-75 | either eight bytes are consumed and or-ed into the value they encode, or nothing is read and the error flag is set |
| `ByteIo.Reader.Str` | include/rdmabuffer/bytes.hpp:76-83 | a length beyond the limit or beyond the input is refused and sets the error flag; otherwise exactly the string is consumed |
| `Layouts.RoundTrip` | src/persistence.cpp:23-323 | a row written field by field decodes, whatever follows it, exactly when its strings and lists are within the decoder's bounds, to itself and with the rest left over |
| `Layouts.Sound` | src/persistence.cpp:23-323 | whatever a record decoder accepts fits the layout and is byte for byte the encoding of what it returned, followed by the rest |
| `Layouts.Extend` | include/rdmabuffer/bytes.hpp:53-106 | a decoder's result does not depend on the bytes behind what it consumed |
| `RecordFormats.DescriptorInverse` | src/persistence.cpp:23-76 | the buffer descriptor's fields are written and read in matching places |
| `RecordFormats.DescriptorRowExact` | src/persistence.cpp:46-76 | every admitted descriptor row, enumeration bytes and access mask included, is the row of the descriptor it is read as |
| `RecordFormats.RemoteKeyInverse` | src/persistence.cpp:79-105 | the same for remote keys |
| `RecordFormats.LocalKeyInverse` | src/persistence.cpp:108-129 | the same for local keys |
| `RecordFormats.RegistrationInverse` | src/persistence.cpp:132-195 | a registration record is read back whole except its policy generation, which the format does not carry |
| `RecordFormats.BackendInfoInverse` | src/persistence.cpp:198-270 | the same for the backend snapshot with its capability list |
| `RecordFormats.AccountingInverse` | src/persistence.cpp:273-296 | all nineteen counters are read back in the order they were written |
| `RecordFormats.AuthorityInverse` | src/persistence.cpp:299-323 | the authority snapshot is read back except its provenance, which is read and dropped |
| `RecordFormats.RegistrationBounds` | src/persistence.cpp:156-195 | a registration decodes exactly when handle and reason are at most 2^20 bytes |
| `RecordFormats.BackendInfoBounds` | src/persistence.cpp:228-270 | a backend snapshot decodes exactly when its name, description and domain list are within 256, 1024 and 2^20 |
| `Images.Enumerators` | include/rdmabuffer/enums.hpp:18-170 | each enumerator is written as its place in its enumeration |
| `Images.DescriptorBytes` | src/persistence.cpp:23-44 | the bytes of a descriptor, field by field in the order they are written |
| `Images.RegistrationBytes` | src/persistence.cpp:132-154 | the same for a registration with its descriptor and keys |
| `Images.BackendBytes` | src/persistence.cpp:198-226 | the same for the backend snapshot |
| `Images.BlobIsImage` | src/persistence.cpp:340-369 | a saved blob is magic bytes, version, policy, authority, seven counted lists and the counters, in that order, and the checksum of all of it |
| `Images.RegisterIsImage` | include/rdmabuffer/codec.hpp:96-98 | the REGISTER payload is domain, backend and descriptor, in that order |
| `RowIo.WriteRow` | src/persistence.cpp:23-306 | writing a row value by value appends its encoding |
| `RowIo.ReadRow` | src/persistence.cpp:46-323 | reading field by field stops at the first field refused and otherwise returns what the layout's decoder returns, the cursor just behind it |
| `RowIo.ReadRows` | src/persistence.cpp:398-416 | the counted loop reads exactly the items the decoder of a list reads |
| `PersistenceIo.Serialize` | src/persistence.cpp:340-369 | the bytes appended section by section, sealed with their checksum, are the blob of the state |
| `PersistenceIo.ReadSection` | src/persistence.cpp:398-416 | count missing, count over the limit and item refused are told apart as the parser tells them apart |
| `PersistenceIo.Scan` | src/persistence.cpp:420-437 | the two nested loops find the first fault in scanning order: a zero generation, or an identity seen before |
| `PersistenceIo.Parse` | src/persistence.cpp:371-441 | every outcome, each error and its precedence included, is the one the specification of accepted blobs gives |
| `Persistence.FaultFreeIsIntegral` | src/persistence.cpp:419-438 | the integrity check passes exactly when identities are distinct in each table and no generation is zero |
| `Persistence.BlobRoundTrip` | src/persistence.cpp:340-441 | a serialized state parses if and only if counts and strings are within bounds, identities distinct and generations nonzero; it is then read back as it was, up to the two fields not carried |
| `Persistence.AcceptedIsStable` | src/persistence.cpp:340-441 | any accepted blob gives a state that serializes to a blob parsed as the same state |
| `Persistence.PayloadExtend` | src/persistence.cpp:394-417 | what follows a decoded payload does not change it |
| `Persistence.PrefixRejected` | src/persistence.cpp:371-417 | no strict prefix of a written blob is accepted, whether or not its last four bytes happen to be its checksum |
| `Persistence.TrailingGarbageRejected` | src/persistence.cpp:417 | bytes added to the body under a recomputed checksum are always reported as trailing garbage |
| `Persistence.BurstRejected` | src/persistence.cpp:381-392 | a blob that differs from an accepted one inside 32 consecutive bits, in body, trailer or across, is rejected before its payload is looked at |
| `Persistence.FourBytesRejected` | src/persistence.cpp:381-392 | in particular any change of up to four consecutive bytes |
| `Refusals.HeaderTable` | src/persistence.cpp:371-392 | too few bytes, wrong magic bytes, wrong version bytes and a wrong checksum are reported in that order, and only then is anything else looked at |
| `Refusals.CutReported` | src/persistence.cpp:394-417 | a written body cut short under a fresh checksum is reported as an impossible count if the cut is inside the count of any list but the first, else as truncated |
| `Refusals.CutSomewhere` | src/persistence.cpp:394-417 | and every strict prefix of a payload is such a cut |
| `Refusals.OverfullReported` | src/persistence.cpp:398-416 | the first list with more than 2^20 items is reported as an impossible count |
| `Refusals.UnsoundReported` | src/persistence.cpp:419-438 | a readable state that is not sound is reported by its first fault, buffers before registrations before domains, a zero generation before a repeated identity |
| `Digest.DigestPreserved` | src/persistence.cpp:443-468 | the text the digest hashes survives saving and loading exactly for states of format version 1 |
| `Digest.SavedDigest` | src/persistence.cpp:443-468 | with the round trip: the state parsed back from a serialized one has the same digested text |
| `WireCodec.WriteDescriptor` | include/rdmabuffer/codec.hpp:23-44 | the protocol's own field-by-field writer produces the bytes of the saved format |
| `WireCodec.ReadDescriptor` | include/rdmabuffer/codec.hpp:46-76 | the protocol's own field-by-field reader accepts the same byte strings as the saved format's, with the same value and cursor |
| `WireCodec.DescriptorCodecExact` | include/rdmabuffer/codec.hpp:23-76 | a byte string is read as a descriptor if and only if it starts with that descriptor's encoding |
| `WireCodec.EncodeRegister` | include/rdmabuffer/codec.hpp:96-98 | the REGISTER payload is domain, backend, descriptor |
| `WireCodec.DecodeRegister` | include/rdmabuffer/codec.hpp:99-103 | and is read in that order, further bytes ignored |
| `WireCodec.RegisterRoundTrip` | include/rdmabuffer/codec.hpp:96-103 | decoding gives back the three parts encoded |
| `Frames.Put` | src/protocol.cpp:12-17 | put32 and put64 append the little-endian bytes |
| `Frames.Get` | src/protocol.cpp:18-29 | get32 and get64 read them and advance the position, or leave it where it was |
| `Frames.EncodeFrame` | src/protocol.cpp:32-47 | the frame built by push_back is header, payload and checksum; an oversized payload gives no bytes |
| `Frames.DecodeFrame` | src/protocol.cpp:49-108 | every outcome of the decoder, errors in their order included |
| `Frames.FrameRoundTrip` | src/protocol.cpp:32-108 | a valid frame followed by anything decodes to itself and its exact length |
| `Frames.AcceptedIsEncoded` | src/protocol.cpp:49-108 | every accepted prefix is the encoding of the valid frame it decodes to |
| `Frames.PrefixTruncated` | src/protocol.cpp:51-84 | every strict prefix of a frame is reported TRUNCATED |
| `Frames.UnknownKindRefused` | src/protocol.cpp:72-75 | a frame of an unknown kind, which the encoder writes, is refused by the decoder |
| `Frames.StreamRoundTrip` | src/protocol.cpp:49-108 | repeated decoding of a concatenation returns the frames, and TRUNCATED if the last one was cut |
| `Frames.StreamExact` | src/protocol.cpp:49-108 | what any stream decodes to, encoded again, is the part of the stream consumed |
| `Frames.DecodeStream` | src/protocol.cpp:49-108 | the receiving loop ends, since each accepted frame consumes at least 32 bytes |
| `Frames.BurstRejected` | src/protocol.cpp:89-105 | a frame damaged inside 32 consecutive bits that still states its length is rejected |
| `Frames.FourBytesRejected` | src/protocol.cpp:89-105 | in particular any change of four consecutive bytes outside the length field |
| `Refusals.FrameTable` | src/protocol.cpp:49-108 | the decoder's error is that of the first condition that fails: 28 bytes, magic, version, kind from 1 to 24, at most 16 MiB of payload, all of it there, its checksum; otherwise the frame is read from its places |
| `Checks.AuthorityExact` | include/rdmabuffer/authority.hpp:95-124 | authority is validated exactly when epoch, boot, owner and node are present and equal and the stated generations agree |
| `Checks.CheckedAdd` | include/rdmabuffer/buffer_model.hpp:86-90 | the comparison against the complement refuses exactly the sums that leave 64 bits |
| `Checks.ValidateRange` | include/rdmabuffer/buffer_model.hpp:92-117 | a validated range is nonempty, aligned and ends below 2^64 |
| `Checks.RangeInsideExact` | include/rdmabuffer/buffer_model.hpp:119-124 | a request is inside exactly when offset plus length, as integers, is at most the buffer's length |
| `Checks.SupersetExact` | src/registry.cpp:20-22 | a mask covers another exactly when it has every right the other has |
| `Admission.RangeTable` | include/rdmabuffer/buffer_model.hpp:92-117 | the reason a range is invalid is the first of five conditions that fails |
| `Admission.RangeExact` | include/rdmabuffer/buffer_model.hpp:92-117 | a range is valid exactly when it is nonempty, aligned, ends below 2^64, and has a base unless its memory is synthetic or a file |
| `Words.XorInjective` | src/synthetic_backend.cpp:126 | exclusive-or with a fixed word is injective on 64-bit words |
| `Words.RegionInjective` | src/synthetic_backend.cpp:126 | the first 2^57 registrations of a backend get different regions |
| `Words.RegionWraps` | src/synthetic_backend.cpp:126 | and no more: the 2^57+1st region is the first one again |
| `Words.KnownRegion` | src/synthetic_backend.cpp:126-143 | the first registration of a backend with seed zero gets region 0x9E3779B97F4A7C95 and the key identities that follow from it |
| `Words.KeyIdsInjective` | src/synthetic_backend.cpp:142-143 | region * 3 + 1 and + 2 modulo 2^64 give different regions different key identities |
| `Words.HexInverse` | src/synthetic_backend.cpp:24-29 | hexadecimal text determines the number |
| `Words.HandleInjective` | src/synthetic_backend.cpp:115-117 | handles of different regions differ |
| `BackendModel.CanRegister` | src/synthetic_backend.cpp:89-113 | a descriptor that may be registered has a valid range, a supported domain, and only rights the profile supports |
| `Admission.RegisterableTable` | src/synthetic_backend.cpp:89-113 | the reason a buffer cannot be registered is the first condition that fails; CUDA_DEVICE_UNSUPPORTED is among none of them and is never given |
| `Admission.RegisterableExact` | src/synthetic_backend.cpp:89-113 | a buffer can be registered exactly when its domain is advertised, its range valid, its alignment the one required, and each remote right asked for supported |
| `Admission.AlignmentExact` | src/synthetic_backend.cpp:98-101 | alignments that divide each other are equal: no other alignment than the required one is accepted |
| `Admission.CapabilitiesExact` | src/synthetic_backend.cpp:47-80 | what the capability snapshot claims is what the profile has |
| `BackendModel.HandleIsNew` | src/synthetic_backend.cpp:119-159 | a registration gets a handle that no earlier registration of this backend ever had |
| `BackendModel.InverseKept` | src/synthetic_backend.cpp:119-308 | every call keeps the handle table and the region table exact inverses of each other, holding only issued handles |
| `BackendModel.AlwaysInverse` | src/synthetic_backend.cpp:119-308 | so do runs of any calls, for the first 2^57 registrations |
| `BackendModel.FreshInverse` | src/synthetic_backend.cpp:37-45 | a new backend starts with both tables empty |
| `BackendModel.NeverReissued` | src/synthetic_backend.cpp:126-141 | handle, region and key identities once given out are not given out again, across releases, aborts and restarts |
| `Synthetic.SyntheticBackend.Configure` | src/synthetic_backend.cpp:82-87 | only the capability profile changes |
| `Synthetic.SyntheticBackend.SupportsDomain` | include/rdmabuffer/capabilities.hpp:56-61 | the loop over the advertised domains finds the domain if it is among them |
| `Synthetic.SyntheticBackend.WhyNot` | src/synthetic_backend.cpp:89-113 | can_register's reasons in their order |
| `Synthetic.SyntheticBackend.Register` | src/synthetic_backend.cpp:119-159 | a refused registration changes nothing; a granted one enters both tables and moves the sequence number on |
| `Synthetic.SyntheticBackend.Deregister` | src/synthetic_backend.cpp:161-169 | deregister_buffer (and abort_registration, which does the same) takes the handle and its region out of both tables, or reports that it is unknown |
| `Synthetic.SyntheticBackend.Query` | src/synthetic_backend.cpp:181-242 | the backend's own decision, reasons in their order |
| `Synthetic.SyntheticBackend.RevalidateHandle` | src/synthetic_backend.cpp:244-253 | only the revalidation mark is cleared |
| `Synthetic.SyntheticBackend.Rotate` | src/synthetic_backend.cpp:267-279 | entry and granted key take the new generation and the revalidation mark is cleared |
| `Synthetic.SyntheticBackend.RolloverBackendGeneration` | src/synthetic_backend.cpp:283-285 | only the backend generation moves |
| `Synthetic.SyntheticBackend.RolloverTransportGeneration` | src/synthetic_backend.cpp:287-295 | the loop marks every entry for revalidation and moves its key generation, in whatever order the table is visited |
| `Synthetic.SyntheticBackend.RolloverNicGeneration` | src/synthetic_backend.cpp:297 | only the NIC generation moves |
| `Synthetic.SyntheticBackend.SimulateRestart` | src/synthetic_backend.cpp:299-308 | both tables are emptied and all generations move; the sequence number stays |
| `Synthetic.SyntheticBackend.SelectHandle` | src/synthetic_backend.cpp:320-329 | whatever the iteration order, the smallest live handle at the generation is selected, or none exists |
| `Synthetic.SyntheticBackend.SimulateRemote` | src/synthetic_backend.cpp:310-342 | the outcome is that of the smallest selectable entry under the key it was granted with; an allowed operation's delta is the generator's word modulo its length, so a length of zero divides by zero |
| `Synthetic.DividesExactly` | src/synthetic_backend.cpp:333-337 | division by zero is reached exactly by a request of length zero at an offset within the region, of a kind supported and granted, under the key generation first granted; every other allowed request has a delta below its length |
| `Synthetic.RevalidationIsNotEnough` | src/synthetic_backend.cpp:244-295 | after a transport rollover, revalidating a handle does not make its granted key current: simulated access stays refused until the key is rotated |
| `Runtime.InvalidateAllEffect` | src/registry.cpp:137-173 | the bulk loops invalidate exactly the matching records, once each, and touch nothing else but the charge counters, in any iteration order |
| `Runtime.RevokeLeasesEffect` | src/registry.cpp:674-680 | the hard revocation's loop revokes exactly the active leases of the registration |
| `Registry.Rdmabuffer.constructor` | src/registry.cpp:27-59 | a new runtime is empty and its identity counters start at one |
| `Registry.Rdmabuffer.SetAuthority` | src/registry.cpp:66-69 | the snapshot is replaced and nothing else |
| `Registry.Rdmabuffer.AdvanceEpoch` | src/registry.cpp:971-974 | the epoch moves on by one |
| `Registry.Rdmabuffer.NoteParticipantRestart` | src/registry.cpp:976-981 | epoch and boot move on together and the restart is counted |
| `Registry.Rdmabuffer.AddBackend` | src/registry.cpp:72-79 | the backend is added once |
| `Registry.Rdmabuffer.CreateProtectionDomain` | src/registry.cpp:118-130 | an active domain under the next identity |
| `Registry.Rdmabuffer.DestroyProtectionDomain` | src/registry.cpp:132-151 | the live registrations of the domain are revoked, then the domain is marked destroyed; an unknown domain changes nothing |
| `Registry.Rdmabuffer.CreateBuffer` | src/registry.cpp:154-192 | refused for a duplicate or regressed generation; a reallocation invalidates the buffer's registrations and adjusts the live bytes |
| `Registry.Rdmabuffer.BeginRegistration` | src/registry.cpp:214-310 | admits exactly the calls `Admission.Registers` describes, with the reasons of `Admission.RegisterTable`; the record begun |
| `Registry.Rdmabuffer.CommitRegistration` | src/registry.cpp:331-358 | what the second lock enters, unconditionally |
| `Registry.Rdmabuffer.RegisterBuffer` | src/registry.cpp:208-361 | both locks and the backend call run through |
| `Registry.Rdmabuffer.RegisterBufferReuse` | src/registry.cpp:363-408 | hits the candidate the index names, or misses for the first of the conditions in `Admission.ReuseTable` that fails; hits and misses counted |
| `Registry.Rdmabuffer.FirstMismatch` | src/registry.cpp:410-432 | the reason is that of the first of ten conditions on the candidate that fails |
| `Registry.Rdmabuffer.LeaseCheck` | src/registry.cpp:440-466 | the reason is that of the first condition of `Admission.LeaseTable` that fails |
| `Registry.Rdmabuffer.AcquireLease` | src/registry.cpp:435-489 | a lease on those terms is made and the counts raised exactly when the caller may lease the registration for the rights needed, else nothing |
| `Registry.Rdmabuffer.ReleaseLease` | src/registry.cpp:491-503 | a lease is released once; count and counter go down under their guards |
| `Registry.Rdmabuffer.OwnChecks` | src/registry.cpp:529-628 | the runtime's checks in the order of the code, pinned by `Decisions.AccessTable`; an authority rejection is the one not counted |
| `Registry.Rdmabuffer.ValidateRemoteAccess` | src/registry.cpp:506-647 | the outcome of the first failing condition of record, request and backend entry, and what it counts |
| `Registry.Rdmabuffer.RevokeActiveLeases` | src/registry.cpp:674-680 | the loop over the leases in any order |
| `Registry.Rdmabuffer.Revoke` | src/registry.cpp:650-699 | hard and soft revocation, and what they report |
| `Registry.Rdmabuffer.RotateKey` | src/registry.cpp:701-725 | the key generation moves on by one, in runtime and backend together |
| `Registry.Rdmabuffer.BeginDeregistration` | src/registry.cpp:727-756 | refused with leases or from other lifecycles; otherwise marked, backend and handle copied out |
| `Registry.Rdmabuffer.ReleaseBackend` | src/registry.cpp:757-770 | the backend call between the locks |
| `Registry.Rdmabuffer.FailDeregistration` | src/registry.cpp:762-768 | the record is marked FAILED |
| `Registry.Rdmabuffer.CommitDeregistration` | src/registry.cpp:771-795 | charge, record, index entries and leases are taken out |
| `Registry.Rdmabuffer.Deregister` | src/registry.cpp:727-795 | both locks and the backend call run through |
| `Registry.Rdmabuffer.Save` | src/registry.cpp:848-875 | the blob of the tables in the order they were visited, records stripped of their backend material |
| `Registry.Rdmabuffer.RecoverFrom` | src/registry.cpp:911-957 | a blob the parser rejects changes nothing; otherwise unknown buffers and domains are added and counted and every record is entered parked |
| `Decisions.AccessTable` | src/registry.cpp:506-647 | the answer to any request is that of the first condition that fails, in a flat list over record, request and backend entry |
| `Decisions.AccessExact` | src/registry.cpp:506-647 | so each outcome is given exactly when the first failing condition carries it |
| `Decisions.EntryTable` | src/synthetic_backend.cpp:181-242 | the same for the backend's own answer |
| `Decisions.AuthorityTable` | include/rdmabuffer/authority.hpp:95-124 | and for the authority check |
| `Admission.RegisterTable` | src/registry.cpp:214-268 | the reason a register call is refused is the first condition that fails |
| `Admission.RegistersExact` | src/registry.cpp:214-268 | it is admitted exactly when authority is current, the backend attached, the domain active, the buffer known at that generation and not registered, and the backend can register it |
| `Admission.RegisteredDescribes` | src/registry.cpp:270-358 | an admitted register call enters one active, valid registration that describes buffer, caller and grant, with its index entry and a live backend entry behind it; a refused one changes nothing |
| `Admission.RegisteredKey` | src/synthetic_backend.cpp:126-146 | region, handle, key identities and opaque value of a new registration follow from seed and sequence number |
| `Admission.ReuseTable` | src/registry.cpp:363-432 | the reason a reuse misses is the first condition that fails; without one it hits what the index names |
| `Admission.ReuseExact` | src/registry.cpp:363-432 | in a sound state a reuse hits a registration exactly when authority is current and that registration is active, valid, indexed, and matches buffer, generation, memory domain, backend, domain, boot, rights, and has a key identity |
| `Admission.ReachableReuse` | src/registry.cpp:363-432 | so in every state a run of whole operations reaches |
| `Admission.RegisterThenReuse` | src/registry.cpp:208-408 | registering and asking to reuse the same hits the new registration, unless its region is the one whose key identity is zero |
| `Admission.LeaseTable` | src/registry.cpp:440-466 | the reason a lease is refused is the first condition that fails |
| `Admission.LeaseExact` | src/registry.cpp:435-489 | a lease is granted exactly when authority is current and the registration is live, valid and was granted the rights needed; it is entered on those terms and nothing else happens |
| `Terms.EveryLeaseGranted` | src/registry.cpp:467-482 | in every run, each stored lease was granted by one of its lease calls, to that caller and for those rights |
| `Terms.LeasesCovered` | src/registry.cpp:460-482 | in every recover-free interleaving a stored lease goes no further than its registration was granted, and names its generations and domain |
| `Rotation.RotationExact` | src/registry.cpp:701-725 | a rotation moves the key generation on by exactly one, in the record and in the backend's entry, and changes nothing else of the registration but its key's opaque value and revocation |
| `Rotation.RotationMasks` | src/registry.cpp:714-717 | the opaque value by one fixed mask |
| `Rotation.RotationPasses` | src/registry.cpp:558-567 | whatever is interleaved after it, the generation before a rotation has passed and is never allowed again |
| `Rotation.RotationJudgesAlike` | src/registry.cpp:506-725 | a request expecting the new generation is judged as one expecting the old one was |
| `Rotation.RotatedKeyIsStale` | src/registry.cpp:511-572 | one still expecting the old generation is answered REJECT_STALE_KEY, and counted as stale |
| `Rotation.RotationRestores` | src/synthetic_backend.cpp:267-295 | after a transport rollover a rotation makes allowed again what was |
| `Effects.HardRevokeExact` | src/registry.cpp:667-684 | a hard revocation ends the registration and its key, frees its buffer's slot, revokes exactly its active leases |
| `Effects.SoftRevokeExact` | src/registry.cpp:685-693 | a soft one ends the registration, at once or pending, and leaves key, leases and index |
| `Effects.RevocationPasses` | src/registry.cpp:667-673 | after a hard revocation the key generation before it has passed for good |
| `Effects.DropDomainExact` | src/registry.cpp:132-151 | destroying a domain ends exactly its live registrations |
| `Effects.NewBufferExact` | src/registry.cpp:154-192 | creating a buffer is refused for a duplicate or lower generation, makes stale exactly the registrations of a buffer it reallocates, and files it under its identity or the next free number |
| `Effects.DeregisterExact` | src/registry.cpp:727-795 | a deregister call is refused, fails because the backend does not know the handle, or takes the registration out of every table of both |
| `Effects.EpochFence` | src/registry.cpp:971-974 | a new epoch turns away every caller of the old one and admits those who state it |
| `Effects.RestartFence` | src/registry.cpp:976-981 | a restart asks for the new epoch and the new boot |
| `Effects.RestartForbidsReuse` | src/registry.cpp:427-428 | and no registration of an earlier boot can be reused after it |
| `Worlds.RegisterInPieces` | src/registry.cpp:208-361 | the atomic register call is check, backend call and commit run without interruption |
| `Worlds.DeregisterInPieces` | src/registry.cpp:727-795 | the same for deregister |
| `Worlds.DeregisterEnds` | src/registry.cpp:727-795 | a deregister call is refused, or marks the record FAILED because the backend did not know its handle, or removes the record and releases the handle |
| `Evolution.StepMoves` | include/rdmabuffer/registration.hpp:63-108 | lifecycle refinement: in recover-free runs every step changes a stored lifecycle along one or two edges of can_transition, lowering its rank; freshness is only lost, key generations only rise, identities never return |
| `Lifecycles.FollowsExactly` | include/rdmabuffer/registration.hpp:63-108 | with recovery in the run: any step follows the table unless it marks a recovered record for deregistration, enters a new record over a recovered one that no longer awaits revalidation, or recovers a record over one neither active nor stale; and then it does not |
| `Lifecycles.LifecycleExact` | src/registry.cpp:118-957 | so in every state any run reaches, recoveries and calls in flight included |
| `Lifecycles.RecoveredLeavesTable` | src/registry.cpp:744-752 | recovering any record without leases and beginning to deregister it is such a step |
| `Evolution.RunEvolves` | src/registry.cpp:118-795 | the same for any interleaving of the split calls with everything else |
| `Evolution.StaleStaysStale` | src/registry.cpp:538-543 | an identity that has left freshness VALID is never again allowed, leased or reused, in every interleaving |
| `Evolution.PassedKeyRefused` | src/registry.cpp:558-567 | once a key generation has passed k, no request expecting k is ever allowed, even after deregistration |
| `Evolution.IncarnationFence` | src/registry.cpp:581-584 | after a backend rollover or restart no registration whose check ran before is ever allowed, though its backend call or commit may come after |
| `Evolution.LifecycleFinite` | src/registry.cpp:127-795 | a registration changes lifecycle at most four times and never re-enters ACTIVE |
| `Safety.AllowIsEntitled` | src/registry.cpp:506-647 | ALLOW means: valid, active, unrevoked, named by the index, in an active domain at the current buffer generation, under current authority, with a live backend entry at the same key generation, rights granted, and the range inside one that ends below 2^64 |
| `Safety.RunSound` | src/registry.cpp:118-957 | the invariants behind it hold in every run of whole operations, recovery and any backend calls included |
| `Safety.AllowSafe` | src/registry.cpp:506-647 | so ALLOW is right in every reachable state |
| `Safety.SingleFlight` | src/registry.cpp:262-268 | a buffer has at most one active registration, the index names it, and it is well placed |
| `Safety.ReuseHit` | src/registry.cpp:363-432 | a reuse hit is that one registration, made under the current boot for the same buffer generation, domain, backend and rights |
| `TwoLayers.LayersAgree` | src/registry.cpp:577-638 | with a fixed profile the two-layer decision is exactly the runtime's predicate over the active record |
| `TwoLayers.BackendIsRedundant` | src/registry.cpp:630-638 | about an active record the backend never overrules the runtime |
| `TwoLayers.TwoLayerAgreement` | src/registry.cpp:577-638 | in every run in which the backend is only rolled over or restarted from outside |
| `TwoLayers.TransportRolloverDisagrees` | src/synthetic_backend.cpp:287-295 | a transport rollover breaks the agreement for every request the runtime would allow |
| `Interleavings.CommitKeepsSingleFlight` | src/registry.cpp:331-358 | a commit keeps the index naming every active registration if and only if the buffer has no active registration by then |
| `Flights.StepFlight` | src/registry.cpp:208-795 | of all steps that is the only one that can break it |
| `Flights.RunFlight` | src/registry.cpp:208-795 | an interleaving is single-flighted throughout if and only if no commit in it goes over an active registration |
| `Flights.FlightWithoutOverlap` | src/registry.cpp:262-268 | an interleaving in which no register call passes its check while another one for the same buffer is in flight is single-flighted throughout |
| `Flights.OverlapBreaks` | src/registry.cpp:310-358 | and whenever one does, and the backend has granted the call in flight or would, some continuation ends with two active registrations of the buffer |
| `Flights.WholeNeverOverlaps` | src/registry.cpp:208-361 | whole operations never overlap |
| `Flights.SoftRevocationBlocks` | src/registry.cpp:685-693 | after a soft revocation with leases outstanding, in every run of whole operations, each register call for the buffer is refused, as in flight if nothing else is wrong with it |
| `Placement.StepPlacement` | src/registry.cpp:132-358 | a step takes a registration that can still be allowed out of its active domain or current buffer generation if and only if it commits a call whose domain or generation has changed since its check, or destroys the domain or reallocates the buffer of a registration marked for deregistration whose backend call is to come |
| `Placement.PlacementExact` | src/registry.cpp:118-795 | an interleaving keeps placement throughout if and only if it has no such step |
| `Placement.AllowPlaced` | src/registry.cpp:506-647 | and then ALLOW means an active domain and the current buffer generation as well |
| `Placement.MarkedOutlivesDomain` | src/registry.cpp:137-149 | the bulk invalidation passes over a marked registration: what was allowed stays allowed in the destroyed domain |
| `Placement.MarkedOutlivesBuffer` | src/registry.cpp:164-173 | and at the superseded generation of a reallocated buffer |
| `Interleavings.TwoActive` | src/registry.cpp:310-331 | two interleaved register calls end with two active registrations of one buffer |
| `Interleavings.ActiveInDestroyedDomain` | src/registry.cpp:310-331 | a domain destroyed meanwhile gets an active registration |
| `Interleavings.ActiveAtOldGeneration` | src/registry.cpp:310-331 | so does a superseded buffer generation |
| `Interleavings.MarkedIsStillAllowed` | src/registry.cpp:529-543 | a registration marked for deregistration is judged as before until its backend call |
| `SplitAccess.AllowMeanwhile` | src/registry.cpp:506-647 | taken apart, ALLOW still means a valid, unrevoked registration that is active or marked with its backend call to come, under current authority and incarnation, with a live backend entry at the same key generation, rights and range; `Placement` says when it means placement too |
| `SplitAccess.RunKept` | src/registry.cpp:208-795 | the invariants behind it hold in every recover-free interleaving |
| `SplitAccess.AllowInterleaved` | src/registry.cpp:506-647 | so that is what ALLOW means in every state an interleaving reaches |
| `Revocation.HardRevocationIsFinal` | src/registry.cpp:667-684 | a hard revocation frees the buffer's slot, and its registration is unusable in every continuation |
| `Revocation.SoftRevocationDrains` | src/registry.cpp:685-693 | a soft revocation leaves the record REVOKING if and only if leases are outstanding |
| `Revocation.RevokingForever` | src/registry.cpp:491-503 | and then nothing ever moves it on, in any recover-free run |
| `Revocation.IndexNeverDangles` | src/registry.cpp:352-782 | in every run an index entry names a registration in the table |
| `Leases.LeaseConservation` | src/registry.cpp:470-503 | in every recover-free interleaving a lease count is the number of leases not yet released, no release underflows, and deregistration erases only released leases |
| `Leases.NoUnderflow` | src/registry.cpp:496-499 | the guard on the count is never needed |
| `Leases.ReturningCounts` | src/registry.cpp:491-503 | a release keeps the counter of active leases right if and only if the lease was active or no lease is |
| `Leases.ActiveLeaseCounter` | src/registry.cpp:674-680 | the counter never exceeds the active leases and equals them in runs that return only active ones |
| `Charges.ChargeConservation` | src/registry.cpp:820-834 | in recover-free interleavings that erase no released record, the five counters are counts and sums over the charged records of the table |
| `Charges.SecondReleaseBreaks` | src/registry.cpp:781 | a deregistration keeps the counters right if and only if the record was still charged or nothing charged is left |
| `Releases.ChargedExactly` | src/registry.cpp:137-173 | a record in the table still counts as charged, by its reason text, exactly when no reallocation and no domain's destruction of the run has released it, in every recover-free interleaving |
| `Releases.NothingRefused` | include/rdmabuffer/accounting.hpp:21-25 | along every such run that erases no released record, each release of a charge, inside the bulk loops too, decrements all five counters in full |
| `Releases.RunCloses` | src/registry.cpp:828-834 | and the five counters end at zero if and only if every registration still in the table has been released |
| `Buffers.Replaced` | src/registry.cpp:174-181 | growing and shrinking reallocations adjust the live bytes by the difference, never refused |
| `Buffers.NewBufferTracked` | src/registry.cpp:154-192 | a buffer is stored exactly when its identity is new or its generation higher |
| `Buffers.RunTracked` | src/registry.cpp:154-192 | no run forgets a buffer or lowers its generation |
| `Buffers.BufferConservation` | src/registry.cpp:154-192 | logical buffers and live bytes are the count and the sum of lengths, in every run |
| `Domains.StepCounts` | src/registry.cpp:118-151 | a step keeps the counter at the number of active domains exactly when it neither destroys a domain that is not active, with the counter above zero, nor creates one over an active recovered one |
| `Domains.DomainConservation` | src/registry.cpp:118-151 | so in any run, recoveries included, the counter is right throughout exactly when no step is of those kinds |
| `Tallies.StepMovesCounters` | src/registry.cpp:511-640 | every step moves the ten event counters by what its answer or effect amounts to: bytes read and written, atomic operations, failed and stale accesses, reuse hits and misses, restarts, revocations, deregistrations |
| `Tallies.CountersAreSums` | src/registry.cpp:511-640 | so along any run from the start, recoveries included, they are the sums over its steps |
| `Bridge.SavedParses` | src/registry.cpp:848-875 | a runtime's saved blob parses, to what was saved, if and only if no buffer has generation zero and at most one descriptor carries identity zero |
| `Bridge.ReachableSaves` | src/registry.cpp:848-875 | in every state any run reaches, recoveries and calls in flight included: if and only if no buffer has generation zero and at most one was created without an identity |
| `Bridge.RecoveredIdentities` | src/registry.cpp:919-946 | a fresh runtime recovers the same buffers, domains and registrations by identity if and only if every buffer carries the identity it is filed under |
| `Bridge.ReachableRecovers` | src/registry.cpp:848-946 | saved and read back, from any such state: the same condition, for all three tables |
| `SavedRuns.AnonymousRefused` | src/registry.cpp:156-190 | two ordinary calls reach a state with two anonymous buffers, whose saved blob is refused |
| `SavedRuns.ZeroGenerationRefused` | src/persistence.cpp:420-424 | one call, for a buffer of generation zero, reaches another |
| `SavedRuns.OneAnonymousMoves` | src/registry.cpp:919-928 | with one anonymous buffer the blob is read back, and the buffer recovered under identity zero |
| `Bridge.RecoverTwice` | src/registry.cpp:919-946 | recovering the same blob again changes nothing |
| `Restoration.SavedIsOwn` | src/registry.cpp:848-875 | counters, authority, keys and the history of reasons are saved as the runtime has them, each reason as often as registrations carry it |
| `Restoration.RecoveredRecords` | src/registry.cpp:919-951 | a runtime without registrations recovers the authority and every record as they were, but for backend material, currency and the two fields not carried |
| `Restoration.ReachableRestores` | src/registry.cpp:848-957 | so from every reachable state, through the bytes of the blob |
| `Restoration.DomainsComeBackActive` | src/registry.cpp:928-935 | every domain comes back active, one destroyed before as well |
| `Inertness.RecoveredIsInert` | src/registry.cpp:936-946 | every record of the blob is entered awaiting revalidation |
| `Inertness.InertIsUnusable` | src/registry.cpp:936-946 | nothing recovered is allowed, leased, reused, revoked or rotated |
| `Inertness.InertExact` | src/registry.cpp:336-358 | a step makes a recovered registration usable if and only if it enters a new one under its identity |
| `Inertness.SettledStaysInert` | src/registry.cpp:251-255 | in every run, recoveries included, a recovered registration whose identity is below the counter and not in flight stays inert or is removed |
| `Inertness.OverwrittenExactly` | src/registry.cpp:918-951 | some run replaces a recovered registration by an active one if and only if its identity is not below the identity counter |
| `Inertness.RecoveredAtRisk` | src/registry.cpp:918-951 | so, right after a recovery in any run, for every record of the blob whose identity is not in flight |
| `SavedRuns.OwnRegistrationAtRisk` | src/registry.cpp:918-951 | a fresh runtime that recovers another one's first registration can see it replaced |
| `Examples.AllowReached` | src/registry.cpp:506-647 | five ordinary calls reach a state that allows a request |
| `Answers.ReuseReached` | src/registry.cpp:400-407 | registering the page again as a reuse hits its registration |
| `Answers.OneUnluckySeed` | src/synthetic_backend.cpp:126-142 | and at most one seed of the backend gives it the region without a key identity |
| `Answers.WriteLeaseRefused` | src/registry.cpp:460-464 | a page registered for reading is not leased for writing |
| `Answers.StaleKeyAnswered` | src/registry.cpp:511-572 | a request expecting the next key generation is stale and counted as stale |
| `Answers.RotatedAnswered` | src/registry.cpp:701-725 | after a rotation the old key generation is stale and the new one allowed |
| `Answers.DestroyedTwice` | src/registry.cpp:132-151 | a domain destroyed twice leaves the counter at zero with another domain active |
| `Races.AllowedInDestroyedDomain` | src/registry.cpp:137-149 | from there, a marked registration is allowed in a destroyed domain |
| `Races.AllowedAtOldGeneration` | src/registry.cpp:164-173 | and at a superseded generation |
| `Races.CommittedIntoDestroyedDomain` | src/registry.cpp:331-358 | a call checked before its domain is destroyed commits an active registration there |
| `Races.RaceReached` | src/registry.cpp:310-331 | two overlapping register calls reach two active registrations of one buffer |
| `Races.DrainingReached` | src/registry.cpp:685-693 | a soft revocation with a lease outstanding is reached, and the record is REVOKING |
| `Races.LeaseCountedTwice` | src/registry.cpp:491-503 | a revoked lease returned while another is active leaves the counter at zero |
| `Races.ChargeReleasedTwice` | src/registry.cpp:781 | a page reallocated and then deregistered leaves no registration charged by the counter, and one active |
| `Races.DivisionReached` | src/synthetic_backend.cpp:336 | a simulated read of length zero of a registered page divides by zero |

## Left out

- Evolution.StepMoves: is stated for recover-free runs, because `recover` replaces records; `Lifecycles.LifecycleExact` says for all runs which steps leave the lifecycle table.
- Leases.LeaseConservation: is stated for recover-free runs, because `recover` replaces a record without its leases.
- Charges.ChargeConservation: is stated for runs that erase no record released before; `Charges.SecondReleaseBreaks` gives the exact condition for the step, and `Releases` what holds along such runs.
- Safety.AllowSafe: is stated for whole operations; for calls taken apart `SplitAccess.AllowInterleaved` states what ALLOW still means, and `Placement.AllowPlaced` when it includes domain and buffer generation.
- SplitAccess.AllowInterleaved: is stated for recover-free runs, because `recover` replaces records that calls in flight still refer to; placement is the subject of `Placement`.
- SplitAccess.AllowMeanwhile: leaves domain and buffer generation to `Placement`, whose condition is about the run and not the state.
- Worlds.CheckDeregisterStep: refuses to begin a deregistration while another one for the same identity is in flight; the code would begin a second one if a `recover` has replaced the record in between.
- Frames.BurstRejected: requires the length field to read the same, because a damaged length moves the bytes the checksum covers.
- Digest.DigestPreserved: is about the text that is hashed; the FNV-1a hash of it and its hexadecimal rendering add nothing to equality.
- RowIo.WriteRow: one loop over a record's row stands for the statement-per-field encode routines of `src/persistence.cpp`; `Images` proves the order of the fields and the bytes.
- RowIo.ReadRow: likewise for the decode routines; range checks are made as each byte is read, where the code sometimes reads several bytes first, with the same result.
- WireCodec.WriteDescriptor: the field-by-field statements are grouped in three methods.
- WireCodec.ReadDescriptor: the six enumeration bytes are checked one by one, where the code reads all six first.
- Registry.Rdmabuffer.AddBackend: the runtime is built with the one synthetic backend it may be given, since two backends of the same identity are refused.
- Registry.Rdmabuffer.Save: opening, writing and renaming the file are not part of this model; the blob is a value.
- Registry.Rdmabuffer.RecoverFrom: the file is a value, or none if it cannot be opened; the report carries the text that is digested instead of its hash.
- The global mutex and the C++ memory model: each stretch under the lock, each backend lookup and each backend call is one step; races on unlocked lookups are not modelled.
- Explanation texts, names of outcomes and log strings: outcomes and reasons are datatypes.
- `query_registration`, the getters, `RegistrationContext`, and the transport, NIC and device fields of a grant: stored or returned, never decided upon.
- The command payloads other than REGISTER, the Writer's i64 and f64 helpers, the Reader's raw and skip_bytes: easy members of the same kind.
- Sockets, processes, command line, coordinator and worker programs, examples and benchmarks.
- The CUDA and reference backends and the Windows layer.
