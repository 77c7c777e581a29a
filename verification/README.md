# Verified model of the signer's storage, covenant scripts and address codec

The repository is a hardware signer for a UTXO chain (`core`) and its companion wallet (`kassee`).
This project models the parts of it whose correctness is hardest to see by reading, and proves what
they are for. `dafny verify dfyconfig.toml` checks everything.

**The file system** (`core/src/fat32.rs`, modules `Fat32*`). `Fat32Card.Card` is a block device: an
array of 512-byte sectors, any call of which may fail, and a ghost `history` of what the card held
after every write that reached it, so that "after a power loss" means "in some state of the history".
A FAT copy is read as a table of 28-bit entries, its reserved nibbles apart. `WellFormed` says that
the reserved sectors, the FATs and the data region tile the card; `FsOk` that the root directory is a
chain, that every live entry names a whole chain, and that names are distinct and chains disjoint.
The operations are methods over the card that make the original's reads and writes in its order; the
main results say what they do to the map from names to contents, also when they are cut short.

**The covenant scripts** (`kassee/src/kspt*.rs`). `ScriptMachine` is a stack engine for exactly the
opcodes the builders use, over bytes that are parsed, with conditionals that nest and skip.
`ScriptCode` is a small structured language with its own meaning, compiled to those bytes, and a proof
that running the bytes is executing the code. Each builder is a method that appends bytes to a
`ScriptBuf` as the original does, proved to emit the compiled form of a code term and the byte
sequence written out in literals beside it; then the spends the emitted script accepts are
characterised exactly, and lifted to whole runs of spends. The oracle
rebuilds its own successor from its own bytes, and that too is proved down to the bytes.

**The address codec** (`kassee/src/address.rs`; `BitStrings`, `Regroup`, `Checksum`, `Address`, `Networks`), **the
key cache** (`core/src/ext.rs`; `KeyBanks`) and **the calendar** (`core/src/timefmt.rs`; `LockTimes`).

## Model

| member | source | states |
|---|---|---|
| Fat32Card.Card.ReadBlock | core/src/fat32.rs:48-59 | a read returns the sector or fails, and a block past the card always fails |
| Fat32Card.Card.WriteBlock | core/src/fat32.rs:48-59 | a write either reached the card, and is in its history, or it failed and changed nothing; a failing write may have reached it |
| Fat32Layout.OffsetGuard | core/src/fat32.rs:140-151 | the guard called unreachable in the entry reader fires exactly for cluster numbers from 2^30 on, where the byte offset saturates |
| Fat32Layout.ClusterSectors | core/src/fat32.rs:126-137 | the sectors of every cluster on the card lie behind the FATs and inside the card, with no saturation |
| Fat32Layout.ClustersDisjoint | core/src/fat32.rs:126-137 | two clusters share no sector |
| Fat32Layout.SetLowWords | core/src/fat32.rs:309-314 | patching one entry changes its 28 bits only: every other entry and every reserved nibble stays |
| Fat32Alloc.ReadFatEntry | core/src/fat32.rs:240-249 | an entry read is the FAT's 28-bit value at that cluster, or the guard's error |
| Fat32Alloc.WriteFatEntry | core/src/fat32.rs:303-329 | on success the entry holds the value in every FAT copy; nothing else changes, not even on failure outside the FATs |
| Fat32Alloc.AllocateCluster | core/src/fat32.rs:333-358 | the first free cluster from the hint on, wrapping once, is claimed as an end of chain in every copy; disk full only when no cluster is free, and then nothing is written |
| Fat32Tables.FreeUpToIsExact | core/src/fat32.rs:377-406 | the specification's list of free clusters holds each free cluster once, ascending, and no other |
| Fat32Alloc.FirstFitIsLowest | core/src/fat32.rs:377-406 | first fit takes clusters that are free and on the card, strictly ascending, and skips no free cluster below its last |
| Fat32Alloc.ScanFree | core/src/fat32.rs:380-406 | the scan, wrap and all, finds exactly the first-fit clusters, and reports disk full only when too few are free |
| Fat32Alloc.PatchLinks | core/src/fat32.rs:433-443 | patching the links of a run into a sector sets just those entries and keeps its reserved nibbles |
| Fat32Alloc.ClaimRun | core/src/fat32.rs:417-446 | one run, read once and written once per copy, moves both FATs from one complete tail to the next; the branch for a wrapped scan does the same |
| Fat32Alloc.ClaimRuns | core/src/fat32.rs:408-447 | all runs, highest sector first, end with the whole chain claimed; every state on the way is a claimed tail with the second FAT trailing the first |
| Fat32Tables.ClaimedTail | core/src/fat32.rs:371-376 | whatever prefix of the claim's writes reached the card, what is written is a complete tail ended by an end mark, the clusters before it are still free and no other entry moved |
| Fat32Tables.ClaimedTailHasNoDanglingLink | core/src/fat32.rs:371-376 | no written link ever names an unclaimed cluster |
| Fat32Tables.ClaimKeepsChains | core/src/fat32.rs:371-376 | a claim, whole or cut short, breaks no existing chain and takes no cluster of one |
| Fat32Alloc.AllocateChain | core/src/fat32.rs:371-451 | on success the `count` lowest free clusters are linked in order and ended in every copy, all else unchanged; errors other than I/O write nothing; every state a power loss can leave is a claimed tail |
| Fat32Dir.NextDirCluster | core/src/fat32.rs:251-300 | a directory walk's next cluster and its charge, or an error on a walk past 8,192 sectors or a link outside the data clusters |
| Fat32Dir.NamesMatch | core/src/fat32.rs:197-205 | two names match exactly when each of their eleven bytes is equal or the upper and lower case of one ASCII letter; without small letters they match only if they are equal |
| Fat32Dir.EntryIs | core/src/fat32.rs:169-195 | 32 bytes are a live entry of a name unless they start with 0x00 or 0xE5, carry the long-name attribute or have other letters; the fields are read from bytes 0, 11, 20, 26 and 28 |
| Fat32Dir.FoundIs | core/src/fat32.rs:511-541 | whatever a card holds, a search's hit is a live slot of it with that name and those fields |
| Fat32Dir.FindFileInRoot | core/src/fat32.rs:511-541 | a search returns the specification's entry, sector and offset, or an I/O error; what it returns is a live slot of the card, its 32 bytes field by field, and its name equals the wanted one in all eleven bytes up to the case of ASCII letters |
| Fat32Dir.FindIsScan | core/src/fat32.rs:511-541 | on a whole root directory the search is one scan of its sectors in order: the walk bound never bites |
| Fat32Dir.FindFromIsCut | core/src/fat32.rs:282-300 | in a directory one cluster longer than the walk bound, the clusters within it are searched and a name not in them is answered with the error for a circular chain |
| Fat32Root.EntryRoundTrip | core/src/fat32.rs:169-190 | a 32-byte entry written reads back as itself, unless its first byte or attribute marks it free, deleted or a long name |
| Fat32Root.ScanIs | core/src/fat32.rs:511-541 | in a directory whose end marks are final, a scan finds a live entry of the name if and only if there is one |
| Fat32Root.FindIsExact | core/src/fat32.rs:511-541 | on a whole root directory a search hits a slot of it if one has the name, and answers that the file is not found only if none has |
| Fat32Root.PutIsFresh | core/src/fat32.rs:778-797 | a stored archive entry is its 32 bytes: name, 0x20, cluster words at 20 and 26, size at 28, and zeros between |
| Fat32Root.ExtendDirectory | core/src/fat32.rs:805-823 | the directory grows by one claimed, linked and zeroed cluster, the first free one scanning on from its last, and nothing else changes; a full card refuses before anything is written |
| Fat32Root.WriteDirEntryToRoot | core/src/fat32.rs:761-827 | the entry lands in the first free slot, after growing the directory if it is full; a directory with a free slot is written at most once; a full card leaves all as it was, and "too large" leaves a directory grown past the walk bound |
| Fat32Read.ReadCluster | core/src/fat32.rs:583-605 | one cluster contributes its bytes, up to the bytes remaining, by whichever of the two read paths |
| Fat32Read.ReadFile | core/src/fat32.rs:555-646 | the buffer holds exactly the file's contents; a buffer too small is refused, and every other error but I/O is the chain's |
| Fat32Write.WriteCluster | core/src/fat32.rs:684-709 | one cluster holds its part of the data, zero-filled to its end; no sector outside it changes at any write |
| Fat32Write.WriteData | core/src/fat32.rs:676-742 | the chain holds the data in order, zero-filled, and at every write only the chain's own sectors have changed |
| Fat32Files.ReadBack | core/src/fat32.rs:555-646 | a chain that holds some data reads back as that data |
| Fat32Files.FileKept | core/src/fat32.rs:555-646 | a file whose clusters and entries are kept keeps its chain and its contents, whatever else happens to the card |
| Fat32Delete.FreePage | core/src/fat32.rs:870-887 | within one FAT sector the walk zeroes entries only, makes progress or stops, and its 128-slot replay list misses none of them |
| Fat32Delete.FullReplayList | core/src/fat32.rs:871-883 | when the replay list is full it already names every entry of the sector, so dropping an offset loses nothing |
| Fat32Delete.ReplayOffsets | core/src/fat32.rs:889-898 | replaying the list zeroes exactly the listed entries of the second copy and keeps its reserved nibbles |
| Fat32Delete.FreeOnePage | core/src/fat32.rs:868-899 | one pass advances the freed part of the walk in both copies, and leaves fewer non-zero entries or stops |
| Fat32Delete.FreeChain | core/src/fat32.rs:850-903 | freeing ends on every FAT content, cycles included; where the chain stays inside the FAT it frees exactly the walk in both copies, and every power-loss state has freed a prefix of it |
| Fat32Tables.WalkOfChain | core/src/fat32.rs:860-899 | on a whole chain the walk is that chain |
| Fat32Tables.WalkedIsReached | core/src/fat32.rs:860-899 | on any table, every cluster walked is reached by links from the first |
| Fat32Tables.ReachedIsWalked | core/src/fat32.rs:860-899 | and every cluster reached by links is walked |
| Fat32Fs.FirstFitIsSpare | core/src/fat32.rs:377-406 | the allocator takes no cluster of the directory or of any file |
| Fat32Fs.ConfinedChange | core/src/fat32.rs:659-758 | a change confined to spare clusters keeps the file system well formed and every name's contents |
| Fat32Fs.CrashedClaimKeepsFiles | core/src/fat32.rs:371-376 | a create cut short while claiming clusters leaves every name reading as before |
| Fat32Fs.DirectoryGrown | core/src/fat32.rs:805-823 | growing a full directory keeps the file system well formed and every name's contents |
| Fat32Fs.OvergrownDirectory | core/src/fat32.rs:805-823 | a directory grown past the walk bound leaves every file reading as before and turns every missing name into that error |
| Fat32Fs.EntryStored | core/src/fat32.rs:761-801 | storing an entry for a whole spare file adds exactly that name with those contents; a search for it finds that entry, in a slot with exactly its bytes |
| Fat32Ops.CreateFile | core/src/fat32.rs:659-758 | on a well-formed card a create of a fresh name makes that name read as exactly the data and every other name as before, FATs mirrored, also when the directory grew; with room in the directory, every state a failure or power loss can leave has all of the new file or none of it; disk full and allocation failed leave every name as it was; "too large" comes only from a full directory that one more cluster would take past the walk bound, such a directory takes no file, and it is left answering every missing name with the error for a circular chain; the entry returned is the one on the card, with the archive attribute 0x20, in a slot of exactly those bytes, and starts the file's whole chain; where the directory had room, the lowest free clusters the size needs are claimed in every copy and nothing else changed but their sectors and that slot's |
| Fat32Ops.DeleteFile | core/src/fat32.rs:830-903 | a delete makes the name missing, keeps every other name and the mirrored FATs and frees a slot; the same holds after every one of its writes, so no live entry reaches a freed cluster; after it the card is the old one with 0xE5 on the slot and the file's chain freed in every copy, and nothing else |
| Fat32Ops.CrashedDeleteKeepsFiles | core/src/fat32.rs:837-899 | a delete cut short anywhere after its directory write leaves the name gone and every other name reading as before |
| Fat32Ops.OverwriteFile | core/src/fat32.rs:907-925 | an overwrite makes the name read as the new data and keeps all others; at every write of an overwrite of an existing file the name is missing or holds the new data whole, without condition, because the delete left a free slot |
| Fat32Ops.DeletedThenCreated | core/src/fat32.rs:907-925 | a delete and then a create is one update of the name |
| Fat32Mount.FromBootSector | core/src/fat32.rs:81-123 | an accepted boot sector gives a power-of-two cluster size, one or two FATs, a root cluster from 2 on, and regions in order |
| Fat32Mount.BootFields | core/src/fat32.rs:81-123 | exactly which sectors are accepted as boot sectors, and from which bytes each field of the geometry is read, for every sector |
| Fat32Mount.FindFat32Partition | core/src/fat32.rs:1118-1138 | the first entry of a FAT32 type, and no other, with the start in its bytes 8 to 12; 0 only when there is none and sector 0 starts with a jump |
| Fat32Mount.MountFat32 | core/src/fat32.rs:461-507 | sector 0 wins if it boots, else the first FAT32 partition, else the first common offset that boots, but for those whose read failed; the geometry is shifted to the start found |
| Fat32Format.DeriveGeometry | core/src/fat32.rs:1252-1292 | a card is accepted exactly from 66,599 sectors on; the regions tile it, the FAT is sized for the data region and describes every cluster, of which there are at least 65,525, no larger cluster size would do, and no u32 arithmetic overflows |
| Fat32Format.TryClusterSize | core/src/fat32.rs:1260-1289 | a cluster size is taken exactly when it gives enough clusters for FAT32; the last guard never fires |
| Fat32Format.FloorExact | core/src/fat32.rs:1260-1278 | one-sector clusters reach the floor exactly from the smallest card on, larger ones need more |
| Fat32Format.FloorBound | core/src/fat32.rs:1260-1278 | only small cards fall through to smaller clusters, which keeps the FAT-size arithmetic inside u32 |
| Fat32Format.FatCovers | core/src/fat32.rs:1264-1283 | a FAT sized for the whole data region has an entry for every cluster that is left behind it |
| Fat32Format.VerifySector | core/src/fat32.rs:1150-1184 | a passed check means the card holds the wanted sector; a failed one that it does not, or I/O |
| Fat32Format.VerifyAll | core/src/fat32.rs:1385-1397 | on any card, the final read-back passes only if the eight sectors it reads hold what the format writes there, and fails only by I/O or if one does not |
| Fat32Format.DoFormat | core/src/fat32.rs:1295-1400 | a formatted card holds the whole image of a geometry that tiles its reported capacity, and nothing past it changed; a card too small is left as it was |
| Fat32Format.FormattedBytes | core/src/fat32.rs:1313-1383 | every byte of a formatted card up to the end of its root directory: boot sector, FSInfo, their backups, the heads of both FATs, and zeros |
| Fat32Format.BootRoundTrip | core/src/fat32.rs:81-123 | mounting reads back from the boot sector exactly the geometry written |
| Fat32Format.FormattedFat | core/src/fat32.rs:1362-1377 | in both copies clusters 0 to 2 are ended and every other entry is free |
| Fat32Format.FormatThenMount | core/src/fat32.rs:1295-1400 | a formatted card mounts as the derived geometry, with identical FATs, an empty well-formed root and no files; its recorded free count and next free cluster are the true ones |
| Fat32Runs.CutCreateIsStep | core/src/fat32.rs:659-758 | a create with room, cut short at any write, did nothing or everything |
| Fat32Runs.CutOverwriteIsStep | core/src/fat32.rs:907-925 | an overwrite of an existing file, cut short at any write, removed the name or replaced its contents |
| Fat32Runs.RunRemembers | core/src/fat32.rs:659-925 | over any run of creates, overwrites and deletes, whole or cut short, the file system stays well formed and every name reads as its last write |
| Fat32Runs.FormattedRun | core/src/fat32.rs:1295-1400 | from a formatted card, a name reads as its last write and as missing when there is none |
| ScriptNumbers.DecEnc | kassee/src/kspt.rs:2688-2706 | the number an engine reads back from a minimal encoding is the number encoded |
| ScriptNumbers.EncInjective | kassee/src/kspt.rs:2688-2706 | different numbers have different encodings |
| ScriptBytes.OpcodeTable | kassee/src/kspt.rs:2620-2686 | the byte of every opcode the builders use |
| ScriptBytes.Le64Bytes | kassee/src/kspt_oracle.rs:153-162 | a u64 field is its eight bytes, the lowest first |
| ScriptBytes.NumberPushed | kassee/src/kspt.rs:2688-2706 | the push of every u64, byte by byte: 0x00, the small-integer opcodes, or a length and the low bytes, as many as leave room for the sign |
| ScriptBytes.DataPushed | kassee/src/kspt.rs:2812-2830 | the push of any data, byte by byte |
| ScriptTokens.ParseAssemble | kassee/src/kspt.rs:2620-2686 | a script's bytes read back as exactly the opcodes and pushes they were assembled from |
| ScriptBuilder.ScriptBuf.PushInt | kassee/src/kspt.rs:2688-2706 | the bytes appended for any u64 are its push, written out, and one push token: a small-integer opcode or the minimal encoding |
| ScriptBuilder.ScriptBuf.PushData | kassee/src/kspt.rs:2812-2830 | the bytes appended are the push of the data, written out, with the shortest of the four length prefixes, and one push token |
| ScriptBuilder.ScriptBuf.PushFixed | kassee/src/kspt.rs:2708-2711 | the bytes appended are one push of the key or salt |
| ScriptCode.CodeSkips | kassee/src/kspt.rs:2620-2686 | code in a branch not taken changes nothing, however its conditionals nest |
| ScriptCode.FlattenMeans | kassee/src/kspt.rs:2620-2686 | running compiled code is executing the structured code it came from |
| ScriptCode.AcceptsCompiled | kassee/src/kspt.rs:2620-2686 | the engine accepts the compiled bytes exactly when the code ends with one true item |
| ScriptMachine.OutputsTaggedAre | kassee/src/kspt.rs:2674-2682 | the indices a covenant id selects are exactly the outputs carrying it |
| ScriptMachine.InputsTaggedAre | kassee/src/kspt_oracle.rs:28-36 | likewise for inputs |
| ScriptMachine.SpendRuns | kassee/src/kspt_oracle.rs:365-391 | an accepted spend of a script's address ran that script, revealed as the last push |
| SpendingLimit.PushThread | kassee/src/kspt_covenant.rs:291-339 | the emitted bytes are the thread rule written out in literals, and its compiled form |
| SpendingLimit.ThreadMeans | kassee/src/kspt_covenant.rs:246-262 | the thread rule succeeds exactly when the spend continues the one tagged output at the same address within the cap, or closes it with a balance within the cap |
| SpendingLimit.BuildGlobalSpendingLimit | kassee/src/kspt_covenant.rs:269-342 | for every cap, cooldown, key and salt the builder emits the script of the acceptance theorem, which is the literal byte sequence given: every opcode in its place |
| SpendingLimit.LimitAccepts | kassee/src/kspt_covenant.rs:269-342 | the script accepts exactly the owner-signed, cooled-down spends that keep the thread rule |
| SpendingLimit.ThreadIsCapped | kassee/src/kspt_covenant.rs:233-262 | after any number of spends at most one tagged output exists, at the covenant's address, and at most the cap per spend has left; only the last spend closes it |
| SpendingLimit.OutflowPerTime | kassee/src/kspt_covenant.rs:269-342 | the cooldown turns the cap per spend into a bound on outflow by elapsed time |
| SpendingLimit.LimitEnforces | kassee/src/kspt_covenant.rs:269-342 | accepted spends from the script's own address keep the thread rule and the cooldown |
| SpendingLimit.GlobalSpendingLimit | kassee/src/kspt_covenant.rs:233-342 | the whole promise over any run of accepted spends: one thread, at its address, capped per spend and per elapsed time, closed only within the cap |
| SpendingLimit.UntaggedDeposit | kassee/src/kspt_covenant.rs:238-241 | an untagged deposit can be spent through the script exactly when it is within the cap, signed and cooled down: the documentation says never |
| SpendingLimit.UntaggedDepositCloses | kassee/src/kspt_covenant.rs:238-241 | a one-sompi untagged deposit that the script accepts |
| SpendingLimit.BuildGlobalAllowance | kassee/src/kspt_covenant.rs:386-481 | the builder emits the allowance script, with or without a start date and a cooldown, byte by byte as written out |
| SpendingLimit.AllowanceAccepts | kassee/src/kspt_covenant.rs:386-481 | the owner's signature alone on one branch; on the other exactly the beneficiary-signed spends past the start date and cooldown that keep the thread rule |
| SpendingLimit.AllowanceEnforces | kassee/src/kspt_covenant.rs:386-481 | while the owner signs nothing, accepted spends keep cap, start date and, where the allowance has one, cooldown |
| SpendingLimit.GlobalAllowance | kassee/src/kspt_covenant.rs:386-481 | over any run in which the owner signs nothing, the beneficiary has the spending limit's bounds, past the start date; with a cooldown also the bound by elapsed time |
| OracleScript.BodyOk | kassee/src/kspt_oracle.rs:180-340 | the publish body is 288 bytes for all parameters, the length it cuts its own bytes by |
| OracleScript.RedeemBytes | kassee/src/kspt_oracle.rs:343-361 | the redeem script is the 20-byte prefix and the body, 308 bytes for every state and all parameters |
| OracleScript.RedeemFields | kassee/src/kspt_oracle.rs:143-162 | price and time sit at bytes 1 to 9 and 11 to 19, the body from byte 20 |
| OracleScript.RedeemInjective | kassee/src/kspt_oracle.rs:343-361 | different states have different scripts |
| OracleBuilder.BuildPublishBody | kassee/src/kspt_oracle.rs:180-340 | the builder emits exactly that body, written out in literals: every opcode, field bound, tag and constant of its 288 bytes |
| OracleBuilder.BuildPrefix | kassee/src/kspt_oracle.rs:153-162 | the builder emits two length-prefixed fields, each a u64's bytes lowest first, and the drops |
| OracleBuilder.BuildRedeem | kassee/src/kspt_oracle.rs:343-361 | the redeem and genesis builders emit the 308-byte script of a state, written out |
| OracleRoll.JournalMeans | kassee/src/kspt_oracle.rs:193-245 | the journal part passes exactly when one heartbeat input exists and the journal, of at least 48 bytes, carries the pinned root, a price in [1, 2^60] and a time not before the revealed one as a signed number |
| OracleRoll.RebuildMeans | kassee/src/kspt_oracle.rs:246-273 | the rebuild leaves the journal's prefix and the script's own last 288 bytes |
| OracleRoll.SettleMeans | kassee/src/kspt_oracle.rs:274-308 | the settlement passes exactly when the id has one input and one output, output 0 pays the rebuilt script's address within the fee cap, and the proof of the journal verifies |
| OracleRoll.RollMeans | kassee/src/kspt_oracle.rs:191-308 | the roll branch succeeds exactly on a valid journal, settlement and proof |
| OracleRoll.PassMeans | kassee/src/kspt_oracle.rs:310-336 | the passthrough branch succeeds exactly when the id has one input and one output, and that output goes to the same script within the fee cap |
| Oracle.RebuiltIsRedeem | kassee/src/kspt_oracle.rs:246-273 | what a roll rebuilds from its own signature script is the redeem script at the journal's price and time, same parameters |
| Oracle.OracleAccepts | kassee/src/kspt_oracle.rs:180-361 | the redeem script accepts exactly the rolls, whose output 0 is the same script at the journal's state, and the passthroughs |
| Oracle.OracleStep | kassee/src/kspt_oracle.rs:180-361 | one spend moves the oracle to a state with a legal price, no earlier time and at most the fee cap lost |
| Oracle.OracleRuns | kassee/src/kspt_oracle.rs:180-361 | over any run every output 0 is the oracle at some state, each step as above |
| Oracle.TimesMonotone | kassee/src/kspt_oracle.rs:222-245 | over any run the time never goes back, as a signed script number |
| OracleTimes.UnsignedTimes | kassee/src/kspt_oracle.rs:222-245 | from a time below 2^63 the comparison lets through exactly the times from it on and below 2^63, and from 0 also 2^63 |
| OracleTimes.UnsignedRun | kassee/src/kspt_oracle.rs:222-245 | over any run from any state the unsigned time never goes back exactly when no time of 2^63 or more is ever left |
| OracleTimes.SafeRun | kassee/src/kspt_oracle.rs:222-245 | a run from a time below 2^63, the genesis time 0 among them, stays ordered and below 2^63 exactly when no journal carries the time 2^63 |
| OracleTimes.RollAccepted | kassee/src/kspt_oracle.rs:180-382 | every price in range and every time the comparison lets through is reached by an accepted roll |
| OracleTimes.UnsignedStep | kassee/src/kspt_oracle.rs:222-245 | a single accepted step never lowers the unsigned time exactly when it starts below 2^63 |
| OracleTimes.TimeGoesBack | kassee/src/kspt_oracle.rs:222-245 | two accepted rolls of one oracle, from time 0 to 2^63 and back to 0: 2^63 reads as a negative zero |
| Oracle.ReadMeans | kassee/src/kspt_oracle.rs:421-451 | the consumer's read finds the oracle by id and leaves exactly its price and time |
| Oracle.ReadNeedsOracle | kassee/src/kspt_oracle.rs:421-451 | with no input of the lineage the read fails |
| Oracle.ReadsTheState | kassee/src/kspt_oracle.rs:421-451 | because the oracle's own input is a valid spend, what is read is the state it was spent from |
| OracleSpend.BuildPublishSigScript | kassee/src/kspt_oracle.rs:365-382 | the wallet's publish script pushes proof fields, journal, selector and redeem in the engine's order, byte by byte |
| OracleSpend.BuildPassthroughSigScript | kassee/src/kspt_oracle.rs:385-391 | a passthrough's script is a zero byte and the push of the redeem script |
| OracleSpend.PublishSpends | kassee/src/kspt_oracle.rs:365-382 | the oracle spent with the wallet's publish script is accepted exactly when the journal and transaction are a roll |
| OracleSpend.PassthroughSpends | kassee/src/kspt_oracle.rs:385-391 | and with the passthrough script exactly when the transaction is a passthrough |
| OracleSpend.BuildHeartbeat | kassee/src/kspt_oracle.rs:74-111 | the builder emits the heartbeat script, 23 bytes given in literals |
| OracleSpend.HeartbeatAccepts | kassee/src/kspt_oracle.rs:38-111 | the heartbeat accepts exactly a keyless self-send of its one tagged output that keeps the value |
| OracleSpend.PushRead | kassee/src/kspt_oracle.rs:421-451 | the bytes appended are the read above, 65 bytes given in literals around the id |
| StateMachine.BuildStateMachine | kassee/src/kspt_state_machine.rs:43-114 | the loop over the roles and the closing ENDIFs emit the machine's script for any number of roles, written out state by state |
| StateMachine.NestedToks | kassee/src/kspt_state_machine.rs:69-111 | openings left to right and ENDIFs at the end are the nested conditionals |
| StateMachine.AmountsDiffer | kassee/src/kspt_state_machine.rs:69-72 | with a positive step no two states share an amount |
| StateMachine.MachineAccepts | kassee/src/kspt_state_machine.rs:43-114 | accepted exactly when the amount encodes a state, its role signed, and, unless it is the last, output 0 is the machine in the next state |
| StateMachine.RolesInOrder | kassee/src/kspt_state_machine.rs:43-114 | every run from the base amount uses the roles in order, one spend each |
| MachineRuns.RunStates | kassee/src/kspt_state_machine.rs:43-114 | every run that stays at the machine's address, of any length, goes state by state, each spend in its own role; only the last role's spend may lead to a state that is not the next |
| MachineRuns.EndsAfterRoles | kassee/src/kspt_state_machine.rs:84-102 | a run has at most one spend per role, unless the last role paid output 0 back to the machine's address at a state's amount |
| MachineRuns.GoesOnExactly | kassee/src/kspt_state_machine.rs:43-114 | output 0 of a spend can be spent as the machine exactly when it is at the machine's address with a state's amount |
| MachineRuns.RunsOn | kassee/src/kspt_state_machine.rs:99-102 | accepted runs of every length: the last role pays the base amount back each time round |
| StateMachine.OnlyStates | kassee/src/kspt_state_machine.rs:43-114 | no other amount is ever accepted at the machine's address |
| ShipEscrow.BuildShipEscrow | kassee/src/kspt_state_machine.rs:165-322 | the builder emits the escrow script of any deal whose amounts fit, written out path by path |
| ShipEscrow.EscrowAccepts | kassee/src/kspt_state_machine.rs:123-322 | accepted exactly on the seven listed paths with their signers, payees, amounts and output counts; the last four only where the two dispatch amounts differ |
| ShipEscrow.EscrowConserves | kassee/src/kspt_state_machine.rs:179-182 | first tranche and remainder make the total, second tranche and fee the remainder, both tranches the price |
| ShipEscrow.TinyPrice | kassee/src/kspt_state_machine.rs:123-322 | below a price of two, and only there, the two dispatch amounts coincide; then every accepted spend is of that amount and is a pickup or a refund |
| ShipEscrow.FirstSpend | kassee/src/kspt_state_machine.rs:123-322 | a first spend that goes on pays the remainder back to output 0 alone, after the pickup |
| ShipEscrow.SecondSpend | kassee/src/kspt_state_machine.rs:123-322 | a second spend never goes on, pays the workers or refunds, and a deliverer paid gets exactly the fee |
| ShipEscrow.AtMostTwoSpends | kassee/src/kspt_state_machine.rs:123-322 | every run from the total ends within two spends |
| Treasury.BuildTreasury | kassee/src/kspt_covenant.rs:781-846 | the builder's loop emits the chain of comparisons for one to four destinations, byte by byte |
| Treasury.ComparesMean | kassee/src/kspt_covenant.rs:809-843 | after each comparison the stack says whether the script matched any so far |
| Treasury.TreasuryAccepts | kassee/src/kspt_covenant.rs:751-846 | for a list of any length: accepted exactly when the owner signed and output 0 goes to a listed script |
| Merkle.NextPowerOfTwo | kassee/src/kspt_merkle.rs:317-321 | the padded leaf count is the least power of two from the leaf count on, by its depth |
| Merkle.PaddedLevel | kassee/src/kspt_merkle.rs:314-321 | the leaf level: each leaf's hash, and 32 zero bytes for every place past the last leaf |
| Merkle.ComputeMerkleRoot | kassee/src/kspt_merkle.rs:309-336 | the level loop computes the root of the padded tree, and the zero hash for no leaves |
| Merkle.GenerateMerkleProof | kassee/src/kspt_merkle.rs:341-379 | the proof loop collects the siblings of the leaf's path with their sides, and nothing for an index out of range |
| Merkle.ProofFolds | kassee/src/kspt_merkle.rs:341-379 | folding a node's proof gives the root, wherever the node is |
| Merkle.MerkleAgrees | kassee/src/kspt_merkle.rs:309-379 | for every leaf the generated proof folds to the computed root, with one step per level |
| Merkle.BuildMerkleWhitelist | kassee/src/kspt_merkle.rs:67-304 | the unrolled loop emits the whitelist script of any depth, byte by byte |
| Merkle.UnrolledToks | kassee/src/kspt_merkle.rs:281-288 | the unrolled levels are the nested ones |
| Merkle.LevelsMean | kassee/src/kspt_merkle.rs:268-288 | the script's levels fold the proof on the stack |
| Merkle.ClaimAccepts | kassee/src/kspt_merkle.rs:85-303 | a claim of the script's depth is accepted exactly when the owner signed, the proof folds the destination's hash to the root, and output 0 is the copy given |
| Merkle.HonestClaim | kassee/src/pskt.rs:3807-3890 | the wallet's claim for a listed destination, with the generated proof against the computed root, is accepted exactly when signed and paid there |
| Scanner.ReadScriptInt | kassee/src/kspt.rs:2803-2809 | the loop reads up to eight little-endian bytes, and always fits a u64 |
| Scanner.ScriptIntInverts | kassee/src/kspt.rs:2803-2809 | it inverts the number push on every u64 |
| Scanner.ExtractCltvLocktime | kassee/src/kspt.rs:2716-2751 | on any well-formed script without the two wide pushes, the byte loop returns what a scan of its opcodes finds |
| Scanner.ExtractCsvSequence | kassee/src/kspt.rs:2756-2800 | likewise for the relative lock |
| Scanner.ScanFinds | kassee/src/kspt.rs:2716-2800 | the scan returns the operand of the first such opcode, whatever bytes the pushes before it hold |
| Scanner.ScanAbsent | kassee/src/kspt.rs:2716-2800 | and 0 when there is no such opcode |
| Scanner.LimitScans | kassee/src/kspt_covenant.rs:269-342 | from every spending-limit script the wallet reads its cooldown, and no lock time |
| Scanner.AllowanceScans | kassee/src/kspt_covenant.rs:386-481 | from every allowance script it reads its cooldown and its start date, 0 where there is none |
| BuilderScans.EscrowScans | kassee/src/kspt_state_machine.rs:165-322 | from every shipping escrow it reads the first deadline, and no cooldown |
| BuilderScans.WhitelistScans | kassee/src/kspt_merkle.rs:67-304 | from every merkle whitelist it reads the owner's lock time |
| BuilderScans.MachineScans | kassee/src/kspt_state_machine.rs:43-114 | from every state machine it reads neither |
| BuilderScans.TreasuryScans | kassee/src/kspt_covenant.rs:781-846 | nor from a treasury with destinations of at most 253 bytes |
| BuilderScans.OracleScans | kassee/src/kspt_oracle.rs:343-361 | nor from the oracle, whatever its price, time and pins |
| BuilderScans.HeartbeatScans | kassee/src/kspt_oracle.rs:74-111 | nor from the heartbeat |
| Regroup.Conv8to5 | kassee/src/address.rs:184-204 | the loop regroups the bytes' bits by five, zero-padded; no index or intermediate value leaves its range |
| Regroup.Conv5to8 | kassee/src/address.rs:207-223 | the loop regroups the symbols' bits by eight, dropping the padding |
| Regroup.SymbolsSpell | kassee/src/address.rs:184-204 | the symbols spell the bytes' bits and then padding zeros |
| Regroup.RegroupRoundTrip | kassee/src/address.rs:184-223 | there and back gives every byte string again |
| Checksum.StepIsWordStep | kassee/src/address.rs:150-171 | a round on numbers is a round on 40-bit words |
| Checksum.PolyIsFold | kassee/src/address.rs:150-171 | so the checksum of any input fits forty bits |
| Checksum.RoundTable | kassee/src/address.rs:150-171 | a round from the zero word gives the symbol, and each bit shifted out gives its generator constant |
| Checksum.StepLinear | kassee/src/address.rs:150-171 | a round is linear over exclusive or |
| Checksum.StepInjective | kassee/src/address.rs:150-171 | only the zero word goes to the zero word |
| Checksum.Polymod | kassee/src/address.rs:150-172 | the loop computes that fold |
| Checksum.ChecksumValue | kassee/src/address.rs:174-181 | the checksum is the fold over prefix, separator, payload and eight zeros, below 2^40 |
| Checksum.ChecksumIsResidue | kassee/src/address.rs:53-80 | the stored checksum is the computed one exactly when payload and checksum together leave no residue |
| Checksum.BurstDetected | kassee/src/address.rs:53-80 | two words of equal residue cannot differ only inside a window of eight symbols, at any length |
| Address.RevOfChar | kassee/src/address.rs:12-23 | the reverse table inverts the character set |
| Networks.Charset | kassee/src/address.rs:12 | the 32 characters, in order |
| Networks.RevIsCharset | kassee/src/address.rs:14-23 | the reverse table has an entry exactly for each character of the set |
| Networks.PrefixesAre | kassee/src/address.rs:35-66 | the four prefixes and the five-bit values of their characters that go into the checksum |
| Networks.OneNetwork | kassee/src/address.rs:35-80 | no data part is accepted, or even passes the checksum, under two of the four networks' prefixes |
| Address.EncodeAddress | kassee/src/address.rs:122-147 | the encoder writes prefix, separator, regrouped payload and checksum |
| Address.DecodeAddress | kassee/src/address.rs:35-93 | the decoder's result on the UTF-8 bytes of any text, errors included |
| Address.AddressRoundTrip | kassee/src/address.rs:35-147 | every version and payload survives, under all four prefixes |
| Address.AddressBurst | kassee/src/address.rs:53-80 | two addresses of one prefix and length that both pass cannot differ only inside eight consecutive data characters |
| Address.DecodedPasses | kassee/src/address.rs:53-86 | the addresses that pass the checksum are exactly those the decoder accepts or finds too short in payload |
| Address.DamageIsRefused | kassee/src/address.rs:35-80 | an accepted address changed in up to eight consecutive data characters is refused, for an invalid character or for its checksum |
| KeyBanks.FindPubkey | core/src/ext.rs:28-40 | the first receive slot that holds the key, else the first change slot, else none because neither does |
| KeyBanks.InBank | core/src/ext.rs:71-131 | a non-zero key is in the filled part of a bank exactly when some index of it derives the key |
| KeyBanks.Banks.ScanFind | core/src/ext.rs:71-131 | the lazy scan ends, keeps the banks honest, only advances the fronts, returns only an index that derives to the target, and with both parents derivable finds one exactly when a full scan of both banks would |
| LockTimes.YearLengths | core/src/timefmt.rs:35-47 | the independent day count adds 366 or 365 days for each year |
| LockTimes.YearIs | core/src/timefmt.rs:35-47 | the divisions find the right year and day of the era |
| LockTimes.CalendarExact | core/src/timefmt.rs:35-47 | every day converts to a valid Gregorian date, and the independent count of that date is the day |
| LockTimes.CalendarComplete | core/src/timefmt.rs:35-47 | every valid date is the conversion of its own day |
| LockTimes.CalendarSteps | core/src/timefmt.rs:35-47 | the next day converts to the next calendar date |
| LockTimes.Epoch | core/src/timefmt.rs:125-134 | day 0 is 1 January 1970 |
| LockTimes.TimestampExact | core/src/timefmt.rs:50-63 | every u64 of milliseconds gives a date whose year fits an i32, a time of day in range, and together the exact second |
| LockTimes.Writer.WriteStr | core/src/timefmt.rs:89-99 | a piece that fits is appended, one that does not is refused whole, and the rest of the buffer is untouched |
| LockTimes.LabelFits | core/src/timefmt.rs:76-111 | every label has at most 38 characters |
| LockTimes.LabelIs | core/src/timefmt.rs:66-111 | every label read back by an independent reader of digits: nothing for 0; below 500,000,000,000 the text and a numeral that says the lock; from there on the year, month, day, hour and minute in their places, with the separators and UTC, for every year |
| LockTimes.LockTimeLabel | core/src/timefmt.rs:89-111 | for every u64 the whole label is written into the 40-byte buffer, nothing is dropped, and the characters written read back as the lock |

## Left out

File system:

- Long file names, directory listing, 8.3 name conversion and display, log calls, progress callbacks and the verify pass's diagnostics: no effect on what the card holds.
- Card capacity probing (`csd_sectors`): the capacity is a parameter of the format; `FormatThenMount` needs it not to exceed the card.
- CreateFile: the all-or-nothing clause asks for a free directory slot, because the original links a new directory cluster before it zeroes it, and a power loss in between leaves a root directory that reads unwritten sectors. The data must satisfy `|data| + cluster size <= 2^32`; beyond that the original's u32 rounding traps.
- EntryStored: asks, through `FsOk`, that every slot after an end mark is an end mark too, as the formatter and the directory growth leave it; a create that overwrites an end mark in front of stale slots would revive them.
- WellFormed: a mount through a partition table shifts the data region but not the recorded sector total. Excluded is a start that pushes the one past the other; a smaller one makes the card's last clusters, as many sectors as the start, lie past `MaxCluster`.
- FsOk: excludes cards mounted that way with a file or the directory in those last clusters.
- MountFat32: an addition that would trap in the original is the error `Trap`, and nothing is claimed after it.
- DoFormat: a card keeps what a successful write gave it, so the read-back at the end can fail only by I/O there; what it finds on any card is the contract of `VerifyAll`.
- AllocateChain: the reservation of the chain's memory may fail at will.

Scripts:

- The engine's semantics are those the opcode table, the builders' comments and their uses give; the engine itself is not part of this model. Hashes, signatures, time locks and the ZK precompile are uninterpreted. Numbers are little-endian with a sign bit and of any length; an engine that also refuses long or non-minimal numbers accepts no more.
- The substring opcode takes a start and an end, as the oracle uses it; the opcode table's comment says offset and length.
- An untagged input reads as the zero hash, as the spending limit's documentation says; no count opcode treats that hash specially.
- Theorems about a script's own address assume that no other script has its hash (`NoCollision`).
- TimeGoesBack: the two rolls are accepted under a hash that tells the oracle's states apart and a precompile that accepts; whether a journal with such a time can be proved is up to the guest program, which is not part of this model.
- OracleRuns: assumes the one tagged output is output 0; the roll checks that output's script and the tag count separately.
- ReadMeans: the time is read as eight bytes; what a consumer does with them is its own.
- BuildStateMachine: needs the base to be at least the number of roles times the step, as the original's subtraction does. The documentation says the amount grows by a step; the code shrinks it, and the model follows the code.
- RolesInOrder: what happens after the last role is `MachineRuns`: the script does not check that role's outputs, so a run ends after one spend per role unless that role itself starts the machine again. `RunsOn` is for scripts below 2^32 bytes, the longest that can be pushed.
- MachineAccepts: asks for a positive step; with a zero step only the first role's state exists.
- BuildTreasury: needs one to four destinations, which the original asserts.
- ClaimAccepts: characterises witnesses of the wallet's layout only; output 0 is compared with a separate item of the witness, so nothing is claimed about who chose it. The documentation's direction bits are inverted against the code; the model follows the code.
- ExtractCltvLocktime: nothing is claimed on scripts with the two wide push opcodes, which the original's loop does not skip.
- The other covenant builders (piggy bank, two-party escrow, recovery, HTLC, bridges) and the other signature-script builders: the same engine and the same kind of proof, with fewer branches.
- Transaction assembly, fees, RPC and JSON.

Address, keys, calendar:

- DecodeAddress: the original ignores payload bytes past the 33rd and any padding bits; so does the model, and it claims no injectivity. A `string` holds one character for each byte of the text.
- AddressRoundTrip: the wrappers that fix the version byte add nothing to it.
- ScanFind: derivation is a parameter; banks hold at most 65,535 slots, the target is not the zero key.
- CalendarExact: the day is an unbounded integer; the original's i64 and i32 hold it for every year that fits an i32.
- LockTimeLabel: characters stand for bytes, all of them ASCII.
