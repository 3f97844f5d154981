# Verified models of the admin backend's core

A Dafny model of the parts of this repository that carry real logic, with proofs
about all inputs, all runs or all interleavings. `dafny verify dfyconfig.toml`
checks the whole project.

* **Mahjong win detection** (`TileSort`, `TileSweep`, `TileMelds`, `WinCheck`,
  `WinRules`). The in-place greedy sweep of `ExistHu` against the existential
  meaning "a pair plus runs and triplets". After 1,1,1 is cleared its slot reads as a
  0, so later 1,2 can be taken as a phantom run 0,1,2. The exact condition for the win
  and big-pair flags is proved for hands of every size: sound for 3n+2 tiles, complete
  with at most three copies of 0x01, and wrong sizes are accepted exactly where phantom
  runs make up the difference.
* **XXTEA** (`Xxtea`). Decryption undoes encryption for every key, on data of at
  most 2^32 - 8 bytes and on no longer data.
* **Timers** (`RingQueue`, `TimerOwed`, `TimerEnds`, `TimerHeap`). The ring buffer is a
  queue; the heap scheduler makes every call that is due, and no other exactly if the
  next deadlines fit 64 bits; when a run without a limit ends is characterized exactly.
* **Decimal ids** (`Numerals`).
* **GridFS** (`GridFs`, `GridRead`). Chunked writing, and prefetching reads and seeks
  over a store that may fail at any call, against a plain cursor over the bytes.
* **Topology sync** (`ClusterSync`, `ServerTables`, `ServerChoice`), **socket pool** (`SocketPool`, `PoolLimit`), **sessions**
  (`Session`). Goroutines are steps under each lock; every invariant holds in every
  interleaving, and objects with the source's fields take these steps in place.
* **YAML** (`YamlReader`, `YamlScanner`, `YamlEvents`, `YamlTree`, `YamlMachine`,
  `YamlNesting`, `YamlParser`, `YamlRender`, `YamlLoad`, `YamlAlias`, `YamlEmitter`, `Utf8`,
  `QuotedScalar`, `QuotedRoundTrip`, `QuotedBytes`). Transcoding, simple keys and
  indentation, the parser and emitter machines against one acceptor of event streams,
  the tree builder, the round trip from trees to tokens and back, alias decoding against
  unfolding, and the round trip of double-quoted scalars on bytes.

## Where the code departs from what one would expect

* `ExistHu` misses 1,1,1,1,2,3 beside 5,5 and accepts 1,1,1,1,2 beside 5,5, which is
  not a hand of 3n+2 tiles (`MissedWin`, `PhantomWin`).
* A failed GridFS chunk fetch advances the chunk counter, so later reads return
  bytes from beyond the offset; a seek to the same place reports success and does not
  help, and one further into the chunk slices past the buffer (`SkippedChunk`,
  `SlicedTooFar`). `InStepExactly` says when a run is right again.
* `Between` compares only as many runes as the start has: from "5" to "10" it returns
  nothing, and it never returns when a longer end has a leading zero and passes the
  comparison (`FiveToTen`, `MeetsExactly`). `IsNumString` refuses the digit 9.
* A periodic timer whose next deadline does not fit 64 bits is due again at once and
  is called more often than owed (`CallsExactly`, `ThreeCalls`). It can even keep a run
  without a limit from ending (`LoopEndsExactly`, `EndlessInput`).
* Acquires that connect at the same time exceed the pool limit, by as many as overlap
  less one (`LimitBound`, `LimitReached`).
* A merge key refuses an alias of a list although it takes the list written out
  (`ListMergeExample`), and an alias of the scalar `<<` is an ordinary key.
* A double-quoted scalar written without indentation can be refused by the scanner
  (`RefusedWithoutMargin`); the emitter always indents by two or more (`EmitAll`).

## Model

| member | source | states |
|---|---|---|
| TileSort.Swap | src/algo/algorithm.go:363-367 | two tiles change places, nothing else moves, and the tiles of any stretch holding both stay the same |
| TileSort.Partition | src/algo/algorithm.go:354-368 | both scans stay inside the stretch without a bound test; afterwards left part <= key <= right part, same tiles, rest untouched |
| TileSort.Sort | src/algo/algorithm.go:352-377 | the stretch becomes sorted, holds the same tiles, and nothing outside it changes; it ends |
| TileSweep.ClearThird | src/algo/algorithm.go:470-488 | finds and clears the first third tile that completes a run or triplet with slots i and j, or shows that there is none |
| TileSweep.ClearFrom | src/algo/algorithm.go:467-491 | one slot of the sweep, going on after the slot is cleared, takes exactly what the reference sweep takes there, phantom runs included |
| TileSweep.ClearMelds | src/algo/algorithm.go:466-499 | the in-place loop nest reports what the reference sweep on the multiset of tiles reports: all cleared or not, run seen or not |
| TileSweep.AllTaken | src/algo/algorithm.go:493-499 | no tile left exactly if every slot is zero |
| TileMelds.TripletFirst | src/algo/algorithm.go:480-484 | exchange step: if a set splits and has three of its smallest tile, it still splits without these three (three equal runs become three triplets) |
| TileMelds.RunForced | src/algo/algorithm.go:472-479 | with fewer than three of the smallest tile a run must start there, and the rest splits |
| TileMelds.SweepDecides | src/algo/algorithm.go:466-499 | where no phantom run can arise, the greedy sweep clears exactly the sets that split into runs and triplets |
| TileMelds.PhantomsBack | src/algo/algorithm.go:467-491 | if what is left after 1,1,1 and its phantom runs splits, so did the whole, and the 1s come in threes |
| TileMelds.SweepClears | src/algo/algorithm.go:466-499 | for every number of tiles: cleared if and only if the tiles split or, with four or more 1s, what 1,1,1 and the phantom runs leave splits |
| TileMelds.SweepExact | src/algo/algorithm.go:466-499 | for every number of tiles divisible by three: cleared if and only if the tiles split and are safe (fewer than four 1s, or 1s and phantom runs in threes) |
| TileMelds.PhantomExact | src/algo/algorithm.go:467-491 | a number of tiles not divisible by three never splits, and is cleared if and only if there are four or more 1s and a 2, the number of phantom runs is no multiple of three, and the rest splits |
| TileMelds.NoRunMeansTriplets | src/algo/algorithm.go:472-499 | a sweep that clears everything without seeing a run has taken triplets only |
| WinCheck.ExistFour | src/algo/algorithm.go:380-394 | true exactly if some tile occurs four times |
| WinCheck.TryPair | src/algo/algorithm.go:461-499 | one pair choice: the copy without the pair is swept, and the hand itself stays |
| WinCheck.PlainHu | src/algo/algorithm.go:457-515 | the flags of the 3n+2 part over all pair choices, with the run flag never reset |
| WinCheck.SevenPairs | src/algo/algorithm.go:429-436 | true exactly if neighbours pair up at every even place |
| WinCheck.PairedMeansEven | src/algo/algorithm.go:429-436 | on a sorted hand this is the same as every tile having an even number of copies |
| WinCheck.ScanMeaning | src/algo/algorithm.go:457-515 | the flags carried through the pair choices, said about the choices: some choice cleared; cleared while no choice up to it had seen a run |
| WinCheck.ExistHu | src/algo/algorithm.go:413-516 | the result is a function of the multiset of tiles alone, and the tiles are only rearranged |
| WinRules.PairExact | src/algo/algorithm.go:461-502 | for every hand of any size: a pair choice clears the table if and only if the tiles beside it are clearable |
| WinRules.WinFlagExact | src/algo/algorithm.go:413-516 | for every hand of any size: HU if and only if seven pairs, or some pair beside which the tiles are clearable |
| WinRules.RightSizeExact | src/algo/algorithm.go:413-516 | for every hand of 3n+2 tiles: HU if and only if seven pairs, or some winning pair beside which the tiles are safe |
| WinRules.WrongSizeExact | src/algo/algorithm.go:413-516 | no hand of another size wins, and HU is set on it if and only if beside some pair there are four or more 1s and a 2, a number of phantom runs that is no multiple of three, and a rest that splits |
| WinRules.PlainWinIsReal | src/algo/algorithm.go:457-516 | soundness for every number of copies: PING_HU on a 3n+2 hand means the hand is a pair plus runs and triplets |
| WinRules.NoWinMissed | src/algo/algorithm.go:413-516 | completeness: with at most three copies of 0x01, HU if and only if seven pairs or a real win |
| WinRules.FourOnes | src/algo/algorithm.go:466-499 | with four copies of 0x01, HU if and only if seven pairs or the pair can be made of 0x01 |
| WinRules.MissedWin | src/algo/algorithm.go:467-491 | a winning hand that is not recognized: 1,1,1,1,2,3 beside 5,5 |
| WinRules.PhantomWin | src/algo/algorithm.go:467-491 | a hand of the wrong size that is called a win: 1,1,1,1,2 beside 5,5 |
| WinRules.BigPairIsReal | src/algo/algorithm.go:500-508 | HU_BIG_PAIR means a pair and triplets only, for a hand of any size |
| WinRules.BigPairExact | src/algo/algorithm.go:457-508 | for every hand of any size: HU_BIG_PAIR if and only if it is not seven pairs and is a pair with triplets such that no pair choice up to the pair makes the sweep see a run (no phantom run, no run above a lower triplet or above the pair) |
| WinRules.SevenPairExact | src/algo/algorithm.go:429-455 | HU_SEVEN_PAIR if and only if 14 tiles with even multiplicities; LONG if and only if moreover one reaches four |
| WinRules.FanOfHand | src/constan/constan.go:60-79 | the fan value of every hand and colour in terms of its tiles: 10, 20 or 30 for seven pairs, and the values of all other hands |
| Xxtea.StepUndone | src/basic/utils/xxtea.go:41-43 | one encryption step and its counterpart undo each other for two words or more |
| Xxtea.RoundUndone | src/basic/utils/xxtea.go:65-72 | a whole round of steps in order is undone by the steps in reverse order |
| Xxtea.RoundsUndone | src/basic/utils/xxtea.go:62-95 | any number of rounds is undone by as many rounds back |
| Xxtea.SumNotZero | src/basic/utils/xxtea.go:85 | the running sum is not zero before the last round has been undone, because delta is odd |
| Xxtea.EncryptRound | src/basic/utils/xxtea.go:64-72 | the loop over the ring with moving neighbours is the round of steps |
| Xxtea.DecryptRound | src/basic/utils/xxtea.go:86-94 | the loop backwards over the ring is the reversed round |
| Xxtea.EncryptWords | src/basic/utils/xxtea.go:54-75 | in place, 6 + 52/n rounds with the padded key |
| Xxtea.DecryptWords | src/basic/utils/xxtea.go:77-97 | the loop that stops at a zero sum runs exactly as many rounds as encryption did |
| Xxtea.BytesOfWords | src/basic/utils/xxtea.go:5-39 | unpacking packed bytes gives the bytes back |
| Xxtea.WordsOfBytes | src/basic/utils/xxtea.go:5-39 | packing unpacked words gives the words back |
| Xxtea.ToUint32s | src/basic/utils/xxtea.go:23-39 | packs bytes into little-endian words, with the length word if asked, 32-bit wrap included |
| Xxtea.ToBytes | src/basic/utils/xxtea.go:5-21 | unpacks words; a length word that does not fit the word count gives no result |
| Xxtea.Encrypt | src/basic/utils/xxtea.go:102-107 | computes the encryption function; empty data comes back as it is |
| Xxtea.Decrypt | src/basic/utils/xxtea.go:112-117 | computes the decryption function; empty data comes back as it is |
| Xxtea.RoundTrip | src/basic/utils/xxtea.go:102-117 | decrypting what was encrypted with the same key gives the data back, for every key of any length |
| Xxtea.TooLong | src/basic/utils/xxtea.go:24-32 | beyond 2^32 - 8 bytes the word count wraps and the data does not come back |
| Xxtea.RoundTripExact | src/basic/utils/xxtea.go:102-117 | the round trip succeeds if and only if the data has at most 2^32 - 8 bytes |
| GridFs.CountIsCeiling | src/gopkg.in/mgo.v2/gridfs.go:501-542 | the number of chunks is the length over the chunk size, rounded up |
| GridFs.ChunkSizes | src/gopkg.in/mgo.v2/gridfs.go:568-613 | of the stored chunks all but the last are full and none is empty |
| GridFs.ConcatIsContent | src/gopkg.in/mgo.v2/gridfs.go:568-613 | the first n chunks laid end to end are the content up to chunk n |
| GridFs.AllChunks | src/gopkg.in/mgo.v2/gridfs.go:501-613 | all chunks laid end to end are the bytes written |
| GridFs.GridWriter.InsertChunk | src/gopkg.in/mgo.v2/gridfs.go:615-651 | numbers and sends a chunk; the wait for a megabyte in flight loses nothing |
| GridFs.GridWriter.Write | src/gopkg.in/mgo.v2/gridfs.go:568-613 | all bytes are accepted, whole chunks are sent in order and the incomplete rest is kept, or nothing is accepted after an error |
| GridFs.GridWriter.Abort | src/gopkg.in/mgo.v2/gridfs.go:550-555 | marks the file as failed |
| GridFs.GridWriter.Close | src/gopkg.in/mgo.v2/gridfs.go:501-517 | a document exists only if every chunk is stored and they make up the bytes written; otherwise the chunks are removed |
| GridFs.GridWriter.CompleteWrite | src/gopkg.in/mgo.v2/gridfs.go:519-542 | no insert is pending when the document is created, and it records the exact length and chunk size |
| GridRead.GridReader.constructor | src/gopkg.in/mgo.v2/gridfs.go:193-208 | a reader starts at the beginning, in step, with nothing failed so far |
| GridRead.GridReader.GetChunk | src/gopkg.in/mgo.v2/gridfs.go:727-761 | fails if and only if the cache remembers a failure for the chunk or the store has no answer for it; otherwise the chunk comes back, from the cache or not, and the next one is fetched ahead |
| GridRead.GridReader.Read | src/gopkg.in/mgo.v2/gridfs.go:705-725 | in every state: end of file exactly at the end; success if and only if every chunk needed is answered for, and then the content at the buffer, as long as wanted or to the end; otherwise the content up to the first chunk lost, which is skipped |
| GridRead.GridReader.ReadAfterFailure | src/gopkg.in/mgo.v2/gridfs.go:713-722 | a read fails if and only if a chunk it needs is not answered for, and then the next read returns bytes from the chunk after the lost one, beyond the offset |
| GridRead.SkippedChunk | src/gopkg.in/mgo.v2/gridfs.go:683-722 | in every file of more than one chunk: a read that misses chunk 0, a seek to 0 that reports success, and a read that returns the first byte of chunk 1 at offset 0 |
| GridRead.TwoBytes | src/gopkg.in/mgo.v2/gridfs.go:713-722 | the same with content 1,2 in chunks of one byte: the second read returns 2 |
| GridRead.SlicedTooFar | src/gopkg.in/mgo.v2/gridfs.go:683-687 | after a read that misses chunk 0, a seek within chunk 0 slices past the buffer |
| GridRead.GridReader.Seek | src/gopkg.in/mgo.v2/gridfs.go:658-696 | in every state and for every target: refused past the end, set at the end, moved with the buffer within it (the gap to the offset is kept, or the slice panics), loaded afresh otherwise, with a panic for targets in the chunk before the start and an error for those before it; in step afterwards exactly if at the end, or in step before, or loaded afresh |
| GridRead.GridReader.PlayOne | src/gopkg.in/mgo.v2/gridfs.go:658-761 | one call: in step it is a step of a plain cursor or it fails; out of step only a restoring seek brings buffer and offset together |
| GridRead.GridReader.PlayAny | src/gopkg.in/mgo.v2/gridfs.go:658-761 | any run, with any chunks unavailable at any call, consists of such steps |
| GridRead.StretchIsCursor | src/gopkg.in/mgo.v2/gridfs.go:658-761 | in any run a stretch that starts in step and has no failing call gives what a plain cursor gives from there |
| GridRead.InStepExactly | src/gopkg.in/mgo.v2/gridfs.go:658-761 | a run is in step before a call if and only if nothing has failed yet or nothing has failed since a restoring seek |
| GridRead.GridReader.Play | src/gopkg.in/mgo.v2/gridfs.go:658-761 | over a store that answers any mix of reads and seeks gives what a plain cursor over the bytes gives |
| GridFs.GridWriter.Report | src/gopkg.in/mgo.v2/gridfs.go:639-651 | inserts that land or report back between two calls, in any order and with any result, keep what is stored right |
| GridRead.WriteThenRead | src/gopkg.in/mgo.v2/gridfs.go:501-761 | a file written in any pieces, with inserts landing, reporting and failing in any way during and between the writes: if its document was created, a reader on what is stored gives what a plain cursor over the pieces gives |
| YamlEvents.NodeAccepted | src/gopkg.in/yaml.v2/decode.go:105-184 | the events of every well-formed node are accepted as one node |
| YamlEvents.StreamAccepted | src/gopkg.in/yaml.v2/parserc.go:93-172 | every well-nested stream is accepted to its end |
| YamlTree.ParseNode | src/gopkg.in/yaml.v2/decode.go:105-125 | the tree builder on any event sequence: a node, an unexpected event, or too few events |
| YamlTree.ParseSequence | src/gopkg.in/yaml.v2/decode.go:164-173 | the loop collects the items up to the end event |
| YamlTree.ParseMapping | src/gopkg.in/yaml.v2/decode.go:175-184 | the loop collects keys and values in pairs up to the end event |
| YamlTree.BuildUndoesFlatten | src/gopkg.in/yaml.v2/decode.go:105-184 | building a node from its own events gives the node |
| YamlTree.NodeFollows | src/gopkg.in/yaml.v2/decode.go:105-184 | on accepted events the builder never meets an unexpected event and takes exactly the events of the node |
| YamlTree.DocumentFollows | src/gopkg.in/yaml.v2/decode.go:134-145 | the same for a document and the end event the builder insists on |
| YamlTree.AcceptedIsStream | src/gopkg.in/yaml.v2/parserc.go:93-1006 | accepted to the end if and only if flattened from node trees with even mappings |
| YamlTree.PrefixOfStream | src/gopkg.in/yaml.v2/parserc.go:93-1006 | accepted so far if and only if a prefix of a well-nested stream |
| YamlParser.Parser.Peek | src/gopkg.in/yaml.v2/parserc.go:46-51 | the token at the head, or an error when the scanner has none |
| YamlParser.Parser.Skip | src/gopkg.in/yaml.v2/parserc.go:54-59 | steps over the head and notes the end of the stream |
| YamlParser.Parser.StreamStartProduction | src/gopkg.in/yaml.v2/parserc.go:175-191 | STREAM-START first, or an error |
| YamlParser.Parser.DocumentStartProduction | src/gopkg.in/yaml.v2/parserc.go:199-279 | an implicit or explicit document, or the end of the stream, chosen by the next token as the machine says; the event never says that a document is implicit |
| YamlParser.Parser.DocumentContent | src/gopkg.in/yaml.v2/parserc.go:283-298 | an empty scalar where the document has no root, a node otherwise |
| YamlParser.Parser.DocumentEndProduction | src/gopkg.in/yaml.v2/parserc.go:306-338 | DOCUMENT-END, implicit exactly if no end indicator stands there; the tags are forgotten |
| YamlParser.Parser.ParseNode | src/gopkg.in/yaml.v2/parserc.go:360-574 | a node in any position: the event and the next state that its properties and first token call for, or an error |
| YamlParser.Parser.BlockSequenceEntry | src/gopkg.in/yaml.v2/parserc.go:580-628 | an entry or the end of a block sequence; the mark stack is popped with the collection |
| YamlParser.Parser.IndentlessSequenceEntry | src/gopkg.in/yaml.v2/parserc.go:632-661 | an entry or the end of an indentless sequence |
| YamlParser.Parser.BlockMappingKey | src/gopkg.in/yaml.v2/parserc.go:676-724 | a key or the end of a block mapping, an empty key where none stands |
| YamlParser.Parser.BlockMappingValue | src/gopkg.in/yaml.v2/parserc.go:734-758 | a value, or an empty one |
| YamlParser.Parser.FlowSequenceEntry | src/gopkg.in/yaml.v2/parserc.go:771-828 | an item, a single pair, or the end of a flow sequence |
| YamlParser.Parser.FlowSequenceEntryMappingKey | src/gopkg.in/yaml.v2/parserc.go:834-850 | the key of a single pair |
| YamlParser.Parser.FlowSequenceEntryMappingValue | src/gopkg.in/yaml.v2/parserc.go:855-875 | the value of a single pair |
| YamlParser.Parser.FlowSequenceEntryMappingEnd | src/gopkg.in/yaml.v2/parserc.go:879-888 | the end of a single pair |
| YamlParser.Parser.FlowMappingKey | src/gopkg.in/yaml.v2/parserc.go:905-967 | a key or the end of a flow mapping |
| YamlParser.Parser.FlowMappingValue | src/gopkg.in/yaml.v2/parserc.go:971-993 | a value of a flow mapping, or an empty one |
| YamlParser.Parser.ProcessDirectives | src/gopkg.in/yaml.v2/parserc.go:1014-1073 | all directives that stand there are taken and their tags registered, the defaults after them; refused if and only if a second version, a version other than 1.1 or a handle registered before comes first, or the tokens end |
| YamlParser.Parser.AppendTagDirective | src/gopkg.in/yaml.v2/parserc.go:1076-1096 | registers the directive if its handle is new; otherwise nothing changes, and it is refused if and only if it is not a default |
| YamlParser.Parser.Parse | src/gopkg.in/yaml.v2/parserc.go:62-73 | one call: the event of the machine, accepted where the parser stood, with fewer to come; the state and mark stacks are never popped when empty |
| YamlParser.Parser.ParseAll | src/gopkg.in/yaml.v2/parserc.go:62-172 | for every token stream: the events are a prefix of a well-nested stream, a whole one unless an error stopped it, and at most eight per token, so parsing ends; they are the events of the machine up to where it stops |
| YamlLoad.NeverCrashes | src/gopkg.in/yaml.v2/decode.go:59-184 | on the events of any parse the builder does not panic, and a tree it returns flattens to the events read, one more of which was asked for |
| YamlNesting.EventKeeps | src/gopkg.in/yaml.v2/parserc.go:93-172 | every event of the machine is accepted where it stood, leads to a place its state and stack stand for, and leaves fewer to come |
| YamlMachine.OneRun | src/gopkg.in/yaml.v2/parserc.go:62-172 | over the same tokens there is one run: events that cannot be continued are all there are |
| YamlRender.NodeParses | src/gopkg.in/yaml.v2/parserc.go:360-993 | the tokens of a node in block or flow form give exactly its events, and the machine comes back behind them |
| YamlRender.ChildBegins | src/gopkg.in/yaml.v2/parserc.go:580-993 | before each child of a collection of any form the machine goes on to parse a node |
| YamlRender.DocumentParses | src/gopkg.in/yaml.v2/parserc.go:199-338 | the tokens of a document, with another or the end after them, give exactly its events |
| YamlRender.StreamParses | src/gopkg.in/yaml.v2/parserc.go:62-993 | the tokens of any stream of documents give exactly its events, to the end and without error |
| YamlRender.OnlyParse | src/gopkg.in/yaml.v2/parserc.go:62-993 | whatever run of the parser is taken to its end over these tokens, it is that one |
| YamlLoad.Load | src/gopkg.in/yaml.v2/decode.go:40-145 | parser and builder together, for every token stream: no panic, the events a prefix of a well-nested stream and those of the machine |
| YamlLoad.LoadRendered | src/gopkg.in/yaml.v2/decode.go:40-145 | round trip: the tokens that spell out a stream of documents load as its first document, with exactly the events of the stream |
| Utf8.DecodeUndoesEncode | src/gopkg.in/yaml.v2/scannerc.go:2447-2462 | the writer's decoding inverts the scanner's encoding for every code point |
| Utf8.ByteTests | src/gopkg.in/yaml.v2/yamlprivateh.go:61-173 | the byte-level character tests decide the classes of code points |
| QuotedScalar.Emitter.WriteIndent | src/gopkg.in/yaml.v2/emitterc.go:1201-1219 | breaks the line unless it holds only indentation up to the margin, then goes to the margin, from any position |
| QuotedScalar.Emitter.WriteIndicator | src/gopkg.in/yaml.v2/emitterc.go:1221-1234 | writes the indicator, after a space where one is needed |
| QuotedScalar.Emitter.WriteEscape | src/gopkg.in/yaml.v2/emitterc.go:1460-1519 | writes the escape of a character, the short form where there is one |
| QuotedScalar.Emitter.WriteFold | src/gopkg.in/yaml.v2/emitterc.go:1521-1530 | a line break for a space, with a protecting backslash before a space that would start the line |
| QuotedScalar.Emitter.WriteDoubleQuoted | src/gopkg.in/yaml.v2/emitterc.go:1429-1548 | for the UTF-8 bytes of any value: what is written is, in UTF-8, the quoted form of the value in the given style |
| QuotedBytes.ScanRun | src/gopkg.in/yaml.v2/scannerc.go:2339-2475 | on the UTF-8 bytes of any text: the run of non-blank characters, escapes and escaped line breaks decoded, agrees with the scanning function |
| QuotedBytes.ScanBlanks | src/gopkg.in/yaml.v2/scannerc.go:2493-2541 | on bytes: blanks and breaks between two runs, agreeing with the scanning function |
| QuotedBytes.ScanDoubleQuoted | src/gopkg.in/yaml.v2/scannerc.go:2304-2557 | on the UTF-8 bytes of any text: the value read and where it ends are those of the scanning function, errors included |
| QuotedRoundTrip.EscapeBack | src/gopkg.in/yaml.v2/scannerc.go:2363-2469 | every escape the writer produces is read back as the character |
| QuotedRoundTrip.MarkerSeen | src/gopkg.in/yaml.v2/scannerc.go:2312-2328 | at the start of a line without margin, a document marker is seen exactly where the value has a marker word |
| QuotedRoundTrip.RoundTripExact | src/gopkg.in/yaml.v2/emitterc.go:1429-1548 | for every value, width and style: scanning gives the value back if and only if no fold puts a marker word at the start of a line |
| QuotedRoundTrip.RoundTrip | src/gopkg.in/yaml.v2/emitterc.go:1429-1548 | with a positive indentation, which the emitter always has, every value survives at any line width |
| QuotedRoundTrip.RefusedWithoutMargin | src/gopkg.in/yaml.v2/scannerc.go:2312-2328 | without indentation there is a value whose own text the scanner refuses |
| QuotedScalar.EscapeTests | src/gopkg.in/yaml.v2/emitterc.go:1436-1438 | the byte tests decide which characters are escaped |
| QuotedBytes.MarkerTest | src/gopkg.in/yaml.v2/scannerc.go:2316-2323 | the byte test decides where a document marker stands |
| QuotedBytes.ReadEscape | src/gopkg.in/yaml.v2/scannerc.go:2364-2463 | an escape is read from the bytes exactly where there is one, with its character and its length |
| QuotedBytes.WriteThenScan | src/gopkg.in/yaml.v2/emitterc.go:1429-1548 | writing and then scanning, on bytes: every UTF-8 value comes back byte for byte |
| QuotedBytes.EmitThenScan | src/gopkg.in/yaml.v2/emitterc.go:683-704 | the same with the indentation that the emitter has wherever the scalar stands |
| ClusterSync.TaskConserves | src/gopkg.in/mgo.v2/cluster.go:490-541 | what a goroutine lets go of must turn up elsewhere for the claims on an address to be conserved |
| ClusterSync.ClaimConserves | src/gopkg.in/mgo.v2/cluster.go:500-515 | the claim section passes a claim on to the promotion or takes the first one |
| ClusterSync.Conserves | src/gopkg.in/mgo.v2/cluster.go:477-576 | every section of every goroutine conserves: one claim on a seen address, none on another |
| ClusterSync.OnlyHolder | src/gopkg.in/mgo.v2/cluster.go:500-541 | who holds a claim is alone: nothing put aside, added, failed or swept for the address |
| ClusterSync.AddKeeps | src/gopkg.in/mgo.v2/cluster.go:256-291 | adding a server that is the one at its address does not panic, keeps masters exact, and a partial sync adds no unknown server |
| ClusterSync.DropKeeps | src/gopkg.in/mgo.v2/cluster.go:119-129 | removal keeps masters exact |
| ClusterSync.KeepsFits | src/gopkg.in/mgo.v2/cluster.go:517-535 | nobody ever has another object in hand than the one standing at its address |
| ClusterSync.ClaimReports | src/gopkg.in/mgo.v2/cluster.go:500-515 | a report by a master of an address put aside, seen or new leaves no reported address aside |
| ClusterSync.DecideReports | src/gopkg.in/mgo.v2/cluster.go:524-534 | a server is put aside only if no master has reported its address |
| ClusterSync.FindContacts | src/gopkg.in/mgo.v2/cluster.go:517-518 | only the claimant contacts a server, once |
| ClusterSync.SafeThroughout | src/gopkg.in/mgo.v2/cluster.go:256-291 | in every interleaving at every moment: the duplicate-server panic has not happened, masters is exactly the servers whose info says master, each address contacted and added at most once |
| ClusterSync.ReportedIsAdded | src/gopkg.in/mgo.v2/cluster.go:487-560 | at the end every seen address has exactly one outcome, and a server that a master reported and that answered was added exactly once and not swept |
| ClusterSync.StepSpends | src/gopkg.in/mgo.v2/cluster.go:487-560 | every step of the iteration spends some of a finite potential; removals from outside spend none |
| ClusterSync.IterationTerminates | src/gopkg.in/mgo.v2/cluster.go:487-560 | under every interleaving the iteration takes at most (3h+5)|A| + 3|K| steps for addresses A, known addresses K and at most h hosts per answer |
| ClusterSync.NeverStuck | src/gopkg.in/mgo.v2/cluster.go:487-560 | until it is over some step of the iteration can be taken |
| ServerTables.Servers.Find | src/gopkg.in/mgo.v2/server.go:354-360 | halving finds the first place not before the address, and says whether it holds the address |
| ServerTables.Servers.Add | src/gopkg.in/mgo.v2/server.go:373-376 | the server joins the list, which is in order again |
| ServerTables.Servers.Remove | src/gopkg.in/mgo.v2/server.go:378-388 | exactly one server with the address leaves, if there is one |
| ServerTables.Tables.AddServer | src/gopkg.in/mgo.v2/cluster.go:256-291 | on the sorted lists, in place: exactly the addition step of the synchronization model, panic included |
| ServerTables.Tables.RemoveServer | src/gopkg.in/mgo.v2/cluster.go:119-129 | on the sorted lists, in place: exactly the removal step of the model |
| ServerChoice.BestFit | src/gopkg.in/mgo.v2/server.go:416-456 | nothing exactly if no server passes the tags; otherwise one that passes, of the kind the mode prefers if there is one, which no later server would replace; Secondary mode ends at a plain master if and only if that is the first server that passes and every later one is a master too and, if a mongos, no better |
| RingQueue.Queue.Push | src/basic/utils/queue.go:12-19 | appends to the queue, whatever the cursors |
| RingQueue.Queue.Pop | src/basic/utils/queue.go:21-30 | takes the oldest element, or nothing from an empty queue |
| RingQueue.Queue.Expand | src/basic/utils/queue.go:32-57 | growth keeps the queue and makes room |
| RingQueue.Queue.Len | src/basic/utils/queue.go:8-10 | the number of queued elements |
| RingQueue.PushItems | src/basic/utils/queue.go:16-18 | writing at the push cursor adds one value at the back of the ring |
| RingQueue.PopItems | src/basic/utils/queue.go:25-28 | the pop cursor stands at the oldest value, and moving it drops that one |
| RingQueue.GrowItems | src/basic/utils/queue.go:42-52 | a full ring laid out in a longer one, wrapped part moved to the end, holds the same queue |
| TimerHeap.DownStep | src/basic/utils/timer_queue.go:25-33 | exchanging with the earlier child moves the disorder one level down |
| TimerHeap.UpStep | src/basic/utils/timer_queue.go:25-33 | exchanging with the later parent moves the disorder one level up |
| TimerHeap.RootIsLeast | src/basic/utils/timer_queue.go:91 | the root of the heap is due first |
| TimerHeap.TimerManager.Swap | src/basic/utils/timer_queue.go:29-33 | two timers change places and their index fields follow |
| TimerHeap.TimerManager.Down | src/basic/utils/timer_queue.go:81-93 | sifting down keeps the alarms and the index fields and repairs the heap, or says that nothing moved |
| TimerHeap.TimerManager.Up | src/basic/utils/timer_queue.go:74-97 | sifting up repairs the heap and keeps alarms and indices |
| TimerHeap.TimerManager.HeapPush | src/basic/utils/timer_queue.go:35-43 | one more alarm, every index its position, capacity not exceeded |
| TimerHeap.TimerManager.HeapPop | src/basic/utils/timer_queue.go:45-53 | the alarm due first leaves, with index -1 |
| TimerHeap.TimerManager.HeapRemove | src/basic/utils/timer_queue.go:78-85 | exactly the alarm at the position leaves |
| TimerHeap.TimerManager.AddTimer | src/basic/utils/timer_queue.go:67-76 | refused with 0 when full, otherwise added under the next 32-bit id |
| TimerHeap.TimerManager.RemoveTimer | src/basic/utils/timer_queue.go:78-85 | one timer with the id leaves if there is one, and nothing else changes |
| TimerHeap.TimerManager.FireFirst | src/basic/utils/timer_queue.go:93-98 | the timer due first fires and, if periodic, goes back with its next deadline |
| TimerHeap.TimerManager.FireDue | src/basic/utils/timer_queue.go:89-105 | terminates, with a limit on any alarms and without one wherever the loop can end at all; each firing takes the alarm due first, until nothing is due or the limit is reached; if nothing is due, every owed call was made and no other if and only if every next deadline fits; then also in deadline order |
| TimerHeap.TimerManager.Run | src/basic/utils/timer_queue.go:89-110 | the callbacks are made in that order through the ring buffer, which is empty again afterwards, with the same guarantees |
| TimerOwed.FirePays | src/basic/utils/timer_queue.go:92-98 | firing the first alarm pays one effect of what is owed |
| TimerOwed.CallCount | src/basic/utils/timer_queue.go:92-98 | a due one-shot is owed one call, a periodic alarm floor((now - end) / interval) + 1, one at each of its deadlines, and it stays for the next |
| TimerOwed.PeriodicCount | src/basic/utils/timer_queue.go:95-97 | one call at each of the deadlines passed, the alarm that stays, and when its next deadline fits 64 bits |
| TimerOwed.EffectsExact | src/basic/utils/timer_queue.go:92-98 | an alarm is owed a call at a time if and only if that is one of its deadlines that have passed, and then one |
| TimerOwed.OwnCalls | src/basic/utils/timer_queue.go:89-105 | in a run that leaves nothing due an alarm with an id of its own is called once at each of its deadlines that have passed and not otherwise |
| TimerOwed.RunSettles | src/basic/utils/timer_queue.go:89-105 | a run that leaves nothing due has made exactly the owed calls and kept exactly the owed alarms |
| TimerOwed.ChainDebt | src/basic/utils/timer_queue.go:89-105 | any run: what was owed and what wrapped alarms owe besides is what is left to pay, what fired, and the places lost |
| TimerOwed.CallsExactly | src/basic/utils/timer_queue.go:89-105 | a run that leaves nothing due makes every owed call, and no other if and only if every next deadline fits 64 bits |
| TimerHeap.ThreeCalls | src/basic/utils/timer_queue.go:89-110 | an alarm at time 1 with the longest interval, run without a limit: one call is owed and three are made |
| TimerEnds.ChainSpends | src/basic/utils/timer_queue.go:89-105 | every firing uses up one of the calls there are in all, whichever of the alarms due first is taken |
| TimerEnds.EndsExactly | src/basic/utils/timer_queue.go:95-97 | a 64-bit alarm gets past a time after some number of firings if and only if the latest deadline that differs from its own by a multiple of the largest power of two in its interval is after that time |
| TimerEnds.LoopEndsExactly | src/basic/utils/timer_queue.go:89-105 | the loop without a limit can come to an end if and only if every pending alarm meets that condition |
| TimerEnds.GoesOn | src/basic/utils/timer_queue.go:89-105 | if one does not meet it the loop always goes on |
| TimerEnds.EndlessInput | src/basic/utils/timer_queue.go:89-105 | any periodic alarm at the last 64-bit moment is such an input |
| TimerEnds.FineEnds | src/basic/utils/timer_queue.go:95-97 | where every next deadline fits 64 bits the loop ends |
| SocketPool.InitialKeeps | src/gopkg.in/mgo.v2/socket.go:219-236 | a socket popped from the unused list has no references |
| SocketPool.ReleaseKeeps | src/gopkg.in/mgo.v2/socket.go:257-276 | the last release moves the socket from use to recycling, and a dead one nowhere |
| SocketPool.RecycleKeeps | src/gopkg.in/mgo.v2/server.go:208-214 | recycling puts the socket into the unused list once, or drops it after close |
| SocketPool.AbendKeeps | src/gopkg.in/mgo.v2/server.go:231-246 | only a dead socket is taken off the lists |
| SocketPool.KeepsTokens | src/gopkg.in/mgo.v2/server.go:104-246 | every section keeps a socket in one place at most, and while the server is open a working one in exactly one |
| SocketPool.KeepsRefs | src/gopkg.in/mgo.v2/socket.go:219-276 | references stay equal to the outstanding holders |
| SocketPool.KeepsClosers | src/gopkg.in/mgo.v2/server.go:127-147 | a working socket always has exactly one party that would close it |
| SocketPool.ServerObject.TakeUnused | src/gopkg.in/mgo.v2/server.go:106-124 | the first section of AcquireSocket in place: refused exactly after close or at the limit, else the take step or no unused socket |
| SocketPool.ServerObject.ListSocket | src/gopkg.in/mgo.v2/server.go:130-142 | the section after connecting, in place |
| SocketPool.ServerObject.RecycleSocket | src/gopkg.in/mgo.v2/server.go:208-214 | the recycle step in place |
| SocketPool.ServerObject.RemoveSocket | src/gopkg.in/mgo.v2/server.go:216-227 | the first occurrence leaves the list, the rest keeps its order |
| SocketPool.ServerObject.AbendSocket | src/gopkg.in/mgo.v2/server.go:231-240 | the abend step in place |
| SocketPool.ServerObject.Close | src/gopkg.in/mgo.v2/server.go:189-196 | the close step in place; the live sockets are handed on to be closed |
| SocketPool.SocketObject.InitialAcquire | src/gopkg.in/mgo.v2/socket.go:219-236 | the initial acquire step in place: panic, dead, or the first reference |
| SocketPool.SocketObject.Acquire | src/gopkg.in/mgo.v2/socket.go:241-253 | one more reference in place |
| SocketPool.SocketObject.Release | src/gopkg.in/mgo.v2/socket.go:257-276 | one reference less in place; recycled exactly as the model says |
| SocketPool.SocketObject.Kill | src/gopkg.in/mgo.v2/socket.go:319-343 | the kill step in place; the server is told exactly as the model says |
| SocketPool.PoolIsSafe | src/gopkg.in/mgo.v2/socket.go:219-276 | in every interleaving: no reference panic, a socket at most once in the unused list and only without references |
| SocketPool.NothingLost | src/gopkg.in/mgo.v2/server.go:104-147 | while the server is open every working socket is held, idle in the list, or on its way in or out |
| SocketPool.CloseReachesAll | src/gopkg.in/mgo.v2/server.go:189-205 | once a closed server's closers are done every socket is dead and none can be taken |
| PoolLimit.LimitBound | src/gopkg.in/mgo.v2/server.go:104-147 | in every interleaving: the listed sockets with those to be listed, and while the server is open the working sockets in use, are at most the limit less one plus the most acquires there have been between their two sections |
| PoolLimit.LimitReached | src/gopkg.in/mgo.v2/server.go:104-147 | for every limit and every number of overlapping acquires an interleaving reaches that bound |
| Session.Session.constructor | src/gopkg.in/mgo.v2/session.go:524-537 | a new session has no reservation and accepts slaves unless Strong |
| Session.Session.Clone | src/gopkg.in/mgo.v2/session.go:539-561 | the clone shares the reserved sockets and counts its own references |
| Session.Session.AcquireSocket | src/gopkg.in/mgo.v2/session.go:4405-4466 | hands out the reserved socket its mode prefers, or a new one, and reserves it as the mode asks |
| Session.Session.SetSocket | src/gopkg.in/mgo.v2/session.go:4469-4482 | reserves a socket on its side, or panics over a reservation |
| Session.Session.UnsetSocket | src/gopkg.in/mgo.v2/session.go:4485-4494 | both reservations and their references are given back |
| Session.Session.SetMode | src/gopkg.in/mgo.v2/session.go:1680-1693 | mode, slave permission and reservations after a mode change |
| Session.Session.Refresh | src/gopkg.in/mgo.v2/session.go:1631-1636 | reservations given back and the guarantees restarted |
| Session.Session.Close | src/gopkg.in/mgo.v2/session.go:1611-1620 | reservations given back once; a second close does nothing |
| Session.PanicExact | src/gopkg.in/mgo.v2/session.go:4469-4482 | setSocket panics if and only if the cluster answers a request that must go to a master with a slave while a slave is reserved |
| Session.StrongIsConsistent | src/gopkg.in/mgo.v2/session.go:1680-1693 | in every run a session that is Strong at the moment gets only master sockets, and nothing panics |
| Session.WritePins | src/gopkg.in/mgo.v2/session.go:4405-4466 | a write in a Monotonic or Strong session pins it to the master socket it got |
| Session.PinnedRun | src/gopkg.in/mgo.v2/session.go:4405-4494 | while pinned, through mode changes and clones, every request gets that socket |
| Session.ReadYourWrites | src/gopkg.in/mgo.v2/session.go:4405-4466 | after a write acquire the session and all its clones get the same master socket, whatever follows but refresh and close |
| Session.SwitchesOnce | src/gopkg.in/mgo.v2/session.go:4405-4466 | a session kept in these modes changes sockets at most once, from one slave to one master |
| Session.RunKeepsInv | src/gopkg.in/mgo.v2/session.go:4405-4494 | in every run the reference counts are the reservations plus the references with callers |
| YamlAlias.Decoder.Unmarshal | src/gopkg.in/yaml.v2/decode.go:277-299 | computes the decoding of a node into a generic value; the active set is as before when it does not fail; ends on cyclic references |
| YamlAlias.Decoder.DecodeSequence | src/gopkg.in/yaml.v2/decode.go:478-508 | the items in order |
| YamlAlias.Decoder.DecodeMapping | src/gopkg.in/yaml.v2/decode.go:510-570 | the entries in order, later ones over earlier ones, merge keys where they stand, collections refused as keys |
| YamlAlias.Decoder.MergeInto | src/gopkg.in/yaml.v2/decode.go:652-679 | a mapping, an alias of one, or a sequence of these |
| YamlAlias.Decoder.MergeBackwards | src/gopkg.in/yaml.v2/decode.go:662-675 | from the last item to the first, so that earlier items win |
| YamlAlias.Decoder.UnmarshalInto | src/gopkg.in/yaml.v2/decode.go:310-322 | follows an alias into the map that is being filled |
| YamlAlias.DecodeExact | src/gopkg.in/yaml.v2/decode.go:277-322 | decoding with aliases is decoding the unfolded tree where no merge key has an alias of a sequence as its value, and fails otherwise; so the two agree if and only if there is no such key or the unfolded tree fails too |
| YamlAlias.ListMergeExample | src/gopkg.in/yaml.v2/decode.go:656-661 | a merge of an alias of a list fails while the list written out merges |
| YamlAlias.KeyKept | src/gopkg.in/yaml.v2/decode.go:681-683 | an alias of the scalar << is an ordinary key |
| YamlAlias.FailsAstray | src/gopkg.in/yaml.v2/decode.go:310-317 | unfolding fails only if a chain of references leads to an unknown anchor or back into itself |
| YamlAlias.AstrayFails | src/gopkg.in/yaml.v2/decode.go:310-317 | and it fails if one does |
| Numerals.SuccAddsOne | src/basic/utils/utils.go:399-416 | the carry adds one to the value, keeps digits, and grows only to a leading 1 |
| Numerals.StringAdd | src/basic/utils/utils.go:399-416 | the in-place carry computes the next numeral |
| Numerals.StringAddNum | src/basic/utils/utils.go:391-396 | adds the number; a negative number adds nothing |
| Numerals.IsNumString | src/basic/utils/utils.go:351-361 | true exactly for digit strings without a nine |
| Numerals.MeetsExactly | src/basic/utils/utils.go:380-387 | counting up from start meets end if and only if they have equal length and start <= end, or end is longer without a leading zero |
| Numerals.LexIsNumeric | src/basic/utils/utils.go:373-379 | for equal lengths the rune comparison is the numeric one |
| Numerals.Between | src/basic/utils/utils.go:362-389 | every numeral from start to end once, in order, if the comparison passes, none otherwise |
| Numerals.RefusedExactly | src/basic/utils/utils.go:373-379 | a pair in reach gets no list if and only if the end is longer and its front is below the start |
| Numerals.FiveToTen | src/basic/utils/utils.go:373-387 | from 5 to 10 Between returns none, and from 0 to 01 it does not return |
| YamlScanner.Scanner.InsertToken | src/gopkg.in/yaml.v2/apic.go:8-25 | appends, or shifts the queue from a position on, across the compaction of a full buffer |
| YamlScanner.Scanner.StaleSimpleKeys | src/gopkg.in/yaml.v2/scannerc.go:842-863 | gives up keys on an earlier line or more than 1024 characters back; a required one is an error |
| YamlScanner.Scanner.SaveSimpleKey | src/gopkg.in/yaml.v2/scannerc.go:867-897 | saves a key for the token about to come; panics exactly when a key is required where none is allowed |
| YamlScanner.Scanner.RemoveSimpleKey | src/gopkg.in/yaml.v2/scannerc.go:900-913 | gives up the key of the flow level, unless required |
| YamlScanner.Scanner.RollIndent | src/gopkg.in/yaml.v2/scannerc.go:937-961 | a deeper column opens a block at the end or at the token of the key, and the levels stay a strictly growing chain |
| YamlScanner.Scanner.UnrollIndent | src/gopkg.in/yaml.v2/scannerc.go:966-987 | closes the deeper blocks; the stack of levels is never popped when empty |
| YamlScanner.Scanner.FetchStreamStart | src/gopkg.in/yaml.v2/scannerc.go:990-1013 | the stacks are set up |
| YamlScanner.Scanner.FetchOutside | src/gopkg.in/yaml.v2/scannerc.go:1047-1102 | directives and document indicators close all blocks |
| YamlScanner.Scanner.FetchStreamEnd | src/gopkg.in/yaml.v2/scannerc.go:1016-1044 | the end of the stream closes all blocks outside flow collections |
| YamlScanner.Scanner.FetchFlowStart | src/gopkg.in/yaml.v2/scannerc.go:1105-1133 | one flow level and one key slot more |
| YamlScanner.Scanner.FetchFlowEnd | src/gopkg.in/yaml.v2/scannerc.go:1136-1165 | one flow level and one key slot less, never below zero |
| YamlScanner.Scanner.FetchBlockEntry | src/gopkg.in/yaml.v2/scannerc.go:1193-1232 | opens a block sequence where needed |
| YamlScanner.Scanner.FetchKey | src/gopkg.in/yaml.v2/scannerc.go:1235-1271 | opens a block mapping where needed |
| YamlScanner.Scanner.FetchSimpleValue | src/gopkg.in/yaml.v2/scannerc.go:1279-1301 | KEY lands directly before the token its key was saved for, BLOCK-MAPPING-START before that if the key opens a block |
| YamlScanner.Scanner.FetchValue | src/gopkg.in/yaml.v2/scannerc.go:1274-1336 | both kinds of value keep keys and levels right |
| YamlScanner.Scanner.FetchNode | src/gopkg.in/yaml.v2/scannerc.go:1339-1431 | a token that may be a key is queued where its key says; a line break after a plain scalar allows a key again |
| YamlScanner.Scanner.FetchNextToken | src/gopkg.in/yaml.v2/scannerc.go:665-838 | keys, levels and queue stay right, and a piece of text is used up |
| YamlScanner.Scanner.FetchMoreTokens | src/gopkg.in/yaml.v2/scannerc.go:626-662 | ends, with a head that can no longer turn out to be a simple key |
| YamlScanner.Scanner.ScanAll | src/gopkg.in/yaml.v2/scannerc.go:571-597 | scanning any text ends, and the tokens handed out nest: no block ends before it starts, and when the stream ends outside flow collections every block that started has ended |
| YamlScanner.Scanner.SkipToken | src/gopkg.in/yaml.v2/parserc.go:54-59 | hands the head out without changing what was handed out before |
| YamlScanner.ValueKeys | src/gopkg.in/yaml.v2/scannerc.go:1279-1301 | the key of the current flow level is in the queue at its token, and both insertions leave the keys below where they are |
| YamlScanner.KeysHanded | src/gopkg.in/yaml.v2/scannerc.go:626-662 | with no key at the head, handing the head out leaves every key in the queue |
| YamlScanner.NestedInsert | src/gopkg.in/yaml.v2/scannerc.go:937-961 | a block start can be put in anywhere without breaking the nesting |
| YamlEmitter.Emitter.IncreaseIndent | src/gopkg.in/yaml.v2/emitterc.go:196-208 | saves the indentation; the levels stay -1 at the bottom and none negative above |
| YamlEmitter.Emitter.EmitNode | src/gopkg.in/yaml.v2/emitterc.go:648-738 | scalars and aliases return to the waiting state, collections begin; anything else is an error |
| YamlEmitter.Emitter.EmitScalar | src/gopkg.in/yaml.v2/emitterc.go:683-704 | written with an indentation one step deeper, of two or more; the saved indentation comes back; fails exactly for a scalar with neither tag nor implicit flag |
| YamlEmitter.Emitter.EmitDocumentStart | src/gopkg.in/yaml.v2/emitterc.go:311-422 | follows the acceptor |
| YamlEmitter.Emitter.EmitDocumentContent | src/gopkg.in/yaml.v2/emitterc.go:425-428 | follows the acceptor |
| YamlEmitter.Emitter.EmitDocumentEnd | src/gopkg.in/yaml.v2/emitterc.go:431-453 | follows the acceptor |
| YamlEmitter.Emitter.EmitFlowSequenceItem | src/gopkg.in/yaml.v2/emitterc.go:456-501 | follows the acceptor; the flow level is counted in and out |
| YamlEmitter.Emitter.EmitFlowMappingKey | src/gopkg.in/yaml.v2/emitterc.go:504-555 | follows the acceptor |
| YamlEmitter.Emitter.EmitFlowMappingValue | src/gopkg.in/yaml.v2/emitterc.go:558-575 | follows the acceptor |
| YamlEmitter.Emitter.EmitBlockSequenceItem | src/gopkg.in/yaml.v2/emitterc.go:578-599 | follows the acceptor |
| YamlEmitter.Emitter.EmitBlockMappingKey | src/gopkg.in/yaml.v2/emitterc.go:602-627 | follows the acceptor |
| YamlEmitter.Emitter.EmitBlockMappingValue | src/gopkg.in/yaml.v2/emitterc.go:630-645 | follows the acceptor |
| YamlEmitter.Emitter.StateMachine | src/gopkg.in/yaml.v2/emitterc.go:211-269 | one event, taken if and only if the acceptor takes it; no stack is popped when empty |
| YamlEmitter.Emitter.NeedMoreEvents | src/gopkg.in/yaml.v2/emitterc.go:136-170 | true exactly if the queue is empty or its head is a start that waits for more events or its end |
| YamlEmitter.Emitter.AnalyzeEvent | src/gopkg.in/yaml.v2/emitterc.go:1133-1186 | true exactly if the names are alphanumerical |
| YamlEmitter.Emitter.Emit | src/gopkg.in/yaml.v2/emitterc.go:113-127 | nothing is lost or handled out of order; a failure means that the events so far do not fit |
| YamlEmitter.Emitter.EmitAll | src/gopkg.in/yaml.v2/emitterc.go:113-170 | any events: if taken, they are handled in order up to those that wait for more, every scalar with an indentation of two or more; if not, they do not fit; a well-nested stream with valid names is handled whole and leaves queue and stacks empty |
| YamlEmitter.AtRest | src/gopkg.in/yaml.v2/emitterc.go:431-453 | outside documents both stacks are empty, the flow level is zero and the indentation -1 |
| YamlEmitter.Crosses | src/gopkg.in/yaml.v2/emitterc.go:159-168 | a run to the end of the stream passes through every level on its way down |
| YamlEmitter.NothingWaits | src/gopkg.in/yaml.v2/emitterc.go:136-170 | at the end of the stream the lookahead waits for nothing |
| YamlReader.DecodeStable | src/gopkg.in/yaml.v2/readerc.go:149-351 | more bytes do not change what has been decided about a character |
| YamlReader.DecodeIsForm | src/gopkg.in/yaml.v2/readerc.go:149-351 | a decoded character is the one whose UTF-8 or UTF-16 form was read, and it is allowed |
| YamlReader.FormDecodes | src/gopkg.in/yaml.v2/readerc.go:149-351 | the form of every allowed character decodes to it, whatever follows |
| YamlReader.Unique | src/gopkg.in/yaml.v2/readerc.go:91-394 | the text of an input is unique, and what follows a decoded part encodes the rest |
| YamlReader.StuckIsMalformed | src/gopkg.in/yaml.v2/readerc.go:149-351 | where the decoder cannot go on the input is not the encoding of any allowed text |
| YamlReader.Reader.ReadInput | src/gopkg.in/yaml.v2/apic.go:41-49 | at least one byte per call until the end of the input, in pieces of any size |
| YamlReader.Reader.UpdateRawBuffer | src/gopkg.in/yaml.v2/readerc.go:56-85 | the raw buffer holds exactly the bytes read and not decoded, within 512 |
| YamlReader.Reader.DetermineEncoding | src/gopkg.in/yaml.v2/readerc.go:25-53 | the encoding of the whole input from its first bytes |
| YamlReader.Reader.ReadUtf8 | src/gopkg.in/yaml.v2/readerc.go:170-243 | the octet loop computes the decoding of one UTF-8 sequence, with every error |
| YamlReader.Reader.DecodeRaw | src/gopkg.in/yaml.v2/readerc.go:141-381 | decodes all but an incomplete character; within 796 bytes of buffer; a failure means malformed input |
| YamlReader.Reader.UpdateBuffer | src/gopkg.in/yaml.v2/readerc.go:91-394 | the wanted characters are there or the input has ended, the 1536-byte buffer is not overrun for up to eight characters |
| YamlReader.Reader.Skip | src/gopkg.in/yaml.v2/scannerc.go:491-496 | takes the next character by the width of its first byte |
| YamlReader.Reader.ReadAll | src/gopkg.in/yaml.v2/readerc.go:91-394 | succeeds if and only if the input is the encoding of an allowed text, and hands out that text as UTF-8 whatever the pieces |

## Left out

- HTTP handlers, the SSDB client, CSV tables, RPC, image and address lookup: input, output and field copying.
- `Ting`, `SearchDirtyCard`, `onecolor` and the flags for heavenly and earthly hands: they add easy members; the colour is a parameter.
- Xxtea: bytes are or-ed into places that are still zero, which is modelled as addition.
- GridFs: the store is a map; removing chunks always succeeds; a failed insert of the file document counts as not stored; MD5, dates, names, metadata and files opened by query are not modelled; the chunk size does not change.
- GridRead: a panic is a result and leaves the fields as they are at that point; an unsupported whence is not modelled; the chunk counter is unbounded.
- ClusterSync: a goroutine is a value that moves through phases, because its local variables are not shared; name resolution and the server's answer are inputs of the steps; tags, ping times, the dynamic seeds and the loop that repeats iterations are not modelled.
- SocketPool: one server; authentication, deadlines and reply functions are not modelled; that callers give back only what they hold is part of the steps, and `Session.RunKeepsInv` proves it of sessions.
- PoolLimit: all acquires use the same positive limit; sessions with different ones are not modelled.
- Session: the cluster is an oracle that answers a request barred from slaves with a master; credentials, timeouts and tags are not modelled.
- ServerChoice.BestFit: how the 15 ms tolerance and the socket counts rank servers of one kind is stated only pairwise, because the source's rule is not transitive.
- `hasTags`, the pinger and the waiting loop of the cluster's `AcquireSocket` are not modelled.
- TimerHeap: timers are values in one slot each instead of shared pointers, and slots past the end are not cleared; callbacks do not touch the manager.
- TimerHeap.TimerManager.FireDue: without a limit it requires that the loop can end, because the source does not return otherwise; `LoopEndsExactly` and `GoesOn` show that nothing less is enough.
- TimerHeap.TimerManager.Run: as for `FireDue`.
- Numerals.Between: requires digit strings, as the source's comment does, and not the endless pairs characterized by `MeetsExactly`.
- YamlParser: positions in events and the exact error texts are not modelled; tags resolve by handle.
- YamlRender: of the ways to spell a document one per form is rendered; left-out nodes, indentless sequences, single pairs in flow sequences and tag handles are parsed but not rendered.
- QuotedScalar: values are UTF-8, as the encoder sees to; flushing the output buffer and refilling the scanner's are not modelled; single-quoted, plain, literal and folded styles are not modelled.
- YamlScanner: what the characters spell is an input, with nothing but the end after the end; scalar, tag and anchor contents are not scanned here.
- YamlScanner.Scanner.SaveSimpleKey: that its panic cannot be reached is not claimed.
- YamlEmitter.Emitter.EmitDocumentStart: version and tag directives are not written.
- YamlEmitter.Emitter.AnalyzeEvent: what the analysis of tags and scalar texts finds is an input, two flags per event.
- YamlEmitter: texts and columns enter only through two flags per event; version and tag directives are not modelled; writing does not fail.
- YamlReader: buffers are sequences with explicit capacity, and moving bytes to the front is slicing; read errors other than the end of the input are not modelled.
- YamlAlias: generic targets only; resolving scalars is an input, and typed targets, struct fields and custom unmarshalers are not modelled.
- UTF-16 output and the writer's flushing are not modelled.
