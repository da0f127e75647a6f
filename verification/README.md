# Verification of the find-my-device core

A Dafny project that models the parts of the application whose correctness depends on algebra, loop
invariants or interleavings, and proves what they are for. `dafny verify dfyconfig.toml` checks all of it.

- **QR encoder** (`gf256`, `polynomial`, `generators`, `generatortable`, `interleaving`, `errorcorrection`,
  `rsblocks`, `bitbuffer`, `segments`, `createdata`, `chunks`, `versions`, `masks`, `formatinfo`, `placement`,
  `datamodules`, `penalty`, `qrcode`): from the field of 256 elements to the module grid, and a reader for every stage, so that text, segments,
  bit stream, codewords and data modules come back (ISO/IEC 18004:2015, section 7). The field product is defined by
  shift and XOR, independently of the log and exp tables; the stored generator polynomials are checked against their
  roots, the mask formulas against their pictures, and the areas of the function patterns against the codewords of
  all versions. The scanner takes level and mask from the format information of the finished symbol.
- **MQTT engine** (`packetreader`, `packetwriter`, `outgoing`, `matcher`, `utf8`, `properties`): the incremental
  reader under any fragmentation, the partial-write sender, the QoS 1 store across connections, the topic trie on
  linked nodes, and the property codec with its tables.
- **Mobile data** (`mobiledata`): the ownership record as a state machine over processes that may be killed between
  any two actions, and the same operations as the program of one process.
- **Subscriptions** (`subscriptions`), **foreground GPS** (`foregroundgps`), **privileged spool** (`privspool`) and
  **settings generation** (`settingsgeneration`): small concurrent protocols, each step or transaction one event or
  method, every property stated over all sequences of them.

What the outside world does is a parameter: what a socket call returns, when a process is killed, which D-Bus call
fails, what the user does. Exceptions are values (`None`, an outcome datatype or a flag). Every lemma carries
`{:induction false}`: its proof is its body.

Where the code does not do what one might expect, the code is modelled and the difference is stated exactly:

- A data block that is all zeros makes the Reed-Solomon division raise; `ErrorCorrection.CreateBytes` has the exact
  condition and `CreateData.NulTextFails` a text.
- A packet with command byte 0 is read differently when a read blocks inside it (`PacketReader.CutsAgreeExactly`).
- A send that takes zero bytes drops the packet at the head of the queue (`PacketWriter.Client.PacketWrite`).
- `del matcher[key]` raises less often than a look-up: a key on the way to other filters is deleted without effect.
- A version set by hand after the codewords have been made keeps them, and the symbol is then made of codewords that
  do not fill it (`QRCodes.VersionSetByHand`); `QRCodes.QRCode.Make` has the exact condition.
- The limit on messages in flight is kept across an undisturbed reconnection if and only if no more messages are
  stored than it allows (`Outgoing.Client.LimitAfterReconnection`, `Outgoing.LimitIsExceeded`).
- Contrary to the module comment of `mobiledata_control.py` (lines 23-24), a connection that the user turned on can be
  turned off: by recovery with a record that is left over, and by the end of a session that is running
  (`MobileData.StaleRecordOverwritesUser`, `MobileData.LiveSessionOverwritesUser`). It is safe until the user moves
  the switch again if and only if there is no record and no session is about to write one
  (`MobileData.UsersSettingStays`).
- Replacing the MQTT client waits for nobody: a caller, or the old client's thread, can still subscribe on the old
  client or clear the tables, which can confirm a topic the broker never granted
  (`Subscriptions.ReplacedClientConfirmsWrongly`). `Subscriptions.RightExactlyIfHarmless` says exactly in which runs
  the tables are right.

## Model

| member | source | states |
|---|---|---|
| `GF256.BuildExp` | qml/utilities/qrcode/base.py:4-14 | filling EXP_TABLE yields the powers of alpha in the field of 256 elements modulo x^8+x^4+x^3+x^2+1 |
| `GF256.BuildLog` | qml/utilities/qrcode/base.py:6-17 | filling LOG_TABLE yields the discrete logarithm of every non-zero element |
| `GF256.GeneratorOrder` | qml/utilities/qrcode/base.py:4-17 | alpha to the 255th is 1, no smaller positive power is, and the first 255 powers are distinct |
| `GF256.EveryByteIsAPower` | qml/utilities/qrcode/base.py:234-237 | every non-zero byte has a logarithm below 255, so the table look-up is defined on all of them |
| `GF256.TablesInvert` | qml/utilities/qrcode/base.py:234-241 | gexp undoes glog on non-zero bytes, and glog undoes gexp modulo 255 |
| `GF256.LogProduct` | qml/utilities/qrcode/base.py:265-272 | gexp of a sum of logarithms is the field product, the step on which polynomial multiplication rests |
| `GF256.MulXor` | qml/utilities/qrcode/base.py:265-289 | the field product distributes over XOR |
| `GF256.MulAssoc` | qml/utilities/qrcode/base.py:265-289 | the field product is associative |
| `Polynomials.MakePolynomial` | qml/utilities/qrcode/base.py:244-254 | leading zeros are dropped (all but one of an all-zero list), the shift is appended, and an empty list raises |
| `Polynomials.ReduceMeaning` | qml/utilities/qrcode/base.py:274-289 | one division step keeps the value at every root of the divisor and makes the polynomial shorter: the leading terms cancel |
| `Polynomials.ModKeepsRoots` | qml/utilities/qrcode/base.py:274-289 | the remainder has the value of the dividend at every root of the divisor |
| `Polynomials.ModRaises` | qml/utilities/qrcode/base.py:274-289 | the division raises if and only if it must take the logarithm of zero, stated as a condition on the two coefficient lists |
| `Generators.Times` | qml/utilities/qrcode/base.py:265-272 | the in-place double loop of `*` computes the product of the two polynomials at every point; it raises exactly when a coefficient is zero |
| `Generators.ProductLoop` | qml/utilities/qrcode/util.py:523-526 | the product loop, where it does not raise, gives a polynomial that vanishes at alpha^0 .. alpha^(n-1) |
| `GeneratorTable.LutIsGood` | qml/utilities/qrcode/LUT.py:27-223 | every stored generator polynomial has the right length, no zero coefficient, and vanishes at alpha^0 .. alpha^(n-1) |
| `ErrorCorrection.RightAlign` | qml/utilities/qrcode/util.py:528-534 | a short remainder is right aligned in the EC field and padded with zeros on the left |
| `ErrorCorrection.BlockEc` | qml/utilities/qrcode/util.py:508-534 | data followed by its EC codewords vanishes at alpha^0 .. alpha^(ecCount-1); for counts in the table it raises if and only if the data is all zero |
| `ErrorCorrection.CreateBytes` | qml/utilities/qrcode/util.py:499-548 | the output de-interleaves to every block's data and EC codewords; it raises if and only if the buffer is too short or some block's data is all zero |
| `ErrorCorrection.TotalLength` | qml/utilities/qrcode/util.py:499-548 | the output is as long as the blocks' total counts together |
| `Interleaving.AppendRound` | qml/utilities/qrcode/util.py:539-547 | one round of the interleaving loop puts every block's i-th codeword where a reader looks for it |
| `Interleaving.Interleave` | qml/utilities/qrcode/util.py:539-548 | de-interleaving by block sizes recovers every block, unequal sizes included, and the length is the sum of the sizes |
| `RSBlocks.RsBlocks` | qml/utilities/qrcode/base.py:297-313 | the loops expand a table row into its blocks in order |
| `RSBlocks.BlockListSize` | qml/utilities/qrcode/base.py:297-313 | the data counts of a version and level sum to the capacity behind its bit limit |
| `RSBlocks.BlockListTotals` | qml/utilities/qrcode/base.py:26-231 | at every version and level the total counts sum to the room that the function patterns leave |
| `Versions.CapacityIncreases` | qml/utilities/qrcode/base.py:26-231 | every version has room for more codewords than the one before |
| `RSBlocks.BlockListFacts` | qml/utilities/qrcode/base.py:26-231 | every EC count in the block table has a stored generator and every block has data |
| `RSBlocks.BitLimitIncreases` | qml/utilities/qrcode/util.py:105-112 | the bit limits of a level increase strictly with the version, as the bisection needs |
| `BitBuffers.BitBuffer.PutBit` | qml/utilities/qrcode/util.py:490-496 | a bit is appended to the bit string packed in the byte list |
| `BitBuffers.BitBuffer.Put` | qml/utilities/qrcode/util.py:483-485 | a number is appended as its low bits, most significant first |
| `BitBuffers.BitBuffer.Get` | qml/utilities/qrcode/util.py:479-481 | bit i of the packed bytes is bit i of the string |
| `BitBuffers.ValueOfNumBits` | qml/utilities/qrcode/util.py:483-485 | a number that fits its width is read back from its bits |
| `Segments.WriteNumber` | qml/utilities/qrcode/util.py:445-450 | digits in groups of three, two or one become 10, 7 or 4 bits each |
| `Segments.WriteAlpha` | qml/utilities/qrcode/util.py:451-459 | characters in pairs become 11 bits, a last one 6 |
| `Segments.WriteBytes` | qml/utilities/qrcode/util.py:460-465 | each byte becomes 8 bits |
| `Segments.PayloadRoundTrip` | qml/utilities/qrcode/util.py:445-465 | in all three modes the payload, followed by anything, reads back as the segment's bytes |
| `Chunks.OptimalSplit` | qml/utilities/qrcode/util.py:381-392 | the parts join to the input; with a repetition pattern the matched parts are exactly the maximal runs of at least `minimum` characters, with a whole-text pattern at most the text without its final newline |
| `Chunks.OptimalDataChunks` | qml/utilities/qrcode/util.py:355-378 | the segments' bytes join to the input, each fits its mode, and no long digit or alphanumeric run is left to a wider mode; a short text becomes one segment in its own mode, a final newline apart |
| `Chunks.OptimalMode` | qml/utilities/qrcode/util.py:405-413 | the mode chosen for a whole text can hold it and no narrower one can |
| `CreateData.StreamRoundTrip` | qml/utilities/qrcode/util.py:551-557 | a stream of segments whose counts fit decodes to those segments, however it ends |
| `CreateData.NoCountTruncated` | qml/utilities/qrcode/util.py:551-566 | passing the overflow check implies that no count field was truncated, at every version and level |
| `CreateData.PaddedRoundTrip` | qml/utilities/qrcode/util.py:551-584 | the padded bit stream decodes to exactly the segments written |
| `CreateData.Pad` | qml/utilities/qrcode/util.py:568-582 | terminator, byte filling and alternating pad bytes fill the buffer to exactly the bit limit |
| `CreateData.PadBytesAlternate` | qml/utilities/qrcode/util.py:576-582 | the pad bytes are 236 and 17 in turn, beginning with 236 |
| `CreateData.WidthsAgree` | qml/utilities/qrcode/util.py:15-32 | the widths of the count fields are those of the reader's table |
| `CreateData.CreateData` | qml/utilities/qrcode/util.py:551-584 | overflow exactly when the stream exceeds the limit, the division failure exactly when a block of the padded buffer is all zero, otherwise codewords that encode the padded stream |
| `CreateData.CodewordsRoundTrip` | qml/utilities/qrcode/util.py:499-584 | a reader that separates, joins and decodes the data blocks of the codewords gets the segments back |
| `CreateData.NulTextFails` | qml/utilities/qrcode/base.py:279 | thirty-two NUL bytes fit version 3 at level Q and make its second block all zero, so creating the codewords raises |
| `QRCodes.StreamGrowsWithVersion` | qml/utilities/qrcode/main.py:224-252 | later versions never need fewer bits, and the same number within a width class |
| `QRCodes.QRCode.AddData` | qml/utilities/qrcode/main.py:146-160 | the added bytes are appended to the text of the segments and the cached codewords are dropped; the segments are the optimal ones, or one in the narrowest mode that can hold the bytes |
| `QRCodes.QRCode.AddSegment` | qml/utilities/qrcode/main.py:146-160 | a ready segment is appended and the cached codewords are dropped |
| `QRCodes.QRCode.BestFit` | qml/utilities/qrcode/main.py:224-252 | returns the least version from the start on that fits with its own count widths; raises if and only if there is none; terminates through the width classes; the version setter refuses 41, so the overflow error behind it is never reached |
| `QRCodes.QRCode.SetVersion` | qml/utilities/qrcode/main.py:122-126 | versions outside 1..40 are refused and leave the field alone; the cached codewords stay |
| `QRCodes.LeastFitAgain` | qml/utilities/qrcode/main.py:162-170 | asking again from the answer gives the answer |
| `QRCodes.QRCode.MakeCodewords` | qml/utilities/qrcode/main.py:195-199 | the codewords are computed once, with exact conditions for overflow and division failure; cached ones stay, whatever the version |
| `QRCodes.QRCode.MakeImpl` | qml/utilities/qrcode/main.py:176-199 | the finished symbol: every finder, alignment and timing module in its colour, both copies of the format information of the level and the mask that is applied (light in a test symbol), the version information from version 7 on, and the cached codewords in the data modules, masked |
| `QRCodes.QRCode.BestMaskPattern` | qml/utilities/qrcode/main.py:254-270 | the first of the eight patterns with the least score, the scores being those of the eight test symbols by the plain penalty rules |
| `QRCodes.QRCode.Make` | qml/utilities/qrcode/main.py:162-174 | with `fit` the least fitting version from the one set is used and overflow cannot happen; every error has its exact condition; the finished symbol announces the mask that is applied, and holds the codewords of its own version if and only if they were cached for it |
| `QRCodes.VersionSetByHand` | qml/utilities/qrcode/main.py:122-126 | whenever the version is changed by hand after codewords have been cached, the symbol is made of codewords that do not fill it |
| `QRCodes.TextToSymbol` | qml/utilities/qrcode/main.py:146-199 | a scanner that takes level and mask from either copy of the format information reads the symbol made for a text as the text |
| `QRCodes.ScanReadsCodewords` | qml/utilities/qrcode/main.py:486-529 | reading the data modules in path order, the mask undone by its picture, finds the codewords and nothing else |
| `QRCodes.ScanReadsFormat` | qml/utilities/qrcode/main.py:455-484 | the level and the mask that a scanner takes from either copy of the format information are those of the symbol |
| `Masks.MaskIsPicture` | qml/utilities/qrcode/util.py:142-162 | each of the eight formulas is the pattern that repeats one written-out picture in both directions |
| `FormatInfo.BchDigit` | qml/utilities/qrcode/util.py:130-135 | the loop counts the binary digits |
| `FormatInfo.Remainder` | qml/utilities/qrcode/util.py:115-127 | the division loop leaves fewer digits than the divisor has, and what it has taken away is a multiple of the divisor |
| `FormatInfo.BchTypeInfo` | qml/utilities/qrcode/util.py:115-120 | five data bits and ten check bits: unmasked, a multiple of the generator that begins with the data |
| `FormatInfo.BchTypeNumber` | qml/utilities/qrcode/util.py:123-127 | six version bits and twelve check bits: a multiple of the generator that begins with the version |
| `FormatInfo.Examples` | qml/utilities/qrcode/util.py:83-94 | the two worked examples of the standard are codes of these generators and this mask |
| `FormatInfo.ScansTypeInfo` | qml/utilities/qrcode/main.py:456-457 | a scanner that inverts the masked bits finds the level code and the mask that were joined |
| `Placement.Symbol.SetupPositionProbePattern` | qml/utilities/qrcode/main.py:204-222 | a finder pattern and its border, clipped to the grid, are written and nothing else |
| `Placement.Symbol.SetupTimingPattern` | qml/utilities/qrcode/main.py:404-413 | the unset modules of row 6 and column 6 between the finder patterns alternate, nothing else changes |
| `Placement.Symbol.SetupPositionAdjustPattern` | qml/utilities/qrcode/main.py:415-442 | the alignment patterns whose centre is free are drawn, module by module, and nothing else changes |
| `Placement.Symbol.SetupBlank` | qml/utilities/qrcode/main.py:183-191 | exactly the finder, timing and alignment patterns of the version are set, in the colours of their rings, and the timing alternates all the way |
| `Placement.Symbol.SetupTypeInfo` | qml/utilities/qrcode/main.py:455-484 | each bit is written at its two places, the fixed module is set, nothing else changes |
| `Placement.Symbol.SetupTypeNumber` | qml/utilities/qrcode/main.py:444-453 | each bit is written at its two places, nothing else changes |
| `Placement.InfoShown` | qml/utilities/qrcode/main.py:455-484 | the fifteen bits are found at the two places of each in the standard, all light in a test symbol, and the fixed module is dark exactly when not testing |
| `Placement.NumberShown` | qml/utilities/qrcode/main.py:444-453 | the eighteen bits are found at the two places of each |
| `Placement.ProbeIsRings` | qml/utilities/qrcode/main.py:212-218 | the condition for a dark module is the dark square, light ring, dark ring and light border around the centre |
| `Placement.AlignmentIsRings` | qml/utilities/qrcode/main.py:433-439 | the condition for a dark module is a dark centre, a light ring and a dark ring |
| `Placement.AlignmentAlternates` | qml/utilities/qrcode/main.py:404-442 | an alignment pattern across the timing continues its alternation |
| `Placement.TableRow` | qml/utilities/qrcode/util.py:40-81 | every row of the position table is 6, then positions one even step apart up to the seventh module from the other border |
| `DataModules.RoomForCodewords` | qml/utilities/qrcode/main.py:176-199 | at every version the modules left unset have room for all its codewords |
| `Placement.Symbol.MapData` | qml/utilities/qrcode/main.py:486-529 | the zigzag loop leaves exactly the specified grid: set modules kept, the m-th unset module of the path holds data bit m, masked |
| `Placement.PlaceOfInverse` | qml/utilities/qrcode/main.py:496-527 | the path meets each module outside column 6 at exactly one place |
| `Placement.PriorCountsUnset` | qml/utilities/qrcode/main.py:486-529 | the number of data modules met equals the number of unset modules: each is visited exactly once |
| `Placement.MappedMeaning` | qml/utilities/qrcode/main.py:486-529 | no module outside column 6 stays unset, set ones keep their value, and undoing the mask along the path reads the bits of the codewords, then zeros |
| `Penalty.CountRuns` | qml/utilities/qrcode/util.py:206-219 | the scan of a line adds to the histogram the points of its maximal runs of at least five |
| `Penalty.LostPointLevel1` | qml/utilities/qrcode/util.py:201-241 | the histogram sum equals the sum of length - 2 over the maximal runs of length at least 5 in rows and columns |
| `Penalty.CountBlocks` | qml/utilities/qrcode/util.py:249-266 | the scan that skips counts every one-colour block of a pair of rows |
| `Penalty.LostPointLevel2` | qml/utilities/qrcode/util.py:244-268 | three points for every one-colour two-by-two block of the matrix |
| `Penalty.CountFinderLike` | qml/utilities/qrcode/util.py:279-309 | the scan that skips counts every window of a line equal to one of the two patterns |
| `Penalty.LostPointLevel3` | qml/utilities/qrcode/util.py:271-344 | forty points for every matching window of every row and column |
| `Penalty.WindowIsPattern` | qml/utilities/qrcode/util.py:284-301 | the scan's condition holds exactly on the two eleven-module patterns |
| `Penalty.LostPoint` | qml/utilities/qrcode/util.py:188-198 | the sum of the plain counts of rules 1 to 3 and of a given rule 4 |
| `Matcher.SplitIsInjective` | qml/utilities/paho/mqtt/matcher.py:24-25 | joining the levels gives the filter back, so different filters have different levels |
| `Matcher.MQTTMatcher.Set` | qml/utilities/paho/mqtt/matcher.py:22-27 | on linked nodes changed in place: the map from filters to values is updated at the key, and no useless branch arises |
| `Matcher.MQTTMatcher.Get` | qml/utilities/paho/mqtt/matcher.py:29-39 | the stored value, or KeyError exactly when the filter has none |
| `Matcher.MQTTMatcher.Delete` | qml/utilities/paho/mqtt/matcher.py:41-58 | the filter leaves the map and no useless branch stays; KeyError exactly when no filter starts with the key |
| `Matcher.NodesAreBeginnings` | qml/utilities/paho/mqtt/matcher.py:19-58 | the trie has a node for exactly the beginnings of its filters |
| `Matcher.MQTTMatcher.IterMatch` | qml/utilities/paho/mqtt/matcher.py:60-78 | yields the values of the filters with their exact multiplicities; on plain topics each matching filter exactly once and no other |
| `Matcher.TimesIsMatches` | qml/utilities/paho/mqtt/matcher.py:60-78 | on plain topics the walk comes to a filter once if it matches by MQTT 3.1.1, section 4.7, and never otherwise |
| `Matcher.PlainExactly` | qml/utilities/paho/mqtt/matcher.py:60-78 | no filter can come up twice if and only if the topic has no `+` level and does not end in `#` |
| `PacketReader.FeedAllParses` | qml/utilities/paho/mqtt/client.py:2354-2440 | the byte-by-byte reader handles exactly the packets of a one-shot parse, keeps its rest, and stops at a fifth length byte exactly when the parse does |
| `PacketReader.CutsDoNotMatter` | qml/utilities/paho/mqtt/client.py:2354-2454 | wherever the calls end (would-block, error, hundredth read) the reader is where an uninterrupted one would be |
| `PacketReader.HandledInOrder` | qml/utilities/paho/mqtt/client.py:2354-2454 | what reaches the handler is the packets of the stream in order, all but the last one exactly if the hundredth read of the last call ended on its end |
| `PacketReader.CutsAgreeExactly` | qml/utilities/paho/mqtt/client.py:2370-2382 | a stream of whole packets is read the same under every cut if and only if no command byte is 0 |
| `PacketReader.SentIsRead` | qml/utilities/paho/mqtt/client.py:2607-2620 | a sent packet is read back exactly up to 268435455 bytes, and longer ones end the connection |
| `PacketReader.SentStreamIsRead` | qml/utilities/paho/mqtt/client.py:2607-2620 | streams of such packets come back packet by packet |
| `PacketReader.PackRemainingLength` | qml/utilities/paho/mqtt/client.py:2607-2620 | the loop appends the variable-length form of the number |
| `PacketReader.Client.PacketRead` | qml/utilities/paho/mqtt/client.py:2354-2454 | one call moves the fields as the specified reader does for the bytes received in it, returns the handler's answer for a completed packet, and otherwise ends only because recv would block, the hundredth read was made, or the connection is gone |
| `PacketReader.Client.LoopRead` | qml/utilities/paho/mqtt/client.py:1538-1561 | over any sequence of socket events the handled packets are those of the bytes received, which are the next ones of the connection; exactly an error closes the socket, and fewer calls than allowed are made only if nothing more was there |
| `PacketReader.Socket.SockRecv` | qml/utilities/paho/mqtt/client.py:638-655 | the next bytes of the connection, at most as many as asked for; none lost or repeated |
| `PacketWriter.Client.PacketQueue` | qml/utilities/paho/mqtt/client.py:2991-3001 | a packet goes to the end of the queue and everything stays in step |
| `PacketWriter.Client.PacketWrite` | qml/utilities/paho/mqtt/client.py:2456-2517 | across partial sends and would-blocks the wire stays in step with the queue; the outcome is that of the last send, all sends before it took something; a send of zero bytes loses the rest of the head packet; exactly a sent DISCONNECT closes the socket |
| `PacketWriter.KindOfCommand` | qml/utilities/paho/mqtt/client.py:2483-2500 | the upper four bits of the command byte tell a QoS 0 publish and a DISCONNECT |
| `PacketWriter.WireIsPrefix` | qml/utilities/paho/mqtt/client.py:2456-2517 | the wire is a prefix of everything queued and the rest is still in the queue: each byte once, in order |
| `Utf8.TextRoundTrip` | qml/utilities/paho/mqtt/properties.py:53-80 | decoding the UTF-8 form of a text gives the text |
| `Utf8.DecodesExactly` | qml/utilities/paho/mqtt/properties.py:60-80 | decoding succeeds on exactly the encoded texts: overlong forms and surrogates are refused, and nothing else |
| `MqttProperties.VbiRoundTrip` | qml/utilities/paho/mqtt/properties.py:92-139 | a variable byte integer followed by anything is read back with its length |
| `MqttProperties.DecodeVariableByteInteger` | qml/utilities/paho/mqtt/properties.py:121-139 | the loop computes the number and the bytes used, or runs past the end |
| `MqttProperties.ValueRoundTrip` | qml/utilities/paho/mqtt/properties.py:344-405 | a value of any of the seven types, followed by anything, is read back with its length |
| `MqttProperties.ReadableCanBeWritten` | qml/utilities/paho/mqtt/properties.py:344-405 | with the round trip: the values that have bytes are exactly those that can be read, but for variable byte integers of more than four bytes |
| `MqttProperties.VbiInFourBytes` | qml/utilities/paho/mqtt/properties.py:100-106 | the numbers that may be encoded are those that fit four length bytes |
| `MqttProperties.ReadUtfBounds` | qml/utilities/paho/mqtt/properties.py:62-80 | an accepted string lies within the bytes that are left, could be written again, and has no forbidden character |
| `MqttProperties.ForbiddenForms` | qml/utilities/paho/mqtt/properties.py:70-80 | the refused characters are those with the bytes 00 and EF BB BF |
| `MqttProperties.AcceptsWithinLimits` | qml/utilities/paho/mqtt/properties.py:273-294 | single values are accepted exactly within the limits of each property |
| `MqttProperties.ItemsRoundTrip` | qml/utilities/paho/mqtt/properties.py:366-438 | reading written properties sets them one after the other, in order |
| `MqttProperties.KindIsStandard` | qml/utilities/paho/mqtt/properties.py:166-247 | the identifiers, their types and which may repeat are those of Table 2-4 of MQTT 5.0 |
| `MqttProperties.AppliesAsInStandard` | qml/utilities/paho/mqtt/properties.py:196-244 | a property applies to exactly the packets whose section of MQTT 5.0 lists it |
| `MqttProperties.PackRoundTrip` | qml/utilities/paho/mqtt/properties.py:366-438 | unpack(pack(p) + tail) restores a legal p, repeated properties in order, and reports exactly the packed length; pack raises only for the total length |
| `MqttProperties.Properties.SetAttr` | qml/utilities/paho/mqtt/properties.py:258-301 | which assignments are refused, and what a repeated property's list becomes |
| `MqttProperties.Properties.Pack` | qml/utilities/paho/mqtt/properties.py:366-381 | the loops produce the specified bytes, or raise exactly where a value has none |
| `MqttProperties.Properties.Unpack` | qml/utilities/paho/mqtt/properties.py:414-438 | the loop sets the specified attributes and returns the length used, or raises where the specification does |
| `Outgoing.Client.MidGenerate` | qml/utilities/paho/mqtt/client.py:2562-2567 | ids count from 1 to 65535 and start again |
| `Outgoing.Client.PublishMessage` | qml/utilities/paho/mqtt/client.py:1270-1300 | the new message, its state by room and connection, the exact condition of refusal and the return code; the in-flight counter keeps its distance from the waiting messages |
| `Outgoing.Client.Reconnect` | qml/utilities/paho/mqtt/client.py:2945-2972 | every message is to be sent again, as a duplicate if it had been sent; the counter is right again whatever it was |
| `Outgoing.Client.HandleConnack` | qml/utilities/paho/mqtt/client.py:3160-3209 | the same messages stay; with a working network all before the first queued one wait for PUBACK afterwards and have been flushed; a refused CONNACK sends nothing; the counter follows |
| `Outgoing.Client.UpdateInflight` | qml/utilities/paho/mqtt/client.py:3372-3395 | queued messages go out in order while there is room, never beyond the limit; on a working network none is left queued unless the limit is reached |
| `Outgoing.Client.HandlePuback` | qml/utilities/paho/mqtt/client.py:3482-3532 | exactly the message with that id leaves the store and is published, and the first queued messages take the room that it leaves; the counter stays right if and only if the message was waiting or there is none |
| `Outgoing.Client.Step` | qml/utilities/paho/mqtt/client.py:1270-1300 | what each event does; it keeps every message in the store or acknowledged, and a message is held back only while the limit is reached; only a CONNACK can lead beyond the limit |
| `Outgoing.Client.Interleave` | qml/utilities/paho/mqtt/client.py:1270-1300 | over every run: no message is lost, one is published only by a PUBACK with its own id, one is held back only while the limit is reached, the counter is right as long as PUBACKs are for what was sent, and a queue limit no larger than the flight limit keeps the flight limit |
| `Outgoing.Client.LimitAfterReconnection` | qml/utilities/paho/mqtt/client.py:3160-3209 | after an undisturbed reconnection all stored messages are in flight: the limit holds if and only if they are no more than it allows, or there is none |
| `Outgoing.LimitIsExceeded` | qml/utilities/paho/mqtt/client.py:3160-3209 | two messages published without a connection exceed a limit of one |
| `MobileData.RecordNamesTheService` | daemon-rpm/src/mobiledata_control.py:179-264 | in every run with any number of processes, crashes, failing calls and user moves: if the switch is on because a daemon wrote it last, the record is there |
| `MobileData.FoundOnWithoutRecord` | daemon-rpm/src/mobiledata_control.py:269-306 | a session that finds the switch on with no record sees the user's own setting |
| `MobileData.NotEnabledNeverWrites` | daemon-rpm/src/mobiledata_control.py:309-344 | a session that did not enable never writes the switch |
| `MobileData.TurnsOffOnlyWithRecord` | daemon-rpm/src/mobiledata_control.py:238-264 | a daemon turns the switch off only while the record is there |
| `MobileData.RecoveryGoesByTheRecord` | daemon-rpm/src/mobiledata_control.py:238-254 | recovery, at daemon start or in a session, switches off if and only if the record is there, whoever wrote the switch last |
| `MobileData.EndGoesByTheSession` | daemon-rpm/src/mobiledata_control.py:309-321 | the end of a session switches off if and only if the session enabled, whoever wrote the switch last |
| `MobileData.OverwritingActions` | daemon-rpm/src/mobiledata_control.py:238-344 | in every run, the actions that turn off what the user turned on: recovery with a record left over, and restore of a live session |
| `MobileData.UsersSettingStays` | daemon-rpm/src/mobiledata_control.py:15-25 | what the user turned on stays on whatever the daemons do, if and only if no record is there and no session is about to write one |
| `MobileData.LiveSessionOverwritesUser` | daemon-rpm/src/mobiledata_control.py:309-321 | a run without any interruption in which the end of a session turns off what the user turned on |
| `MobileData.SessionRestores` | daemon-rpm/src/mobiledata_control.py:324-344 | an undisturbed session that finds mobile data off gives back what it found |
| `MobileData.StaleRecordOverwritesUser` | daemon-rpm/src/mobiledata_control.py:238-254 | a run in which a stale record makes recovery overwrite the user's own setting |
| `MobileData.Phone.RecordCovers` | daemon-rpm/src/mobiledata_control.py:179-264 | as a program of one process that can be killed before any operation: whenever the switch is on because the process wrote it, the record is there |
| `MobileData.Phone.MarkOwned` | daemon-rpm/src/mobiledata_control.py:211-218 | the file is emptied, then written: two actions of the state machine, in this order, unless the process is killed between them |
| `MobileData.Phone.Recover` | daemon-rpm/src/mobiledata_control.py:238-254 | its operations are the state machine's actions from reading the record to the end of recovery, with the user and the killer acting before each; without a record nothing is written, and nothing is ever switched on |
| `MobileData.Phone.EnableIfNeeded` | daemon-rpm/src/mobiledata_control.py:269-306 | a run of the machine from the policy checks on; where WLAN, the data service or roaming forbid it nothing is written and the session has not enabled; otherwise a switch found off is recorded and then switched on |
| `MobileData.Phone.RestoreSwitch` | daemon-rpm/src/mobiledata_control.py:309-321 | a run of the machine up to releasing the lock: the switch is written only if the session enabled, and the record is cleared only after that |
| `MobileData.Phone.TemporarilyEnabled` | daemon-rpm/src/mobiledata_control.py:324-344 | the critical section is a session of the machine from taking the lock on; where the checks forbid it nothing is ever switched on; undisturbed, the exact sequence of writes to record and switch, and the switch is given back |
| `MobileData.Phone.RecoverInterrupted` | daemon-rpm/src/mobiledata_control.py:257-266 | a recovery-only session of the machine, or nothing if the lock is busy; undisturbed, a switch left on with its record is switched off and the record cleared |
| `Subscriptions.RightStep` | qml/utilities/mqtt_client.py:565-608 | a step from right tables leads to right tables if and only if it is harmless: no subscribe call on a replaced client whose id clashes, no clearing for a replaced client of what the live one depends on |
| `Subscriptions.RightExactlyIfHarmless` | qml/utilities/mqtt_client.py:565-608 | the bookkeeping is true and complete throughout a run, whatever client is replaced when, if and only if every step is harmless |
| `Subscriptions.SubscribeTruth` | qml/utilities/mqtt_client.py:574-608 | a subscribe call keeps the pending table true if and only if its id is not already the current client's for another topic |
| `Subscriptions.PoliteIsHarmless` | qml/utilities/mqtt_client.py:321-394 | replacements that wait for other threads do no harm |
| `Subscriptions.WishesAreCovered` | qml/utilities/mqtt_client.py:565-608 | in a harmless run, on a live connection, once the threads are through, every wish is pending or confirmed unless refused or not queued |
| `Subscriptions.ConfirmedWasGranted` | qml/utilities/mqtt_client.py:764-788 | in a harmless run every confirmed topic was granted to the current client since the last CONNACK it accepted |
| `Subscriptions.OkMeansGranted` | qml/utilities/mqtt_client.py:482-491 | in a harmless run, when the subscription check is content, the broker has granted every wish |
| `Subscriptions.FmdMqttClient.Disconnect` | qml/utilities/mqtt_client.py:321-325 | the client is dropped and the flag lowered, whatever the other threads are doing |
| `Subscriptions.FmdMqttClient.ClearSubscriptions` | qml/utilities/mqtt_client.py:326-330 | nothing stays pending or confirmed |
| `Subscriptions.FmdMqttClient.RefreshConnected` | qml/utilities/mqtt_client.py:519-529 | the flag becomes what the client reports |
| `Subscriptions.FmdMqttClient.ReadConnection` | qml/utilities/mqtt_client.py:565-572 | a caller goes on to subscribe exactly if there is a client that is connected, and with that client |
| `Subscriptions.FmdMqttClient.SubscribeOn` | qml/utilities/mqtt_client.py:574-608 | a queued subscribe call leaves its message id pending for the topic; one that fails leaves nothing |
| `Subscriptions.FmdMqttClient.BeginConnect` | qml/utilities/mqtt_client.py:718-748 | an accepted CONNACK raises the connected flag before the wishes are copied, a refused one lowers it; a stale callback changes nothing |
| `Subscriptions.RefusedStaysLowered` | qml/utilities/mqtt_client.py:718-748 | after a refused CONNACK the flag stays lowered for that client until a CONNACK of its own arrives, whatever else happens |
| `Subscriptions.FmdMqttClient.CopyWishes` | qml/utilities/mqtt_client.py:718-748 | the confirmations of the last connection are dropped and all wishes are taken for subscribing, in one step |
| `Subscriptions.FmdMqttClient.ConnectionLost` | qml/utilities/mqtt_client.py:750-762 | a lost connection drops pending and confirmed topics; a stale callback changes nothing |
| `Subscriptions.FmdMqttClient.HandleSubscribe` | qml/utilities/mqtt_client.py:764-788 | a SUBACK settles its own message id and confirms its topic only if granted; a stale callback changes nothing |
| `Subscriptions.FmdMqttClient.IsSubscribed` | qml/utilities/mqtt_client.py:482-491 | true exactly if no wish is unconfirmed; in a harmless run the broker has then granted every wish |
| `Subscriptions.ReplacedClientConfirmsWrongly` | qml/utilities/mqtt_client.py:565-608 | a run in which replacing the client in the middle of adding a subscription confirms a topic the broker never granted; it is not harmless |
| `ForegroundGps.Chain.StartPolling` | qml/utilities/api.py:809-820 | a new generation with one armed timer, or nothing if polling is on |
| `ForegroundGps.Chain.StopPolling` | qml/utilities/api.py:823-833 | the timer is cleared, a timer that has not fired is cancelled and no other, and the generation retires the rest |
| `ForegroundGps.Chain.CheckTick` | qml/utilities/api.py:857-864 | a tick of a retired generation is dropped |
| `ForegroundGps.Chain.FinishTick` | qml/utilities/api.py:886-894 | only a tick of the current chain arms the next one |
| `ForegroundGps.Chain.Interleave` | qml/utilities/api.py:809-894 | every interleaving is a run of the stated machine, in which at most one timer or tick carries the current generation, and none while the timer is not set |
| `ForegroundGps.OnlyOneLive` | qml/utilities/api.py:809-894 | a generation with one live member has no second one |
| `PrivSpool.Spool.ClientTakesStep` | daemon-rpm/src/priv_client.py:88-115 | each step of queueing does what it says and keeps published files whole |
| `PrivSpool.Spool.Claim` | daemon-rpm/src/priv_service.py:186-193 | a claimed request has left the listing for good and had not been started |
| `PrivSpool.Spool.Process` | daemon-rpm/src/priv_service.py:80-132 | an action starts with the whole request that was queued |
| `PrivSpool.Spool.ServiceRun` | daemon-rpm/src/priv_service.py:167-203 | a completed run has started exactly the listed requests that the checks accept, in the order of the listing, all of them if every operation works, and leaves none of the .json files it listed, but for requests that could not be claimed; a killed run has done so for a beginning of the listing |
| `PrivSpool.Spool.Runs` | daemon-rpm/src/priv_service.py:167-203 | over any number of runs, each killed anywhere, a request whose claiming renames never fail is started at most once; undisturbed, every published request is started |
| `SettingsGeneration.StatusFrom` | qml/utilities/fmd/runtime.py:122-141 | a positive status means a fresh heartbeat whose applied generation, if known, is the current one; of the two, "running" means that the heartbeat is active |
| `SettingsGeneration.Store.EndBump` | qml/utilities/fmd/runtime.py:65-71 | the counter goes up by one and the new generation belongs to the bumping save |
| `SettingsGeneration.Store.Read` | daemon-rpm/src/daemon_cmd.py:1171-1187 | a setting read in a cycle is as new as the save behind the cycle's generation |
| `SettingsGeneration.Store.DaemonSnapshot` | qml/utilities/fmd/runtime.py:161-185 | "running" or "deactivated": the reporting cycle's settings are as new as the save behind the current generation |
| `SettingsGeneration.Store.DaemonStatus` | qml/utilities/fmd/runtime.py:156-158 | the same although heartbeat and generation are read at different times |
| `SettingsGeneration.Store.Interleave` | daemon-rpm/src/daemon_gps.py:291-304 | saves, bumps, cycles and heartbeat stamps in any order keep every cycle up to date |

## Left out

- QoS 2 in both directions, QoS 0 messages kept in the store, keepalive, websockets, TLS and the MQTT 5 disconnect path: the application publishes with QoS 1 only, and `_handle_pubrel` counts incoming messages against the outgoing limit.
- Penalty rule 4, a floating-point percentage: a function of the matrix in `QRCodes.QRCode`, of which nothing is assumed.
- The cache of blank grids (`precomputed_qr_blanks`): a copy of it is the grid that the set-up builds.
- Kanji mode, printing and image output.
- Python's regular expressions are modelled by what the patterns of `_optimal_split` match first; a `minimum` of zero, with which the loop would not end, is required not to occur.
- `PrivSpool.Spool.Runs`: says nothing about a request whose claiming rename fails; it is processed under its .json name and can be started again if the run is killed before removing it.
- Owner, link and type checks of a spool file are one decision of the environment; file contents are whole or partial.
- Reconnection inside `loop_write` callbacks and exceptions raised by user callbacks.
- Message ids of SUBSCRIBE packets do not wrap around at 65535 in `subscriptions`.
- Settings are one version number per save; single keys, the device table and the heartbeat's clock are not modelled.
- The D-Bus, ConnMan, ofono, geoclue, GStreamer and WebDAV calls, the health-check echo, camera, ring, lock and SMS modules, QML pages and packaging: foreign calls, timing or user interface.
- Mobile data with more than one data service: the record names a single service, so the invariant is stated for one.
- Operations on the ownership record file that fail: the source logs the error and goes on; the theorems are for record files that can be written and removed.
- Closing a `FmdMqttClient` for good, health reports and publishing, but for what a failed publish does to the connected flag (`Subscriptions.FmdMqttClient.RefreshConnected`).
- The guard and the first writes of an MQTT callback are one step in `subscriptions`, as are the reads of client and flag in `_add_sub`.
- HMAC, SHA and base-N coding: library primitives.
