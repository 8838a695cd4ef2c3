# Basin packet-capture pipeline, modelled in Dafny

Basin carries network packets from a capture host to browsers and produces live
transcripts of any voice calls among them.

- **Capture side** (`Capture/`):
  - A libtins sniffer turns every packet into a *datagram* of thirteen strings: the layer-2,
    layer-3 and layer-4 addresses, the payload type and size, the payload encoding, and the
    payload as Base64 or hex.
  - A second thread drains the datagram queue. It writes each datagram with `XADD` to one or
    two Redis streams, chosen from its addresses, and then trims with `XTRIM`.
- **Redis stream reader** (`redis-stream.js`):
  - One poller per key, with a cursor that only moves forward.
  - Two read shapes: blocking at first, then polling.
- **Stream manager**, in the stream server and the front end (`stream-manager.js`):
  - Decodes each stream entry back into a record and extracts the RTP header from a UDP
    payload.
  - Sends the voice bytes to the inbound or outbound speech forwarder, chosen by which address
    the stream key names.
  - Emits `NETWORK_PACKET` events, merged with the transcript events.
- **Speech forwarder** (`google-speech.js`):
  - Keeps a speech-recognition session open.
  - Measures each chunk's median loudness and counts silent chunks.
  - Its voice cache always stays empty. A dead session is reopened before the chunk is handled,
    so the push at `StreamServer/api/google-speech.js:75-77` is never reached.
- **WebSocket gateway** (`server.js`):
  - Parses the query of each client.
  - Runs a small flag machine over the recognizer's events and caches voice while an utterance
    is closing.
  - Filters fields out of each record, sends the JSON message, and keeps the connection lists.

The model keeps the source's form:
- Pure decoding and encoding are functions with lemmas.
- Loops are methods with invariants, proved against those functions.
- Objects whose fields the code updates are classes: the parser and its queue, the stream
  reader and its cache, the composed-stream cache, the stream manager, the speech forwarder, a
  gateway connection and the server's lists.

Bytes are integers in `0..255`. JavaScript values are strings or numbers, where a number is
finite or `NaN`. A record is a map from names to values or to sub-records.

Where the code departs from RFC 3550, from RFC 4648 or from its own comments, the model
follows the code. The quirks are kept and stated as lemmas:
- The outbound transcript tag is the string `GOOGLE_SPEECH_IN`.
- A hex payload throws. Its branch assigns `rtp.payload.encoding_type`, and `rtp.payload` is
  undefined at that point.
- The trim command names the stream `test-stream`. With the default prefix `stream/`, no write
  of the batch uses it. Another prefix can make them meet: prefix `test-`, no division and the
  default stream `stream` write to `test-stream` too.
- The RTP payload type is read as `(byte1 & 0x7F) >> 1`
  (`StreamServer/api/stream-manager.js:115`, `FrontEnd/stream-manager.js:123`). That is half the
  7-bit field of RFC 3550, so a serialised packet's type comes back halved.
- The RTP extension length is read as a byte count that includes the extension's 4-byte head.
  RFC 3550 counts 32-bit words after the head, so an RFC extension is misread.
- The stream manager builds its forwarders without a callback.
- The gateway keeps one global `websocket`, the latest one.
- A closing web connection assigns the filtered list to a global instead of shrinking the
  server's list.

## Model

| member | source | states |
|---|---|---|
| Text.DigitChar | Capture/parser/parser.cpp:34 | the character of a decimal digit is a digit whose code is `'0'` plus its value |
| Text.DecimalRoundTrip | Capture/parser/parser.cpp:34 | the decimal text of a number (`std::to_string`) is a non-empty digit string, has no leading zero, and reads back as the number |
| Text.DecimalInjective | Capture/parser/parser.cpp:34 | distinct numbers have distinct decimal texts |
| Text.DigitsExclude | StreamServer/api/redis-stream.js:38-39 | a digit string contains no separator such as `-` or `$` |
| Text.ToLowerAscii | StreamServer/api/server.js:71-72 | lower-casing keeps the length and maps exactly `A`-`Z` to `a`-`z` |
| Text.SplitJoin | StreamServer/api/server.js:71-72 | `split(',')` yields pieces that contain no comma and join back to the original text |
| Text.SplitNoSep | StreamServer/api/redis-stream.js:38 | text without the separator splits into itself alone |
| Text.SplitAtSep | StreamServer/api/redis-stream.js:38 | splitting at the first separator yields the part before it, followed by the split of the rest |
| Text.ReplaceFirst | StreamServer/api/redis-stream.js:39 | replacing the first `$` leaves a text without `$` unchanged |
| Text.ToNumber | StreamServer/api/stream-manager.js:61-63 | `Number(text)` is finite exactly for a digit string, and the empty text is zero |
| Text.ToNumberDecimal | StreamServer/api/stream-manager.js:61-63 | `Number` of a decimal text is that number |
| Text.LexLeTotal | StreamServer/api/google-speech.js:112 | the default sort order (strings compared code unit by code unit) is total |
| Text.LexLeTransitive | StreamServer/api/google-speech.js:112 | the default sort order is transitive |
| Text.LexLeAntisymmetric | StreamServer/api/google-speech.js:112 | the default sort order is antisymmetric |
| JsArray.IndexOf | StreamServer/api/google-speech.js:35 | `indexOf` is -1 exactly when the element is absent, and otherwise the first position holding it |
| JsArray.SpliceOne | StreamServer/api/server.js:62 | `splice(start, 1)` with a negative start counts from the end, and the length drops by one exactly when the start lands on an element |
| JsArray.SpliceAt | StreamServer/api/server.js:62 | splicing at a valid index removes exactly that element, and the rest keep their order |
| JsArray.SpliceFound | StreamServer/api/google-speech.js:35 | splicing at `indexOf(x)` for a present `x` removes its first occurrence |
| JsArray.SpliceMissing | StreamServer/api/google-speech.js:35 | splicing at `indexOf(x)` for an absent `x` removes the last element instead |
| JsArray.RemoveLastOccurrence | StreamServer/api/google-speech.js:37 | `removeListener` takes out exactly the most recently added copy of a present listener, keeping the others in order, and leaves the list alone otherwise |
| JsArray.LastIndexOf | StreamServer/api/google-speech.js:37 | the last position holding the element, with no copy after it, or -1 exactly when the element is absent |
| Message.Truthy | StreamServer/api/server.js:289 | defines JavaScript truthiness of a stored value: non-empty text, or a finite non-zero number |
| Message.TruthyField | StreamServer/api/stream-manager.js:90 | defines the truthiness of a property that may be missing: a missing one is falsy, and a sub-record or header always truthy |
| Encoding.Base64Length | Capture/parser/parser.cpp:388-425 | Base64 text is four characters for every started three-byte group |
| Encoding.Base64Append | Capture/parser/parser.cpp:388-425 | Base64 of a whole number of groups followed by more bytes is the concatenation of their encodings |
| Encoding.EmittedIsBase64 | Capture/parser/parser.cpp:388-425 | the characters the byte-at-a-time encoder emits, padding included, are exactly the Base64 text |
| Encoding.EncodeBase64 | Capture/parser/parser.cpp:388-425 | the encoding loop returns the Base64 text of its input |
| Encoding.SextetOfTable | Capture/parser/parser.cpp:390 | every alphabet character decodes to its own index and is not the pad `=` |
| Encoding.SextetsAreCut24 | Capture/parser/parser.cpp:393-421 | the shifts and masks on three bytes cut their 24-bit value into four sextets |
| Encoding.SextetsPadded | Capture/parser/parser.cpp:399-413 | the short final groups use the full-group sextets of zero-padded bytes |
| Encoding.Base64RoundTrip | Capture/parser/parser.cpp:388-425 | decoding the Base64 text gives back the bytes, which is what `Buffer.from(…, 'base64')` relies on |
| Encoding.Hex | Capture/parser/parser.cpp:374-386 | hex text is two characters per byte |
| Encoding.HexAppend | Capture/parser/parser.cpp:374-386 | one more byte appends its two hex digits |
| Encoding.EncodeHex | Capture/parser/parser.cpp:374-386 | the hex loop returns the hex text of its input |
| Encoding.HexRoundTrip | Capture/parser/parser.cpp:374-386 | decoding the hex text gives back the bytes |
| Encoding.Uint16At | Capture/parser/parser.cpp:427-430 | a big-endian 16-bit read is below 2^16 |
| Encoding.Uint32At | Capture/parser/parser.cpp:432-434 | a big-endian 32-bit read is below 2^32 |
| Encoding.Uint16RoundTrip | Capture/parser/parser.cpp:427-430 | a 16-bit number written big-endian anywhere reads back as itself |
| Encoding.Uint32RoundTrip | Capture/parser/parser.cpp:432-434 | a 32-bit number written big-endian anywhere reads back as itself |
| Encoding.Base64 | Capture/parser/parser.cpp:388-425 | defines standard Base64: three bytes to four characters, a short final group padded with `=` (its length and round trip are `Base64Length` and `Base64RoundTrip`) |
| Encoding.Emitted | Capture/parser/parser.cpp:388-425 | defines what the byte-at-a-time encoder has emitted after `i` bytes, padding included once the last byte is in |
| Encoding.Base64Decode | StreamServer/api/stream-manager.js:99 | defines `Buffer.from(text, 'base64')` on the well-formed text the capture side writes |
| Encoding.HexDecode | StreamServer/api/stream-manager.js:102 | defines `Buffer.from(text, 'hex')`: hex digit pairs of either case up to the first pair that is not one |
| CaptureParser.DefaultConfig | Capture/parser/parser.hpp:12-15 | payloads are converted to Base64 unless configured otherwise |
| CaptureParser.Fields | Capture/parser/parser.hpp:17-35 | a datagram is thirteen strings |
| CaptureParser.EmptyDatagram | Capture/parser/parser.cpp:19 | a fresh datagram has every field empty |
| CaptureParser.KindName | Capture/parser/parser.cpp:257-372 | every PDU kind the parser handles has a non-empty name starting with a capital letter |
| CaptureParser.UnlistedNamesDistinct | Capture/parser/parser.cpp:369-370 | an unlisted PDU type's name, `unknown_type_` followed by its decimal value, names no other type |
| CaptureParser.PayloadFields | Capture/parser/parser.cpp:22-237 | the payload type is the layer's name and the size is its length in decimal; the encoding and text are Base64 by default, hex when configured, and empty for Ethernet II under hex |
| CaptureParser.PayloadOrder | Capture/parser/parser.cpp:16-237 | eight layers are tried for the payload, from transport down to link |
| CaptureParser.FirstRawFromIsFirst | Capture/parser/parser.cpp:16-237 | the search returns the first layer carrying raw bytes, or none when no layer from that point on does |
| CaptureParser.PayloadSourceIsFirst | Capture/parser/parser.cpp:16-237 | the payload comes from the outermost-first layer that carries raw bytes, and is absent exactly when none does |
| CaptureParser.PayloadFieldsOfFirst | Capture/parser/parser.cpp:16-237 | the datagram's payload type is empty exactly when no layer carries bytes, and otherwise names that layer and gives its size |
| CaptureParser.EthernetHexPayload | Capture/parser/parser.cpp:227-229 | under hex, an Ethernet II payload gets a type and size but no encoding and no text |
| CaptureParser.UdpDatagram | Capture/parser/parser.cpp:50-77 | a UDP packet's datagram holds its ports in decimal, and its payload as UDP bytes, sized and Base64-encoded |
| CaptureParser.Parser.constructor | Capture/parser/parser.cpp:9-14 | the parser keeps its configuration and the shared queue |
| CaptureParser.Parser.SetPayload | Capture/parser/parser.cpp:22-47 | one layer's payload branch fills the four payload fields as `PayloadFields` says and nothing else |
| CaptureParser.Parser.ParseTransport | Capture/parser/parser.cpp:22-129 | the transport branches fill the layer-4 fields and the payload of the first transport layer carrying bytes |
| CaptureParser.Parser.ParseLower | Capture/parser/parser.cpp:132-237 | the IP, ARP and Ethernet branches fill the layer-2 and layer-3 fields, and the payload only when no upper layer set it |
| CaptureParser.Parser.Parse | Capture/parser/parser.cpp:16-255 | parsing always succeeds and appends exactly the packet's datagram to the queue |
| CaptureParser.PduTypeName | Capture/parser/parser.cpp:257-372 | every PDU type has a non-empty name, which starts with a capital letter exactly for the listed kinds (an unlisted type is named `unknown_type_` followed by its decimal value) |
| CaptureParser.DatagramOf | Capture/parser/parser.cpp:16-255 | the payload type is empty exactly when no layer carries bytes, the layer-3 type is empty exactly when there is no IP layer, and the layer-2 source is empty without an Ethernet layer |
| CaptureMain.DefaultOptions | Capture/main.cpp:30-38 | the stream options default to dividing by IP, a maximum length of 10000, the prefix `stream/`, the default stream `default` and database 0 |
| CaptureMain.FieldNames | Capture/main.cpp:204-217 | an XADD names thirteen fields |
| CaptureMain.Interleave | Capture/main.cpp:204-217 | names and values alternate, name first |
| CaptureMain.XaddFields | Capture/main.cpp:204-217 | the XADD field list pairs each field name with the datagram's field in order |
| CaptureMain.Args | Capture/main.cpp:204 | an XADD command is `XADD key *` followed by the 26 field words |
| CaptureMain.XaddsTo | Capture/main.cpp:112-147 | one XADD of the datagram per chosen key, in order |
| CaptureMain.DividedKeysCover | Capture/main.cpp:112-147 | each non-empty address gets a stream under the prefix; a missing address sends the datagram to the default stream; two empty addresses mean one write |
| CaptureMain.StreamKeysBounds | Capture/main.cpp:110-152 | every datagram is written to one or two streams, all under the prefix |
| CaptureMain.SameAddressWrittenTwice | Capture/main.cpp:130-147 | a datagram whose source and destination match is written twice to the same stream |
| CaptureMain.WritesAppend | Capture/main.cpp:106-158 | the writes for one more datagram follow the writes for those before it |
| CaptureMain.WritesCover | Capture/main.cpp:106-158 | every datagram reaches each of its streams, with at most two writes each |
| CaptureMain.XaddKeysHavePrefix | Capture/main.cpp:106-158 | the drain loop writes only XADDs, and only to prefixed streams |
| CaptureMain.TrimMissesWrittenStreams | Capture/main.cpp:159-163 | with the default prefix, the closing XTRIM trims `test-stream`, which no XADD of the batch ever writes |
| CaptureMain.ReplyCountBounds | Capture/main.cpp:97-189 | the number of replies read (`cnt`) covers the SELECT, one or two writes per datagram and the optional trim |
| CaptureMain.FlushBatch | Capture/main.cpp:97-165 | one batch is the SELECT, the writes and the optional trim, and `cnt` counts them |
| CaptureMain.WriteQueue | Capture/main.cpp:106-158 | draining the queue sends exactly the writes of its datagrams, in order |
| CaptureMain.WriteDatagram | Capture/main.cpp:110-152 | one popped datagram is written to exactly its streams |
| CaptureMain.WriteDivided | Capture/main.cpp:112-147 | the divided write targets the source stream and the destination stream, falling back to the default stream |
| CaptureMain.Forward | Capture/main.cpp:94-193 | a forwarding round empties the parser's queue and sends that queue's batch |
| CaptureMain.DividedKeys | Capture/main.cpp:112-147 | dividing by IP chooses one or two stream keys |
| CaptureMain.StreamKeys | Capture/main.cpp:110-152 | every datagram is sent to one or two streams |
| CaptureMain.Writes | Capture/main.cpp:106-158 | defines the XADDs of a queue, datagram by datagram in order (their count and coverage are `WritesCover`) |
| CaptureMain.BatchCommands | Capture/main.cpp:97-165 | a batch sends nothing exactly for an empty queue; otherwise it starts with the SELECT of the database and, when a maximum length is set, ends with the trim |
| PacketDecoder.Initial | StreamServer/api/stream-manager.js:47-52 | a record starts with four empty sub-records: `layer_2`, `layer_3`, `layer_4` and `payload` |
| PacketDecoder.SubRecordOf | StreamServer/api/stream-manager.js:65-76 | a field name belongs to the sub-record whose name and underscore prefix it, or to none |
| PacketDecoder.Convert | StreamServer/api/stream-manager.js:61-63 | a value becomes a number exactly when its name ends in `size` or `port`, and stays its text otherwise |
| PacketDecoder.Decode | StreamServer/api/stream-manager.js:44-80 | the decoding loop builds the record that the name/value pairs define |
| PacketDecoder.StoreField | StreamServer/api/stream-manager.js:56-76 | one pair is stored where its name says, converted as its name says |
| PacketDecoder.DecodeUpToPrefix | StreamServer/api/stream-manager.js:53-77 | the record after `m` pairs depends only on those pairs |
| PacketDecoder.OddTailIgnored | StreamServer/api/stream-manager.js:53 | a trailing name without a value is ignored |
| PacketDecoder.SameSlot | StreamServer/api/stream-manager.js:65-73 | two names landing in the same slot of the same sub-record are the same name |
| PacketDecoder.StoreKeepsMember | StreamServer/api/stream-manager.js:65-76 | storing another field leaves a sub-record member alone |
| PacketDecoder.SubRecordKept | StreamServer/api/stream-manager.js:65-76 | a sub-record survives unless a field carries exactly its name |
| PacketDecoder.DecodedTopLevel | StreamServer/api/stream-manager.js:74-76 | an unprefixed field's last value lands at the top level, converted |
| PacketDecoder.DecodedInSubRecord | StreamServer/api/stream-manager.js:65-73 | a prefixed field's last value lands in its sub-record under its unprefixed name, converted |
| PacketDecoder.DecodedKeys | StreamServer/api/stream-manager.js:47-77 | when every field is prefixed, the record has just the four sub-records |
| PacketDecoder.Put | StreamServer/api/stream-manager.js:65-73 | defines `data[sub][name] = v`: the write lands in the sub-record, and is lost when a top-level field has replaced the sub-record by a primitive |
| PacketDecoder.Store | StreamServer/api/stream-manager.js:65-76 | defines where one field goes: under its sub-record without the prefix, or at the top level |
| PacketDecoder.StoreKeys | StreamServer/api/stream-manager.js:65-76 | storing a field adds a top-level name only for an unprefixed field |
| PacketDecoder.DecodeUpTo | StreamServer/api/stream-manager.js:53-77 | defines the record after the first `m` pairs, stored in order |
| PacketDecoder.Decoded | StreamServer/api/stream-manager.js:44-80 | defines the decoded record: half the field count, rounded down, of pairs are read |
| PacketDecoder.SubRecordKeysKept | StreamServer/api/stream-manager.js:47-77 | the four sub-record names stay in the record whatever the fields are |
| Rtp.HeaderEnd | StreamServer/api/stream-manager.js:108-164 | the header length is at least twelve and within the packet |
| Rtp.ExtractHeader | StreamServer/api/stream-manager.js:108-178 | the extraction steps return the header and voice the layout defines, or nothing |
| Rtp.FixedStep | StreamServer/api/stream-manager.js:108-124 | the fixed header is accepted exactly for twelve or more bytes of version 2, and its fields are the bit slices and big-endian words of the RFC 3550 layout, except the payload type, which is `(byte1 & 0x7F) >> 1`, half the RFC's 7-bit field |
| Rtp.CsrcStep | StreamServer/api/stream-manager.js:127-140 | the CSRC step accepts exactly when the CSRC bytes fit, extending the header by four bytes per CSRC |
| Rtp.ExtensionStep | StreamServer/api/stream-manager.js:143-164 | the extension step accepts exactly when the extension fits and is not empty, extending the header by its length word |
| Rtp.ParseRtp | StreamServer/api/stream-manager.js:82-183 | the RTP step is skipped, throws, or attaches the header and yields the voice, as the record says |
| Rtp.ExtractedLayout | StreamServer/api/stream-manager.js:108-178 | an accepted packet is version 2, and its header length adds up its parts; the voice is the non-empty rest, and the header's payload is that voice in Base64 |
| Rtp.AttachedWithVoice | StreamServer/api/stream-manager.js:180-182 | a record gains an `rtp` header, whose payload is the voice's Base64, exactly when voice is yielded, and is otherwise unchanged |
| Rtp.HexThrows | StreamServer/api/stream-manager.js:101 | a hex payload makes the step throw, because it assigns through `rtp.payload`, which is undefined |
| Rtp.UnknownEncodingSkipped | StreamServer/api/stream-manager.js:90-106 | a payload in an unknown encoding passes unchanged, with no voice |
| Rtp.DisabledSkipped | StreamServer/api/stream-manager.js:90 | with RTP parsing off, every record passes unchanged |
| Rtp.ZeroExtensionRejected | StreamServer/api/stream-manager.js:155-157 | an extension whose length word is zero invalidates the packet |
| Rtp.NoVoiceRejected | StreamServer/api/stream-manager.js:167-170 | a packet that is all header yields nothing |
| Rtp.FixedBytes | StreamServer/api/stream-manager.js:108-124 | a serialised fixed header is twelve bytes |
| Rtp.FixedFieldsRead | StreamServer/api/stream-manager.js:108-124 | the fixed fields read back from a serialised packet |
| Rtp.ExtensionWordsRead | StreamServer/api/stream-manager.js:143-164 | the extension's id and length word read back from a serialised packet |
| Rtp.SerializedAccepted | StreamServer/api/stream-manager.js:108-178 | a serialised packet whose length words follow the code's reading is accepted |
| Rtp.ExtractSerialized | StreamServer/api/stream-manager.js:108-178 | extracting a serialised packet recovers its fields and the voice as the code reads them |
| Rtp.CodeLayoutRoundTrip | StreamServer/api/stream-manager.js:108-178 | when the extension length counts bytes including its 4-byte head, the extractor returns exactly the voice that was sent |
| Rtp.RfcLayoutMisread | StreamServer/api/stream-manager.js:153-164 | an RFC 3550 extension, whose length counts 32-bit words after the head, is misread: voice comes back, but with extension bytes left at its front |
| Rtp.Attempted | StreamServer/api/stream-manager.js:90 | defines the guard of the RTP step: parsing on, and a truthy payload of type `UDP` with a positive size |
| Rtp.ConversionOf | StreamServer/api/stream-manager.js:97-106 | a buffer is built only from a Base64 payload; no buffer is built exactly when the encoding is neither `base64` nor `hex`, and `hex` throws |
| Rtp.Extract | StreamServer/api/stream-manager.js:108-178 | an accepted packet yields non-empty voice, which is the tail of the packet after at least twelve header bytes |
| Rtp.RtpStep | StreamServer/api/stream-manager.js:82-183 | with parsing off the record passes unchanged; otherwise at most the `rtp` field changes, and voice is yielded only non-empty and with an `rtp` field |
| StreamManager.Route | StreamServer/api/stream-manager.js:189-194 | voice is inbound exactly when the key names the destination, else outbound exactly when it names the source, else unrouted |
| StreamManager.InboundWins | FrontEnd/stream-manager.js:199-209 | a key naming both addresses routes inbound |
| StreamManager.PacketEvent | StreamServer/api/stream-manager.js:185-203 | a packet event carries the `NETWORK_PACKET` tag, the entry id as timestamp, and exactly the stepped record, without the voice |
| StreamManager.TranscriptEvent | StreamServer/api/stream-manager.js:207-225 | a transcript becomes an event only when both forwarders exist, and both directions are tagged `GOOGLE_SPEECH_IN` |
| StreamManager.PresentMembers | StreamServer/api/stream-manager.js:209-226 | dropping the null placeholders keeps exactly the events that are there |
| StreamManager.SpeechDisabledSilent | StreamServer/api/stream-manager.js:228-230 | with speech off, no transcript event is ever emitted |
| StreamManager.TranscriptsTaggedInbound | StreamServer/api/stream-manager.js:207-226 | with speech on, every transcript of either direction is emitted, tagged inbound, as if `fromEvent` accepted the forwarders (as written, the stream fails on subscription; see Left out) |
| StreamManager.ComposedCache.constructor | StreamServer/api/stream-manager.js:18 | the composed-stream cache starts empty |
| StreamManager.ComposedCache.ObserveAllStream | StreamServer/api/stream-manager.js:20-34 | a cached key returns its stream unchanged, and a new key builds one stream and caches it |
| StreamManager.ComposedCache.Finalize | StreamServer/api/stream-manager.js:28-30 | finalising a stream removes only its key |
| StreamManager.StreamManager.Shared | StreamServer/api/stream-manager.js:9-16 | with speech enabled, both forwarders are built with a missing callback and no session; the cache is the module's |
| StreamManager.StreamManager.Owned | FrontEnd/stream-manager.js:9-22 | the front end's manager does the same, with a fresh cache of its own |
| StreamManager.StreamManager.ProcessEntry | StreamServer/api/stream-manager.js:36-204 | an entry is decoded and RTP-stepped; its voice goes to the forwarder the key selects, which receives exactly that chunk (counter, cache and session as `sendChunk` leaves them), and no other forwarder changes; the event is emitted unless the step or the forwarder throws. With speech on, this holds as if `fromEvent` accepted the forwarders: as written, no entry reaches a forwarder (see Left out) |
| StreamManager.KeyIncludes | StreamServer/api/stream-manager.js:190-192 | defines `key.includes(v)`, where a number is searched for as its decimal text |
| StreamManager.AddressIn | StreamServer/api/stream-manager.js:189-194 | defines the address test: the address is set, truthy and contained in the key |
| StreamManager.ChunkFor | StreamServer/api/stream-manager.js:187-196 | voice is routed only when RTP parsing and speech are both on, and a routed chunk is never empty |
| StreamManager.Present | StreamServer/api/stream-manager.js:209-226 | dropping the nulls never lengthens the list |
| Speech.DefinedPrefix | StreamServer/api/google-speech.js:52-54 | listeners are attached up to the first missing callback, where `on` throws |
| Speech.DefinedPrefixUnique | StreamServer/api/google-speech.js:52-54 | that attached prefix is the only one meeting its description |
| Speech.Insert | StreamServer/api/google-speech.js:112 | inserting into a sorted list adds exactly that element |
| Speech.SortByText | StreamServer/api/google-speech.js:112 | `sort()` with no comparator permutes its input |
| Speech.InsertSorted | StreamServer/api/google-speech.js:112 | insertion keeps a list sorted by text |
| Speech.SortByTextSorted | StreamServer/api/google-speech.js:112 | `sort()` yields a permutation ordered by the numbers' decimal texts |
| Speech.TwiceMedian | StreamServer/api/google-speech.js:110-118 | the median is defined exactly for a non-empty chunk |
| Speech.EmptyChunkLoud | StreamServer/api/google-speech.js:67-71 | an empty chunk's median is `NaN`, which is not below the threshold, so it counts as loud |
| Speech.TextOrderSort | StreamServer/api/google-speech.js:112 | `[9, 100, 1000]` sorts as `[100, 1000, 9]` |
| Speech.TextOrderMedian | StreamServer/api/google-speech.js:110-118 | so its median is 1000, not 100 |
| Speech.MiddleOfThree | StreamServer/api/google-speech.js:114-115 | the median of three is the middle element of the text-sorted list |
| Speech.TextOrderLoud | StreamServer/api/google-speech.js:65-71 | a chunk whose numeric median (100) is below the threshold of 200 still counts as loud |
| Speech.CounterCountsQuietRun | StreamServer/api/google-speech.js:67-71 | the silence counter is the length of the final run of quiet chunks, added to the start value when every chunk was quiet |
| Speech.SilenceRun | StreamServer/api/google-speech.js:67-71 | from zero, the counter is `n` exactly when the last `n` chunks were quiet and the one before was not |
| Speech.GoogleSpeech.constructor | StreamServer/api/google-speech.js:17-25 | a forwarder starts with its one callback, no session, an empty cache and a zero counter |
| Speech.GoogleSpeech.RegisterCallback | StreamServer/api/google-speech.js:27-32 | the callback is appended and attached to any existing session, even an ended or destroyed one, which throws for a missing callback |
| Speech.GoogleSpeech.UnregisterCallback | StreamServer/api/google-speech.js:34-39 | the callback list is spliced at `indexOf` (its last element when the callback is absent) and the listener is detached from any existing session, even an ended or destroyed one |
| Speech.GoogleSpeech.OnSessionError | StreamServer/api/google-speech.js:46-51 | a session error drops all listeners and destroys the session |
| Speech.GoogleSpeech.OpenSession | StreamServer/api/google-speech.js:44-54 | a new session gets the attached callbacks, and throws if one is missing |
| Speech.GoogleSpeech.SendChunk | StreamServer/api/google-speech.js:41-94 | a dead session is reopened; a chunk updates the counter by its median, flushes the cache, and is written or ends the session at the 50th quiet chunk |
| Speech.GoogleSpeech.FlushCache | StreamServer/api/google-speech.js:79-82 | the cache is written out in order and emptied |
| Speech.Quiet | StreamServer/api/google-speech.js:65-71 | a chunk is quiet only when it has samples and its median is below the threshold |
| Speech.NextCounter | StreamServer/api/google-speech.js:67-71 | the counter resets to zero exactly on a loud chunk and grows on a quiet one |
| Speech.Fresh | StreamServer/api/google-speech.js:44-54 | a new session is live, has nothing written, and listens to at most the registered callbacks |
| Speech.Current | StreamServer/api/google-speech.js:42-55 | the session a chunk goes to is always live: a missing, ended or destroyed one is replaced |
| Speech.Delivered | StreamServer/api/google-speech.js:75-89 | writing keeps the listeners and the destroyed flag, writes the cache first and in order, then the chunk unless the 50th quiet chunk ends the session instead |
| Gateway.QueryLastWins | StreamServer/api/server.js:69 | a repeated query name keeps its last value |
| Gateway.QueryNames | StreamServer/api/server.js:69 | the query object has exactly the names that occur |
| Gateway.Tokens | StreamServer/api/server.js:71-72 | a non-empty query value becomes its lower-cased comma pieces, and an empty or missing one becomes null |
| Gateway.ReadQuery | StreamServer/api/server.js:68-72 | `key` is the non-empty query value or null; `parse` and `filter` are token lists |
| Gateway.MarkRtpNoEffect | StreamServer/api/server.js:162-164 | `parse['rtp'] = 1` sets a property, never an element, so `includes('rtp')` is unchanged |
| Gateway.FilterKeeps | StreamServer/api/server.js:286-293 | a field survives the filter exactly when it is not named or is falsy, and keeps its value |
| Gateway.ApplyFilter | StreamServer/api/server.js:286-293 | the filter loop deletes the named truthy fields |
| Gateway.DropsNeedBoth | StreamServer/api/server.js:106-112 | each session drop needs an end-of-utterance and a final result |
| Gateway.FlagsNeverBoth | StreamServer/api/server.js:106-112 | after every event that does not throw, the two flags are never both set (a result without alternatives throws at line 102 and can leave both set) |
| Gateway.VoicedKeepsOrder | StreamServer/api/server.js:259-281 | voice reaches the session in arrival order, cached only while an utterance is ending |
| Gateway.RealtimeTextNeedsRtp | StreamServer/api/server.js:166 | without `rtp` in `parse`, no voice is forwarded, even with realtime text asked for |
| Gateway.Connection.constructor | StreamServer/api/server.js:70-80 | a connection starts with clear flags, no session and an empty cache |
| Gateway.Connection.OnSpeechData | StreamServer/api/server.js:91-114 | the speech callback raises the flags, drops the session when both are set, and throws on a result without alternatives |
| Gateway.Connection.OnVoice | StreamServer/api/server.js:259-281 | voice opens a session if needed, and is cached or flushed with the cache, as the flag says |
| Gateway.Connection.OnEntry | StreamServer/api/server.js:130-296 | an entry yields the decoded, RTP-stepped, filtered message, and forwards its voice when realtime text is on |
| Gateway.Without | StreamServer/api/server.js:44 | filtering a connection out keeps every other member |
| Gateway.Server.constructor | StreamServer/api/server.js:16-26 | the server starts with empty lists and no socket |
| Gateway.Server.OnWebConnection | StreamServer/api/server.js:42-43 | a web connection is appended |
| Gateway.Server.OnWebClose | StreamServer/api/server.js:44 | a close assigns the filtered list to the global `connections` and leaves the server's list as it was |
| Gateway.Server.OnWsConnection | StreamServer/api/server.js:52-128 | the socket becomes the global `websocket` and is appended; the connection reads its query and is closed exactly when it has no key |
| Gateway.Server.OnWsClose | StreamServer/api/server.js:57-63 | any close splices at the index of the latest socket, not the one closing |
| Gateway.Server.Deliver | StreamServer/api/server.js:130-296 | the message goes to the latest socket, and nothing is sent when building it throws; the connection's `parse` is marked, its flags are kept, and its session and voice cache change exactly as `Voiced` says when the entry has voice to feed, and not otherwise |
| Gateway.CloseRemovesLatest | StreamServer/api/server.js:62 | a socket closing while another is latest stays listed, and the latest one is removed |
| Gateway.QueryMap | StreamServer/api/server.js:69 | defines the query object: parameters folded in order, a later name replacing an earlier one |
| Gateway.MarkRtp | StreamServer/api/server.js:162-164 | defines `parse[FLAG_RTP] = 1` as a property of the array, set when realtime text is asked for |
| Gateway.Filtered | StreamServer/api/server.js:286-293 | filtering only ever removes fields |
| Gateway.FlagStep | StreamServer/api/server.js:91-112 | the session is dropped exactly when both flags are set after the event, and dropping clears both |
| Gateway.Voiced | StreamServer/api/server.js:259-281 | defines one voice chunk: cached while the end flag is set, otherwise written after the cached ones |
| Gateway.Outgoing | StreamServer/api/server.js:130-296 | a message is missing only when RTP parsing is asked for (the hex throw), and otherwise carries the entry id as timestamp |
| Gateway.VoiceFor | StreamServer/api/server.js:166-281 | voice is fed only when both `rtp` and realtime text are asked for, and is never empty |
| RedisStream.SplitIdText | StreamServer/api/redis-stream.js:38 | an id `ms-seq` splits into its two decimal parts |
| RedisStream.AdoptsInOrder | StreamServer/api/redis-stream.js:41-46 | a new id is adopted exactly when it is later, by millisecond and then sequence |
| RedisStream.NoDollarInId | StreamServer/api/redis-stream.js:39 | replacing `$` leaves a real id unchanged |
| RedisStream.AdoptsFromStart | StreamServer/api/redis-stream.js:39-41 | from `$` any id after `0-0` is adopted, and an empty cursor adopts anything |
| RedisStream.Step | StreamServer/api/redis-stream.js:37-47 | the cursor after an entry is no earlier than it was, nor than the entry |
| RedisStream.AdvanceRendered | StreamServer/api/redis-stream.js:37-47 | the string cursor follows the numeric position |
| RedisStream.Ids | StreamServer/api/redis-stream.js:36 | one id per entry |
| RedisStream.AdvanceAllRendered | StreamServer/api/redis-stream.js:34-47 | over a batch, the string cursor follows the numeric position |
| RedisStream.StepAllIsMaximum | StreamServer/api/redis-stream.js:37-47 | after a batch, the position is no earlier than its start or than any entry |
| RedisStream.CursorIsMaximum | StreamServer/api/redis-stream.js:37-47 | the cursor after a batch is the greatest id seen, never moving back |
| RedisStream.ReadArgs | StreamServer/api/redis-stream.js:27-33 | from `$` it blocks indefinitely for 100 entries; from a real id it polls for 10 ms for 10000 |
| RedisStream.PollAfterAdoption | StreamServer/api/redis-stream.js:28-32 | once an id is adopted, reads switch to the polling shape |
| RedisStream.EntryIds | StreamServer/api/redis-stream.js:36-38 | the ids of entries, position by position |
| RedisStream.AdvanceAllAppend | StreamServer/api/redis-stream.js:37-47 | advancing over two batches is advancing over their concatenation |
| RedisStream.FlattenOneMore | StreamServer/api/redis-stream.js:35-36 | flattening one more stream appends its entries |
| RedisStream.StreamReader.constructor | StreamServer/api/redis-stream.js:22-24 | a reader starts open, at its start id |
| RedisStream.StreamReader.Deliver | StreamServer/api/redis-stream.js:37-47 | one entry advances the cursor as the adoption rule says |
| RedisStream.StreamReader.DeliverEntries | StreamServer/api/redis-stream.js:36-47 | a batch advances the cursor over all its ids in order |
| RedisStream.StreamReader.DeliverReply | StreamServer/api/redis-stream.js:34-47 | a null reply emits nothing, and a reply emits its streams' entries flattened and advances over them |
| RedisStream.ReaderCache.constructor | StreamServer/api/redis-stream.js:16 | the reader cache starts empty |
| RedisStream.ReaderCache.Get | StreamServer/api/redis-stream.js:18-26 | a cached key returns its reader, and a new key caches a fresh reader at the start id |
| RedisStream.ReaderCache.Teardown | StreamServer/api/redis-stream.js:48-51 | teardown closes the key's reader and removes only that key |
| RedisStream.Adopts | StreamServer/api/redis-stream.js:38-46 | defines the adoption test: an empty cursor adopts any id; otherwise both ids are split at `-`, the cursor's `$` read as `0-0`, and the id must be greater in milliseconds, or equal there and greater in sequence |
| RedisStream.Advance | StreamServer/api/redis-stream.js:37-47 | the cursor after one entry is that entry's id or the old cursor, and an empty cursor always takes the id |
| RedisStream.AdvanceAll | StreamServer/api/redis-stream.js:36-47 | defines the cursor after a batch, one `do` step per id in order |
| RedisStream.AdvanceAllPicks | StreamServer/api/redis-stream.js:37-47 | the cursor after a batch is the cursor it started from or one of the batch's ids |
| Pipeline.FieldNamesDistinct | Capture/main.cpp:204-217 | the thirteen XADD field names are distinct |
| Pipeline.SubRecordOfPrefixed | StreamServer/api/stream-manager.js:65-73 | a sub-record's name and an underscore, followed by anything, select that sub-record |
| Pipeline.ConvertBySuffix | StreamServer/api/stream-manager.js:61-63 | numeric conversion depends only on the part after the prefix |
| Pipeline.XaddFieldPlaced | Capture/main.cpp:204-217 | every written field lands in its sub-record under its unprefixed name |
| Pipeline.XaddFieldValue | Capture/main.cpp:204-217 | the decoded value is the written text, or its number for ports and the size |
| Pipeline.PayloadDecoded | StreamServer/api/stream-manager.js:44-80 | a written datagram decodes to its payload type, encoding and text, and its size as a number |
| Pipeline.AddressesDecoded | StreamServer/api/stream-manager.js:44-80 | a written datagram decodes to its layer-3 addresses, which routing reads |
| Pipeline.CapturedUdpReachesRtp | StreamServer/api/stream-manager.js:90-106 | a captured UDP payload in Base64 reaches the RTP step as exactly the bytes on the wire |
| Pipeline.CapturedVoiceReachesSpeech | StreamServer/api/server.js:166-281 | an RTP packet captured in UDP reaches the gateway's speech session as its voice bytes, end to end |

## Left out

- Capture, threads, and the queue's locking: the libtins sniffer and the two threads are not
  modelled. A captured packet is a value whose layers are optional.
- libtins PDU type values: the numeric values of `PDU::PDUType` are not modelled. Unlisted types
  are named by a natural number.
- Redis I/O: the `rediscpp` stream, ioredis, replies and connection errors are left out.
  Commands are values, and replies are parameters.
- RxJS scheduling: `expand`, `merge`, `publish`, `refCount`, `takeUntil` and `fromEvent` are
  left out. Each operator chain is modelled one entry at a time. After a throw the model keeps
  handling entries, but the program does not. A throw inside an operator, such as the hex branch
  at `StreamServer/api/server.js:177` or `StreamServer/api/stream-manager.js:101`, ends the whole
  chain. In `server.js` the `finally` at lines 300-303 then closes every socket, and the
  `subscribe` at line 310 has no error handler.
- `fromEvent` on a forwarder: `GoogleSpeech` is not an event emitter, so RxJS 5's `fromEvent`
  at `StreamServer/api/stream-manager.js:210` and `:218` (and `FrontEnd/stream-manager.js:225`
  and `:235`) throws when subscribed. With speech on, the composed stream therefore fails at
  once: no transcript is emitted and no entry reaches a forwarder. The model leaves this
  failure out and describes each entry and transcript as if subscription had succeeded.
- JavaScript `Number` precision: `Number` is a double, so digit strings above 2^53 lose
  precision. The model reads digit strings exactly, so id comparisons and sizes that large are
  not rounded.
- Inherited properties: `cache[key]` at `StreamServer/api/redis-stream.js:20`,
  `StreamServer/api/stream-manager.js:22` and `FrontEnd/stream-manager.js:27` also finds
  properties of `Object.prototype`, such as the key `constructor`. The model's caches are maps
  that hold only what was stored.
- The Google Speech client: sessions are values holding their listeners and written chunks.
  Transcripts arrive as parameters.
- The mu-law decoder: `mulaw.decode` is a function parameter of the forwarder.
- Clock: `Date.now()` is a parameter.
- Console and debug logging, the heap-usage interval in `server.js`, and `stop()` are left out.
- The `sum` and `average` helpers in `google-speech.js` are unused and left out.
- `Buffer.from` leniency: the decoders are modelled as lenient as Node's, but only the round
  trips on the encoders' output (`Base64RoundTrip`, `HexRoundTrip`) are proved.
  - `Base64Decode` is defined on every text. It skips characters outside the alphabet, stops at
    the first `=`, and accepts the URL-safe `-` and `_`.
  - `HexDecode` stops at the first pair that is not two hex digits.
  - Nothing is proved about what either decoder returns for other text.
- JavaScript `Number` syntax: only decimal digit strings are read as finite numbers. Signs,
  spaces, fractions and exponents become `NaN`.
- JSON serialisation: key order and `JSON.stringify`'s text are left out. A message is the
  timestamp and the record.
- URL handling: `URLSearchParams` percent-decoding and the path regular expression are left out.
  The query is a list of name/value pairs.
- `toLowerCase`: only ASCII letters are folded.
- Non-boolean enable flags: the stream manager's enable flags are booleans.
- Speech errors: errors emitted by a session after writes are left out, apart from the error
  handler that destroys the session.
- Speech.TwiceMedian: its own contract states only when the median exists. Its value is pinned
  down by `Speech.MiddleOfThree` and the examples, not for every length.
- StreamManager.TranscriptEvent: the transcript's text is a natural-number handle, not the
  recognizer's result object.
- RedisStream.StreamReader.Deliver: models only adoption by the cursor. The `filter` of null
  replies is modelled in `DeliverReply`.
