# VR Juggler: cluster packets, swap-lock barrier, configuration text and device setup

This project models six pieces of VR Juggler in Dafny and proves properties
about them:

- **The application-data request packet** (`cluster::ApplicationDataRequest`).
  It is a 16-byte header followed by the plugin GUID and the object GUID. The
  model covers its constructor, its serialiser and its parser. They are
  written over a shared byte vector, a `vpr::BufferObjectWriter` and a
  `vpr::BufferObjectReader` (module `ClusterPackets`).
- **The application-data server** (`cluster::ApplicationDataServer`). It keeps
  a list of subscribed cluster nodes, which only grows. It rewrites the payload
  buffer for each update and recomputes the data packet's header length. It
  sends to every subscriber and marks each node whose send throws as
  disconnected (module `AppDataServer`).
- **The swap-lock TCP barrier plugin** (`cluster::SwapLockTCPPlugin`).
  - Configuration chooses the master or the slave role.
  - The master listens and admits slaves.
  - A slave connects lazily.
  - Each frame runs a one-byte barrier exchange.

  Sockets are values: a queue of unread inbound bytes and a log of what was
  written (module `SwapLock`).
- **The Java configuration reader's text helpers**
  (`VjConfig.XMLConfigIOHandler`):
  - `escapeString` and its three replacement loops over a `StringBuffer`;
  - `indexOf`;
  - `stringTokenizer`, which consumes a buffer;
  - the `parseTextValues` loop (module `XmlConfigIO`);
  - the attribute rules for ChunkDesc and PropertyDesc elements (module
    `DescAttributes`).
- **The run-time reconfiguration communicator**
  (`jccl::XMLConfigCommunicator`). It accepts a stream identifier, reads a
  stream and interprets the DOM tree recursively. The tree is a datatype and
  `buildChunkDB` is a function parameter. The effects are queued pending
  adds and removes at the ConfigManager, and commands queued on the
  connection (module `ConfigCommunicator`).
- **The MotionStar driver's configuration** (`gadget::MotionStar`). The
  integer codes of a configuration chunk map to protocols, hemispheres, bird
  formats and run modes. Every setter is refused while the device samples
  (module `MotionStarDevice`).

Shared helpers:

- `Wrappers` holds Option and Result.
- `Bytes` holds bytes, 16-byte GUIDs, the unsigned 8-, 16- and 32-bit
  truncating casts, and big-endian 32-bit encoding.
- `Text` holds Java whitespace, ASCII case folding, case-insensitive
  comparison, and the NUL-terminated view a C function gets from `c_str()`.

Classes model objects whose fields the source updates. Each such class has:

- methods with `modifies` clauses, which are proved against pure
  specification functions of the old state;
- lemmas about those functions, which state the protocol-level properties.

Calls into code outside the model are parameters of the operation that
makes them:

| Code outside the model | Stands in for it |
|---|---|
| the network | the send failures list, `ConnectOutcome`, `AcceptOutcome` |
| `recvPacket` | the `first` field of `AcceptOutcome` |
| the XML parser | a parsed tree, or None |
| `buildChunkDB` | a `ChunkBuilder` function |
| `writeObject` of the application data | the bytes it produces |
| `Input::config` and `Position::config` | two booleans |

## Model

| member | source | states |
|---|---|---|
| ClusterPackets.HeaderBytes | modules/gadgeteer/cluster/Packets/ApplicationDataRequest.cpp:59 | the serialised header is 16 bytes whose four big-endian 32-bit words decode back to type, subtype, length and reserved |
| ClusterPackets.RequestHeader | modules/gadgeteer/cluster/Packets/ApplicationDataRequest.cpp:43-48 | the request header fits in 32-bit fields and its length is the header size plus two GUIDs |
| ClusterPackets.ParseGuids | modules/gadgeteer/cluster/Packets/ApplicationDataRequest.cpp:68-75 | the two GUIDs parse reads are, concatenated, exactly the 32 bytes at the reader position |
| ClusterPackets.RequestLengthMatches | modules/gadgeteer/cluster/Packets/ApplicationDataRequest.cpp:45-65 | the serialised request is exactly as long as its header's length field |
| ClusterPackets.RequestRoundTrip | modules/gadgeteer/cluster/Packets/ApplicationDataRequest.cpp:52-75 | parsing after the header recovers the plugin GUID and the object GUID in the order serialize wrote them |
| ClusterPackets.BufferObjectWriter.WriteRaw | modules/gadgeteer/cluster/Packets/ApplicationDataRequest.cpp:62-65 | writing overwrites the vector at the current position, grows it at the end and advances the position by the written length |
| ClusterPackets.BufferObjectReader.ReadGuid | modules/gadgeteer/cluster/Packets/ApplicationDataRequest.cpp:71-74 | a GUID read returns the next 16 bytes and advances the position by 16 |
| ClusterPackets.ApplicationDataRequest.constructor | modules/gadgeteer/cluster/Packets/ApplicationDataRequest.cpp:36-51 | the GUIDs are stored unchanged; the header is RIM_PACKET / RIM_APPDATA_REQ / head size + 32 / 0; the buffer holds the serialised packet, as long as the length field |
| ClusterPackets.ApplicationDataRequest.Serialize | modules/gadgeteer/cluster/Packets/ApplicationDataRequest.cpp:52-66 | after clearing, the buffer is exactly header, plugin GUID, object GUID, a function of the fields alone, so serialising twice gives the same bytes |
| ClusterPackets.ApplicationDataRequest.Parse | modules/gadgeteer/cluster/Packets/ApplicationDataRequest.cpp:68-75 | the plugin GUID and then the object GUID are read from the reader; the header is unchanged |
| AppDataServer.ApplicationDataServer.constructor | modules/gadgeteer/plugins/ApplicationDataManager/ApplicationDataServer.cpp:43-53 | the ids are stored, the payload buffer is empty, the packet and the writer are bound to that buffer and the header length is consistent |
| AppDataServer.SendStep | modules/gadgeteer/plugins/ApplicationDataManager/ApplicationDataServer.cpp:58-88 | one more attempt adds a failure only for its own node when it fails, and a success only for its own node when it does not |
| AppDataServer.ApplicationDataServer.Send | modules/gadgeteer/plugins/ApplicationDataManager/ApplicationDataServer.cpp:58-88 | the client list is unchanged; a node is DISCONNECTED exactly when one of its sends failed, otherwise its state is untouched; each node receives the current message once per successful attempt |
| AppDataServer.SuccessesOfDistinct | modules/gadgeteer/plugins/ApplicationDataManager/ApplicationDataServer.cpp:63-86 | with no node listed twice, a client receives the update exactly once unless its own send failed, and is disconnected exactly when it failed |
| AppDataServer.NoSuccessesWithout | modules/gadgeteer/plugins/ApplicationDataManager/ApplicationDataServer.cpp:63-71 | a node that is not subscribed receives nothing from send |
| AppDataServer.ApplicationDataServer.UpdateLocalData | modules/gadgeteer/plugins/ApplicationDataManager/ApplicationDataServer.cpp:89-106 | the buffer becomes exactly the object's bytes from position 0; only the header length changes, to head size + 32 + payload size (truncated to 32 bits), and the header is re-serialised; clients are unchanged |
| AppDataServer.ApplicationDataServer.AddClient | modules/gadgeteer/plugins/ApplicationDataManager/ApplicationDataServer.cpp:108-117 | exactly the given node is appended at the end of the client list and nothing else changes |
| SwapLock.ConfigCanHandle | modules/gadgeteer/plugins/SwapLockTCPPlugin/SwapLockTCPPlugin.cpp:146-159 | an element is handled exactly when its id is "swap_lock_tcp_plugin" |
| SwapLock.ConfigRemove | modules/gadgeteer/plugins/SwapLockTCPPlugin/SwapLockTCPPlugin.cpp:124-138 | removal succeeds exactly for the elements the plugin handles |
| SwapLock.Signalled | modules/gadgeteer/plugins/SwapLockTCPPlugin/SwapLockTCPPlugin.cpp:294-305 | a drained socket has no unread bytes and one SYNC_SIGNAL byte appended to its output |
| SwapLock.Received | modules/gadgeteer/plugins/SwapLockTCPPlugin/SwapLockTCPPlugin.cpp:370-376 | a one-byte receive consumes the first byte if there is one and otherwise changes nothing |
| SwapLock.FirstTimeout | modules/gadgeteer/plugins/SwapLockTCPPlugin/SwapLockTCPPlugin.cpp:318-326 | the index of the first client with nothing to read, or the number of clients |
| SwapLock.FirstTimeoutAt | modules/gadgeteer/plugins/SwapLockTCPPlugin/SwapLockTCPPlugin.cpp:318-326 | the first timeout is the unique index before which every client has a byte and at which the client has none |
| SwapLock.ReceiveRound | modules/gadgeteer/plugins/SwapLockTCPPlugin/SwapLockTCPPlugin.cpp:309-343 | clients before the first timeout lose one byte; that client and all later ones are unchanged |
| SwapLock.SendRound | modules/gadgeteer/plugins/SwapLockTCPPlugin/SwapLockTCPPlugin.cpp:284-308 | every client is drained and gets exactly one signal byte appended |
| SwapLock.SendAfterReceive | modules/gadgeteer/plugins/SwapLockTCPPlugin/SwapLockTCPPlugin.cpp:193-205 | the master's receive round is invisible after its send round |
| SwapLock.StartListeningSpec | modules/gadgeteer/plugins/SwapLockTCPPlugin/SwapLockTCPPlugin.cpp:381-418 | the thread starts exactly when none exists and the port is positive; otherwise nothing changes and the result is false |
| SwapLock.ConnectSpec | modules/gadgeteer/plugins/SwapLockTCPPlugin/SwapLockTCPPlugin.cpp:221-282 | Succeed exactly when connected with a true ack; then the plugin is active and its server socket is the connected one with a SyncRequest of the local host name and mTCPport written to it; an address failure only clears mActive; every other failure leaves the socket NULL; the role, host, port, accept thread, listen port and clients never change |
| SwapLock.ConfigAddSpec | modules/gadgeteer/plugins/SwapLockTCPPlugin/SwapLockTCPPlugin.cpp:72-117 | no change and false when the cluster is inactive; otherwise true, the master host and port are stored, the plugin is master exactly when that host is local, and a master is active; a master's new state is that of startListening with the new host and port, then made active, so its clients and server socket stay and it starts its accept thread on the new port unless one already runs (nonzero port); a slave's new state is that of its connection attempt with the new host and port |
| SwapLock.AdmitSpec | modules/gadgeteer/plugins/SwapLockTCPPlugin/SwapLockTCPPlugin.cpp:449-537 | an accepted socket that yields a packet is appended with a true SyncAck sent on it and the plugin becomes active; a timeout, an accept error or a failed receive change nothing |
| SwapLock.BarrierAlwaysTrue | modules/gadgeteer/plugins/SwapLockTCPPlugin/SwapLockTCPPlugin.cpp:179-219 | createBarrier always returns true and keeps the plugin coherent |
| SwapLock.MasterBarrierSignalsAll | modules/gadgeteer/plugins/SwapLockTCPPlugin/SwapLockTCPPlugin.cpp:193-205 | on the master, a barrier leaves every client drained with one signal byte more, whichever clients timed out |
| SwapLock.SlaveRetriesWhenInactive | modules/gadgeteer/plugins/SwapLockTCPPlugin/SwapLockTCPPlugin.cpp:206-214 | an inactive slave becomes active exactly when the retry connects with a true ack, then sends its SyncRequest and one signal byte; a failed retry sends nothing |
| SwapLock.ActiveSlaveExchange | modules/gadgeteer/plugins/SwapLockTCPPlugin/SwapLockTCPPlugin.cpp:206-214 | an active slave drains its socket, sends one signal byte, and the receive finds nothing more to change |
| SwapLock.ConfigAddCoherent | modules/gadgeteer/plugins/SwapLockTCPPlugin/SwapLockTCPPlugin.cpp:104-116 | configuring a plugin that is not yet active leaves it coherent |
| SwapLock.ReconfiguredSlaveLosesSocket | modules/gadgeteer/plugins/SwapLockTCPPlugin/SwapLockTCPPlugin.cpp:111-115 | an active slave reconfigured with a failing connection ends active with no server socket |
| SwapLock.AdmitKeepsClients | modules/gadgeteer/plugins/SwapLockTCPPlugin/SwapLockTCPPlugin.cpp:496-501 | admission keeps every earlier client in place and keeps the master coherent |
| SwapLock.SwapLockTCPPlugin.constructor | modules/gadgeteer/plugins/SwapLockTCPPlugin/SwapLockTCPPlugin.cpp:66 | a new plugin is an inactive non-master with no sockets, no thread and no clients |
| SwapLock.SwapLockTCPPlugin.ConfigAdd | modules/gadgeteer/plugins/SwapLockTCPPlugin/SwapLockTCPPlugin.cpp:72-117 | the new state and result are those of ConfigAddSpec |
| SwapLock.SwapLockTCPPlugin.StartListening | modules/gadgeteer/plugins/SwapLockTCPPlugin/SwapLockTCPPlugin.cpp:381-418 | the new state and result are those of StartListeningSpec |
| SwapLock.SwapLockTCPPlugin.ConnectToMasterSocket | modules/gadgeteer/plugins/SwapLockTCPPlugin/SwapLockTCPPlugin.cpp:221-282 | the new state and status are those of ConnectSpec |
| SwapLock.SwapLockTCPPlugin.MasterSend | modules/gadgeteer/plugins/SwapLockTCPPlugin/SwapLockTCPPlugin.cpp:284-308 | the clients become SendRound of the old clients; nothing else changes |
| SwapLock.SwapLockTCPPlugin.MasterReceive | modules/gadgeteer/plugins/SwapLockTCPPlugin/SwapLockTCPPlugin.cpp:309-343 | the clients become ReceiveRound of the old clients: the loop returns at the first timeout |
| SwapLock.SwapLockTCPPlugin.SlaveSend | modules/gadgeteer/plugins/SwapLockTCPPlugin/SwapLockTCPPlugin.cpp:344-362 | the server socket is drained and gets one signal byte |
| SwapLock.SwapLockTCPPlugin.SlaveReceive | modules/gadgeteer/plugins/SwapLockTCPPlugin/SwapLockTCPPlugin.cpp:363-378 | one byte is consumed if present; a failed read changes nothing |
| SwapLock.SwapLockTCPPlugin.CreateBarrier | modules/gadgeteer/plugins/SwapLockTCPPlugin/SwapLockTCPPlugin.cpp:179-219 | the new state and result are those of CreateBarrierSpec |
| SwapLock.SwapLockTCPPlugin.AcceptStep | modules/gadgeteer/plugins/SwapLockTCPPlugin/SwapLockTCPPlugin.cpp:449-537 | the new state is that of AdmitSpec |
| Text.LowerAscii | modules/jackal/tools/ConfigUpdater/src/VjConfig/XMLConfigIOHandler.java:563-565 | ASCII capitals map 32 code points up to lower case; every other character is unchanged |
| Text.Lower | modules/jackal/tools/ConfigUpdater/src/VjConfig/XMLConfigIOHandler.java:563-565 | the lower-case form has the same length and is folded character by character |
| Text.EqualsIgnoreCaseIffLower | modules/jackal/tools/ConfigUpdater/src/VjConfig/XMLConfigIOHandler.java:563-565 | two strings are equal ignoring case exactly when their lower-case forms are equal |
| Text.EqualsIgnoreCaseEquivalence | juggler/modules/jackal/rtrc/jccl/RTRC/XMLConfigCommunicator.cpp:137 | case-insensitive comparison is reflexive, symmetric and transitive |
| Text.CString | juggler/modules/jackal/rtrc/jccl/RTRC/XMLConfigCommunicator.cpp:94 | c_str() as a C function sees it: the longest NUL-free prefix, ending at the first NUL |
| XmlConfigIO.StringBuffer.Replace | modules/jackal/tools/ConfigUpdater/src/VjConfig/XMLConfigIOHandler.java:79 | the range is replaced by the string and the rest is kept |
| XmlConfigIO.StringBuffer.DeletePrefix | modules/jackal/tools/ConfigUpdater/src/VjConfig/XMLConfigIOHandler.java:364 | the first end characters are deleted, all of them when end is past the length |
| XmlConfigIO.StringIndexOf | modules/jackal/tools/ConfigUpdater/src/VjConfig/XMLConfigIOHandler.java:69-71 | the least index holding the character, or -1 when there is none |
| XmlConfigIO.IndexOf | modules/jackal/tools/ConfigUpdater/src/VjConfig/XMLConfigIOHandler.java:100-105 | the least index at or after startindex holding the character, or -1 when there is none |
| XmlConfigIO.ReplaceAllAppend | modules/jackal/tools/ConfigUpdater/src/VjConfig/XMLConfigIOHandler.java:78-91 | replacing a character distributes over concatenation |
| XmlConfigIO.ReplaceAllAbsent | modules/jackal/tools/ConfigUpdater/src/VjConfig/XMLConfigIOHandler.java:78-91 | replacing a character that does not occur changes nothing |
| XmlConfigIO.ThreePassesAppend | modules/jackal/tools/ConfigUpdater/src/VjConfig/XMLConfigIOHandler.java:78-91 | the three passes distribute over concatenation |
| XmlConfigIO.ReplaceAllChar | modules/jackal/tools/ConfigUpdater/src/VjConfig/XMLConfigIOHandler.java:79 | one character is replaced by the entity exactly when it is the character searched for |
| XmlConfigIO.ThreePassesChar | modules/jackal/tools/ConfigUpdater/src/VjConfig/XMLConfigIOHandler.java:78-91 | on one character the three passes give its entity, or the character itself |
| XmlConfigIO.EscapeIsThreePasses | modules/jackal/tools/ConfigUpdater/src/VjConfig/XMLConfigIOHandler.java:78-91 | the &, < and > passes in that order compose to the per-character entity map |
| XmlConfigIO.EscapeUnchanged | modules/jackal/tools/ConfigUpdater/src/VjConfig/XMLConfigIOHandler.java:69-73 | text without &, < and > escapes to itself |
| XmlConfigIO.EscapeLength | modules/jackal/tools/ConfigUpdater/src/VjConfig/XMLConfigIOHandler.java:78-91 | the escaped length is the length plus 4 per & and 3 per < and per > |
| XmlConfigIO.EscapeHasNoAngles | modules/jackal/tools/ConfigUpdater/src/VjConfig/XMLConfigIOHandler.java:78-91 | escaped text holds no < and no > |
| XmlConfigIO.UnescapeEscape | modules/jackal/tools/ConfigUpdater/src/VjConfig/XMLConfigIOHandler.java:62-91 | undoing the three entities, as the XML parser does, gives back the original |
| XmlConfigIO.SplitAtFirst | modules/jackal/tools/ConfigUpdater/src/VjConfig/XMLConfigIOHandler.java:79-80 | the first occurrence at or after the replaced prefix splits the rest into an occurrence-free part, the character and the remainder |
| XmlConfigIO.ReplaceStep | modules/jackal/tools/ConfigUpdater/src/VjConfig/XMLConfigIOHandler.java:79-80 | one replacement at the first occurrence extends the replaced prefix of the original text past that occurrence |
| XmlConfigIO.SkipEntity | modules/jackal/tools/ConfigUpdater/src/VjConfig/XMLConfigIOHandler.java:80 | searching from just after the replaced character skips the entity just written |
| XmlConfigIO.PassStep | modules/jackal/tools/ConfigUpdater/src/VjConfig/XMLConfigIOHandler.java:78-81 | one loop iteration keeps the buffer equal to a replaced prefix of the text followed by its untouched rest, with the search position at the next occurrence, and advances the prefix |
| XmlConfigIO.PassDone | modules/jackal/tools/ConfigUpdater/src/VjConfig/XMLConfigIOHandler.java:78-81 | when the search finds nothing the buffer is the text with every occurrence replaced |
| XmlConfigIO.ReplacePass | modules/jackal/tools/ConfigUpdater/src/VjConfig/XMLConfigIOHandler.java:78-91 | one replacement loop leaves the buffer equal to the text with every occurrence of the character replaced |
| XmlConfigIO.EscapeString | modules/jackal/tools/ConfigUpdater/src/VjConfig/XMLConfigIOHandler.java:67-93 | the result is the per-character escape of the input |
| XmlConfigIO.SkipSpaceSpec | modules/jackal/tools/ConfigUpdater/src/VjConfig/XMLConfigIOHandler.java:352-357 | the scan passes only whitespace and stops at the first non-whitespace character or the end |
| XmlConfigIO.FindQuoteSpec | modules/jackal/tools/ConfigUpdater/src/VjConfig/XMLConfigIOHandler.java:360-362 | the scan passes only non-quotes and stops at the first double quote or the end |
| XmlConfigIO.FindSpaceSpec | modules/jackal/tools/ConfigUpdater/src/VjConfig/XMLConfigIOHandler.java:369-371 | the scan passes only non-whitespace and stops at the first whitespace character or the end |
| XmlConfigIO.Tokenize | modules/jackal/tools/ConfigUpdater/src/VjConfig/XMLConfigIOHandler.java:345-379 | a null token leaves the buffer unchanged and any token strictly shortens it |
| XmlConfigIO.TokenizeNoneIff | modules/jackal/tools/ConfigUpdater/src/VjConfig/XMLConfigIOHandler.java:352-378 | there is no token exactly when the buffer is empty or all whitespace |
| XmlConfigIO.UnquotedToken | modules/jackal/tools/ConfigUpdater/src/VjConfig/XMLConfigIOHandler.java:367-374 | an unquoted token is the non-empty whitespace-free run after the leading whitespace, and the buffer keeps the text from the next whitespace on |
| XmlConfigIO.SplitRun | modules/jackal/tools/ConfigUpdater/src/VjConfig/XMLConfigIOHandler.java:372 | a whitespace-free run cut out of the buffer is whitespace-free, and the cuts put the buffer back together |
| XmlConfigIO.QuotedToken | modules/jackal/tools/ConfigUpdater/src/VjConfig/XMLConfigIOHandler.java:358-365 | a quoted token is the text between the opening quote and the next quote or the end, and the buffer loses everything through the closing quote |
| XmlConfigIO.StringTokenizer | modules/jackal/tools/ConfigUpdater/src/VjConfig/XMLConfigIOHandler.java:345-379 | the token and the new buffer are those of Tokenize on the old buffer |
| XmlConfigIO.SkipSpaceAt | modules/jackal/tools/ConfigUpdater/src/VjConfig/XMLConfigIOHandler.java:352-357 | the scan position the loop reaches is SkipSpace's |
| XmlConfigIO.FindQuoteAt | modules/jackal/tools/ConfigUpdater/src/VjConfig/XMLConfigIOHandler.java:360-362 | the closing-quote position the loop reaches is FindQuote's |
| XmlConfigIO.FindSpaceAt | modules/jackal/tools/ConfigUpdater/src/VjConfig/XMLConfigIOHandler.java:369-371 | the end-of-token position the loop reaches is FindSpace's |
| XmlConfigIO.QuotedAt | modules/jackal/tools/ConfigUpdater/src/VjConfig/XMLConfigIOHandler.java:352-365 | where the loops stop on a quoted token, Tokenize gives the text inside the quotes and the buffer after the closing quote |
| XmlConfigIO.UnquotedAt | modules/jackal/tools/ConfigUpdater/src/VjConfig/XMLConfigIOHandler.java:352-374 | where the loops stop on an unquoted token, Tokenize gives the run up to the next whitespace and the buffer from there |
| XmlConfigIO.UnquotedTokens | modules/jackal/tools/ConfigUpdater/src/VjConfig/XMLConfigIOHandler.java:393-410 | text without quotes yields only non-empty, whitespace-free tokens |
| XmlConfigIO.AsValuesSpec | modules/jackal/tools/ConfigUpdater/src/VjConfig/XMLConfigIOHandler.java:390-411 | each token becomes a chunk name for chunk properties and an enumeration value otherwise, in order |
| XmlConfigIO.StoredSpec | modules/jackal/tools/ConfigUpdater/src/VjConfig/XMLConfigIOHandler.java:396 | the values land at consecutive indices from start; every other index keeps its value and no other index appears |
| XmlConfigIO.StoredSnoc | modules/jackal/tools/ConfigUpdater/src/VjConfig/XMLConfigIOHandler.java:396 | storing one more value is one more map write at the next index |
| XmlConfigIO.ParseEnd | modules/jackal/tools/ConfigUpdater/src/VjConfig/XMLConfigIOHandler.java:393 | when stringTokenizer returns null every token of the text has been taken |
| XmlConfigIO.TokensStep | modules/jackal/tools/ConfigUpdater/src/VjConfig/XMLConfigIOHandler.java:393 | each non-null token is the next token of the text |
| XmlConfigIO.StoreStep | modules/jackal/tools/ConfigUpdater/src/VjConfig/XMLConfigIOHandler.java:394-396 | storing the next token's value at the next index is storing one more token |
| XmlConfigIO.ParseTextValues | modules/jackal/tools/ConfigUpdater/src/VjConfig/XMLConfigIOHandler.java:382-416 | the tokens of the text are stored at startval, startval + 1, ...; any other value type stores nothing and logs the error |
| DescAttributes.LastValue | modules/jackal/tools/ConfigUpdater/src/VjConfig/XMLConfigIOHandler.java:561-567 | None exactly when no attribute name matches ignoring case, and a value only from a matching attribute |
| DescAttributes.DefaultedName | modules/jackal/tools/ConfigUpdater/src/VjConfig/XMLConfigIOHandler.java:568-569 | a non-empty name is kept, an empty name becomes the token, and the result is empty only when the token is |
| DescAttributes.NameIsNotType | modules/jackal/tools/ConfigUpdater/src/VjConfig/XMLConfigIOHandler.java:621-626 | no attribute name is both "name" and "type" ignoring case |
| DescAttributes.ParseChunkDescAttributes | modules/jackal/tools/ConfigUpdater/src/VjConfig/XMLConfigIOHandler.java:556-569 | the attribute loop and the name default give ChunkDescOf |
| DescAttributes.ChunkDescNaming | modules/jackal/tools/ConfigUpdater/src/VjConfig/XMLConfigIOHandler.java:561-569 | the last token and name attributes win, an empty name becomes the token, and other attributes are ignored |
| DescAttributes.ParseInt | modules/jackal/tools/ConfigUpdater/src/VjConfig/XMLConfigIOHandler.java:632 | a parsed number is a 32-bit int from non-empty text; which texts parse, and to what, is stated by ParseIntAccepts and ParseIntCanonical |
| DescAttributes.ParseIntAccepts | modules/jackal/tools/ConfigUpdater/src/VjConfig/XMLConfigIOHandler.java:632 | parseInt succeeds exactly on an optional sign followed by one or more digits whose value is a Java int, and yields that value |
| DescAttributes.ParseIntCanonical | modules/jackal/tools/ConfigUpdater/src/VjConfig/XMLConfigIOHandler.java:632 | Integer.toString of the parsed value is the text without a '+' and without leading zeros, and "0" for any zero |
| DescAttributes.StrippedText | modules/jackal/tools/ConfigUpdater/src/VjConfig/XMLConfigIOHandler.java:632 | a digit run of zeros denotes 0; any other is the decimal text of its value once its leading zeros are removed |
| DescAttributes.StripZerosValue | modules/jackal/tools/ConfigUpdater/src/VjConfig/XMLConfigIOHandler.java:632 | leading zeros do not change the value of a digit run |
| DescAttributes.DigitsOfValue | modules/jackal/tools/ConfigUpdater/src/VjConfig/XMLConfigIOHandler.java:632 | a digit run without a leading zero is the decimal text of its value |
| DescAttributes.ParseIntSamples | modules/jackal/tools/ConfigUpdater/src/VjConfig/XMLConfigIOHandler.java:632 | "+5", "007" and "-0" parse to 5, 7 and 0; "12a", "-" and "" throw |
| DescAttributes.NatDigitsValue | modules/jackal/tools/ConfigUpdater/src/VjConfig/XMLConfigIOHandler.java:632 | the decimal digits of n denote n |
| DescAttributes.ParseIntOfToString | modules/jackal/tools/ConfigUpdater/src/VjConfig/XMLConfigIOHandler.java:632 | parseInt reads back the decimal text of every 32-bit int |
| DescAttributes.ParseIntRejects | modules/jackal/tools/ConfigUpdater/src/VjConfig/XMLConfigIOHandler.java:632 | text that starts with neither a sign nor a digit is rejected |
| DescAttributes.NumValue | modules/jackal/tools/ConfigUpdater/src/VjConfig/XMLConfigIOHandler.java:627-634 | var and variable, ignoring case, give -1; anything else is parsed as an int |
| DescAttributes.UserLevelOf | modules/jackal/tools/ConfigUpdater/src/VjConfig/XMLConfigIOHandler.java:635-640 | expert gives 1, beginner gives 0, ignoring case; anything else gives nothing |
| DescAttributes.ParsePropertyDescAttributes | modules/jackal/tools/ConfigUpdater/src/VjConfig/XMLConfigIOHandler.java:612-643 | the attribute loop and the name default give PropertyDescOf, including the number-format error |
| DescAttributes.NumRule | modules/jackal/tools/ConfigUpdater/src/VjConfig/XMLConfigIOHandler.java:627-634 | the last num attribute decides: var or variable give -1, anything else its parsed value |
| DescAttributes.BadNumFails | modules/jackal/tools/ConfigUpdater/src/VjConfig/XMLConfigIOHandler.java:632 | a num attribute that does not parse makes the element fail with the number-format error |
| DescAttributes.UserLevelRule | modules/jackal/tools/ConfigUpdater/src/VjConfig/XMLConfigIOHandler.java:635-640 | a later userlevel attribute sets 1 for expert and 0 for beginner, and leaves the level unchanged otherwise |
| DescAttributes.PropertyNameDefault | modules/jackal/tools/ConfigUpdater/src/VjConfig/XMLConfigIOHandler.java:642-643 | a PropertyDesc whose name is empty after its attributes takes its token as name |
| ConfigCommunicator.AcceptsStreamIdentifier | juggler/modules/jackal/rtrc/jccl/RTRC/XMLConfigCommunicator.cpp:92-95 | an identifier without NUL is accepted exactly when it is "xml_config" ignoring case |
| ConfigCommunicator.AcceptsUpToNul | juggler/modules/jackal/rtrc/jccl/RTRC/XMLConfigCommunicator.cpp:94 | text after a NUL is not compared |
| ConfigCommunicator.CStringOfPrefix | juggler/modules/jackal/rtrc/jccl/RTRC/XMLConfigCommunicator.cpp:94 | the C view of a NUL-free prefix followed by a NUL is that prefix |
| ConfigCommunicator.Then | juggler/modules/jackal/rtrc/jccl/RTRC/XMLConfigCommunicator.cpp:131 | after a false result the second part has no effect; otherwise the effects concatenate and its result counts |
| ConfigCommunicator.ThenAssociative | juggler/modules/jackal/rtrc/jccl/RTRC/XMLConfigCommunicator.cpp:129-133 | short-circuit sequencing is associative |
| ConfigCommunicator.UpToThenFrom | juggler/modules/jackal/rtrc/jccl/RTRC/XMLConfigCommunicator.cpp:128-133 | the first i children taken in loop order, then the rest, give the whole document's interpretation |
| ConfigCommunicator.UpToIsFrom | juggler/modules/jackal/rtrc/jccl/RTRC/XMLConfigCommunicator.cpp:128-133 | after the last child the loop's accumulated effect is the document's interpretation |
| ConfigCommunicator.ReadStreamSpec | juggler/modules/jackal/rtrc/jccl/RTRC/XMLConfigCommunicator.cpp:98-107 | a stream that does not parse is false with no effect; otherwise it is the interpretation of the tree |
| ConfigCommunicator.DocumentIsConjunction | juggler/modules/jackal/rtrc/jccl/RTRC/XMLConfigCommunicator.cpp:128-133 | a document's result is the conjunction of its children's results |
| ConfigCommunicator.StopsAtFirstFailure | juggler/modules/jackal/rtrc/jccl/RTRC/XMLConfigCommunicator.cpp:131 | children after the first failing one are not evaluated |
| ConfigCommunicator.PrefixAgrees | juggler/modules/jackal/rtrc/jccl/RTRC/XMLConfigCommunicator.cpp:131 | cutting the children after a failing child changes no suffix interpretation up to it |
| ConfigCommunicator.ChunkCommands | juggler/modules/jackal/rtrc/jccl/RTRC/XMLConfigCommunicator.cpp:137-167 | apply_chunks and remove_chunks queue their built database exactly when every build succeeded, and nothing otherwise |
| ConfigCommunicator.NoEffectNodes | juggler/modules/jackal/rtrc/jccl/RTRC/XMLConfigCommunicator.cpp:169-199 | remove_descs, unrecognised commands and other node kinds have no effect and return true |
| ConfigCommunicator.CaseInsensitiveCommands | juggler/modules/jackal/rtrc/jccl/RTRC/XMLConfigCommunicator.cpp:137-190 | renaming a command element to a case variant of its name changes nothing |
| ConfigCommunicator.XMLConfigCommunicator.ReadStream | juggler/modules/jackal/rtrc/jccl/RTRC/XMLConfigCommunicator.cpp:98-107 | result, pending queue and connection commands are those of ReadStreamSpec |
| ConfigCommunicator.XMLConfigCommunicator.BuildChildren | juggler/modules/jackal/rtrc/jccl/RTRC/XMLConfigCommunicator.cpp:141-147 | the loop's result is BuildFrom's, and so is the database when it succeeds |
| ConfigCommunicator.XMLConfigCommunicator.InterpretDOMNode | juggler/modules/jackal/rtrc/jccl/RTRC/XMLConfigCommunicator.cpp:110-202 | result, pending queue and connection commands are those of Interpret |
| MotionStarDevice.ProtocolOfPort | juggler/modules/gadgeteer/gadget/Devices/Ascension/MotionStar/MotionStar.cpp:474-488 | UDP exactly for port 5000, TCP for 6000 and every other port |
| MotionStarDevice.HemisphereOf | juggler/modules/gadgeteer/gadget/Devices/Ascension/MotionStar/MotionStar.cpp:542-569 | codes outside 0..5 give the front hemisphere |
| MotionStarDevice.HemisphereCode | juggler/modules/gadgeteer/gadget/Devices/Ascension/MotionStar/MotionStar.cpp:542-569 | every hemisphere has a code in 0..5 |
| MotionStarDevice.HemisphereTable | juggler/modules/gadgeteer/gadget/Devices/Ascension/MotionStar/MotionStar.cpp:542-569 | the table is a bijection between 0..5 and the six hemispheres |
| MotionStarDevice.BirdFormatOf | juggler/modules/gadgeteer/gadget/Devices/Ascension/MotionStar/MotionStar.cpp:587-628 | code 6 and codes outside 0..8 give position and angles |
| MotionStarDevice.BirdFormatCode | juggler/modules/gadgeteer/gadget/Devices/Ascension/MotionStar/MotionStar.cpp:587-628 | every format has a code in 0..8 other than 6 |
| MotionStarDevice.BirdFormatTable | juggler/modules/gadgeteer/gadget/Devices/Ascension/MotionStar/MotionStar.cpp:587-628 | the table is a bijection between 0..5, 7, 8 and the eight formats |
| MotionStarDevice.RunModeOf | juggler/modules/gadgeteer/gadget/Devices/Ascension/MotionStar/MotionStar.cpp:664-680 | single shot exactly for code 1, continuous otherwise |
| MotionStarDevice.RunModeCode | juggler/modules/gadgeteer/gadget/Devices/Ascension/MotionStar/MotionStar.cpp:664-680 | every run mode has code 0 or 1 |
| MotionStarDevice.RunModeTable | juggler/modules/gadgeteer/gadget/Devices/Ascension/MotionStar/MotionStar.cpp:664-680 | the table is a bijection between 0, 1 and the two modes |
| MotionStarDevice.Configured | juggler/modules/gadgeteer/gadget/Devices/Ascension/MotionStar/MotionStar.cpp:121-129 | the configured port fits 16 bits, the report rate 8 bits and the bird count 32 bits, and the protocol is the port's |
| MotionStarDevice.ConfiguredWraps | juggler/modules/gadgeteer/gadget/Devices/Ascension/MotionStar/MotionStar.cpp:122-128 | the casts wrap: port 70536 selects UDP, hemisphere 257 is the rear one, -1 falls back to the defaults of the tables and is 2^32 - 1 birds |
| MotionStarDevice.MotionStar.SetAddressName | juggler/modules/gadgeteer/gadget/Devices/Ascension/MotionStar/MotionStar.cpp:444-456 | stores the address unless active, in which case nothing changes |
| MotionStarDevice.MotionStar.SetServerPort | juggler/modules/gadgeteer/gadget/Devices/Ascension/MotionStar/MotionStar.cpp:461-490 | unless active, stores the port and the protocol it implies; otherwise nothing changes |
| MotionStarDevice.MotionStar.SetProtocol | juggler/modules/gadgeteer/gadget/Devices/Ascension/MotionStar/MotionStar.cpp:495-508 | stores the protocol unless active |
| MotionStarDevice.MotionStar.SetMasterStatus | juggler/modules/gadgeteer/gadget/Devices/Ascension/MotionStar/MotionStar.cpp:513-526 | stores the master flag unless active |
| MotionStarDevice.MotionStar.SetHemisphere | juggler/modules/gadgeteer/gadget/Devices/Ascension/MotionStar/MotionStar.cpp:531-571 | unless active, stores the hemisphere the table gives for the code |
| MotionStarDevice.MotionStar.SetBirdFormat | juggler/modules/gadgeteer/gadget/Devices/Ascension/MotionStar/MotionStar.cpp:576-630 | unless active, stores the format the table gives for the code |
| MotionStarDevice.MotionStar.SetNumBirds | juggler/modules/gadgeteer/gadget/Devices/Ascension/MotionStar/MotionStar.cpp:635-648 | stores the bird count unless active |
| MotionStarDevice.MotionStar.SetRunMode | juggler/modules/gadgeteer/gadget/Devices/Ascension/MotionStar/MotionStar.cpp:653-682 | unless active, stores the run mode the table gives for the code |
| MotionStarDevice.MotionStar.SetReportRate | juggler/modules/gadgeteer/gadget/Devices/Ascension/MotionStar/MotionStar.cpp:687-700 | stores the report rate unless active |
| MotionStarDevice.MotionStar.SetMeasurementRate | juggler/modules/gadgeteer/gadget/Devices/Ascension/MotionStar/MotionStar.cpp:705-718 | stores the measurement rate unless active |
| MotionStarDevice.MotionStar.Config | juggler/modules/gadgeteer/gadget/Devices/Ascension/MotionStar/MotionStar.cpp:110-134 | true exactly when both base configurations succeed; only then, and only while inactive, the settings become those of the chunk after the casts |

## Left out

**Headers and types outside the model**

- The numeric codes and the header size come from Header.h, which is not part of this model:
  - `RIM_PACKET`, `RIM_APPDATA_REQ` and `RIM_DATA_PACKET` are stand-in values;
  - `RIM_PACKET_HEAD_SIZE` is taken as 16, four 32-bit fields.
- `Header::serializeHeader` is not part of this model. It is taken to write the four fields as big-endian 32-bit words into the packet writer's buffer, at the writer's current position. RequestLengthMatches and the Serialize ensures rest on that assumption. The data packet of the application data server is modelled differently: its serialised header is a field of its own, `headerBytes`, which UpdateLocalData replaces on each re-serialisation, and the writer position plays no part in it.
- `vpr::GUID::writeObject` and `readObject` are taken to write and read 16 raw bytes.
- GUID parsing of a reader with fewer than 32 bytes left is outside the model: Parse requires them.
- The `DataPacket` constructor is not part of this model. The stand-in binds the packet to the buffer and computes a consistent header.
- modules/gadgeteer/cluster/ClusterManager.h declares the cluster-active test and the element lookup without bodies:
  - the test is a boolean parameter;
  - the lookup is a map from element names to host names, which ConfigAdd requires to hold the sync server.

  The source asserts that the lookup succeeds.
- The `SYNC_SIGNAL` byte is declared elsewhere and is a field of the plugin's environment.

**Concurrency, sockets and processes**

- The client locks of the server and the plugin, and the ConfigManager and Connect locks, are left out; every operation is one atomic step.
- Blocking, read timeouts and the NoWait sends are left out: a receive on an empty queue is the timeout.
- The accept thread is a flag. Its loop is modelled one iteration at a time by AcceptStep.
- The `exit(0)` calls when the listening socket cannot be opened, and in the dead catch after the `static_cast`, are left out. A `static_cast` never throws, so any first packet admits the client.
- The debug output and `printData` functions are left out.
- During the slave's barrier, the master's reply arriving while the slave waits is not modelled. The server socket is a value that the drain in slaveSend has just emptied, so the read in slaveReceive (SwapLockTCPPlugin.cpp:370) always finds nothing in an exchange from createBarrier.
- The exceptions an uncaught `ClusterNode::send` can throw are left out. The model does not capture either path:
  - `temp_node->send(&sync_request)` in connectToMasterSocket (SwapLockTCPPlugin.cpp:262). The exception escapes connectToMasterSocket, and so configAdd or createBarrier, with `mSyncServerSocket` still holding the new socket.
  - `temp_node->send(&temp_ack)` in the accept loop (SwapLockTCPPlugin.cpp:521). The accept thread ends after the client was appended and `setActive(true)` ran (cpp:498-501).

  ConnectOutcome and AcceptOutcome have no send-failure case.
- The exception `recvPacket` can throw inside ConnectToMasterSocket is left out. So is the unchecked `static_cast` of its packet: a connected outcome always carries an ack flag.
- SwapLock.ConnectSpec sends the raw `mTCPport` in the SyncRequest, because the SyncRequest constructor's port type is not part of this model. The listen address and the SyncAck use the 16-bit truncation.
- SwapLock.SwapLockTCPPlugin.CreateBarrier requires a coherent plugin. In this model, configAdd on an already active slave can end active with a NULL server socket (ReconfiguredSlaveLosesSocket): it does when the new connection fails, or when a master is reconfigured as a slave. createBarrier would then dereference NULL, which the model does not follow.
- SwapLock.ConfigAddCoherent requires a plugin that is not yet active, because of that same path.

**Java text handling**

- Text is sequences of Unicode code points below 0x110000. UTF-16 surrogate pairs are not modelled.
- `Character.isWhitespace` is taken without U+180E, whose category changed between Java versions.
- `equalsIgnoreCase` and `strcasecmp` are modelled with ASCII case folding only.
- DescAttributes.ParseInt follows `Integer.parseInt` as of Java 7, which accepts a leading '+'. Java 6 and earlier reject it, so on those a `num` of "+5" fails the element, where the model accepts it.
- DescAttributes.ParseInt accepts only ASCII digits after an optional sign. `Integer.parseInt` also accepts other Unicode decimal digits.
- `ValType.getValType` is recorded as the attribute's text.
- The Java `ChunkDesc` and `PropertyDesc` constructors are not part of this model. The initial field values are parameters.
- XmlConfigIO.ParseTextValues does not model the 32-bit wrap of `startval++` after 2^31 - 1 values.
- `Property.setValue` and `getEnumValue` are not part of this model:
  - `setValue` is a map write at the index;
  - an enumeration value is recorded as its token.
- The loops for chunk, string, and int/float/bool properties are one loop, which differs only in how a token becomes a value.
- The file reading and writing of XMLConfigIOHandler.java is left out, as are the DOM walks of `buildChunkDB`, `buildConfigChunk` and `buildProperty`, and the child elements of descriptions. They need the XML parser and the chunk factory.

**C++ communicator**

- `buildChunkDB` is a function of the database so far and the child node.
- The DOM name's `transcode()` is taken as the name itself.
- `request_current_descs` queues a SendDescDB command without modelling the description database.
- `configChanged` and the connection setup are left out.

**MotionStar driver**

- `MotionStarStandalone`'s setters are not part of this model. They are taken to store their argument.
- `Input::config` and `Position::config` are booleans. The second is consulted only when the first succeeds.
- The measurement rate is a real number. The float-to-double conversion is not modelled.
- Sampling, the data conversion, `startSampling`, `stopSampling` and the correction table are left out: they are device I/O, threads and floating-point transforms.
