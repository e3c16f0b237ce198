# UnrealCV command core in Dafny

UnrealCV lets an external client drive a running Unreal Engine game over a
socket. The client sends short text commands and gets structured answers
back. This project models three parts of it and proves properties of them:

- **The alias command handler** (`AliasHandler.cpp`):
  - the registration of the `vrun`, `vexec` and `vbp` commands, one binding per argument count;
  - `vrun`, which joins its arguments into a console command;
  - `vexec`, which calls an object's function by name through the engine;
  - `vbp`, which calls a function through a parameter buffer and reports the output and return slots as a name → text map.

  `vbp` is modelled step by step: token reading, the search for the last parameter, the parameter walk with its string-tail and default rules, the call, and the result map.
- **The socket server** (`UnixTcpServer.h`):
  - the message header (`Magic`, `PayloadSize`), the framing that adds it and the un-framing that strips it;
  - the server's state: the listening flag, the TCP/UDS switch, the single connection slot per transport, and the streams exchanged with the one client.
- **The Python client helpers** (`unrealcv_basic.py`): the direction remap of a transition action, the command lines of the transition and of the three object setters, and the slicing in `decode_bmp`.

Engine services the handler relies on are given to the model as a `Host` record of functions: object lookup by id, the name table, function lookup, text import into a typed slot, `ProcessEvent` and `CallFunctionByNameWithArguments`. Their results are therefore inputs to every contract.

The files, in dependency order:

| file | module | contents |
|---|---|---|
| `wrappers.dfy` | `Wrappers` | `Option`, `Result` |
| `tokens.dfy` | `Tokens` | whitespace trimming, the engine's token reader, single-space joining |
| `reflection.dfy` | `Reflection` | property slots, typed values, the `Host` record, the parameter walk and its word-list reference, the result map |
| `alias.dfy` | `Alias` | the command table, the `AliasHandler` class and the specification of `vbp` |
| `framing.dfy` | `Framing` | the header, wrap/strip and the stream round trip |
| `server.dfy` | `Server` | the `UnixTcpServer` class |
| `client.dfy` | `Client` | the Python helpers |

Two behaviours of the handler are easy to misread. The model keeps both exactly as the code has them:

- **`vbp` with a failed import.** The code logs the bad property, skips the call and still answers `OK`. The result map is built from the buffer as it stood before any argument was read (AliasHandler.cpp:232-303). So the status alone does not tell the caller that an argument was rejected. `Alias.FailedImportReportsInitial` states this.
- **Which parameter is "last".** It is the last slot of the leading run of parameters that are not return values (AliasHandler.cpp:152). That slot may be an out parameter. If so, no input slot gets the whole-rest-of-line treatment.

## Model

| member | source | states |
|---|---|---|
| Tokens.TrimStart | unrealcv/Source/UnrealCV/Private/Commands/AliasHandler.cpp:225 | the result is a suffix of the input that does not start with whitespace, and everything dropped is whitespace |
| Tokens.TrimEnd | unrealcv/Source/UnrealCV/Private/Commands/AliasHandler.cpp:105 | the result is a prefix of the input that does not end with whitespace, and everything dropped is whitespace |
| Tokens.Token | unrealcv/Source/UnrealCV/Private/Commands/AliasHandler.cpp:126-130 | a token is found exactly when it is non-empty; the rest is a suffix of the input, strictly shorter once a token was read |
| Tokens.TokenOfJoin | unrealcv/Source/UnrealCV/Private/Commands/AliasHandler.cpp:126 | on a line of plain words, the token reader returns the first word and leaves the others |
| Tokens.TokenizeJoinSpace | unrealcv/Source/UnrealCV/Private/Commands/AliasHandler.cpp:97-103 | a line joined from plain words with single spaces reads back as exactly those words |
| Tokens.TrimEndJoinSpace | unrealcv/Source/UnrealCV/Private/Commands/AliasHandler.cpp:104-105 | trimming the end of a joined line of plain words changes nothing |
| Reflection.LeadingParms | unrealcv/Source/UnrealCV/Private/Commands/AliasHandler.cpp:152 | every slot before the result is a parameter and not a return value; the slot at the result, if any, is not |
| Reflection.WalkKeepsOtherSlots | unrealcv/Source/UnrealCV/Private/Commands/AliasHandler.cpp:171-243 | the walk writes only input slots at or after its start, so out, reference and return slots keep their values |
| Reflection.WalkMatchesWords | unrealcv/Source/UnrealCV/Private/Commands/AliasHandler.cpp:174-243 | on a line of plain words, the cursor walk fills the buffer exactly as the word reference does: each input slot reads the next word; the last string parameter reads all remaining words; with editor metadata, a missing word falls back to the declared default |
| Reflection.ResultsUpToContents | unrealcv/Source/UnrealCV/Private/Commands/AliasHandler.cpp:250-292 | the map's keys are exactly the names of the output, reference and return slots whose type has a text form, and each key holds the text of the last such slot with that name |
| Reflection.ResultsUpToOutputsOnly | unrealcv/Source/UnrealCV/Private/Commands/AliasHandler.cpp:250-292 | the result map reads only the output, reference and return slots: two buffers that agree on those give the same map |
| Alias.CommandDispatcher.BindCommand | unrealcv/Source/UnrealCV/Private/Commands/AliasHandler.cpp:19 | the table gains the binding for that name and argument count, and nothing else changes |
| Alias.WithAliasesLookup | unrealcv/Source/UnrealCV/Private/Commands/AliasHandler.cpp:12-59 | after registration: vrun answers 1 to 6 arguments, vexec 2 to 9, vbp 2 to 11, the two level-id paths 0; every other pattern, other arities of these five names included, keeps its earlier binding |
| Alias.WithAliasesRun | unrealcv/Source/UnrealCV/Private/Commands/AliasHandler.cpp:19-24 | vrun is bound for exactly 1 to 6 arguments; other vrun arities keep their binding |
| Alias.WithAliasesExec | unrealcv/Source/UnrealCV/Private/Commands/AliasHandler.cpp:29-36 | vexec is bound for exactly 2 to 9 arguments; other vexec arities keep their binding |
| Alias.WithAliasesCapture | unrealcv/Source/UnrealCV/Private/Commands/AliasHandler.cpp:39-48 | vbp is bound for exactly 2 to 11 arguments; other vbp arities keep their binding |
| Alias.WithAliasesLevels | unrealcv/Source/UnrealCV/Private/Commands/AliasHandler.cpp:50-58 | the two level-id paths are bound for exactly 0 arguments; their other arities keep their binding |
| Alias.WithAliasesOthers | unrealcv/Source/UnrealCV/Private/Commands/AliasHandler.cpp:12-59 | a pattern whose name is none of the five bound names keeps its binding |
| Alias.AliasHandler.RegisterCommands | unrealcv/Source/UnrealCV/Private/Commands/AliasHandler.cpp:12-59 | the dispatcher's new table is the old one with the 26 bindings added in source order, and lookups answer as WithAliasesLookup says |
| Alias.AliasHandler.VRun | unrealcv/Source/UnrealCV/Private/Commands/AliasHandler.cpp:61-77 | the console command is the arguments joined by single spaces, and the status is OK |
| Alias.AliasHandler.BuildCallString | unrealcv/Source/UnrealCV/Private/Commands/AliasHandler.cpp:97-103 | the call line is the function name followed by the remaining arguments, joined by single spaces |
| Alias.AliasHandler.VExec | unrealcv/Source/UnrealCV/Private/Commands/AliasHandler.cpp:307-392 | a missing id, a missing function name and an unknown id each give their error message and no call; otherwise the object gets the joined call line, and the status is OK exactly when that call succeeds, else the failure message naming the line and the id |
| Alias.AliasHandler.VExecWithOutput | unrealcv/Source/UnrealCV/Private/Commands/AliasHandler.cpp:79-305 | the answer and the call equal the specification ExecWithOutput; the argument errors give no call; a call is made only with an OK answer, and only on the object the id names |
| Alias.AliasHandler.LastParameter | unrealcv/Source/UnrealCV/Private/Commands/AliasHandler.cpp:149-155 | the index found is the last slot of the leading run of non-return parameters, or -1 if the run is empty |
| Alias.AliasHandler.FillParameters | unrealcv/Source/UnrealCV/Private/Commands/AliasHandler.cpp:171-243 | the loop's failure flag and buffer are those of the parameter walk from the first slot over the initial buffer |
| Alias.AliasHandler.CollectResults | unrealcv/Source/UnrealCV/Private/Commands/AliasHandler.cpp:250-292 | the collected map is the result map over all slots, with the contents ResultsUpToContents gives |
| Alias.ExecWithOutputOnWords | unrealcv/Source/UnrealCV/Private/Commands/AliasHandler.cpp:119-303 | for plain-word arguments and an object that resolves: an unknown name or function gives InvalidArgument; otherwise the parameters read the words after the function name, the call is made exactly when no import failed, and the answer is the result map |
| Alias.TrailingTextCapture | unrealcv/Source/UnrealCV/Private/Commands/AliasHandler.cpp:216-226 | a function whose one parameter is a string, given two or more words, is called with all of them joined ("cheat giveall weapons" passes "giveall weapons") |
| Alias.LastStringTakesRest | unrealcv/Source/UnrealCV/Private/Commands/AliasHandler.cpp:216-229 | the walk over one string parameter imports the joined remaining words and does not fail |
| Alias.ReturnValueReported | unrealcv/Source/UnrealCV/Private/Commands/AliasHandler.cpp:250-303 | a call with only a string return value reports it under its name: {"ReturnValue": "Ready"} |
| Alias.ReturnOnlyReported | unrealcv/Source/UnrealCV/Private/Commands/AliasHandler.cpp:158-303 | a function whose only property is a string return value, called with no arguments, is called once with the zeroed buffer and answers OK with that property's name mapped to the text the call wrote |
| Alias.CaptureReturnOnly | unrealcv/Source/UnrealCV/Private/Commands/AliasHandler.cpp:245-303 | with no words and only a return slot, the word reference makes the call with the zeroed buffer and reports the written value under the slot's name |
| Alias.FailedImportReportsInitial | unrealcv/Source/UnrealCV/Private/Commands/AliasHandler.cpp:158-303 | when an argument fails to import, no call is made and the answer is OK with the result map of the initial, zeroed buffer |
| Alias.DefaultFallback | unrealcv/Source/UnrealCV/Private/Commands/AliasHandler.cpp:195-209 | with editor metadata, a one-parameter function given no word is called with its declared default imported into the parameter |
| Alias.DefaultFallbackCall | unrealcv/Source/UnrealCV/Private/Commands/AliasHandler.cpp:119-243 | vbp with an object id and a function name only calls a one-parameter function with the parameter's declared default |
| Alias.CaptureCallOnWords | unrealcv/Source/UnrealCV/Private/Commands/AliasHandler.cpp:126-243 | when the first token of the line is a name and the walk reads the rest as the words do, the capture call answers as the word reference: InvalidArgument for an unknown name or function, else the word walk's outcome |
| Framing.HeaderFor | unrealcv/Source/UnrealCV/Public/Server/UnixTcpServer.h:40-44 | a header built from a payload has PayloadSize equal to the payload's length, 0 included, and Magic equal to DefaultMagic |
| Framing.DecodeEncodeWord | unrealcv/Source/UnrealCV/Public/Server/UnixTcpServer.h:33-36 | a 32-bit header field reads back as written, in either byte order |
| Framing.EncodeWordInjective | unrealcv/Source/UnrealCV/Public/Server/UnixTcpServer.h:32-33 | different field values are written as different bytes |
| Framing.Wrap | unrealcv/Source/UnrealCV/Public/Server/UnixTcpServer.h:46-47 | the frame is 8 header bytes followed by the unchanged payload |
| Framing.Strip | unrealcv/Source/UnrealCV/Public/Server/UnixTcpServer.h:48-49 | a payload is returned only from a stream with a full header and the right magic; its length is the header's size, and header, payload and rest make up the stream |
| Framing.StripPrefixIncomplete | unrealcv/Source/UnrealCV/Public/Server/UnixTcpServer.h:48-49 | any proper prefix of a frame, header bytes included, yields no payload and only the connection-closed outcome, never a desynchronisation |
| Framing.StripWrap | unrealcv/Source/UnrealCV/Public/Server/UnixTcpServer.h:46-55 | stripping a wrapped payload gives back the payload, the empty one included, and leaves the bytes after it untouched |
| Framing.StripRejectsForeignMagic | unrealcv/Source/UnrealCV/Public/Server/UnixTcpServer.h:32-33 | a frame whose magic is not DefaultMagic yields no payload, only the desynchronisation error |
| Framing.WrapAllSnoc | unrealcv/Source/UnrealCV/Public/Server/UnixTcpServer.h:46-47 | sending one more message appends exactly its frame to the stream |
| Framing.ReadAllWrapAll | unrealcv/Source/UnrealCV/Public/Server/UnixTcpServer.h:46-55 | a reader of the stream of frames gets back exactly the messages sent, in order, none split or merged |
| Server.UnixTcpServer.constructor | unrealcv/Source/UnrealCV/Public/Server/UnixTcpServer.h:75 | a new server has port -1, is not listening, uses TCP and has no connection (UDS descriptor -1) |
| Server.UnixTcpServer.IsConnected | unrealcv/Source/UnrealCV/Public/Server/UnixTcpServer.h:79 | connected exactly when the transport the switch selects has a client |
| Server.UnixTcpServer.Start | unrealcv/Source/UnrealCV/Public/Server/UnixTcpServer.h:89-91 | succeeds exactly when not yet listening and the bind succeeds; then it listens on the given port and transport with no client, and the event log and the streams are unchanged; a failure changes nothing |
| Server.UnixTcpServer.Connected | unrealcv/Source/UnrealCV/Public/Server/UnixTcpServer.h:129-136 | a new TCP client is accepted exactly when none is connected; a rejected one leaves the connected client and its streams as they were; either way one connected event reports the outcome |
| Server.UnixTcpServer.AcceptUds | unrealcv/Source/UnrealCV/Public/Server/UnixTcpServer.h:135-140 | the same single-client rule on the UDS descriptor |
| Server.UnixTcpServer.SendData | unrealcv/Source/UnrealCV/Public/Server/UnixTcpServer.h:96-99 | false without a client or when the write fails, with nothing written; otherwise the payload's frame is appended to what the client receives |
| Server.UnixTcpServer.SendDataINet | unrealcv/Source/UnrealCV/Public/Server/UnixTcpServer.h:106-109 | the same contract on the TCP connection |
| Server.UnixTcpServer.SendDataUDS | unrealcv/Source/UnrealCV/Public/Server/UnixTcpServer.h:114-115 | the same contract on the UDS connection |
| Server.UnixTcpServer.ReceiveOne | unrealcv/Source/UnrealCV/Public/Server/UnixTcpServer.h:153-175 | a well-formed frame is broadcast as received and consumed; an incomplete frame, or no bytes at all, is waited on with nothing changed while the peer is open; a foreign magic, or an incomplete frame after the peer has closed, is broadcast as an error and drops the connection, and the server keeps listening |
| Server.SplitFrameArrives | unrealcv/Source/UnrealCV/Public/Server/UnixTcpServer.h:153-175 | a frame that arrives in two parts yields nothing after the first part and the whole payload after the second, and the client stays connected |
| Server.IdleClientKept | unrealcv/Source/UnrealCV/Public/Server/UnixTcpServer.h:153-175 | a receive step on an open connection with no bytes waiting changes nothing |
| Server.UnixTcpServer.Close | unrealcv/Source/UnrealCV/Public/Server/UnixTcpServer.h:148 | afterwards the server neither listens nor has a client, the streams of the dropped connection are emptied, and the port, the transport and the event log are unchanged |
| Server.ClientReadsSent | unrealcv/Source/UnrealCV/Public/Server/UnixTcpServer.h:93-99 | in every valid state, the client reads back from the written stream exactly the messages sent, in order |
| Client.IntText | unrealcv_basic.py:210 | a rendered number is one plain word |
| Client.IntTextRoundTrip | unrealcv_basic.py:210 | a rendered number reads back as the same number |
| Client.RemapDirection | unrealcv_basic.py:199-209 | a negative speed swaps 0 with 1 and 2 with 3, keeping the axis; any other direction, and every direction with a speed of 0 or more, is unchanged |
| Client.RemapInvolution | unrealcv_basic.py:199-209 | remapping twice with the same speed gives back the direction |
| Client.ApplyActionTransition | unrealcv_basic.py:192-213 | a command exists exactly for a three-part action; it reads as the words vbp, robot, Move_Speed, speed, duration, direction, with the original speed and the remapped direction |
| Client.TransitionCommandParses | unrealcv_basic.py:210 | the transition line reads as six words, and the three numbers read back as the speed, the duration and the remapped direction |
| Client.TransitionDispatch | unrealcv_basic.py:210 | vbp with the transition's five arguments is bound to the capturing call handler |
| Client.ObjectCommandParses | unrealcv_basic.py:109-134 | a setter line exists exactly for three components; it reads as vset, the object's property path and three numbers that read back as the components |
| Client.SetLocation | unrealcv_basic.py:102-112 | a command exists exactly for three components; it reads as vset /object/{name}/location and the three numbers |
| Client.SetOrientation | unrealcv_basic.py:114-124 | the same for /object/{name}/rotation with pitch, yaw and roll |
| Client.SetScale | unrealcv_basic.py:126-136 | the same for /object/{name}/scale |
| Client.DecodeBmp | unrealcv_basic.py:366-379 | an image exists exactly when the kept bytes fill height × width × channel; it has height rows of width pixels, each with one channel fewer |
| Client.DecodeBmpOfPixels | unrealcv_basic.py:376-379 | whatever precedes the raw pixel bytes, decoding gives back the image they were laid out from, without its alpha channel |

## Left out

- Sockets, listeners, threads and blocking reads. Bind outcomes, write outcomes, accepted clients and the client's bytes are parameters (`Start`, `SendData*`, `Connected`, `AcceptUds`, `Deliver`). The receive loop is one step, `ReceiveOne`; whether the peer has closed its end is a parameter of that step. The multi-client path (`RunnerClients`, `Multi_Connected`, `StartMessageServiceINet_Multi`) and the echo service are left out.
- The event delegates are an ordered event log. The listeners and the session code that reacts to events are outside the model.
- Server.UnixTcpServer.SendDataINet: a write that fails partway is a failure with nothing recorded as written. The bytes already on the wire are not modelled.
- The string senders (`SendMessage`, `SendMessageINet`, `SendMessageUDS`) are left out: they only convert a string to UTF-8 bytes before `SendData`, and UTF-8 encoding is not modelled.
- Framing: the value of `DefaultMagic` and the byte order of the header fields are defined outside the declarations modelled here. The magic is an uninitialised constant and the byte order a parameter. The header also cannot describe a payload longer than the engine's signed 32-bit array count.
- Server.UnixTcpServer.Close: the wake-up of a blocked UDS accept, and the release of sockets, are not modelled.
- FParse::Token is not shown; the model assumes: skip leading whitespace; a quoted token runs to the closing quote, with backslash escapes; otherwise the token runs to the next whitespace. Only lines of plain words (no whitespace and no double quote inside) are related to word lists.
- The engine's name table, object lookup, function lookup, text import and the calls themselves are `Host` functions with no contract. `vrun`'s console execution is represented only by the command text it produces.
- Results: string, numeric and boolean slots are rendered as text. A slot of another type is left out of the map; the warning logged for it is not modelled. A value that does not match its slot's type is treated the same way. The result map's conversion to JSON text is not modelled.
- The destruction of parameter values after the call (AliasHandler.cpp:294-298) has no observable effect in the model and is left out.
- The executable-flag check (AliasHandler.cpp:143-147) is dead code, because the force flag is always true. The executor branch (AliasHandler.cpp:180-189) is dead code, because the executor is always null. Neither is modelled.
- `GetPersistentLevelId` and `GetLevelScriptActorId`: only their registration is modelled. Their bodies read engine level state.
- The "actors not initialized" log of `vexec` is left out; it does not change the outcome.
- Alias.AliasHandler.VRun: it requires at least one argument. The dispatcher binds it only for 1 to 6 arguments. With none, the unsigned loop bound in the source would wrap around.
- Python client numbers are whole numbers rendered as Python renders an int. Float values and their formatting are left out. So are the request lock, `time.sleep` after a transition, the network client and the image libraries.
- Client.DecodeBmp: the channel count is always an argument. Python's default of 4 (unrealcv_basic.py:366) is not a default here; a caller passes 4.
- The text form of a zeroed numeric slot is a field of each property, supplied by the engine. Its rendering (for example "0" or "0.000000") is not modelled.
- Client.DecodeBmp: image dimensions are natural numbers. The negative products Python would accept in a slice are not modelled.
