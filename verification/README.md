# Verification of apollo_record

apollo_record is two kinds of daemon. A *monitor* captures one card: it logs loudness, records, streams, and obeys
commands. The *controller* drives up to five monitors: it works through a recording schedule and a programme guide,
keeps an SQLite catalogue of recordings and logs, and talks XML to a client over TCP. This project models both in
Dafny and proves what they keep over whole runs. `dafny verify dfyconfig.toml` checks it.

## What is proved

* **Messages.** A message that is printed, cut into any pieces by the network, collected in the growing receive
  buffer, searched for headers, and tried by seventeen parsers comes out unchanged, in order, once; a corrupt or
  truncated document costs itself and nothing else (`EndToEnd`, on top of `Framing` and `Codec`). The XML library is
  one function from bytes to nodes; what has to be true of its notion of well-formed is written down in
  `Framing.Sound` and `EndToEnd.Written`, and `EndToEnd.LibrariesExist` shows that it can be true. Which document means
  which message, attribute by attribute, and which is refused, is spelled out in `MessageForms`; when a client is dropped
  and what a full buffer loses, in `Connections`.
* **The controller's state machine.** `Controller` has one turn of the main loop, start-up, and the client's requests
  as functions of the state and of an outside world in which every send, SQL statement and key press succeeds or fails
  as it likes; `ControllerMain` is the same program with arrays changed in place, proved equal to it. Over all runs:
  what every turn leaves behind (`TickSafety`), every schedule entry taken up exactly once (`ScheduleRuns`), the
  catalogue's unfinished rows exactly those of the running recordings and logs (`CatalogueAgreement`), what a row says
  of its file, and that every file a monitor begins has a row (`CatalogueRows`, `FilesAndRows`). What one turn, one
  request or a start-up does when the outside world answers well, command by command and row by row, is in `CardTurns`
  and `Requests`.
* **The monitor.** The command switch with the history of recordings and reports (`Monitor`), the three threads
  with their mutexes as interleaved steps, what they must not do (`MonitorThreads`) and what their rounds bring about
  (`MonitorRounds`), the analyzer's handles (`Analyzer`), a recording's loudness on its way to the controller (`Reports`).
* **Both together.** With an in-order queue between them, the monitor's state after the commands in flight is always
  what the controller believes, across restarts of the controller too (`Following`, `SavedStatuses`, `TwoDaemons`).
* **Streams of samples and bytes.** Datagrams (`Streamer`), re-blocked audio frames and their timestamps (`Recorder`).
* **In-place code and tables.** Schedule deletion and guide refresh (`Schedules`), the file-name cleaner (`FileNames`),
  upsert, save and load (`Database`, `Tables`), the C library's number formats (`Text`).

Where the source mutates objects, the model does too: a class or an array, each method proved against a function, and
the theorems about that function. `Value()` of a class is its state as a value.

Some results are exact conditions, because the plain promise is false of the code:

* a user-loudness message survives printing and parsing if and only if every file in it has a section and every
  loudness is a multiple of a tenth (`Codec.RoundTripIff`, failing input in `Codec.NoSectionsNoMessage`);
* the file-name cleaner removes all forbidden characters if and only if no two of them are adjacent
  (`FileNames.CleanIsFilterIff`, failing input in `FileNames.AdjacentForbiddenStays`);
* the open rows of the catalogue are still those the cards name after a user-loudness message if and only if none of
  the added rows takes the name of a running recording (`CatalogueAgreement.UserRowsAgreeIff`, failing input in
  `CatalogueAgreement.SameNameTakesRow`);
* a row's start, channel and channel name make the name of its file if and only if cutting the channel name to the
  row's 24 bytes does no harm: nothing is cut off, or the 128-byte argument ends before it shows, or what is cut off
  leaves nothing in the cleaned name (`CatalogueRows.RowsDescribeFiles`); for names whose 25th byte is an ordinary one
  that is a matter of lengths only (`FileNames.HarmlessIffLengths`). One channel of the operators' tables has a longer
  name (`FileNames.LongChannelName`);
* the audio timestamps of a recorder with video increase if and only if each audio frame finds room behind the offsets
  handed out before it (`Recorder.IncreasingIffRoom`); at every rate they stall once as many audio frames as a video
  frame spans samples come without one (`Recorder.StampsCanStall`);
* a status that was saved is loaded back if and only if the table had at most one row of its index, or its last row was
  that status already (`Database.SaveThenLoad`, failing input in `Database.DuplicateRowsHideASave`);
* a controller that restarts while its monitors keep running still agrees with them if and only if the table holds the
  recordings it had (`Following.RestartFollowsIff`); with a database that executes its statements it always does
  (`TwoDaemons.DaemonsAgreeAcrossRestarts`), and after a failed save it does not (`TwoDaemons.RestartForgets`);
* a card records under a name if and only if the directory leaves room for a character (`TickSafety.NamedIffRoom`), and
  names tell cards apart as long as it leaves room for 21 (`FileNames.LongPathHidesCard`).

## Model

| member | source | states |
|---|---|---|
| `EndToEnd.ReceivesInOrder` | controller/messenger.c:4512-4658 | For any split of the stream into arrivals, with any corrupt documents in it and any reconnections, the messages received so far are a prefix of those sent. |
| `EndToEnd.ReceivesAll` | controller/messenger.c:4512-4658 | Once everything has arrived, a bounded number of further calls yields exactly the messages sent, unchanged. |
| `EndToEnd.LibrariesExist` | controller/messenger.c:4271-4317 | The assumptions about the XML library can be met. |
| `Framing.DeliversInOrder` | controller/messenger.c:4576-4635 | The same for any parser: what is delivered is a prefix of the good segments' messages. |
| `Framing.DeliversAll` | controller/messenger.c:4576-4635 | After all bytes, pieces plus segments many calls deliver the good segments' messages and nothing else; a bad segment costs only itself. |
| `Framing.ExtractStep` | controller/messenger.c:4576-4658 | One call on a buffer that begins anywhere in the stream: which message it cuts out and what the buffer is the beginning of afterwards. |
| `Framing.FillKeeps` | controller/messenger.c:4527-4573 | Below the limit, buffer and socket together hold the same bytes before and after a call. |
| `Framing.FillQuiet` | controller/messenger.c:4527-4573 | A call takes at least the first waiting piece whole and does not drop a client that has not closed. |
| `Framing.CapacityBounded` | controller/messenger.c:4382-4385 | Over any run the capacity is the initial size times 1, 2, 4, 8 or 16, and the buffer is not full after a call. |
| `Connections.DroppedAtEnd` | controller/messenger.c:4535-4554 | A call comes to at most one end of the connection, and drops its client exactly if it does. |
| `Connections.CallDrops` | controller/messenger.c:4512-4574 | The same for a whole call; without a client and without one to accept the socket is left alone. |
| `Connections.GoneUntilAccepted` | controller/messenger.c:4512-4554 | After a call that came to an end nothing is taken from the socket, over any moves, until a call accepts the next client. |
| `Connections.EachEndDropsOne` | controller/messenger.c:4512-4554 | Over any run as many clients are dropped as ends have been come to. |
| `Connections.FillLoses` | controller/messenger.c:4559-4573 | For any buffer and socket: a call loses nothing, or exactly a full buffer that may not grow any more. |
| `Framing.FindsFirst` | controller/messenger.c:4576-4586 | The search finds the first header from a position on, or there is none. |
| `Framing.HeaderSpelled` | controller/messenger.c:4576-4586 | A header is the text `<?xml`, byte by byte. |
| `Messenger.MessengerContext.constructor` | controller/messenger.c:4371-4385 | The initial buffer and the limit of sixteen times its size. |
| `Messenger.MessengerContext.Append` | controller/messenger.c:4527-4557 | Received bytes are written behind those already there. |
| `Messenger.MessengerContext.Grow` | controller/messenger.c:4559-4565 | Doubling the buffer keeps its contents. |
| `Messenger.MessengerContext.FillBuffer` | controller/messenger.c:4525-4574 | The loop terminates and does what the specification of the receive loop says. |
| `Messenger.MessengerContext.FindHeader` | controller/messenger.c:4576-4586 | The scan of the filled part of the buffer finds the first header. |
| `Messenger.MessengerContext.Discard` | controller/messenger.c:4594-4597 | The in-place move leaves exactly the bytes from the given place on. |
| `Messenger.MessengerContext.CutMessage` | controller/messenger.c:4576-4658 | The message and the bytes left in the buffer are those the framing theorems are about. |
| `Messenger.MessengerContext.Receive` | controller/messenger.c:4512-4658 | A whole call is one step of the runs the theorems are about. |
| `Codec.NoiseDoesNotMatter` | controller/messenger.c:4157-4269 | For every list of nodes, comments and white space anywhere make no difference to the result. |
| `Codec.ChainReaches` | controller/messenger.c:4189-4253 | Parsers before the right one leave the reader at the root; the right one's result is the result of the chain. |
| `Codec.UnknownIsRefused` | controller/messenger.c:4189-4269 | A root that belongs to no parser is refused by all of them. |
| `Codec.PrintThenParse` | controller/messenger.c:815-976 | Printing and parsing any message the C structures can hold gives it back with loudness in tenths, or nothing if a file has no section. |
| `Codec.RoundTripIff` | controller/messenger.c:3198-3857 | The round trip is the identity exactly if all files have sections and all loudness is in tenths; always for the other messages. |
| `Codec.RoundTripWithNoise` | controller/messenger.c:2648-2923 | The round trip with comments and white space put in anywhere. |
| `MessageForms.ScheduleMeans` | controller/messenger.c:2648-2923 | For any attributes and any cards: the document `schedule` with cards that have index, start, end and channel means exactly these rows; a card that lacks one of them, or another child, refuses it. |
| `MessageForms.StreamStartMeans` | controller/messenger.c:1414-1641 | The same for `stream_start`: cards with index and port. |
| `MessageForms.StreamStopMeans` | controller/messenger.c:1643-1847 | `stream_stop`: cards with index. |
| `MessageForms.ChannelChangeMeans` | controller/messenger.c:2213-2440 | `channel_change`: cards with index and channel. |
| `MessageForms.LoudnessResetMeans` | controller/messenger.c:2442-2646 | `loudness_reset`: cards with index. |
| `MessageForms.UserLoudnessRequestMeans` | controller/messenger.c:3859-4064 | `user_loudness_request`: files with a name. |
| `MessageForms.UserLoudnessMeans` | controller/messenger.c:3198-3857 | `user_loudness`: files with name and record_name, each with at least one section that has start, end, loudness and comment; everything else is refused. |
| `MessageForms.PlainMeans` | controller/messenger.c:1234-1412 | The ten roots without children mean their message, with its address and number, whatever follows. |
| `MessageForms.RootInsideIsTaken` | controller/messenger.c:4189-4269 | A schedule with a `schedule_request` inside is taken for a schedule request: why the refusals above ask that no child has the name of a root. |
| `MessageForms.ScheduleIsWritten` | controller/messenger.c:366-484 | For any entries: the attributes a schedule is written with, one by one, and that it is read back. |
| `Codec.NoSectionsNoMessage` | controller/messenger.c:3762-3857 | A concrete message with a file without sections that does not come back. |
| `Codec.RowsRoundTrip` | controller/messenger.c:2734-2920 | A list of children is read back whole, up to the end node of the root. |
| `Codec.FilesRoundTrip` | controller/messenger.c:3284-3857 | Files with sections are read back; at one without, the parser stops where no other parser goes on. |
| `Text.IntRoundTrip` | controller/messenger.c:1306-1316 | `%d` and `strtol` are inverse on every C int. |
| `Text.DecimalRoundTrip` | controller/messenger.c:3679-3684 | `%2.1f` and `strtod` give the nearest tenth. |
| `Text.TenthsRoundTrip` | controller/messenger.c:918-922 | They are inverse exactly on the multiples of a tenth. |
| `MessageParser.ReadRows` | controller/messenger.c:2734-2920 | The loop over children, from any reader position, returns and leaves the reader as specified. |
| `MessageParser.ReadSections` | controller/messenger.c:3475-3754 | The same for the sections of a file. |
| `MessageParser.ReadFiles` | controller/messenger.c:3284-3854 | The same for the files, with the end node each must have. |
| `MessageParser.ReadMessage` | controller/messenger.c:1234-1322 | One parser, noise before the root included. |
| `MessageParser.ParseXml` | controller/messenger.c:4157-4269 | The chain over one moving reader computes the function of the parsing theorems. |
| `MessageGenerator.GeneratePlain` | controller/messenger.c:20-142 | ack and alive: the nodes written are the printed form the round trip is about. |
| `MessageGenerator.GenerateSchedule` | controller/messenger.c:366-484 | The same for schedule, with an end node exactly when there are entries. |
| `MessageGenerator.GenerateFile` | controller/messenger.c:858-957 | One file with its sections, and its end node only if it has some. |
| `MessageGenerator.GenerateUserLoudness` | controller/messenger.c:815-976 | The same for user_loudness. |
| `MessageGenerator.GenerateXml` | controller/messenger.c:1080-1232 | The choice of the generator by the kind of the message. |
| `TickSafety.EveryTurn` | controller/main.c:3841-4276 | In every reachable state, whatever fails: after a turn, no active entry means no recording, an active entry is the current one, recording means a name, and a guide entry on the tuned channel is the remembered one and written to the recording. |
| `TickSafety.NamedIffRoom` | controller/main.c:797-806 | A recording that starts has a name exactly if the directory does not fill the argument of the command. |
| `TickSafety.SaveKeepsConsistent` | controller/main.c:879-917 | A save that stops anywhere leaves rows a restart can load. |
| `CardTurns.TakenUpTunes` | controller/main.c:3892-3910 | Taking up an entry tunes the card to its channel if it has a remote control and the keys are pressed, whatever is sent and written. |
| `CardTurns.TakenUpSends` | controller/main.c:3885-4048 | When commands get through: a card on another channel ends audio recording and log, resets, starts both anew for the channel it then has, and starts to record; one on the channel only starts to record. The names in the status are those in the commands. |
| `CardTurns.TakenUpRows` | controller/main.c:3924-4028 | And when statements are executed: what every row of both lists then is, the ends of the old recording and log included. |
| `CardTurns.UnsentRecording` | controller/main.c:3994-4040 | A start that is not sent leaves the card without a recording, and the old one ended in its row. |
| `CardTurns.UnsentLog` | controller/main.c:3943-3983 | A log whose start is not sent is not there; one without audio recording has its row all the same. |
| `CardTurns.ScheduleStepDoes` | controller/main.c:3841-4105 | The schedule's part of a turn: an entry that is not the current one is taken up; a recording without an entry is told to end and ended in its row; otherwise nothing changes. |
| `CardTurns.GuideStepSends` | controller/main.c:4188-4273 | At a new programme the loudness is reset and a running recording goes on under a new name of its own; without one nothing is sent and the name stays. |
| `CardTurns.GuideStepRows` | controller/main.c:4150-4262 | What every row then says: the old recording's end, the new one's programme name and times, the first programme of a recording without one, and no other change. |
| `CardTurns.Retunes` | controller/main.c:2870-2990 | A change of channel: the channel, five commands in order, and what every row of the logs then says. |
| `Requests.MessageTunes` | controller/main.c:2850-3000 | A channel-change message leaves every card with a remote control on the last channel named for it, and no other card on another. |
| `Requests.MessageSends` | controller/main.c:2850-3000 | It makes a card's log and audio recording start over exactly as often as it names another channel for it, and sends nothing else. |
| `Requests.StartupSends` | controller/main.c:2509-2586 | At start-up every card starts a log and an audio recording for its saved channel and keeps the rest of its saved status. |
| `Requests.ScheduleIsLastMessage` | controller/main.c:3034-3095 | With a database that executes its statements, over any events and restarts, the schedule is that of the last schedule message. |
| `Requests.ReplyIsWritten` | controller/main.c:2600-2642 | A measured loudness goes into the row it was measured for, and into no other. |
| `Requests.FilesAreCopied` | controller/main.c:1408-1487 | What every row is after a user-loudness message: a copy of the named recording's row, marked as the user's, or as before. |
| `Requests.UnsavedFileAddsNothing` | controller/main.c:1428-1436 | A file that cannot be saved keeps the whole message out of the playback list. |
| `Reports.ReportIsRead` | monitor/main.c:1032-1041 | A report that fits its message, on a recording in a directory without blanks, is read by the controller as the recording's name and its loudness in tenths. |
| `Reports.LongNameHidesReport` | monitor/main.c:1036-1038 | A file name of 126 characters or more leaves no room for the number, and the report is not read. |
| `Reports.BlankCutsName` | controller/main.c:2605-2618 | A file name with a blank is cut there. |
| `ScheduleRuns.EachEntryOnce` | controller/main.c:3841-4049 | Over any run with an unchanged schedule, the new-schedule branch fires for an entry exactly once if a turn falls into its window, and never otherwise. |
| `ScheduleRuns.HistoryExtends` | controller/main.c:380-408 | One more turn keeps the history of entries taken up equal to the entries active at some turn so far. |
| `CatalogueAgreement.CatalogueAgrees` | controller/main.c:3912-4265 | From an empty catalogue, over any events and restarts, whatever sends fail: recorded rows without end are exactly those the cards name, and so are log rows. |
| `CatalogueAgreement.UserRowsAgreeIff` | controller/main.c:1408-1487 | After a user's rows are added, the open recorded rows are those the cards name, and so the logs, if and only if none of the added rows takes the name of a running recording. |
| `CatalogueAgreement.SameNameTakesRow` | controller/main.c:1408-1487 | A concrete catalogue and message after which they are not. |
| `CatalogueAgreement.StartupGood` | controller/main.c:2509-2586 | A restart over any agreeing catalogue ends the logs that were open and agrees again. |
| `CatalogueRows.RowsDescribeFiles` | controller/main.c:782-823 | Over any events, whatever fails: a recorded row was made with its file for a tuned channel, and its own start, channel and channel name make the file's name exactly if cutting that channel's name to the row's field does no harm. |
| `CatalogueRows.LogRowsDescribeFiles` | controller/main.c:677-711 | The same for a log row. |
| `CatalogueRows.LongChannelRow` | controller/epg_channel_table_lgu.h:80 | The row of the channel with the 25-byte name does not describe its recording. |
| `FileNames.CutNameIff` | controller/main.c:797-814 | The name made from the cut channel name is the name made from the whole one exactly if nothing is cut off, or the argument ends before it shows, or what is cut off leaves only the suffix in the cleaned name. |
| `FileNames.HarmlessIffLengths` | controller/main.c:797-814 | When the first byte that is cut off is an ordinary one, that is: the channel name fits its field, or the argument has no room behind what the field holds. |
| `FileNames.LongChannelName` | controller/epg_channel_table_lgu.h:80 | The channel name of 25 bytes makes two different names, in any directory of less than 76 characters. |
| `CatalogueRows.EveryStartHasARow` | controller/main.c:4007-4040 | When writes succeed, every recording and every log a monitor was asked for has a row. |
| `CatalogueRows.AddUserRowsInOrder` | controller/main.c:1408-1487 | A user-loudness message takes no row away and leaves no recorded row under a name that is not its own. |
| `FilesAndRows.EveryFileHasARow` | monitor/main.c:1077-1108 | In every interleaving of both daemons, whichever sends and opens fail and however often the controller restarts, every file a monitor has begun to record has a row in the catalogue. |
| `FilesAndRows.WorldsExist` | controller/main.c:3841-4276 | The worlds the run theorems assume exist. |
| `ControllerMain.Main.Transmit` | controller/main.c:782-823 | A send appends the command to the card's history exactly when it succeeds. |
| `ControllerMain.Main.EndRecordingRow` | controller/main.c:3994-4005 | The end of a recording is written and its name forgotten. |
| `ControllerMain.Main.AvRecordStart` | controller/main.c:4007-4040 | A recording that starts gets a row and a name; one that does not start gets neither. |
| `ControllerMain.Main.LoudnessLogStart` | controller/main.c:2521-2580 | A log with its audio recording and row, or none. |
| `ControllerMain.Main.ChangeChannel` | controller/main.c:2870-2990 | Keys, end of the log and of the audio recording, new log, on the state in place. |
| `ControllerMain.Main.SaveStatusData` | controller/main.c:879-917 | One upsert per card up to the first failure. |
| `ControllerMain.Main.ScheduleTurn` | controller/main.c:3841-4105 | The schedule's part of a card's turn, in place. |
| `ControllerMain.Main.GuideTurn` | controller/main.c:4107-4276 | The guide's part. |
| `ControllerMain.Main.Tick` | controller/main.c:3841-4276 | The loop over the cards does one turn of the machine the run theorems are about. |
| `ControllerMain.Main.ChangeChannelMessage` | controller/main.c:2850-3000 | A channel-change message does its event. |
| `ControllerMain.Main.Start` | controller/main.c:2509-2586 | Start-up does its event. |
| `ControllerMain.Main.LoadAll` | controller/main.c:919-1080 | Loading overwrites each card by its last row, leaves the others empty, and makes the schedule's array end in a sentinel. |
| `ControllerMain.Main.RefreshGuide` | controller/main.c:1822-1864 | A refresh of the guide in place is the event the run theorems speak of. |
| `ControllerMain.Main.DeleteSchedule` | controller/main.c:2010-2069 | Deleting an entry from the array the loop scans leaves the others, in order. |
| `TwoDaemons.DaemonsAgree` | controller/main.c:3841-4276 | In every interleaving of controller events and monitor steps, the monitor run through its queue has the recording flag, recording name, log flag, log name and audio flag the controller's status says; restarts that find the recordings saved included. |
| `TwoDaemons.DaemonsAgreeAcrossRestarts` | controller/main.c:2509-2586 | With a database that executes its statements the same holds across any restarts of the controller. |
| `TwoDaemons.MoveConnected` | monitor/main.c:753-1200 | The invariant of the joined system is kept by every event, by a restart that finds the recordings saved, and by every command a monitor takes. |
| `TwoDaemons.RestartForgets` | controller/main.c:919-971 | Three moves after which, its save having failed, the controller does not know of a recording the monitor makes. |
| `Following.RestartFollowsIff` | controller/main.c:2509-2586 | After a restart every monitor has what the controller believes if and only if the table holds the recordings the cards had. |
| `Following.StepFollows` | controller/main.c:2850-4276 | Every other event keeps each card's status equal to what its commands lead the monitor to. |
| `SavedStatuses.StepSaved` | controller/main.c:879-971 | With a database that executes its statements, after every event the table holds what the cards have. |
| `Monitor.RecordingsAccounted` | monitor/main.c:1008-1162 | Over any commands and failures, recordings started are those ended followed by the one running, and reports are the readable and sendable ones of those ended, in order. |
| `Monitor.RepliesNameRecordings` | monitor/main.c:1008-1162 | When loudness can be read and sent, reports followed by the running recording are the recordings started. |
| `Monitor.LastDecides` | monitor/main.c:753-1200 | Over any commands, the last one about a device that could be carried out decides whether it is open and under which name, or where the stream goes, whatever comes of commands about other devices. |
| `Monitor.FailedStart` | monitor/main.c:764-1108 | After a start that failed somewhere: everything stays if the old device could not be closed; otherwise the device is open exactly if all it needs succeeded. |
| `Monitor.TargetIsReadBack` | controller/main.c:849 | The address and port the controller prints for a stream are the ones the monitor streams to. |
| `Monitor.MonitorMain.CloseAvRecord` | monitor/main.c:1019-1068 | A recording that is closed is reported if its loudness can be read and sent. |
| `Monitor.MonitorMain.StartAvRecord` | monitor/main.c:1008-1108 | The command on the fields, with each early exit. |
| `Monitor.MonitorMain.StartLoudnessLog` | monitor/main.c:764-835 | The same for the loudness log. |
| `Monitor.MonitorMain.StartAudioRecord` | monitor/main.c:914-980 | The same for the audio recording. |
| `Monitor.MonitorMain.StartAvStream` | monitor/main.c:863-899 | The same for the stream and its target. |
| `Monitor.MonitorMain.Receive` | monitor/main.c:753-1200 | The switch does what the machine of the history theorems does. |
| `MonitorThreads.UsedOnlyWhileThere` | monitor/main.c:374-468 | In every interleaving of three threads, analyzers and audio recorder are used and taken down only between a successful set-up and the next take-down, and never set up twice. |
| `MonitorThreads.TouchedUnderMutex` | monitor/main.c:755-1190 | Whoever is about to touch a device holds exactly its mutex, and no one else holds it or is about to touch it. |
| `MonitorThreads.HolderNeverWaits` | monitor/main.c:755-1190 | A thread that holds a mutex can always step, and every step brings its release nearer. |
| `MonitorThreads.NoDeadlock` | monitor/main.c:374-468 | In every reachable state some thread can step without a lock failing. |
| `MonitorThreads.MainRoundsSafe` | monitor/main.c:755-1290 | Every command and the periodic part keep flag and device in step from any state. |
| `MonitorThreads.OtherRoundsSafe` | monitor/main.c:315-462 | A round of the audio or video thread uses a device only after reading its flag under its mutex. |
| `MonitorRounds.PromiseKept` | monitor/main.c:315-462 | In any interleaving, a thread whose code comes to a deed on every way without failures has done it when its round ends. |
| `MonitorRounds.AudioFeedsWhatIsThere` | monitor/main.c:336-462 | A round of the audio thread feeds every log, audio recording and recording that is there all the while. |
| `MonitorRounds.AudioRoundPromises` | monitor/main.c:336-462 | And it reads the sound card's data into recorder and main analyzer. |
| `MonitorRounds.CommandIsCarriedOut` | monitor/main.c:764-1162 | From any reachable state and in any interleaving: a start that is carried out sets its device up and takes down the old one, an end takes it down, and the end of a recording reads its loudness. |
| `MonitorRounds.OtherRoundsPromise` | monitor/main.c:1164-1290 | A reset takes the main analyzer in hand; the periodic part reads it and writes the log that is open; the video thread writes to the recorder. |
| `Analyzer.AnalyzerContext.Init` | monitor/analyzer.c:7-62 | Set-up creates three states or, at whatever step it fails, none. |
| `Analyzer.AnalyzerContext.Uninit` | monitor/analyzer.c:64-76 | Take-down releases all three states of a ready context and nothing of any other. |
| `Analyzer.NothingLeaks` | monitor/analyzer.c:7-76 | Over any use with any failures, from any memory contents, the library's live states are those of the ready context. |
| `Streamer.SendConserves` | monitor/streamer.c:62-116 | Datagrams sent and bytes kept are the old bytes followed by all new ones, or by a prefix of them if a send fails; datagrams have full size and less than one is kept. |
| `Streamer.RunIsOneCut` | monitor/streamer.c:62-116 | Any sequence of calls that succeed sends what one call with all the data would. |
| `Streamer.RunTakesPrefixes` | monitor/streamer.c:62-116 | Over any sequence of calls, failing ones included, datagrams and bytes kept are a prefix of each call's data, in order, and all of it for a call that succeeds. |
| `Streamer.StreamerContext.constructor` | monitor/streamer.c:12-48 | An empty buffer of one datagram; with a packet size of zero the context is there but nothing can be sent. |
| `Streamer.StreamerContext.Send` | monitor/streamer.c:62-116 | The copy-and-send loop on the buffer in place does what the conservation law is about. |
| `Recorder.WriteConserves` | monitor/recorder.c:826-949 | What is read from the FIFO plus what stays is what was there plus what was written, whatever fails. |
| `Recorder.WriteWithoutFault` | monitor/recorder.c:845-881 | After a successful call less than one frame stays. |
| `Recorder.AudioOnlyPtsCountsSamples` | monitor/recorder.c:884-898 | In audio-only mode a frame's timestamp is the number of samples before it. |
| `Recorder.AudioOnlyRun` | monitor/recorder.c:845-898 | Over any writes the frames are the one cut of all samples, each stamped with the samples before it. |
| `Recorder.IncreasingIffRoom` | monitor/recorder.c:884-898 | Over any interleaving of video and audio, the audio timestamps strictly increase if and only if each frame finds room. |
| `Recorder.IncreasingUnderBound` | monitor/recorder.c:775-776 | They do when the offset stays below the samples of one video frame, rounded down. |
| `Recorder.StampsCanStall` | monitor/recorder.c:884-898 | At every rate, a run in which they do not: as many audio frames as a video frame spans samples, a video frame, an audio frame. |
| `Recorder.StallAtRecordingRate` | monitor/config.h:28-31 | At the rate the recorder is opened with that takes 1601 audio frames. |
| `Recorder.VideoTimeAdvances` | monitor/recorder.c:884-898 | One more video frame advances the rounded-down time by at least one rounded-down frame. |
| `Recorder.VideoTimeIsFloor` | monitor/recorder.c:884-898 | The video clock is at the last whole sample before the moment the video frames take. |
| `Recorder.StampsKeepToVideo` | monitor/recorder.c:884-898 | Over any interleaving every audio timestamp, without its offset, lies less than a sample before that moment for the video frames before it. |
| `Recorder.StampSpelled` | monitor/recorder.c:884-898 | Every audio timestamp of any interleaving in closed form: the position of the video clock and the number of audio frames since the last video frame. |
| `Recorder.FramesUntilFault` | monitor/recorder.c:854-945 | Which frames a call takes out of the FIFO and hands to the encoder, with which samples, whatever fails at which frame. |
| `Recorder.StampAllIsAudioSteps` | monitor/recorder.c:845-898 | The frames of one write are that many audio steps of the run. |
| `Recorder.RecorderContext.WriteVideoFrame` | monitor/recorder.c:744-824 | The video counter advances once per frame. |
| `Recorder.RecorderContext.StampFrame` | monitor/recorder.c:884-898 | The timestamp and the two counters behind it. |
| `Recorder.RecorderContext.WriteAudioFrame` | monitor/recorder.c:826-949 | The whole call, with the point at which it stops when something fails. |
| `Recorder.RecorderContext.EncodeBlocks` | monitor/recorder.c:854-945 | The loop that drains the FIFO. |
| `FileNames.CleanKeepsPermitted` | controller/main.c:516-537 | Every permitted character survives, in order. |
| `FileNames.CleanRun` | controller/main.c:516-537 | Of a run of k forbidden characters the second, fourth, and so on stay. |
| `FileNames.CleanIsFilterIff` | controller/main.c:516-537 | The result is fully filtered exactly if no two forbidden characters are adjacent. |
| `FileNames.AdjacentForbiddenStays` | controller/main.c:516-537 | A text of which a forbidden character stays. |
| `FileNames.RemoveNonFilenameCharacter` | controller/main.c:516-537 | The in-place loops do this to the C string in the buffer and leave it terminated. |
| `FileNames.RecordNameNamesCard` | controller/main.c:788-806 | In a directory of at most 105 characters a recording's or log's name tells the card it is for. |
| `FileNames.NameSpelled` | controller/main.c:797-806 | Where there is room, a name is the digits of the time, the card, the channel, the cleaned channel name and the suffix. |
| `FileNames.ElevenVanish` | controller/main.c:523-526 | Which eleven characters do not stay between two that do. |
| `FileNames.NameEmptyIff` | controller/main.c:797-801 | A name is empty exactly if the directory fills the argument. |
| `FileNames.LongPathHidesCard` | controller/main.c:797-801 | In a longer directory, cards that start at the same time get the same name. |
| `Schedules.GetCurrentSchedule` | controller/main.c:380-408 | The scan up to the sentinel finds the first active entry. |
| `Schedules.CurrentScheduleIff` | controller/main.c:380-408 | An entry is found exactly from its start on until before its end, the first of them if there are several. |
| `Schedules.ScheduleDel` | controller/main.c:2047-2068 | In-place deletion is the order-preserving filter and keeps the sentinel. |
| `Schedules.ScheduleAdd` | controller/main.c:1985-2003 | An entry is added behind the others. |
| `Schedules.DeleteLookup` | controller/main.c:2010-2069 | Deleting an entry changes no other look-up. |
| `Schedules.Guide.GetCurrentEpg` | controller/main.c:410-470 | The scan of the guide finds the first active entry. |
| `Schedules.CurrentEpgIff` | controller/main.c:410-470 | The same for programmes. |
| `Schedules.Guide.Delete` | controller/main.c:1753-1820 | In-place compaction keeps the other cards' entries, in order. |
| `Schedules.Guide.Insert` | controller/main.c:1683-1751 | Exactly the readable new entries are appended. |
| `Schedules.Guide.RefreshCard` | controller/main.c:1822-1864 | Deletion and insertion together are the refresh of the abstract guide. |
| `Schedules.RefreshLookup` | controller/main.c:1683-1820 | After a refresh other cards look up what they did before, and the card looks up its new entries. |
| `Schedules.ReadableMembers` | controller/main.c:1683-1751 | The programmes a refresh brings in are those of the data whose times can be read, with these times, and no others. |
| `Database.SetStatusRows` | controller/database.c:532-564 | An upsert run keeps one row per index; each row is old or the card's status, and all are the cards' if it succeeds. |
| `Database.SaveThenLoad` | controller/main.c:879-971 | Saving and loading statuses is the identity on the saved cards if and only if the table had at most one row for each, or its last row for the card was the status already; other rows do not matter. |
| `Database.SavedTablesGiveBack` | controller/main.c:879-971 | It is on every table that saves have built. |
| `Database.DuplicateRowsHideASave` | controller/database.c:532-592 | With two rows of one index a save is not what is loaded. |
| `Database.InsertedPrefix` | controller/database.c:619-657 | The schedule table then holds a prefix of the schedule, all of it on success. |
| `Database.SaveAndLoadSchedule` | controller/main.c:973-1080 | Saving and loading a schedule gives the same entries up to the sentinel. |
| `Database.DatabaseContext.SetStatusData` | controller/database.c:532-564 | The loop of upserts on the table. |
| `Database.DatabaseContext.LoadStatusData` | controller/main.c:919-971 | The loop that copies rows into cards. |
| `Database.DatabaseContext.SaveScheduleData` | controller/main.c:973-1016 | The count up to the sentinel, the deletion, and the inserts. |
| `Database.DatabaseContext.LoadScheduleData` | controller/main.c:1018-1080 | The array that is allocated ends in a sentinel and holds the rows. |
| `Database.EndPlaybackOpen` | controller/database.c:817-841 | Writing an end closes exactly the named row. |
| `Database.SetProgramOpen` | controller/database.c:843-871 | Writing a programme opens and closes nothing. |
| `Tables.GetUpsert` | controller/database.c:711-746 | What every key holds after an upsert. |
| `Tables.GetUpdate` | controller/database.c:985-1009 | What every key holds after an update. |
| `Tables.UpsertUnique` | controller/database.c:532-564 | Keys stay unique. |

## Left out

- libxml2, SQLite, FFmpeg, ALSA, V4L2, lirc, libebur128: they appear as inputs, outcomes, or one function from bytes to nodes; that destroying a loudness state clears its handle is taken from the null tests of monitor/analyzer.c.
- Sockets, FIFOs, files, clocks, signals: explicit inputs; the IPC between the daemons is an in-order queue.
- Console commands other than adding to and deleting from the schedule, options, logging, process shutdown.
- Messages that only go out (loudness, status, playback_list, log_list, channel_list): they have generators and no parser to be inverse to.
- messenger_send_message: it may repeat a failing send for ever; only the document it sends is modelled.
- EndToEnd.ReceivesAll: asks that what is buffered and what waits stay below sixteen times the initial buffer at each call; a full buffer of that size is emptied, and the bytes in it are lost.
- Codec.PrintThenParse: covers texts that fit their C fields with a terminator; a text that fills its field is stored by strncpy without one.
- Text.DecimalRoundTrip: strtod is modelled on plain decimals, without exponents, hexadecimals, infinities, or rounding to binary.
- ControllerMain.Main.GuideTurn: reads the guide between refreshes; the C code passes the guide's address by value before it locks.
- ControllerMain.Main.LoudnessLogStart: a name buffer that was never written holds a text the outside world chooses.
- TickSafety.EveryTurn: asks that the directory leaves room for a character of a recording's name; longer directories than 126 characters, with which the C code writes behind the argument, are excluded everywhere.
- MessageForms.ScheduleMeans: spells out documents whose children have no children of their own and none of which has the name of a root; the parse function and the theorem on noise are about all documents.
- MonitorRounds.AudioFeedsWhatIsThere: is about rounds in which every lock is taken and audio data was received.
- Reports.ReportIsRead: a loudness that is infinite or not a number, which the controller reads as zero, is not a real number.
- CatalogueAgreement.CatalogueAgrees: asks for directories of at most 105 characters; in longer ones two cards can record under one name.
- CatalogueRows.RowsDescribeFiles: a channel name that fills its field is stored there without a terminator; the model's row ends with the field.
- ScheduleRuns.EachEntryOnce: is about disjoint windows per card, nonzero starts, and a clock that does not run backwards; the controller recognises an entry by start and channel only.
- TwoDaemons.DaemonsAgree: excludes commands that are not sent and opens that fail in the monitor, after which the controller believes in a recording or log the monitor does not have, and restarts that do not find the recordings saved.
- FilesAndRows.EveryFileHasARow: asks that SQL statements succeed, as CatalogueAgrees does; row numbers of the tables are modelled by row order.
- MonitorThreads.UsedOnlyWhileThere: unlocking is taken to succeed; the analyzer and the recorder that are always there are only shown to be touched under their mutexes. The mutexes are recursive in C; no thread locks while it holds one.
- monitor/recorder.c: recorder_uninit returns early for an audio-only recorder and releases nothing; streamer_init with a packet size of zero, for which the send loop does not end, is excluded; products of timestamps are taken without 64-bit overflow.
- Requested user-loudness look-up (load_user_loudness_data queries only the first names again) and the loudness sections' table.
- Threads of the controller: guide refreshes and key presses take effect between turns; the guide comes from outside (external/epg2xml).
