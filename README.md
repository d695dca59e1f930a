# qt_monkey: record packets, their dispatcher, and the command-line scan

qt_monkey drives an application under test through a helper process, the monkey
application. The two sides exchange JSON documents over a pipe. This project
models two pieces of that system in Dafny and proves properties of them.

- **The record layer** (`app_api.dfy`, module `MonkeyAppApi`). There are two
  record kinds. An event packet is `{"event":{"script":s}}` and an error packet is
  `{"app errors":s}`. `parseOutputFromMonkeyApp` receives the monkey application's output
  buffer and runs json11's `Json::parse_multi` on it. The model takes the
  documents and the stop offset that call returns as inputs. The function copies
  the parser's stop offset into `stopPos`, then walks the documents in order:
  - `null` is skipped.
  - A well-formed event fires `onNewUserAppEvent`.
  - A well-formed error fires `onUserAppError`.
  - A known key with the wrong inner shape fires one `onParseError(kind)` and
    returns.
  - Anything else is ignored.

  The three callbacks are modelled as one ordered sequence of `Outcome`s. A
  delivered string passes through `QString::fromUtf8(x.c_str())`, which cuts it at
  its first NUL character (`UpToNul`).
- **The JSON value** (`json_value.dfy`, module `JsonValue`). This is the value
  json11 parses into. Objects are maps, so each key occurs once.
- **The argument scan of `main`** (`app_main.dfy`, module `MonkeyAppMain`).
  - `--script <path>` options collect script paths.
  - `--user-app <path>` ends the scan. Every later argument belongs to the user
    application.
  - A flag without a value is a failure, and so is an unknown option or a missing
    `--user-app`.

  `ParseCommandLine` is the imperative loop and is proved equal to `Scan`. `Scan`
  is characterised by `Render`, the command line that asks for a given launch.

`stopPos` is always the parser's stop offset, even when the dispatcher returns
early on a malformed record. The dispatcher never moves it back to where that
record starts. So documents after a malformed record are never dispatched by that
call (`DispatchStopsAtMalformed`). Suppose `parse_multi`'s stop offset lies past
every document it returned. Then a caller that keeps only the bytes after
`stopPos` never sees those documents again. That behaviour of json11, and the
caller's buffer handling, are not part of this model. The model follows the code
here.

## Model

| member | source | states |
|---|---|---|
| `MonkeyAppApi.UpToNul` | qtmonkey_app_api.cpp:68-71 | the delivered text is a prefix of the JSON string, contains no NUL, and is cut only where the JSON string has a NUL |
| `MonkeyAppApi.UserAppEventPacket` | qtmonkey_app_api.cpp:23-30 | the event packet is an object whose only key is "event"; its value is an object whose only key is "script", holding the whole input string |
| `MonkeyAppApi.UserAppErrorsPacket` | qtmonkey_app_api.cpp:32-39 | the error packet is an object whose only key is "app errors", holding the whole input string |
| `MonkeyAppApi.Classify` | qtmonkey_app_api.cpp:56-80 | one document gives no callback, one event/error callback, or a parse error; a parse error's kind is "event" or "app errors" |
| `MonkeyAppApi.Dispatch` | qtmonkey_app_api.cpp:56-81 | there are no more callbacks than documents, and a parse error can only be the last callback |
| `MonkeyAppApi.ParseOutputFromMonkeyApp` | qtmonkey_app_api.cpp:41-82 | `stopPos` equals the parser's stop offset on every path, early return included; the callbacks fired are exactly `Dispatch` of the documents, in order |
| `MonkeyAppApi.EventDocuments` | qtmonkey_app_api.cpp:59-71 | a document is dispatched as an event iff it equals some event packet; the script delivered is that packet's script cut at its first NUL |
| `MonkeyAppApi.ErrorDocuments` | qtmonkey_app_api.cpp:72-79 | a document is dispatched as an application error iff it equals some error packet; the message delivered is that packet's message cut at its first NUL |
| `MonkeyAppApi.MalformedDocuments` | qtmonkey_app_api.cpp:59-77 | `ParseError("event")` iff the document is a single-key "event" object that is no event packet; `ParseError("app errors")` iff it is a single-key "app errors" object that is no error packet |
| `MonkeyAppApi.IgnoredDocuments` | qtmonkey_app_api.cpp:57-73 | a document fires nothing iff it is not a single-key "event" or "app errors" object (null included) |
| `MonkeyAppApi.EventRoundTrip` | qtmonkey_app_api.cpp:23-71 | dispatching an encoded event gives exactly one event with the script cut at its first NUL, and exactly the script when it has no NUL |
| `MonkeyAppApi.ErrorRoundTrip` | qtmonkey_app_api.cpp:32-79 | dispatching an encoded error gives exactly one application error with the message cut at its first NUL, and exactly the message when it has no NUL |
| `MonkeyAppApi.StreamRoundTrip` | qtmonkey_app_api.cpp:23-81 | a stream of NUL-free event and error records, encoded one packet each, is dispatched as the same records in the same order |
| `MonkeyAppApi.DispatchNothing` | qtmonkey_app_api.cpp:56-81 | no callback fires iff every document is ignored |
| `MonkeyAppApi.DispatchConcat` | qtmonkey_app_api.cpp:56-81 | before any malformed record, documents are dispatched in stream order: the callbacks for `a + b` are those for `a` followed by those for `b` |
| `MonkeyAppApi.DispatchStopsAtMalformed` | qtmonkey_app_api.cpp:62-77 | a malformed record after well-formed ones fires exactly one parse error of its kind, and nothing after it is dispatched |
| `MonkeyAppApi.NullIsKeepAlive` | qtmonkey_app_api.cpp:57-58 | inserting a `null` document anywhere in the stream does not change the callbacks |
| `MonkeyAppMain.ParseCommandLine` | qtmonkey_app.cpp:73-103 | the imperative scan, with its early exits, `break` and argument copy, returns exactly `Scan(argv)` |
| `MonkeyAppMain.ScanScriptOptions` | qtmonkey_app.cpp:84-90 | scanning past a run of `--script p` options appends their paths in command-line order |
| `MonkeyAppMain.RenderRoundTrip` | qtmonkey_app.cpp:73-103 | any scripts, app path and app arguments written as a command line are read back unchanged, even app arguments that look like options |
| `MonkeyAppMain.LaunchFrom` | qtmonkey_app.cpp:75-90 | a scan that launches from position `i` read a rendered command line from `i` on, keeping the scripts already collected as a prefix |
| `MonkeyAppMain.LaunchIsRender` | qtmonkey_app.cpp:75-103 | whenever the scan launches, the arguments after the program name are the rendering of its result: the app path is right after the first `--user-app` in option position (a `--user-app` given as the value of `--script` is a script path), and everything after the app path is an app argument |
| `MonkeyAppMain.LaunchExactly` | qtmonkey_app.cpp:73-103 | the scan launches with given scripts, path and arguments iff the command line after the program name is their rendering |
| `MonkeyAppMain.LaunchReadsUserAppFlag` | qtmonkey_app.cpp:76-83 | a launching scan read `--user-app` in option position, right after its `--script` options, and the app path is the argument right after that flag |
| `MonkeyAppMain.NoUserAppFails` | qtmonkey_app.cpp:96-100 | a command line with no `--user-app` after the program name never launches: the scan returns a failure |
| `MonkeyAppMain.Failures` | qtmonkey_app.cpp:76-100 | no `--user-app` gives failure; a trailing `--script` or `--user-app` without a value gives failure; any other option before `--user-app` gives failure |

## Left out

- json11's `Json::parse_multi` and `Json::dump` are foreign code and are not part of this model. The parsed documents and the parser's stop offset are inputs to `ParseOutputFromMonkeyApp`. The encoders return the JSON value before serialisation. Byte-level escaping, how documents are split, how the stop offset relates to the buffer, and splitting a stream into chunks are not modelled.
- JSON numbers are modelled as `real`. The dispatcher never looks at them.
- Qt string conversions (`toStdString`, `fromLocal8Bit`, `QFile::decodeName`, UTF-8 decoding) are not modelled; strings are `seq<char>`. The one effect kept is that `c_str()` cuts a string at its first NUL. Command-line arguments are C strings and so never hold a NUL.
- The three callbacks are an ordered list of outcomes rather than calls into the GUI object. What the GUI does with them is not part of this model.
- In `main`: `ConsoleApplication::notify`, `msgHandler`, the `usage()` text and the error messages written to stderr are I/O. They are left out. The failure reason is kept as a `Failure` value.
- `QtMonkey::runScriptFromFile`, `runApp` and `app.exec()` launch processes and run the event loop. They are not part of this model. A successful scan ends in a `Launch` value.
- qtmonkey_gui.hpp only declares Qt signals, slots, a process, a timer and preference storage. Its buffer handling lives in a source file that is not part of this model.
