# webview: lifecycle and buffering of the web view back-ends

Life4gal/webview puts a native window with a browser engine behind one C++ facade.
The facade is a CRTP base class. A back-end for each platform implements its `do_*` hooks:
GTK/WebKit on Linux and WebView2 on Windows. There are three generations of the base:

- v1, `impl/web_view_base.hpp`: a pure router from facade operations to hooks.
- v2, `impl/v2/web_view_base.hpp`: stores the window and page settings.
- v3, `impl/v3/web_view_base.hpp`: stores the settings and is shared by the v3 adapters.

This project models the state each back-end keeps and how the back-end moves through
its lifecycle, `Uninitialized → Initialized → Running → Shutdown`. Until the back-end
runs, settings written to it are buffered. When it starts running they are replayed.

What the model covers:

- The bases and the adapters are classes whose methods update their fields.
- Every native effect (a Win32, GTK, WebKit or WebView2 call) is appended to a ghost
  log of `Native.Op` entries.
- Whether such a call succeeds is an input to the method that makes it.
- The asynchronous completions and window messages are methods of their own.
  - WebView2: environment created, controller created, `WM_SIZE`, `WM_DPICHANGED`,
    `WM_DESTROY`, and web messages.
  - GTK: one `Gtk.Event` per main-loop iteration.
- The GTK `do_eval` spin loops are `while` loops over a sequence of pending events.

Modules:

- `Native`: the shared log entries. `LastSet` tells what the window or page shows
  now: the latest title, fullscreen state or URL written to it.
- `Script`: the IIFE wrapper of `inject`, the bridge scripts and the default documents.
- `BaseV1`, `BaseV2`, `BaseV3`: the three bases.
- `Gtk`: the GTK/WebKit signal handlers and the event-driven spin loops.
- `LinuxV2`, `LinuxV3`: the two GTK adapters.
- `Win32`: `MulDiv`, style bits, the fullscreen snapshot and DPI rescaling.
- `Profile`: the WebView2 user-data folder, that is `APPDATA` or the temp directory
  joined with the executable's stem, as a C API reads it.
- `WebView2`: the bring-up steps both Windows adapters share.
- `WindowsV1`, `WindowsV3`: the two WebView2 adapters.

Main properties proved:

- Buffering:
  - While not running, the last title or URL written wins and nothing reaches the window.
  - A successful GTK start leaves the buffered title, fullscreen flag and URL as the
    latest settings of the window and page.
  - A WebView2 bring-up replays only the fullscreen flag (as window geometry) and the
    URL; the buffered title never reaches the window.
- GTK scripts:
  - No script is ever executed before a page has finished loading (`Gtk.ScriptsFollowLoad`,
    an invariant of both GTK adapters).
  - `do_eval` returns exactly after the first load-finished event and then the first
    script-finished event.
- Injection: it accumulates wrapped fragments in call order, and each fragment can be
  read back.
- Fullscreen on Windows:
  - Entering and then leaving fullscreen gives the window back.
  - A DPI change while fullscreen rescales the snapshot proportionally, to the nearest pixel.
- The user-data folder is `<base>\<stem>`. The v1 adapter, as written, uses `APPDATA` itself.

## Model

| member | source | states |
|---|---|---|
| Native.LastSet | webview/src/web_view_linux_v2.cpp:196-199 | the latest log entry setting an aspect (title, fullscreen, page) is in the log and sets that aspect; none is found only when no entry sets it |
| Native.LastSetConcat | webview/src/web_view_linux_v2.cpp:196-199 | after appending entries, a later setting of an aspect overrides; otherwise the earlier latest setting stays |
| Native.LastSetSnoc | webview/src/web_view_linux_v2.cpp:196-199 | one appended entry is the latest setting exactly when it sets the aspect |
| Native.LastSetNone | webview/src/web_view_linux_v2.cpp:196-199 | a log with no entry for an aspect has no latest setting of it |
| Script.Wrap | webview/include/webview/impl/v2/web_view_base.hpp:305-308 | a fragment inside `(() => {` … `})()`; `Unwrap` and `WrapRoundTrip` recover the fragment from it |
| Script.Unwrap | webview/include/webview/impl/v2/web_view_base.hpp:305-308 | whatever is recovered from a text, wrapped again, gives back that text |
| Script.WrapRoundTrip | webview/include/webview/impl/v2/web_view_base.hpp:305-308 | the fragment is recovered from its `(() => {`…`})()` wrapping |
| Script.Inject | webview/include/webview/impl/v3/web_view_base.hpp:164-173 | one inject keeps the old buffer as a prefix; the rest unwraps to exactly the fragment; the length grows by the fragment plus the wrapper |
| Script.InjectAll | webview/include/webview/impl/v2/web_view_base.hpp:299-331 | the buffer after a series of injects; `InjectAllAppendsInOrder` and `InjectAllConcat` say what it holds |
| Script.InjectAllAppendsInOrder | webview/include/webview/impl/v2/web_view_base.hpp:299-331 | a series of injects is the old buffer followed by the wrapped fragments in call order |
| Script.InjectTwice | webview/include/webview/impl/v2/web_view_base.hpp:299-331 | two injects give the buffer, then Wrap(a), then Wrap(b) |
| Script.InjectAllConcat | webview/include/webview/impl/v2/web_view_base.hpp:299-331 | injecting a + b is injecting a, then injecting b into the result |
| Script.InjectAllKeepsPrefix | webview/src/web_view_linux_v2.cpp:22 | the starting buffer (the bridge script) stays a prefix after any injects |
| Script.LinuxBridge | webview/src/web_view_linux_v2.cpp:22 | the GTK bridge `window.external={<name>:arg=>window.webkit.messageHandlers.external.postMessage(arg)};` that starts the injection buffer; `InjectAllKeepsPrefix` keeps it first |
| Script.WindowsBridge | webview/src/web_view_windows_v3.cpp:207 | the WebView2 bridge `window.external.<name>=arg=>window.chrome.webview.postMessage(arg);` that starts the injection buffer |
| Script.DefaultIndexUrlV3 | webview/include/webview/impl/v3/web_view_base.hpp:57-70 | `default_index_url`: the default document with the v3 file's seven-tab indentation; `DefaultDocument` gives its `data:text/html,` shape |
| Script.DefaultUrlV2 | webview/include/webview/impl/v2/web_view_base.hpp:95-106 | `default_url`: the default document with the v2 file's four-tab indentation |
| Script.IndexUrl | webview/include/webview/impl/v3/web_view_base.hpp:86-102 | the construction URL is the given index URL, or the generation's default document when none is given |
| Script.DefaultDocument | webview/include/webview/impl/v3/web_view_base.hpp:57-70 | the default index URL is a `data:text/html,` URL |
| BaseV1.Implements | webview/include/webview/impl/web_view_base.hpp:140-189 | the facade operation each hook implements, by name; `RouteIntended` is its inverse (`RouteIntendedIsBijective`) |
| BaseV1.Route | webview/include/webview/impl/web_view_base.hpp:140-189 | as written, every facade operation reaches the hook of its own name, except `inject`, which reaches `do_navigate` with the script |
| BaseV1.RouteNeverInjects | webview/include/webview/impl/web_view_base.hpp:169-173 | as written, no facade operation reaches `do_inject` |
| BaseV1.RouteIntended | webview/include/webview/impl/web_view_base.hpp:140-189 | corrected routing: every operation, `inject` included, reaches the hook that implements it |
| BaseV1.RouteIntendedIsBijective | webview/include/webview/impl/web_view_base.hpp:140-189 | the corrected routing is one-to-one and every hook is reached by its own operation |
| BaseV1.RouteDiffersOnlyOnInject | webview/include/webview/impl/web_view_base.hpp:169-173 | the written and the corrected routing agree exactly on the operations other than `inject` |
| BaseV1.InjectIsNavigatedAsWritten | webview/include/webview/impl/web_view_base.hpp:161-173 | as written, `inject("alert(1)")` is routed to the same hook call as `navigate("alert(1)")`; the corrected routing reaches `do_inject` |
| BaseV1.RouteIntendedInjects | webview/include/webview/impl/web_view_base.hpp:169-173 | every script: the corrected routing hands it to `do_inject`, the written one to `do_navigate` |
| BaseV2.WebViewBase.constructor | webview/include/webview/impl/v2/web_view_base.hpp:215-223 | the settings are stored; the state is uninitialized; nothing is injected, registered or issued |
| BaseV2.WebViewBase.RegisterJavascriptCallback | webview/include/webview/impl/v2/web_view_base.hpp:226-235 | the new callback replaces the old one, which is handed back; nothing else changes |
| BaseV2.WebViewBase.SetWindowTitle | webview/include/webview/impl/v2/web_view_base.hpp:237-255 | not running: buffered, last write wins, backend not told; running: forwarded, stored title kept |
| BaseV2.WebViewBase.SetWindowFullscreen | webview/include/webview/impl/v2/web_view_base.hpp:257-268 | the flag becomes the value; the backend is told only when the flag changes |
| BaseV2.WebViewBase.ServiceState | webview/include/webview/impl/v2/web_view_base.hpp:270-271 | reports the stored state |
| BaseV2.WebViewBase.Navigate | webview/include/webview/impl/v2/web_view_base.hpp:273-297 | not running: URL buffered, nothing forwarded, `SERVICE_NOT_READY_YET`; running: forwarded, backend's result returned, stored URL kept |
| BaseV2.WebViewBase.Inject | webview/include/webview/impl/v2/web_view_base.hpp:299-331 | the wrapped fragment is appended in every state |
| BaseV2.WebViewBase.Eval | webview/include/webview/impl/v2/web_view_base.hpp:333-334 | forwarded; the backend's result is returned |
| BaseV2.WebViewBase.ServiceStart | webview/include/webview/impl/v2/web_view_base.hpp:336-341 | forwarded from any state (the guard is commented out); the backend's result and resulting state are taken |
| BaseV2.WebViewBase.Iteration | webview/include/webview/impl/v2/web_view_base.hpp:343-344 | forwarded; the backend's result is returned |
| BaseV2.WebViewBase.ShutdownService | webview/include/webview/impl/v2/web_view_base.hpp:346-347 | forwarded to the backend |
| BaseV2.FullscreenCalls | webview/include/webview/impl/v2/web_view_base.hpp:257-268 | a log has at most as many fullscreen calls as entries |
| BaseV2.FullscreenCallsSnoc | webview/include/webview/impl/v2/web_view_base.hpp:257-268 | one more backend call adds its value to the fullscreen calls exactly when it is a fullscreen call |
| BaseV2.FullscreenCallsMeans | webview/include/webview/impl/v2/web_view_base.hpp:257-268 | there are no fullscreen calls exactly when no entry is one; otherwise the last call's value is the latest fullscreen setting of the log |
| BaseV2.SetFullscreenTwice | webview/include/webview/impl/v2/web_view_base.hpp:257-268 | setting the same value twice reaches the backend at most once, and only with that value |
| BaseV2.InjectTwice | webview/include/webview/impl/v2/web_view_base.hpp:299-331 | two injects accumulate in call order; state and backend calls are untouched |
| BaseV3.WebViewBase.constructor | webview/include/webview/impl/v3/web_view_base.hpp:86-102 | settings stored; uninitialized; nothing injected, registered or issued |
| BaseV3.WebViewBase.RegisterJavascriptCallback | webview/include/webview/impl/v3/web_view_base.hpp:112-116 | the new callback replaces the old one, which is handed back |
| BaseV3.WebViewBase.SetWindowTitle | webview/include/webview/impl/v3/web_view_base.hpp:118-136 | not running: buffered, window not told; running: one native title call, stored title kept |
| BaseV3.WebViewBase.ServiceState | webview/include/webview/impl/v3/web_view_base.hpp:138 | reports the stored state |
| BaseV3.WebViewBase.Navigate | webview/include/webview/impl/v3/web_view_base.hpp:140-162 | not running: URL buffered and refused with `SERVICE_NOT_READY_YET`; running: one load, the hook's result returned |
| BaseV3.WebViewBase.Inject | webview/include/webview/impl/v3/web_view_base.hpp:164-173 | the wrapped fragment is appended in every state |
| BaseV3.BufferedWrites | webview/include/webview/impl/v3/web_view_base.hpp:118-162 | two titles and two URLs before running: the last of each is kept, both loads refused, nothing issued |
| Gtk.FullscreenSignalReturnAsWritten | src/web_view_linux_v3.cpp:196-203 | as written, the "enter/leave-fullscreen" handler reports the signal handled exactly for a resizable window |
| Gtk.FixedWindowNotProtectedAsWritten | src/web_view_linux_v3.cpp:213-220 | as written, WebKit goes on to (un)fullscreen exactly the fixed windows |
| Gtk.FullscreenSignalReturn | webview/src/web_view_linux_v2.cpp:158-191 | corrected handler: WebKit proceeds exactly for a resizable window |
| Gtk.EventOps | webview/src/web_view_linux_v2.cpp:68-120 | a delivered event never runs a script or navigates; it records a finished load exactly when it is the load-finished event; a fullscreen request follows the handlers as written |
| Gtk.FullscreenRequestAsWritten | webview/src/web_view_linux_v2.cpp:158-191 | as written, a page's fullscreen request (un)fullscreens the window exactly when the window is fixed |
| Gtk.EventsOps | webview/src/web_view_linux_v2.cpp:235-257 | the effects of a run of dispatched events, in order; `EventsOpsConcat` and `EventsOpsRunNoScript` characterise it |
| Gtk.EventsOpsConcat | webview/src/web_view_linux_v2.cpp:68-120 | the effect of two event runs is the effect of the first followed by that of the second |
| Gtk.EventsOpsRunNoScript | webview/src/web_view_linux_v2.cpp:89-105 | any event run executes no script, and records a finished load exactly when it contains the load-finished event |
| Gtk.IndexOf | webview/src/web_view_linux_v2.cpp:237 | the first position of an event, or none exactly when it is absent |
| Gtk.LoadWait | webview/src/web_view_linux_v2.cpp:237 | the first spin loop dispatches zero events on a loaded page, otherwise up to and including the first load-finished event; none exactly when nothing ever loads |
| Gtk.LoadWaitIsFirst | src/web_view_linux_v3.cpp:66 | any count that stops at the first load-finished event is the one `LoadWait` gives |
| Gtk.ScriptsFollowLoad | webview/src/web_view_linux_v2.cpp:235-257 | the invariant that no script entry of the log precedes every load-finished entry; `ScriptsFollowLoadMeans` gives its positional meaning |
| Gtk.ScriptsFollowLoadMeans | webview/src/web_view_linux_v2.cpp:235-257 | the log invariant holds exactly when every script entry has a load-finished entry before it |
| Gtk.ScriptsFollowLoadAppend | webview/src/web_view_linux_v2.cpp:235-257 | appending entries that run no script keeps the invariant |
| Gtk.ScriptsFollowLoadRun | webview/src/web_view_linux_v2.cpp:235-257 | a script submitted once a load has finished keeps the invariant |
| Gtk.AppendKeepsValid | webview/src/web_view_linux_v2.cpp:235-257 | script-free effects keep the invariant and keep the runnable flag backed by a load in the log |
| Gtk.ReplayOps | webview/src/web_view_linux_v2.cpp:196-199 | the replay both GTK adapters issue once running: title, fullscreen flag, URL; `ReplayLatest` says what it leaves shown |
| Gtk.ReplayLatest | webview/src/web_view_linux_v2.cpp:196-199 | the replay sets title, fullscreen flag and page to exactly the buffered values |
| LinuxV2.SetupOps | webview/src/web_view_linux_v2.cpp:53-154 | window creation, developer tools when asked, the document-start script, in that order |
| LinuxV2.BringUpOps | webview/src/web_view_linux_v2.cpp:46-206 | the setup, the replay, then showing the window; `BringUpLatest` and `BringUpKeepsValid` characterise it |
| LinuxV2.BringUpLatest | webview/src/web_view_linux_v2.cpp:46-206 | a successful start runs no script and leaves the buffered values as the latest settings |
| LinuxV2.BringUpKeepsValid | webview/src/web_view_linux_v2.cpp:46-206 | a successful start keeps every script after a load |
| LinuxV2.WebViewLinux.constructor | webview/src/web_view_linux_v2.cpp:11-24 | settings stored, the bridge script buffered, nothing created, uninitialized, not runnable |
| LinuxV2.WebViewLinux.DoRegisterJavascriptCallback | webview/include/webview/impl/web_view_linux_v2.hpp:75-76 | the new callback replaces the old one, which is handed back |
| LinuxV2.WebViewLinux.DoSetWindowTitle | webview/src/web_view_linux_v2.cpp:26-36 | not running: buffered, last write wins; running: sent to the window |
| LinuxV2.WebViewLinux.DoSetWindowFullscreen | webview/src/web_view_linux_v2.cpp:38-44 | the flag is stored; the window is (un)fullscreened exactly when it exists |
| LinuxV2.WebViewLinux.DoServiceState | webview/include/webview/impl/web_view_linux_v2.hpp:86-87 | reports the stored state |
| LinuxV2.WebViewLinux.DoServiceStart | webview/src/web_view_linux_v2.cpp:46-206 | GTK init fails: nothing changes, `INITIALIZE_FAILED`; otherwise the full bring-up, running, and buffered title/fullscreen/URL are what the window shows |
| LinuxV2.WebViewLinux.Replay | webview/src/web_view_linux_v2.cpp:196-199 | title, fullscreen flag and URL are sent in that order; invariant kept |
| LinuxV2.WebViewLinux.DoNavigate | webview/src/web_view_linux_v2.cpp:208-220 | not running: URL buffered and refused; running: one load and success |
| LinuxV2.WebViewLinux.DoInject | webview/src/web_view_linux_v2.cpp:222-231 | the wrapped fragment is appended to the document-start script, in every state |
| LinuxV2.WebViewLinux.DoShutdown | webview/src/web_view_linux_v2.cpp:265 | the state becomes shut down |
| LinuxV2.WebViewLinux.OnEvent | webview/src/web_view_linux_v2.cpp:68-120 | a load makes scripts runnable, script completion clears running, destroy shuts down, effects per `EventOps`; invariant kept |
| LinuxV2.WebViewLinux.DoIteration | webview/src/web_view_linux_v2.cpp:259-263 | one event dispatched as `OnEvent`; alive exactly while not shut down |
| LinuxV2.WebViewLinux.DeliverNext | webview/src/web_view_linux_v2.cpp:237 | one spin-loop iteration extends the delivered prefix by one event |
| LinuxV2.WebViewLinux.SpinUntilRunnable | webview/src/web_view_linux_v2.cpp:237 | dispatches exactly the `LoadWait` prefix; ends runnable; log, running and state follow those events |
| LinuxV2.WebViewLinux.SpinWhileRunning | webview/src/web_view_linux_v2.cpp:255 | dispatches up to and including the first script-finished event; ends not running |
| LinuxV2.WebViewLinux.DoEval | webview/src/web_view_linux_v2.cpp:235-257 | waits for the first load, submits the script, waits for the first completion; returns true; the script runs after a load |
| LinuxV2.Inject | webview/include/webview/impl/web_view_base.hpp:169-173 | `inject` through the corrected v1 routing appends the wrapped fragment to the document-start script |
| LinuxV3.WebViewSetupOps | src/web_view_linux_v3.cpp:155-185 | developer tools when asked, then the document-start script |
| LinuxV3.StartOps | src/web_view_linux_v3.cpp:87-236 | the web-view setup, the replay, then showing the window; `StartLatest` characterises it |
| LinuxV3.StartLatest | src/web_view_linux_v3.cpp:87-236 | the start runs no script and leaves the buffered values as the latest settings after any log |
| LinuxV3.StartLatestAll | src/web_view_linux_v3.cpp:87-236 | the three start steps together are the full start, with its latest settings |
| LinuxV3.WebViewLinux.constructor | src/web_view_linux_v3.cpp:13-48 | GTK init succeeds: a window is created and the state is initialized; fails: nothing created and uninitialized; bridge buffered either way |
| LinuxV3.WebViewLinux.SetWindowTitle | src/web_view_linux_v3.cpp:50 | not running: buffered; running: sent to the window |
| LinuxV3.WebViewLinux.DoSetWindowFullscreen | src/web_view_linux_v3.cpp:52-56 | the existing window is (un)fullscreened; the stored flag is not touched |
| LinuxV3.WebViewLinux.Navigate | src/web_view_linux_v3.cpp:58-62 | not running: URL buffered and refused; running: one load and success |
| LinuxV3.WebViewLinux.BuildWebView | src/web_view_linux_v3.cpp:87-224 | developer tools and the document-start script are set up and the service runs |
| LinuxV3.WebViewLinux.Replay | src/web_view_linux_v3.cpp:226-229 | title, flag and URL are sent in that order; invariant kept |
| LinuxV3.WebViewLinux.DoServiceStart | src/web_view_linux_v3.cpp:87-236 | from initialized: running, success, and the buffered title/fullscreen/URL are what the window shows |
| LinuxV3.WebViewLinux.DoShutdown | src/web_view_linux_v3.cpp:244 | the state becomes shut down |
| LinuxV3.WebViewLinux.OnEvent | src/web_view_linux_v3.cpp:98-150 | a load makes scripts runnable, completion clears running, destroy shuts down; invariant kept |
| LinuxV3.WebViewLinux.DoIteration | src/web_view_linux_v3.cpp:238-242 | one event dispatched; alive exactly while not shut down |
| LinuxV3.WebViewLinux.DeliverNext | src/web_view_linux_v3.cpp:66 | one spin-loop iteration extends the delivered prefix by one event |
| LinuxV3.WebViewLinux.SpinUntilRunnable | src/web_view_linux_v3.cpp:66 | dispatches exactly the `LoadWait` prefix and ends runnable |
| LinuxV3.WebViewLinux.SpinWhileRunning | src/web_view_linux_v3.cpp:84 | dispatches up to and including the first script-finished event; ends not running |
| LinuxV3.WebViewLinux.DoEval | src/web_view_linux_v3.cpp:64-85 | waits for the first load, submits, waits for the first completion; the script runs only after a load |
| Profile.CString | webview/src/web_view_windows_v3.cpp:517 | what the C API reads of `c_str()`: the text before the first NUL; `CStringReadsPrefix` and `CStringUpToNul` characterise it |
| Profile.Nuls | webview/src/web_view_windows_v3.cpp:488 | a run of n NUL characters |
| Profile.CStringReadsPrefix | webview/src/web_view_windows_v3.cpp:517 | the C string read from a buffer is its NUL-free prefix, ended by a NUL or the buffer's end |
| Profile.CStringUpToNul | webview/src/web_view_windows_v3.cpp:517 | a NUL-free text followed by a NUL or nothing reads back as exactly that text |
| Profile.Resize | webview/src/web_view_windows_v3.cpp:488-492 | `std::basic_string::resize`; `ResizeKeepsPrefix` says it truncates or pads with NULs |
| Profile.ResizeKeepsPrefix | webview/src/web_view_windows_v3.cpp:488-492 | resize truncates to the given length or pads with NULs |
| Profile.GetEnvironmentVariable | webview/src/web_view_windows_v3.cpp:489 | the Win32 call into a buffer of a given capacity; `GetEnvironmentVariableFills` gives its three outcomes |
| Profile.GetEnvironmentVariableFills | webview/src/web_view_windows_v3.cpp:489-490 | a value that fits is copied and NUL-terminated and its length returned; an unset one returns 0; a too-long one returns the size needed |
| Profile.FileNameStart | webview/src/web_view_windows_v3.cpp:511 | the file name starts within the path |
| Profile.FileNameStartAfterLastSeparator | webview/src/web_view_windows_v3.cpp:511 | the file name starts after a separator or at the start, and holds no separator |
| Profile.LastDot | webview/src/web_view_windows_v3.cpp:511 | the dot found lies within the name |
| Profile.LastDotIsLast | webview/src/web_view_windows_v3.cpp:511 | the dot found has no dot after it; none is found only in a name without dots |
| Profile.Stem | webview/src/web_view_windows_v3.cpp:511 | `path::stem()`: the file name without its last extension, `.`, `..` and a lone leading dot kept; `StemPrefixOfFileName` and `StemOfExample` characterise it |
| Profile.StemPrefixOfFileName | webview/src/web_view_windows_v3.cpp:511 | `stem()` is a prefix of the file name and so holds no separator |
| Profile.StemNulFree | webview/src/web_view_windows_v3.cpp:511 | the stem of a NUL-free path is NUL-free |
| Profile.StemOfExample | webview/src/web_view_windows_v3.cpp:511 | the stem of `C:\apps\demo.exe` is `demo` |
| Profile.Join | webview/src/web_view_windows_v3.cpp:511 | `base / name` for a relative name, a `\` inserted after a base not ending in a separator; `JoinKeepsBoth` characterises it |
| Profile.JoinKeepsBoth | webview/src/web_view_windows_v3.cpp:511 | `base / name` starts with the base and ends with the name |
| Profile.AppDataBaseV3 | webview/src/web_view_windows_v3.cpp:487-494 | the `APPDATA` buffer resized to the length read; `AppDataBaseV3Reads` says a short value is read back exactly |
| Profile.AppDataBaseV3Reads | webview/src/web_view_windows_v3.cpp:487-494 | a set `APPDATA` shorter than `MAX_PATH` is read back exactly |
| Profile.AppDataBaseV1AsWritten | webview/src/web_view_windows.cpp:332-338 | as written, the whole 32768-character `APPDATA` buffer; `AppDataBaseV1AsWrittenKeepsPadding` says it keeps its NUL padding |
| Profile.AppDataBaseV1AsWrittenKeepsPadding | webview/src/web_view_windows.cpp:332-338 | as written, the v1 buffer keeps its full 32768 characters, the value followed by NULs |
| Profile.AppDataBaseV1 | webview/src/web_view_windows.cpp:332-338 | the corrected read, the buffer cut to the length read; `AppDataBaseV1Reads` says a set value is read back exactly |
| Profile.AppDataBaseV1Reads | webview/src/web_view_windows.cpp:332-338 | the corrected v1 read gives back a set `APPDATA` exactly |
| Profile.EnvironmentFolder | webview/src/web_view_windows_v3.cpp:480-517 | what the C API reads of `base / stem(exe)`, the base the temp directory or `APPDATA`; `EnvironmentFolderTemp`, `EnvironmentFolderV3` and `EnvironmentFolderV1` characterise it |
| Profile.FolderJoinStem | webview/src/web_view_windows_v3.cpp:511-517 | a well-formed folder joined with the stem reads back as `folder\stem` |
| Profile.EnvironmentFolderTemp | webview/src/web_view_windows_v3.cpp:484 | with a temporary environment the folder is `<temp>\<stem>` |
| Profile.EnvironmentFolderV3 | webview/src/web_view_windows_v3.cpp:480-512 | otherwise the v3 folder is `<APPDATA>\<stem>` |
| Profile.EnvironmentFolderV1 | webview/src/web_view_windows.cpp:325-350 | the corrected v1 folder is `<APPDATA>\<stem>` |
| Profile.EnvironmentFolderV1AsWrittenDropsStem | webview/src/web_view_windows.cpp:332-350 | as written, the v1 folder read by the C API is `APPDATA` itself |
| Profile.V1AsWrittenDiffers | webview/src/web_view_windows.cpp:332-350 | the written and the corrected v1 folders are `APPDATA` and `APPDATA\stem`, and they differ |
| Win32.CDiv | webview/src/web_view_windows_v3.cpp:272-273 | C division truncates toward zero |
| Win32.MulDiv | webview/src/web_view_windows_v3.cpp:272-273 | `MulDiv` gives -1 for a zero denominator and always fits in an int32 |
| Win32.MulDivSameScale | webview/src/web_view_windows_v3.cpp:563-564 | equal numerator and denominator leave the value unchanged |
| Win32.MulDivNearest | webview/src/web_view_windows_v3.cpp:563-564 | when it fits, `MulDiv(a, b, c)` is within one half of a·b/c, that is, a nearest integer |
| Win32.ScaledSizeAtDefaultDpi | webview/src/web_view_windows_v3.cpp:272-273 | at 96 DPI the scaled size is the requested size |
| Win32.ClearBits | webview/src/web_view_windows_v3.cpp:276-281 | `x & ~mask`; `ClearBitsMeans` and `ClearBitsUnique` characterise it |
| Win32.ClearBitsMeans | webview/src/web_view_windows_v3.cpp:276-281 | `x & ~mask` has no mask bit and keeps every other bit of x |
| Win32.ClearBitsUnique | webview/src/web_view_windows_v3.cpp:276-281 | those two properties determine `x & ~mask` |
| Win32.ClearBitsIdempotent | webview/src/web_view_windows_v3.cpp:306-313 | stripping twice is stripping once |
| Win32.EnterFullscreen | webview/src/web_view_windows_v3.cpp:296-328 | style, extended style and rectangle are saved; decoration bits are cleared; the window covers the monitor |
| Win32.EnterFullscreenStripsDecoration | webview/src/web_view_windows_v3.cpp:306-313 | a fullscreen window has no caption, thick frame or edge bits, and keeps every other bit |
| Win32.LeaveFullscreen | webview/src/web_view_windows_v3.cpp:330-345 | the saved style, extended style and rectangle are written back; the snapshot is kept |
| Win32.EnterLeaveIsIdentity | webview/src/web_view_windows_v3.cpp:294-347 | entering then leaving fullscreen gives the window back unchanged |
| Win32.RescaleSaved | webview/src/web_view_windows_v3.cpp:559-567 | the rescaled snapshot keeps its top-left corner |
| Win32.RescaleSameDpiIsIdentity | webview/src/web_view_windows_v3.cpp:559-567 | rescaling to the same DPI leaves the snapshot unchanged |
| Win32.RescaleIsProportional | webview/src/web_view_windows_v3.cpp:559-567 | the rescaled width and height are the nearest integers to size·new/old |
| Win32.DpiChanged | webview/src/web_view_windows_v3.cpp:555-581 | fullscreen: only the snapshot is rescaled, nothing issued; windowed: the window takes the suggested rectangle |
| Win32.EnterDpiLeaveRestoresScaled | webview/src/web_view_windows_v3.cpp:555-581 | enter, DPI change, leave restores the original style and the rescaled rectangle |
| Win32.InitialRect | webview/src/web_view_windows_v3.cpp:265-274 | the initial window keeps the system's top-left corner |
| Win32.InitialRectAtDefaultDpi | webview/src/web_view_windows_v3.cpp:265-274 | at 96 DPI the initial window has exactly the requested size |
| WebView2.ServiceStartOps | webview/src/web_view_windows_v3.cpp:384-525 | nothing when COM fails; otherwise COM init and the environment request, with COM released when the request is refused |
| WebView2.ControllerSetupOps | webview/src/web_view_windows_v3.cpp:424-452 | developer tools when asked, the bounds, then the document-start script |
| WebView2.FullscreenReplayOps | webview/src/web_view_windows_v3.cpp:455 | the Win32 entering step when the flag is set, nothing otherwise |
| WebView2.BringUpOps | webview/src/web_view_windows_v3.cpp:411-461 | the setup, the fullscreen replay, then one load of the stored URL; `BringUpLatest` characterises it |
| WebView2.BringUpLatest | webview/src/web_view_windows_v3.cpp:411-461 | the bring-up runs no script, sets no title and leaves the page as the latest URL |
| WindowsV1.EnvironmentPath | webview/src/web_view_windows.cpp:325-355 | the user-data folder `do_run` asks for, as written; `EnvironmentPathAsWritten` says it is `APPDATA` itself outside a temporary environment |
| WindowsV1.EnvironmentPathAsWritten | webview/src/web_view_windows.cpp:325-350 | as written: temp environment gives `<temp>\<stem>`, otherwise `APPDATA` itself |
| WindowsV1.EnvironmentPathIntended | webview/src/web_view_windows.cpp:325-355 | the user-data folder with the corrected `APPDATA` read; `EnvironmentPathChoice` characterises it |
| WindowsV1.EnvironmentPathChoice | webview/src/web_view_windows.cpp:325-350 | with the corrected read: temp environment gives `<temp>\<stem>`, otherwise `<APPDATA>\<stem>` |
| WindowsV1.WebViewWindows.constructor | webview/src/web_view_windows.cpp:448-456 | everything is false or zero; the buffer holds the `window.external` bridge |
| WindowsV1.WebViewWindows.DoInitialize | webview/src/web_view_windows.cpp:130-148 | settings stored; true exactly when handle, class and window are obtained; then the window is DPI-sized and a fixed one stripped; not yet fullscreen |
| WindowsV1.WebViewWindows.OpenWindow | webview/src/web_view_windows.cpp:458-541 | the window creation with its early returns: nothing is created on a failure |
| WindowsV1.WebViewWindows.DoRegisterCallback | webview/src/web_view_windows.cpp:150 | the new callback replaces the old one, which is handed back |
| WindowsV1.WebViewWindows.DoSetWindowTitle | webview/src/web_view_windows.cpp:152-154 | the title is stored in every state; the window is not told |
| WindowsV1.WebViewWindows.DoSetWindowFullscreen | webview/src/web_view_windows.cpp:156-213 | no change when the flag is already the value; otherwise enter or leave fullscreen as the Win32 steps say; invariant kept |
| WindowsV1.WebViewWindows.DoRedirectTo | webview/src/web_view_windows.cpp:388-403 | not ready: the URL is kept for later and false is returned; ready: one navigation and its result |
| WindowsV1.WebViewWindows.DoEval | webview/src/web_view_windows.cpp:412-425 | the script is submitted to the attached web view |
| WindowsV1.WebViewWindows.DoPreload | webview/src/web_view_windows.cpp:433-440 | the wrapped fragment is appended; the old buffer stays a prefix |
| WindowsV1.WebViewWindows.DoRun | webview/src/web_view_windows.cpp:215-364 | show the window, then COM init and the environment request in the folder as written; true exactly when both succeed, and then an environment is awaited |
| WindowsV1.WebViewWindows.OnEnvironmentCreated | webview/src/web_view_windows.cpp:308-323 | no WebView2 installed: back to idle; otherwise a controller is requested |
| WindowsV1.WebViewWindows.OnControllerCreated | webview/src/web_view_windows.cpp:252-306 | failure: nothing changes but the stage; success: the bring-up |
| WindowsV1.WebViewWindows.BringUp | webview/src/web_view_windows.cpp:252-306 | ready and attached; a requested fullscreen is entered; the kept URL is the latest page; no title is sent |
| WindowsV1.WebViewWindows.Replay | webview/src/web_view_windows.cpp:294-303 | fullscreen entered for a set flag, then the kept URL loaded |
| WindowsV1.WebViewWindows.OnSize | webview/src/web_view_windows.cpp:544-549 | the web view follows the client area exactly when ready |
| WindowsV1.WebViewWindows.SetDpi | webview/src/web_view_windows.cpp:551-577 | the DPI is stored; snapshot and window change as the Win32 DPI step says |
| WindowsV1.WebViewWindows.OnWebMessage | webview/src/web_view_windows.cpp:230-250 | a message read is delivered to the registered callback; nothing happens without one |
| WindowsV1.WebViewWindows.DoIsRunning | webview/src/web_view_windows.cpp:366-377 | alive exactly while `GetMessage` returns non-zero |
| WindowsV1.WebViewWindows.DoShutdown | webview/src/web_view_windows.cpp:380-385 | `WM_QUIT` posted and COM released |
| WindowsV1.StartFullscreenThenLeave | webview/src/web_view_windows.cpp:156-213 | initialized fullscreen, brought up, then left: the window is back as it was |
| WindowsV1.RedirectsBeforeReady | webview/src/web_view_windows.cpp:388-403 | two redirects before ready: the second is the page once brought up; no title is sent |
| WindowsV3.EnvironmentPath | webview/src/web_view_windows_v3.cpp:480-517 | the user-data folder `do_service_start` asks for; `EnvironmentPathChoice` characterises it |
| WindowsV3.EnvironmentPathChoice | webview/src/web_view_windows_v3.cpp:480-512 | temp environment gives `<temp>\<stem>`, otherwise `<APPDATA>\<stem>` |
| WindowsV3.WebViewWindows.constructor | webview/src/web_view_windows_v3.cpp:185-287 | window exactly when handle, class and window are obtained, then DPI-sized, fixed one stripped, initialized; else uninitialized, nothing issued |
| WindowsV3.WebViewWindows.SetWindowTitle | webview/src/web_view_windows_v3.cpp:289-292 | through the base: buffered until running, then `SetWindowText` |
| WindowsV3.WebViewWindows.DoSetWindowFullscreen | webview/src/web_view_windows_v3.cpp:294-347 | enter saves and strips and covers the monitor; leave writes the snapshot back |
| WindowsV3.WebViewWindows.DoNavigate | webview/src/web_view_windows_v3.cpp:349-358 | one load; WebView2's failure is reported as `NAVIGATE_FAILED` |
| WindowsV3.WebViewWindows.Navigate | webview/include/webview/impl/v3/web_view_base.hpp:140-162 | not running: buffered and refused; running: one load with WebView2's result |
| WindowsV3.WebViewWindows.Eval | webview/src/web_view_windows_v3.cpp:360-373 | the script is submitted to the attached web view |
| WindowsV3.WebViewWindows.DoServiceStart | webview/src/web_view_windows_v3.cpp:375-526 | show, COM init, environment request; success exactly when both calls succeed; state stays initialized |
| WindowsV3.WebViewWindows.RequestEnvironment | webview/src/web_view_windows_v3.cpp:379-525 | the native calls of a start request for each outcome |
| WindowsV3.WebViewWindows.OnEnvironmentCreated | webview/src/web_view_windows_v3.cpp:463-478 | no WebView2 installed: back to idle; otherwise a controller is requested |
| WindowsV3.WebViewWindows.AttachController | webview/src/web_view_windows_v3.cpp:411-452 | developer tools, then the bounds, then the document-start script are set |
| WindowsV3.WebViewWindows.OnControllerCreated | webview/src/web_view_windows_v3.cpp:411-461 | failure: nothing but the stage changes; success: the bring-up |
| WindowsV3.WebViewWindows.BringUp | webview/src/web_view_windows_v3.cpp:411-461 | running and attached; buffered fullscreen entered; buffered URL is the latest page; the buffered title is not sent |
| WindowsV3.WebViewWindows.Replay | webview/src/web_view_windows_v3.cpp:453-458 | fullscreen for a set flag, then the stored URL |
| WindowsV3.WebViewWindows.OnSize | webview/src/web_view_windows_v3.cpp:152-155 | the web view follows the client area exactly while running |
| WindowsV3.WebViewWindows.SetDpi | webview/src/web_view_windows_v3.cpp:555-581 | the DPI is stored; snapshot and window change as the Win32 DPI step says |
| WindowsV3.WebViewWindows.OnDpiChanged | webview/src/web_view_windows_v3.cpp:157-166 | `WM_DPICHANGED` rescales as `SetDpi` |
| WindowsV3.WebViewWindows.OnWebMessage | webview/src/web_view_windows_v3.cpp:388-409 | a message read is delivered to the registered callback; nothing without one |
| WindowsV3.WebViewWindows.DoIteration | webview/src/web_view_windows_v3.cpp:528-539 | alive exactly while `GetMessage` returns non-zero |
| WindowsV3.WebViewWindows.DoShutdown | webview/src/web_view_windows_v3.cpp:541-546 | `WM_QUIT` posted and COM released; the state is not changed |
| WindowsV3.WebViewWindows.OnDestroy | webview/src/web_view_windows_v3.cpp:167-171 | shuts down exactly when the window carries this object |
| WindowsV3.FullscreenRoundTrip | webview/src/web_view_windows_v3.cpp:294-347 | entering then leaving fullscreen gives the window back |
| WindowsV3.TitleBeforeRunningIsNotShown | webview/src/web_view_windows_v3.cpp:411-461 | a title set before running is stored but never sent to the window by the bring-up |

## Left out

- Native calls: Win32, COM, WebView2, GTK and WebKit calls are log entries. Their outcomes (success flags, the window the system creates, the DPI, the client and monitor rectangles, `GetMessage`'s result) are inputs. Message boxes shown on failure are not logged.
- Asynchrony and threads: completion handlers and window messages are separate methods the caller invokes. Re-entrant calls from inside a callback are not modelled.
- GTK spin loops: the GTK event stream is a finite sequence. Each loop's termination is a precondition, `Gtk.EvalCanFinish`: the event it waits for is among the pending events. A main loop that never delivers it is not modelled.
- Character types: string transcoding between narrow and wide characters is not modelled. Strings are `seq<char>`.
- `static_cast<int>` of sizes and DPIs: not modelled. Values are taken as already in range, and `MulDiv`'s int32 overflow yields -1 as the API documents.
- Executable name: its truncation to `MAX_PATH` by `GetModuleFileName` is not modelled. The name is an input.
- `Profile.Join`: a base that is a bare drive (`C:`) is joined with a `\`, while `operator/` adds none there (`C:` / `demo` is `C:demo`). `Profile.WellFormedFolder` admits such a base, so for it `Profile.EnvironmentFolderV3`, `Profile.EnvironmentFolderV1` and the `EnvironmentPathChoice` lemmas state `C:\demo` where the code reads `C:demo`.
- `std::filesystem::temp_directory_path`: the path's own normalisation is not modelled, and the temp directory is an input.
- DPI queries: `set_dpi_awareness` and `get_current_dpi` are inputs or left out, since they only query the system.
- User actions: a window the user moves or resizes is not tracked. The window attributes are those the adapter set.
- Other failures:
  - The environment-created handler's other failure codes are not modelled.
  - A null controller reported as success is not modelled.
  - `GetMessage` returning -1 while running counts as alive, as the code does.
  - `eval` before the web view is attached dereferences a null pointer in the code (webview/src/web_view_windows_v3.cpp:363, webview/src/web_view_windows.cpp:415). `WindowsV3.WebViewWindows.Eval` and `WindowsV1.WebViewWindows.DoEval` exclude it by requiring an attached web view.
- Windows v3 shutdown: `WindowsV3.WebViewWindows.DoShutdown` never sets the `SHUTDOWN` state, as in the code.
- Missing fullscreen operation:
  - Neither the v3 base nor the v1 facade `basic_web_view` declares `set_window_fullscreen`, and neither does the Windows v1 adapter.
  - Linux v3 (src/web_view_linux_v3.cpp:227) and Windows v1 (webview/src/web_view_windows.cpp:299) call `set_window_fullscreen` in their replay anyway. The model has them call their own `do_set_window_fullscreen` directly.
  - Windows v3 calls `do_set_window_fullscreen` directly in the code itself (webview/src/web_view_windows_v3.cpp:455).
  - The facade `webview.hpp` and the demos are not part of this model.
- Leaving fullscreen on Windows: `do_set_window_fullscreen` is private in both WebView2 adapters, no facade forwards to it, and its only call sites pass `true` (webview/src/web_view_windows.cpp:299, webview/src/web_view_windows_v3.cpp:455). `WindowsV3.FullscreenRoundTrip` and `WindowsV1.StartFullscreenThenLeave` are properties of the operation, not of a call sequence the program can reach.
- `WindowsV1.WebViewWindows.OpenWindow`: the window class registration details (icon, cursor, procedure) are not modelled, only whether registration succeeded.
- `Win32.MulDiv`: the intermediate 64-bit product is exact, as the API specifies. Negative operands round half away from zero.
- `Profile.GetEnvironmentVariableFills`: when the value does not fit, the buffer's contents are left unspecified by the API. The model takes them to be NULs.
- Order of statements in the code: where the prose description of the library and the code differ, the model follows the code. One example: the v2 `service_start` has no state guard.

## Findings

The adapters model the code as written. Each corrected definition below is stated and proved beside the as-written one; the v1 routing's correction is the one the Linux v2 adapter's `inject` uses, since the written one does not compile there.

| source | as written | input that shows it | evidently intended | confidence | as-written member | corrected member |
|---|---|---|---|---|---|---|
| webview/src/web_view_windows.cpp:332-340 | `shrink_to_fit` does not shrink the size, so the `APPDATA` buffer keeps 32768 characters with NUL padding; the executable's stem is appended after the padding, and the folder the C API reads is `APPDATA` itself | `APPDATA` = `C:\Users\u\AppData\Roaming`, executable `C:\apps\demo.exe`, not temporary: folder `C:\Users\u\AppData\Roaming` | resize the buffer to the returned length, as the v3 adapter does, giving `C:\Users\u\AppData\Roaming\demo` | not executed | Profile.V1AsWrittenDiffers | WindowsV1.EnvironmentPathChoice |
| webview/include/webview/impl/web_view_base.hpp:169-173 | `inject` forwards to `do_navigate`, so `do_inject` is never reached; on Linux v2, where `inject` returns nothing and `do_navigate` returns a result, any call to `inject` fails to compile | `inject("alert(1)")` is routed to `do_navigate("alert(1)")` | `inject` forwards to `do_inject` | not executed | BaseV1.InjectIsNavigatedAsWritten | LinuxV2.Inject |
| src/web_view_linux_v3.cpp:196-203 | the enter- and leave-fullscreen handlers return FALSE for a fixed window and TRUE otherwise; TRUE stops WebKit, so resizable windows are stopped and fixed ones are (un)fullscreened | a fixed window whose page requests fullscreen: WebKit proceeds | return `is_fixed` so that a fixed-size window is protected | not executed | Gtk.FixedWindowNotProtectedAsWritten | Gtk.FullscreenSignalReturn |
