# Colab Flask connector: responder and server lifecycle

This project models the two parts of `app.py` that hold logic of their own.

- The `/chatbot` endpoint. It lower-cases the message and looks for `"hello"`, then for `"how are you"`. It answers with the first matching canned reply, or with "I didn't understand that.". A request it cannot read becomes an `{"error": ...}` payload with status 500.
- The server lifecycle. Two module globals, `server_url` and `server_thread`, are changed by `start_flask_server` and `stop_flask_server`. `get_server_status` reports on them and the control panel's toggle button dispatches on `server_url`.

Modules:

- `Wrappers` (`wrappers.dfy`): `Option`, and `Attempt`, the outcome of a library call that returns or raises.
- `Text` (`text.dfy`): ASCII lower-casing and substring search. The scanning `Contains` is proved equal to a reference definition based on occurrence positions.
- `Chatbot` (`chatbot.dfy`): `Reply` on message text. `Handle` on a JSON request body.
- `Lifecycle` (`lifecycle.dfy`): the globals as a `State` value. Each callback is a pure step function returning the new state, the returned text and the library calls made. Class `Server` holds the globals as fields. Its methods update them step by step as the Python does, and each is proved equal to its step function.

Library calls are oracle parameters: `threading.Thread(...)`, `.start()`, `ngrok.connect`, `ngrok.disconnect` and `requests.post`. Each may return or raise. A `try/except` becomes an early return with the error text. That return keeps every assignment made before the raise. A ghost log in `Server` records each call attempted. This is how "no new thread or tunnel" is stated.

The code keeps a weaker invariant than "address present exactly when a worker handle is present". It keeps "an address implies a handle" (`Consistent`): start assigns the thread before the address, and stop clears the address before the thread. An exception in mid-transition leaves a handle with no address. `StartPartialUpdate` and `StopPartialUpdate` show this. Stop posts to `/stop-server` (app.py:118), the route that only closes the tunnel (app.py:70-77), not to `/end-session`, which ends the process (app.py:60-67).

## Model

| member | source | states |
|---|---|---|
| Text.LowerChar | app.py:49 | the result is never an upper-case ASCII letter; only A-Z change, each to its own lower-case letter (code point plus 32) |
| Text.Lower | app.py:49 | same length; no upper-case ASCII letter left; other characters kept; A-Z shifted to a-z |
| Text.LowerIdempotent | app.py:49-51 | lower-casing twice equals lower-casing once |
| Text.Contains | app.py:49-51 | Python's `sub in s`: equal to `Occurs` (some index where the pattern starts), by `ContainsIff`; a match needs a pattern no longer than the text |
| Text.ContainsIff | app.py:49-51 | the substring scan holds exactly when the pattern occurs at some index, both directions |
| Chatbot.Reply | app.py:49-54 | the reply is always one of the three canned strings (the responder is total) |
| Chatbot.ReplyGreeting | app.py:49-50 | "Hi there!" exactly when "hello" occurs in the lower-cased message, even when "how are you" occurs too |
| Chatbot.ReplyWellbeing | app.py:51-52 | "I'm doing well, thank you!" exactly when "how are you" occurs and "hello" does not |
| Chatbot.ReplyDefault | app.py:53-54 | the default reply exactly when neither pattern occurs |
| Chatbot.ReplyIgnoresCase | app.py:49-51 | messages with equal lower-case forms get equal replies; a message and its lower-case form get the same reply |
| Chatbot.Handle | app.py:47-57 | a reply payload comes back exactly when the body is an object whose "message" is a string; it holds Reply of that text with status 200; every other request gets an error payload with status 500 |
| Chatbot.StatusCode | app.py:55-57 | the status is 200 or 500, and 500 exactly for an error payload |
| Chatbot.MissingMessageIsError | app.py:48-57 | an object without "message" gets the KeyError payload with status 500, never a reply |
| Chatbot.HandleMessageRequest | app.py:47-55 | the body {"message": text} is answered with Reply(text) |
| Chatbot.ExampleHello | app.py:49-50 | "Hello there" gets "Hi there!" |
| Chatbot.ExampleHowAreYou | app.py:51-52 | "how ARE you today" gets "I'm doing well, thank you!" |
| Chatbot.ExampleUnknown | app.py:53-54 | "xyz" gets "I didn't understand that." |
| Lifecycle.StartStep | app.py:93-107 | keeps the invariant that an address implies a worker handle; the address either stays as it was or goes from None to set with a handle |
| Lifecycle.StopStep | app.py:110-124 | keeps the same invariant; each global either stays as it was or becomes None |
| Lifecycle.StatusOf | app.py:129-134 | "Server is not running." exactly when no address is set; the running text is stated by `StatusTracksUrl` |
| Lifecycle.ToggleStep | app.py:143-147 | keeps the invariant that an address implies a handle; its dispatch is stated by `ToggleDispatch` and `ToggleTwiceRestores` |
| Lifecycle.Apply | app.py:143-167 | one toggle or "End Session" callback keeps the invariant that an address implies a handle |
| Lifecycle.Run | app.py:143-167 | the globals after a sequence of callbacks run one at a time; its invariant is stated by `RunKeepsConsistent` |
| Lifecycle.StartWhenRunning | app.py:97-105 | start with an address set returns "Server is already running at {url}", changes neither global and makes no library call |
| Lifecycle.StopWhenStopped | app.py:113-122 | stop without an address returns "Server is not running.", changes neither global and makes no library call |
| Lifecycle.StartSucceeds | app.py:97-103 | a start whose calls all return sets both globals, in thread-create, thread-start, connect-to-port-5000 order |
| Lifecycle.StopSucceeds | app.py:114-120 | from a consistent running state, a stop whose calls return disconnects, posts to /stop-server and clears both globals |
| Lifecycle.StatusTracksUrl | app.py:129-134 | the status reads "Server is not running." exactly when no address is set, and "Server is running at {url}" otherwise |
| Lifecycle.StartThenStop | app.py:100-119 | a successful start then a successful stop returns both globals to None, with the status following (running at the url, then not running) |
| Lifecycle.ToggleDispatch | app.py:143-147 | the toggle's first library call is the tunnel disconnect (a stop) exactly when an address is set, and thread creation (a start) exactly when none is |
| Lifecycle.StartPartialUpdate | app.py:100-107 | if thread start or tunnel connect raises, the handle is set, the address is not, and "Error starting server: {e}" is returned |
| Lifecycle.StartSpawnFails | app.py:100-107 | if creating the thread raises, neither global changes, only that call was made, and "Error starting server: {e}" is returned |
| Lifecycle.StopPartialUpdate | app.py:115-124 | if the shutdown request raises, the address is cleared, the handle stays, and "Error stopping server: {e}" is returned |
| Lifecycle.StopDisconnectFails | app.py:115-124 | if closing the tunnel raises, neither global changes, only that call was made, and "Error stopping server: {e}" is returned |
| Lifecycle.StartDropsStaleThread | app.py:97-102 | a start after a partial one overwrites the leftover handle |
| Lifecycle.RunKeepsConsistent | app.py:89-167 | any sequence of toggle (app.py:143-147) and end-session (app.py:165-167) callbacks, each running start or stop (app.py:93-124), keeps "address implies handle", whatever the library calls do |
| Lifecycle.ToggleTwiceRestores | app.py:143-147 | two successful toggles from the initial globals end in the initial globals |
| Lifecycle.Server.constructor | app.py:89-90 | both globals start as None with no calls made |
| Lifecycle.Server.Start | app.py:93-107 | the assignments in source order give exactly StartStep's new globals, text and calls; the invariant is kept |
| Lifecycle.Server.Stop | app.py:110-124 | the assignments in source order give exactly StopStep's new globals, text and calls; the invariant is kept |
| Lifecycle.Server.Status | app.py:129-134 | returns StatusOf the current globals; "not running" exactly when no address is set |
| Lifecycle.Server.Toggle | app.py:143-147 | runs stop when an address is set and start otherwise, then reads the status of the new globals |
| Lifecycle.Server.EndSession | app.py:165-167 | runs stop, then posts to /end-session; a failure of that post is returned, not caught |

## Left out

- Flask routing, `jsonify` and `request.json` (app.py:35-57). Only the request and response values are modelled. A JSON number, boolean or null is one case, `JScalar`. A body Flask cannot read as JSON is `None`.
- Chatbot.Handle: the error payload carries the kind of exception, not Python's exact `str(e)` text.
- Text.Lower: only ASCII A-Z are lower-cased. Python's `str.lower()` also maps non-ASCII letters, and some of them to several characters. Full Unicode case mapping is not modelled. This changes no reply. The only non-ASCII characters that Python lower-cases to an ASCII letter are U+0130, which becomes "i" plus a combining dot, and U+212A, which becomes "k". Neither "i" nor "k" occurs in "hello" or "how are you". Every other character stays non-ASCII in both Python and the model, so it can be part of a match in neither.
- The ngrok tunnel API, `threading.Thread` and `requests` are oracles that return or raise. The web server running on the background thread is not modelled. The `/stop-server` handler that the stop request reaches (app.py:70-77) is not modelled. Nothing here says whether that request really ends the listener thread.
- Concurrency: the model assumes the callbacks run one at a time; it does not model two callbacks interleaving.
- Token loading and the module-level `ValueError` for a missing token (app.py:17-32) depend on the environment and I/O.
- The `/` route (app.py:38-41) returns a fixed string. The `/end-session` route (app.py:60-67) signals the process, and the `/stop-server` route (app.py:70-77) only wraps ngrok. None of them is modelled.
- `install_dependencies` (app.py:80-86) invokes pip. `authenticate_with_colab` (app.py:11-16) returns a constant string. Neither is modelled.
- The Gradio layout (app.py:136-171) is not modelled, except the toggle dispatch and the "End Session" callback. The button label is computed once when the panel is built, and that is not modelled either.
- Python truthiness of `server_url` and `server_thread`: a tunnel or thread object is always truthy, so "set" is `Some` and "unset" is `None`.
