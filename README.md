# Blightmud `LuaScript`: dispatch and lifecycle, modelled in Dafny

Blightmud is a terminal MUD client. Its `LuaScript` type owns one Lua
interpreter. Scripts running in it register aliases, triggers,
prompt triggers and GMCP listeners in four global Lua tables. The host
then calls into `LuaScript` for four jobs:

- running the aliases that match a line the user typed;
- running the triggers that match a line from the server, with ANSI escapes stripped;
- routing an out-of-band GMCP message to its listener;
- loading a script, running the connection hooks, or resetting the whole interpreter.

The project has three files:

- `foreign.dfy` (module `Foreign`) holds the collaborators the layer only
  calls. These are the regex engine, the ANSI stripper, and the
  `Sender<Event>` channel (class `Writer`). It also holds what a Lua
  function or chunk does, as far as this layer sees it: the events the
  run sent through the `blight` object, and whether it raised an error.
  A callback is given its `Args`: a capture table for an alias or
  trigger, one string for a GMCP listener, nothing for a hook. The
  libraries are total functions held in a `Libraries` value. The
  dispatch properties below therefore hold whatever the regex engine
  matches and whatever each callback sends or raises.
- `dispatch.dfy` (module `Dispatch`) holds the pure parts:
  - registry entries `{enabled, gag, pattern, cb}`;
  - capture extraction (`Captures`);
  - the GMCP split (`SplitGmcp`);
  - `ScanOf`, the meaning of one pass of the alias/trigger loop. It
    gives the match flag, the last gag, the calls made and the events
    sent: for each call, the callback's own `blight` events, then one
    stack trace if it failed.

  It also holds the lemmas about these.
- `lua_script.dfy` (module `Lua`) holds the two classes:
  - `LuaState` is one interpreter's globals: the four tables, the two
    hooks, and the writer clone held by the `blight` object. A ghost log
    `invoked` records every callback this layer invoked in it: alias
    and trigger callbacks, GMCP listeners and hooks. It does not record
    the chunk run by `load_script` or the functions a callback calls.
  - `LuaScript` is `{state, writer}`. Its methods are the source's
    methods: loops over the live table, pushes to the writer, and `reset`
    swapping in a fresh state.

  Each scan method, the two public trigger wrappers included, is proved
  equal to `ScanOf` on the table it reads. It also states outright what the source promises: it reports a match iff
  some enabled entry matches, it reports the gag of the last entry that
  fired, and it runs exactly the firing entries' callbacks, in order.

The order of Lua `pairs` over a table is modelled as the order of the
sequence. The model does not claim that this is insertion order.

Points where the code's behaviour is easy to misread:

- A GMCP message with no space is not dropped: the code indexes
  `split[1]` of a one-element split and panics, so `ReceiveGmcp` returns
  `Panicked`.
- A hook's error is not caught: the code `unwrap`s the result of the
  call, so `OnConnect`/`OnGmcpReady` return `Panicked`.
- A GMCP listener's error is dropped by the `.ok()` at the end of
  `receive_gmcp`, while alias and trigger errors become stack traces.
- The scans walk the live Lua table with `pairs`; no copy is taken first.
  The model reads the table once at the start of the pass.

## Model

| member | source | states |
|---|---|---|
| `Dispatch.Captures` | src/lua/lua_script.rs:61-69 | the capture table has one element per capture group (group 0 included); a group that took part gives its text and one that did not gives `""`, keeping positions aligned |
| `Dispatch.SplitGmcp` | src/lua/lua_script.rs:120-125 | the split fails exactly when the message has no space; otherwise the type holds no space and type + " " + content rebuilds the message, so the split is at the first space |
| `Dispatch.SplitGmcpJoin` | src/lua/lua_script.rs:120-125 | splitting `t + " " + c` for a space-free `t` gives back `(t, c)`: later spaces stay in the content |
| `Dispatch.ScanMatchedIff` | src/lua/lua_script.rs:51-78 | a pass reports a match iff at least one entry is enabled and its regex matches, whether or not the callbacks fail |
| `Dispatch.ScanGagIsLastFiring` | src/lua/lua_script.rs:88-117 | a pass reports the gag flag of the last enabled matching entry, and false when none fired |
| `Dispatch.ScanCallsAreFiringCalls` | src/lua/lua_script.rs:55-72 | a pass runs, in table order and once each, exactly the callbacks of enabled matching entries, each given its capture table; disabled entries run nothing |
| `Dispatch.ScanEventsAreCallEvents` | src/lua/lua_script.rs:70-72 | the events of a pass are, call by call in order, what the callback sent through `blight` followed by one stack trace if it failed |
| `Dispatch.CallEventsCount` | src/lua/lua_script.rs:109-111 | beyond the callbacks' own sends the layer adds exactly one event per failing call, and nothing when every call succeeds |
| `Dispatch.ScanIgnoresCallbackOutcomes` | src/lua/lua_script.rs:70-74 | the match flag, the gag flag and the calls made do not depend on callback outcomes: a failure does not stop the scan |
| `Dispatch.ScanSkipsDisabled` | src/lua/lua_script.rs:97 | removing a disabled entry from a table leaves the whole pass unchanged |
| `Lua.LuaState.constructor` | src/lua/lua_script.rs:15-37 | a fresh state has four empty tables, no hooks, nothing run, and a `blight` object sending through the given writer |
| `Lua.LuaScript.constructor` | src/lua/lua_script.rs:40-45 | a new script holds a fresh empty state whose `blight` writer is the script's own writer; nothing is sent |
| `Lua.LuaScript.Reset` | src/lua/lua_script.rs:47-49 | the state is replaced by a fresh empty one bound to the same writer; no event is sent |
| `Lua.LuaScript.CheckForAliasMatch` | src/lua/lua_script.rs:51-78 | the result, the events and the calls are those of `ScanOf` over the alias table on the raw input; the result is true iff some alias is enabled and matches; the calls are exactly the firing aliases', each given its capture table, in order; the channel receives each call's own events then its stack trace if it failed |
| `Lua.LuaScript.CheckTriggerMatch` | src/lua/lua_script.rs:88-117 | the same pass over the named trigger table on the ANSI-stripped input; the result is the gag of the last firing trigger, or false; the calls and the events are those of the firing triggers, in order, as for aliases |
| `Lua.LuaScript.CheckForTriggerMatch` | src/lua/lua_script.rs:80-82 | the pass over the trigger table on the ANSI-stripped input: the gag of the last firing trigger, or false; exactly the firing triggers' calls in order, and their events |
| `Lua.LuaScript.CheckForPromptTriggerMatch` | src/lua/lua_script.rs:84-86 | the same over the prompt-trigger table |
| `Lua.LuaScript.ReceiveGmcp` | src/lua/lua_script.rs:119-135 | with no space, a panic and nothing runs or changes; otherwise the listener for the type, if one exists, is called once with the content as its one string; only what it sent through `blight` reaches the channel, and its error adds nothing; no listener: nothing runs or changes |
| `Lua.LuaScript.LoadScript` | src/lua/lua_script.rs:141-147 | the load always returns `Ok`; the channel receives what the chunk sent through `blight`, then exactly one stack trace if the chunk failed |
| `Lua.LuaScript.RunHook` | src/lua/lua_script.rs:152-162 | no hook: completes with nothing run or changed; a hook: one call with no arguments, its own `blight` events on the channel and no stack trace, and a panic carrying the hook's error exactly when it fails |
| `Lua.LuaScript.OnConnect` | src/lua/lua_script.rs:150-163 | no hook: nothing runs or changes and the call completes; a hook: it runs once with no arguments, its own `blight` events reach the channel, no stack trace is added, and the call panics exactly when the hook fails |
| `Lua.LuaScript.OnGmcpReady` | src/lua/lua_script.rs:165-178 | the same for the GMCP-ready hook |
| `Lua.ResetForgetsRegistrations` | src/lua/lua_script.rs:47-49 | after a reset no alias matches, no trigger or prompt trigger gags, no hook, listener or callback runs, and no event is sent |

## Left out

- Reading the script file in `load_script` (`File::open`, `read_to_string` and their error returns, lines 138-140) is I/O. The model starts from the file's text.
- Lua semantics are left out. A run of a callback or chunk is reduced to `Interpreter.call`/`exec`: the events it sent through `blight`, and its error if any. The run is a fixed function of the callback and its arguments, so the model does not capture a callback whose behaviour depends on interpreter state changed by earlier calls.
- What a script asks the host for through `blight` is kept as an abstract `Scripted(payload)` event. The host's own `Event` variants are not modelled.
- Lua.LuaScript.LoadScript: the model does not state what a chunk registers in the tables or hooks when it runs. Its frame includes the state, and its contract promises nothing about the globals.
- Lua.LuaScript.ReceiveGmcp: what a listener changes in the globals when it runs is not stated. The contract promises the globals unchanged only when no listener ran.
- Lua.LuaScript.RunHook: what a hook changes in the globals when it runs is not stated. The contract promises them unchanged only when there is no hook. The same holds for Lua.LuaScript.OnConnect and Lua.LuaScript.OnGmcpReady.
- Lua.LuaScript.CheckForAliasMatch: the frame says the tables, listeners and hooks are the same after the scan. In the source a callback run by the scan may register or remove entries, even in the table being walked, or turn the `enabled` flag of a later entry on or off, which is read from the live table (lines 59 and 97). This re-entrancy is not modelled.
- Lua.LuaScript.CheckTriggerMatch: the same frame as the alias scan, with the same re-entrancy left out. This also covers Lua.LuaScript.CheckForTriggerMatch and Lua.LuaScript.CheckForPromptTriggerMatch.
- The regex engine, `strip_ansi_escapes` and the lossy UTF-8 decoding after it are left abstract (`Regex`, `Libraries.stripAnsi`). The engine's agreement between `is_match` and `captures` is assumed by `captures(..).unwrap()` at lines 63 and 102. The model leaves it unstated, since the capture list is only ever computed for a match.
- The panics of `unwrap` on a failed `strip_ansi` (line 89) and on malformed globals are not modelled. Malformed globals are a missing table, or a table value that is not an alias/trigger user datum (lines 54-57, 60, 93-98, 128). `Libraries.stripAnsi` is total, and the Lua-side types of `Entry` rule out the rest.
- A GMCP listener or hook that is present but is not a Lua function is modelled as absent. `get::<Function>` fails on it and the source then does nothing.
- The formatting of `output_stack_trace` is not modelled: `src/lua/util.rs` is not part of this model. Each error becomes one `StackTrace(message)` event.
- The `BlightMud` user data and its registration functions are not part of this model (`src/lua/user_data.rs`). This covers registering and enabling entries, GMCP registration and pattern errors. Only the writer clone it holds is modelled, with the events a run sends through it.
- The `mpsc::Sender` channel and its delivery to the main thread are concurrency. The channel is modelled as a `Writer` object whose `sent` sequence grows by appends.
- Setup failure of `create_default_lua_state` (the `unwrap` at line 35) cannot happen in the model, because creating tables and setting globals always succeeds there.
