/** `LuaScript`: one Lua interpreter state plus the writer to the main
    thread, with the alias, trigger and GMCP dispatch over the tables the
    state holds, script loading, the connection hooks, and reset. */
module Lua {
  import opened Foreign
  import opened Dispatch

  /** The two trigger tables `check_trigger_match` can be pointed at. */
  datatype TriggerTableName = TriggerTable | PromptTriggerTable

  /** How a host call ends: normally, or in a panic of the host thread. */
  datatype Outcome = Completed | Panicked(message: string)

  /** The result of `load_script` once the file has been read. */
  datatype LoadResult = Ok | Err(message: string)

  /** The globals of one Lua state that this layer reads: the four tables,
      the two optional hook functions, and the `blight` user data holding
      its clone of the writer. A table value or hook that is not a Lua
      function reads as absent, as `get::<Function>` fails on it. */
  class LuaState {
    var aliasTable: seq<Entry>
    var triggerTable: seq<Entry>
    var promptTriggerTable: seq<Entry>
    var gmcpListenerTable: map<string, CallbackId>
    var onConnectionCallback: Option<CallbackId>
    var onGmcpReadyCallback: Option<CallbackId>
    const blightWriter: Writer
    /** Every callback this layer has invoked in this interpreter, oldest first. */
    ghost var invoked: seq<Call>

    /** Nothing registered and nothing run yet. */
    ghost predicate Pristine()
      reads this
    {
      && aliasTable == [] && triggerTable == [] && promptTriggerTable == []
      && gmcpListenerTable == map[]
      && onConnectionCallback == None && onGmcpReadyCallback == None
      && invoked == []
    }

    /** `create_default_lua_state`: a fresh interpreter whose `blight`
        object sends through `writer` and whose four tables are empty. */
    constructor (writer: Writer)
      ensures blightWriter == writer
      ensures Pristine()
    {
      blightWriter := writer;
      aliasTable, triggerTable, promptTriggerTable := [], [], [];
      gmcpListenerTable := map[];
      onConnectionCallback, onGmcpReadyCallback := None, None;
      invoked := [];
    }

    function Triggers(name: TriggerTableName): seq<Entry>
      reads this
    {
      match name
      case TriggerTable => triggerTable
      case PromptTriggerTable => promptTriggerTable
    }
  }

  class LuaScript {
    var state: LuaState
    const writer: Writer
    /** The foreign libraries the script layer calls. */
    const lib: Libraries

    /** The `blight` object of the current state sends through this
        script's own writer. */
    ghost predicate Valid()
      reads this
    {
      state.blightWriter == writer
    }

    /** `LuaScript::new`. */
    constructor (mainThreadWriter: Writer, lib: Libraries)
      ensures Valid() && fresh(state) && state.Pristine()
      ensures writer == mainThreadWriter && this.lib == lib
      ensures mainThreadWriter.sent == old(mainThreadWriter.sent)
    {
      state := new LuaState(mainThreadWriter);
      writer := mainThreadWriter;
      this.lib := lib;
    }

    /** `reset`: a brand-new state replaces the old one, keeping the writer.
        The old state object is left as it was and is no longer reachable
        from this script. */
    method Reset()
      modifies this`state
      ensures Valid() && fresh(state) && state.Pristine()
      ensures writer.sent == old(writer.sent)
    {
      state := new LuaState(writer);
    }

    /** `check_for_alias_match`: runs every enabled alias whose regex
        matches `input`, in table order, and reports whether any did. Each
        callback's own `blight` events reach the channel before the stack
        trace of its failure. */
    method CheckForAliasMatch(input: string) returns (response: bool)
      requires Valid()
      modifies writer`sent, state`invoked
      ensures var scan := ScanOf(state.aliasTable, input, lib.regex, lib.lua);
              && response == scan.matched
              && writer.sent == old(writer.sent) + scan.events
              && state.invoked == old(state.invoked) + scan.calls
      ensures response <==> exists i :: 0 <= i < |state.aliasTable| && Fires(state.aliasTable[i], input, lib.regex)
      ensures state.invoked == old(state.invoked) + FiringCalls(state.aliasTable, input, lib.regex)
      ensures writer.sent == old(writer.sent) + CallEvents(FiringCalls(state.aliasTable, input, lib.regex), lib.lua)
    {
      var table := state.aliasTable;
      response := false;
      var i := 0;
      while i < |table|
        invariant 0 <= i <= |table|
        invariant table == state.aliasTable
        invariant response == ScanOf(table[..i], input, lib.regex, lib.lua).matched
        invariant writer.sent == old(writer.sent) + ScanOf(table[..i], input, lib.regex, lib.lua).events
        invariant state.invoked == old(state.invoked) + ScanOf(table[..i], input, lib.regex, lib.lua).calls
      {
        var alias := table[i];
        if alias.enabled && lib.regex.isMatch(alias.pattern, input) {
          var captures := Captures(lib.regex.captures(alias.pattern, input));
          var run := lib.lua.call(alias.cb, CaptureTable(captures));
          state.invoked := state.invoked + [Call(alias.cb, CaptureTable(captures))];
          state.blightWriter.sent := state.blightWriter.sent + run.sent;
          if run.error.Some? {
            writer.sent := writer.sent + [StackTrace(run.error.value)];
          }
          response := true;
        }
        assert table[..i + 1][..i] == table[..i];
        i := i + 1;
      }
      assert table[..i] == table;
      ScanMatchedIff(table, input, lib.regex, lib.lua);
      ScanCallsAreFiringCalls(table, input, lib.regex, lib.lua);
      ScanEventsAreCallEvents(table, input, lib.regex, lib.lua);
    }

    /** `check_for_trigger_match`. */
    method CheckForTriggerMatch(input: string) returns (gag: bool)
      requires Valid()
      modifies writer`sent, state`invoked
      ensures var scan := ScanOf(state.triggerTable, lib.stripAnsi(input), lib.regex, lib.lua);
              && gag == scan.gag
              && writer.sent == old(writer.sent) + scan.events
              && state.invoked == old(state.invoked) + scan.calls
      ensures var table, clean := state.triggerTable, lib.stripAnsi(input);
              && ((forall i :: 0 <= i < |table| ==> !Fires(table[i], clean, lib.regex)) ==> !gag)
              && (forall i :: 0 <= i < |table| && Fires(table[i], clean, lib.regex) &&
                              (forall j :: i < j < |table| ==> !Fires(table[j], clean, lib.regex))
                              ==> gag == table[i].gag)
              && state.invoked == old(state.invoked) + FiringCalls(table, clean, lib.regex)
              && writer.sent == old(writer.sent) + CallEvents(FiringCalls(table, clean, lib.regex), lib.lua)
    {
      gag := CheckTriggerMatch(input, TriggerTable);
    }

    /** `check_for_prompt_trigger_match`. */
    method CheckForPromptTriggerMatch(input: string) returns (gag: bool)
      requires Valid()
      modifies writer`sent, state`invoked
      ensures var scan := ScanOf(state.promptTriggerTable, lib.stripAnsi(input), lib.regex, lib.lua);
              && gag == scan.gag
              && writer.sent == old(writer.sent) + scan.events
              && state.invoked == old(state.invoked) + scan.calls
      ensures var table, clean := state.promptTriggerTable, lib.stripAnsi(input);
              && ((forall i :: 0 <= i < |table| ==> !Fires(table[i], clean, lib.regex)) ==> !gag)
              && (forall i :: 0 <= i < |table| && Fires(table[i], clean, lib.regex) &&
                              (forall j :: i < j < |table| ==> !Fires(table[j], clean, lib.regex))
                              ==> gag == table[i].gag)
              && state.invoked == old(state.invoked) + FiringCalls(table, clean, lib.regex)
              && writer.sent == old(writer.sent) + CallEvents(FiringCalls(table, clean, lib.regex), lib.lua)
    {
      gag := CheckTriggerMatch(input, PromptTriggerTable);
    }

    /** `check_trigger_match`: the alias scan run over the named trigger
        table and the ANSI-stripped input, reporting the gag flag of the
        last trigger that fired instead of whether one did. */
    method CheckTriggerMatch(input: string, name: TriggerTableName) returns (response: bool)
      requires Valid()
      modifies writer`sent, state`invoked
      ensures var scan := ScanOf(state.Triggers(name), lib.stripAnsi(input), lib.regex, lib.lua);
              && response == scan.gag
              && writer.sent == old(writer.sent) + scan.events
              && state.invoked == old(state.invoked) + scan.calls
      ensures var table, clean := state.Triggers(name), lib.stripAnsi(input);
              && ((forall i :: 0 <= i < |table| ==> !Fires(table[i], clean, lib.regex)) ==> !response)
              && (forall i :: 0 <= i < |table| && Fires(table[i], clean, lib.regex) &&
                              (forall j :: i < j < |table| ==> !Fires(table[j], clean, lib.regex))
                              ==> response == table[i].gag)
              && state.invoked == old(state.invoked) + FiringCalls(table, clean, lib.regex)
              && writer.sent == old(writer.sent) + CallEvents(FiringCalls(table, clean, lib.regex), lib.lua)
    {
      var clean := lib.stripAnsi(input);
      var table := state.Triggers(name);
      response := false;
      var i := 0;
      while i < |table|
        invariant 0 <= i <= |table|
        invariant table == state.Triggers(name)
        invariant response == ScanOf(table[..i], clean, lib.regex, lib.lua).gag
        invariant writer.sent == old(writer.sent) + ScanOf(table[..i], clean, lib.regex, lib.lua).events
        invariant state.invoked == old(state.invoked) + ScanOf(table[..i], clean, lib.regex, lib.lua).calls
      {
        var trigger := table[i];
        if trigger.enabled && lib.regex.isMatch(trigger.pattern, clean) {
          var captures := Captures(lib.regex.captures(trigger.pattern, clean));
          var run := lib.lua.call(trigger.cb, CaptureTable(captures));
          state.invoked := state.invoked + [Call(trigger.cb, CaptureTable(captures))];
          state.blightWriter.sent := state.blightWriter.sent + run.sent;
          if run.error.Some? {
            writer.sent := writer.sent + [StackTrace(run.error.value)];
          }
          response := trigger.gag;
        }
        assert table[..i + 1][..i] == table[..i];
        i := i + 1;
      }
      assert table[..i] == table;
      ScanGagIsLastFiring(table, clean, lib.regex, lib.lua);
      ScanCallsAreFiringCalls(table, clean, lib.regex, lib.lua);
      ScanEventsAreCallEvents(table, clean, lib.regex, lib.lua);
    }

    /** `receive_gmcp`: the text before the first space names the listener,
        the rest is its argument. What the listener sends through `blight`
        reaches the channel; its error is dropped. Input with no space
        panics on `split[1]`. A listener may change the globals, so nothing
        is promised about them once one has run. */
    method ReceiveGmcp(data: string) returns (r: Outcome)
      requires Valid()
      modifies writer`sent, state
      ensures SplitGmcp(data).None? ==> r.Panicked? && unchanged(state) && writer.sent == old(writer.sent)
      ensures SplitGmcp(data).Some? ==>
                var (msgType, content) := SplitGmcp(data).value;
                && r == Completed
                && (msgType !in old(state.gmcpListenerTable) ==>
                      unchanged(state) && writer.sent == old(writer.sent))
                && (msgType in old(state.gmcpListenerTable) ==>
                      var cb := old(state.gmcpListenerTable)[msgType];
                      && state.invoked == old(state.invoked) + [Call(cb, Text(content))]
                      && writer.sent == old(writer.sent) + lib.lua.call(cb, Text(content)).sent)
    {
      var split := SplitGmcp(data);
      if split.None? {
        return Panicked("index out of bounds");
      }
      var (msgType, content) := split.value;
      if msgType in state.gmcpListenerTable {
        var cb := state.gmcpListenerTable[msgType];
        var run := lib.lua.call(cb, Text(content));
        state.invoked := state.invoked + [Call(cb, Text(content))];
        state.blightWriter.sent := state.blightWriter.sent + run.sent;
      }
      r := Completed;
    }

    /** `load_script` from the point where the file's text has been read:
        the chunk's own `blight` events reach the channel, a failing chunk
        then sends one stack trace, and the load reports success either way.
        Running the chunk is how scripts register aliases, triggers,
        listeners and hooks, so nothing is promised about the globals. */
    method LoadScript(content: string, path: string) returns (r: LoadResult)
      requires Valid()
      modifies writer`sent, state
      ensures r == Ok
      ensures var run := lib.lua.exec(content, path);
              writer.sent == old(writer.sent) + run.sent + TraceOf(run)
    {
      var run := lib.lua.exec(content, path);
      state.blightWriter.sent := state.blightWriter.sent + run.sent;
      if run.error.Some? {
        writer.sent := writer.sent + [StackTrace(run.error.value)];
      }
      r := Ok;
    }

    /** Runs an optional global hook with no arguments; its error becomes
        the panic of the `unwrap` around it. A hook that ran may have
        changed the globals. */
    method RunHook(hook: Option<CallbackId>) returns (r: Outcome)
      requires Valid()
      modifies writer`sent, state
      ensures hook.None? ==> r == Completed && unchanged(state) && writer.sent == old(writer.sent)
      ensures hook.Some? ==>
                var run := lib.lua.call(hook.value, NoArgs);
                && state.invoked == old(state.invoked) + [Call(hook.value, NoArgs)]
                && writer.sent == old(writer.sent) + run.sent
                && (r == Completed <==> run.error.None?)
                && (r.Panicked? ==> r.message == run.error.value)
    {
      r := Completed;
      if hook.Some? {
        var run := lib.lua.call(hook.value, NoArgs);
        state.invoked := state.invoked + [Call(hook.value, NoArgs)];
        state.blightWriter.sent := state.blightWriter.sent + run.sent;
        if run.error.Some? {
          r := Panicked(run.error.value);
        }
      }
    }

    /** `on_connect`: runs the connection hook if the script defined one. */
    method OnConnect() returns (r: Outcome)
      requires Valid()
      modifies writer`sent, state
      ensures var hook := old(state.onConnectionCallback);
              && (hook.None? ==> r == Completed && unchanged(state) && writer.sent == old(writer.sent))
              && (hook.Some? ==>
                    var run := lib.lua.call(hook.value, NoArgs);
                    && state.invoked == old(state.invoked) + [Call(hook.value, NoArgs)]
                    && writer.sent == old(writer.sent) + run.sent
                    && (r == Completed <==> run.error.None?))
    {
      r := RunHook(state.onConnectionCallback);
    }

    /** `on_gmcp_ready`: runs the GMCP-ready hook if the script defined one. */
    method OnGmcpReady() returns (r: Outcome)
      requires Valid()
      modifies writer`sent, state
      ensures var hook := old(state.onGmcpReadyCallback);
              && (hook.None? ==> r == Completed && unchanged(state) && writer.sent == old(writer.sent))
              && (hook.Some? ==>
                    var run := lib.lua.call(hook.value, NoArgs);
                    && state.invoked == old(state.invoked) + [Call(hook.value, NoArgs)]
                    && writer.sent == old(writer.sent) + run.sent
                    && (r == Completed <==> run.error.None?))
    {
      r := RunHook(state.onGmcpReadyCallback);
    }
  }

  /** After a reset nothing registered before is left: no alias matches,
      no trigger gags, no hook or listener runs and no event is sent. */
  method ResetForgetsRegistrations(script: LuaScript, input: string, gmcp: string)
    returns (matched: bool, gag: bool, promptGag: bool)
    modifies script, script.writer
    ensures !matched && !gag && !promptGag
    ensures script.writer.sent == old(script.writer.sent)
    ensures script.state.invoked == []
  {
    script.Reset();
    matched := script.CheckForAliasMatch(input);
    gag := script.CheckForTriggerMatch(input);
    promptGag := script.CheckForPromptTriggerMatch(input);
    var _ := script.OnConnect();
    var _ := script.OnGmcpReady();
    var _ := script.ReceiveGmcp(gmcp);
  }
}
