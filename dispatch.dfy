/** The pure part of dispatch: registry entries, capture extraction, the
    GMCP message split, and `ScanOf`, the specification of one pass of the
    alias and trigger loops, with the properties such a pass has. */
module Dispatch {
  import opened Foreign

  /** An alias, trigger or prompt-trigger entry of a Lua table. Aliases
      carry no gag flag in the source; the alias scan ignores `gag`. */
  datatype Entry = Entry(enabled: bool, gag: bool, pattern: Pattern, cb: CallbackId)

  /** One invocation of a Lua callback with its arguments. */
  datatype Call = Call(cb: CallbackId, args: Args)

  /** What one pass over a table amounts to: whether any entry fired, the
      gag flag of the last entry that fired, the callbacks run in order,
      and the events sent. */
  datatype Scan = Scan(matched: bool, gag: bool, calls: seq<Call>, events: seq<Event>)

  // ---------------------------------------------------------------------
  // Capture extraction

  function GroupText(g: Option<string>): string
  {
    match g
    case Some(m) => m
    case None => ""
  }

  /** The capture table handed to a callback: one string per group of the
      match, group 0 included, a group that did not participate becoming
      the empty string so that positions stay aligned. */
  function Captures(groups: seq<Option<string>>): (r: seq<string>)
    ensures |r| == |groups|
    ensures forall i :: 0 <= i < |groups| && groups[i].Some? ==> r[i] == groups[i].value
    ensures forall i :: 0 <= i < |groups| && groups[i].None? ==> r[i] == ""
  {
    if groups == [] then [] else [GroupText(groups[0])] + Captures(groups[1..])
  }

  // ---------------------------------------------------------------------
  // GMCP message split

  /** `data.splitn(2, ' ')` taken apart as message type and content. `None`
      stands for the one-element split, whose `split[1]` panics in the
      source. */
  function SplitGmcp(data: string): (r: Option<(string, string)>)
    ensures r.None? <==> ' ' !in data
    ensures r.Some? ==> ' ' !in r.value.0 && data == r.value.0 + " " + r.value.1
  {
    if data == [] then None
    else if data[0] == ' ' then Some(("", data[1..]))
    else
      match SplitGmcp(data[1..])
      case None => None
      case Some((t, c)) => Some(([data[0]] + t, c))
  }

  /** Joining a space-free type and any content with one space, and
      splitting again, gives back the type and the content: the split is at
      the first space and later spaces stay in the content. */
  lemma {:induction false} SplitGmcpJoin(t: string, c: string)
    requires ' ' !in t
    ensures SplitGmcp(t + " " + c) == Some((t, c))
  {
    if t == [] {
      assert t + " " + c == [' '] + c;
    } else {
      SplitGmcpJoin(t[1..], c);
      assert (t + " " + c)[1..] == t[1..] + " " + c;
      assert [t[0]] + t[1..] == t;
    }
  }

  // ---------------------------------------------------------------------
  // One pass over a table

  /** An entry fires on a text when it is enabled and its regex matches. */
  predicate Fires(e: Entry, s: string, re: Regex)
  {
    e.enabled && re.isMatch(e.pattern, s)
  }

  /** The call a firing entry makes: its callback on the table of the
      texts of the groups. */
  function Invoke(e: Entry, s: string, re: Regex): Call
  {
    Call(e.cb, CaptureTable(Captures(re.captures(e.pattern, s))))
  }

  /** The stack trace the layer sends after a run, if the run failed. */
  function TraceOf(run: Run): seq<Event>
  {
    match run.error
    case None => []
    case Some(msg) => [StackTrace(msg)]
  }

  /** The events one call puts on the channel during a scan: what the
      callback sent through `blight`, then a stack trace if it failed. */
  function EventsOf(c: Call, lua: Interpreter): seq<Event>
  {
    lua.call(c.cb, c.args).sent + TraceOf(lua.call(c.cb, c.args))
  }

  /** One iteration of the scan loop. */
  function Step(acc: Scan, e: Entry, s: string, re: Regex, lua: Interpreter): Scan
  {
    if Fires(e, s, re) then
      var c := Invoke(e, s, re);
      Scan(true, e.gag, acc.calls + [c], acc.events + EventsOf(c, lua))
    else
      acc
  }

  /** The whole pass over `es`, in table iteration order. Defined from the
      last entry back, so that a loop that has gone through `es[..i]` has
      reached `ScanOf(es[..i], ...)`. */
  function ScanOf(es: seq<Entry>, s: string, re: Regex, lua: Interpreter): Scan
    decreases |es|
  {
    if es == [] then Scan(false, false, [], [])
    else Step(ScanOf(es[..|es| - 1], s, re, lua), es[|es| - 1], s, re, lua)
  }

  /** Reference definition: the calls of the entries that fire, front to back. */
  function FiringCalls(es: seq<Entry>, s: string, re: Regex): seq<Call>
  {
    if es == [] then []
    else (if Fires(es[0], s, re) then [Invoke(es[0], s, re)] else []) + FiringCalls(es[1..], s, re)
  }

  /** Reference definition: the events of the calls, front to back. */
  function CallEvents(calls: seq<Call>, lua: Interpreter): seq<Event>
  {
    if calls == [] then [] else EventsOf(calls[0], lua) + CallEvents(calls[1..], lua)
  }

  /** What the callbacks themselves sent through `blight`, front to back. */
  function OwnSends(calls: seq<Call>, lua: Interpreter): seq<Event>
  {
    if calls == [] then [] else lua.call(calls[0].cb, calls[0].args).sent + OwnSends(calls[1..], lua)
  }

  /** How many of the calls failed. */
  function FailureCount(calls: seq<Call>, lua: Interpreter): nat
  {
    if calls == [] then 0
    else (if lua.call(calls[0].cb, calls[0].args).error.Some? then 1 else 0) + FailureCount(calls[1..], lua)
  }

  lemma {:induction false} FiringCallsSnoc(es: seq<Entry>, e: Entry, s: string, re: Regex)
    ensures FiringCalls(es + [e], s, re)
         == FiringCalls(es, s, re) + (if Fires(e, s, re) then [Invoke(e, s, re)] else [])
  {
    if es == [] {
      assert es + [e] == [e];
    } else {
      FiringCallsSnoc(es[1..], e, s, re);
      assert (es + [e])[1..] == es[1..] + [e];
    }
  }

  lemma {:induction false} CallEventsSnoc(calls: seq<Call>, c: Call, lua: Interpreter)
    ensures CallEvents(calls + [c], lua) == CallEvents(calls, lua) + EventsOf(c, lua)
  {
    if calls == [] {
      assert calls + [c] == [c];
    } else {
      CallEventsSnoc(calls[1..], c, lua);
      assert (calls + [c])[1..] == calls[1..] + [c];
    }
  }

  /** The scan reports a match exactly when some entry is enabled and
      matches, whatever its callback does. */
  lemma {:induction false} ScanMatchedIff(es: seq<Entry>, s: string, re: Regex, lua: Interpreter)
    ensures ScanOf(es, s, re, lua).matched <==> exists i :: 0 <= i < |es| && Fires(es[i], s, re)
    decreases |es|
  {
    if es != [] {
      var init := es[..|es| - 1];
      ScanMatchedIff(init, s, re, lua);
      if ScanOf(init, s, re, lua).matched {
        var i :| 0 <= i < |init| && Fires(init[i], s, re);
        assert es[i] == init[i];
      }
      if exists i :: 0 <= i < |es| && Fires(es[i], s, re) {
        var i :| 0 <= i < |es| && Fires(es[i], s, re);
        if i < |init| {
          assert init[i] == es[i];
        }
      }
    }
  }

  /** The scan reports the gag flag of the last entry that fired, and false
      when none fired: a later non-gag match overrides an earlier gag one. */
  lemma {:induction false} ScanGagIsLastFiring(es: seq<Entry>, s: string, re: Regex, lua: Interpreter)
    ensures (forall i :: 0 <= i < |es| ==> !Fires(es[i], s, re)) ==> !ScanOf(es, s, re, lua).gag
    ensures forall i :: 0 <= i < |es| && Fires(es[i], s, re) &&
                        (forall j :: i < j < |es| ==> !Fires(es[j], s, re))
                        ==> ScanOf(es, s, re, lua).gag == es[i].gag
    decreases |es|
  {
    if es != [] {
      var init := es[..|es| - 1];
      ScanGagIsLastFiring(init, s, re, lua);
      var last := es[|es| - 1];
      if !Fires(last, s, re) {
        forall i | 0 <= i < |init| ensures init[i] == es[i] { }
      }
    }
  }

  /** The scan runs, in order, exactly the callbacks of the entries that
      fire, each once, with its capture list; disabled or non-matching
      entries run nothing, and a failing callback does not stop the pass. */
  lemma {:induction false} ScanCallsAreFiringCalls(es: seq<Entry>, s: string, re: Regex, lua: Interpreter)
    ensures ScanOf(es, s, re, lua).calls == FiringCalls(es, s, re)
    decreases |es|
  {
    if es != [] {
      var init := es[..|es| - 1];
      ScanCallsAreFiringCalls(init, s, re, lua);
      FiringCallsSnoc(init, es[|es| - 1], s, re);
      assert init + [es[|es| - 1]] == es;
    }
  }

  /** The events of a pass are, call by call in order, what the callback
      sent through `blight` followed by one stack trace if it failed. */
  lemma {:induction false} ScanEventsAreCallEvents(es: seq<Entry>, s: string, re: Regex, lua: Interpreter)
    ensures ScanOf(es, s, re, lua).events == CallEvents(ScanOf(es, s, re, lua).calls, lua)
    decreases |es|
  {
    if es != [] {
      var init := es[..|es| - 1];
      ScanEventsAreCallEvents(init, s, re, lua);
      var last := es[|es| - 1];
      if Fires(last, s, re) {
        CallEventsSnoc(ScanOf(init, s, re, lua).calls, Invoke(last, s, re), lua);
      }
    }
  }

  /** Which entries fire, which callbacks run and what is reported does not
      depend on whether the callbacks fail: only the events do. */
  lemma {:induction false} ScanIgnoresCallbackOutcomes(es: seq<Entry>, s: string, re: Regex, lua1: Interpreter, lua2: Interpreter)
    ensures ScanOf(es, s, re, lua1).matched == ScanOf(es, s, re, lua2).matched
    ensures ScanOf(es, s, re, lua1).gag == ScanOf(es, s, re, lua2).gag
    ensures ScanOf(es, s, re, lua1).calls == ScanOf(es, s, re, lua2).calls
    decreases |es|
  {
    if es != [] {
      ScanIgnoresCallbackOutcomes(es[..|es| - 1], s, re, lua1, lua2);
    }
  }

  /** Beyond what the callbacks send themselves, the layer adds exactly one
      event per failing call, and none when every call succeeds. */
  lemma {:induction false} CallEventsCount(calls: seq<Call>, lua: Interpreter)
    ensures |CallEvents(calls, lua)| == |OwnSends(calls, lua)| + FailureCount(calls, lua)
    ensures (forall k :: 0 <= k < |calls| ==> lua.call(calls[k].cb, calls[k].args).error.None?)
            ==> CallEvents(calls, lua) == OwnSends(calls, lua)
  {
    if calls != [] {
      CallEventsCount(calls[1..], lua);
      if forall k :: 0 <= k < |calls| ==> lua.call(calls[k].cb, calls[k].args).error.None? {
        forall k | 0 <= k < |calls[1..]|
          ensures lua.call(calls[1..][k].cb, calls[1..][k].args).error.None?
        {
          assert calls[1..][k] == calls[k + 1];
        }
      }
    }
  }

  /** Removing a disabled entry from a table changes nothing about a pass:
      a disabled entry never fires and its callback is never run. */
  lemma {:induction false} ScanSkipsDisabled(es: seq<Entry>, k: nat, s: string, re: Regex, lua: Interpreter)
    requires k < |es| && !es[k].enabled
    ensures ScanOf(es[..k] + es[k + 1..], s, re, lua) == ScanOf(es, s, re, lua)
    decreases |es|
  {
    if k == |es| - 1 {
      assert es[..k] + es[k + 1..] == es[..|es| - 1];
    } else {
      var init := es[..|es| - 1];
      ScanSkipsDisabled(init, k, s, re, lua);
      var shorter := es[..k] + es[k + 1..];
      assert shorter != [];
      assert shorter[..|shorter| - 1] == init[..k] + init[k + 1..];
      assert shorter[|shorter| - 1] == es[|es| - 1];
    }
  }
}
