/**
  The optimised trajectory recorder: a journal of one agent run (header fields,
  LLM interactions, agent steps, outcome) kept in memory and written out as a
  whole, either every `batchSize` records or when the run is finalised.

  Wall-clock readings are the `now` parameters (whole seconds); the response
  object of an LLM call is an opaque value of type `R`. A save is a snapshot
  appended to the ghost `saves`; how the n-th write attempt ends is the
  `writeOutcome` input, the ghost `file` is what the file then holds, and a
  failed write is swallowed.
*/
module TrajectoryRecorder {
  import opened Common

  /** The JSON values a trajectory is written as; an object keeps its key order. */
  datatype Json =
    | Null
    | Bool(b: bool)
    | Int(i: int)
    | Str(s: string)
    | Arr(items: seq<Json>)
    | Obj(fields: seq<Field>)

  datatype Field = Field(key: string, value: Json)

  /** The value under `key` in an object's fields (the first one, as a dict has one). */
  function Get(fields: seq<Field>, key: string): Option<Json>
  {
    if fields == [] then None
    else if fields[0].key == key then Some(fields[0].value)
    else Get(fields[1..], key)
  }

  /** The first field with `key` decides the lookup. */
  lemma {:induction false} GetAt(fields: seq<Field>, i: nat, key: string)
    requires i < |fields| && fields[i].key == key
    requires forall j :: 0 <= j < i ==> fields[j].key != key
    ensures Get(fields, key) == Some(fields[i].value)
    decreases i
  {
    if i > 0 {
      GetAt(fields[1..], i - 1, key);
    }
  }

  /** A key no field carries is not found. */
  lemma {:induction false} GetAbsent(fields: seq<Field>, key: string)
    requires forall j :: 0 <= j < |fields| ==> fields[j].key != key
    ensures Get(fields, key) == None
    decreases |fields|
  {
    if fields != [] {
      GetAbsent(fields[1..], key);
    }
  }

  function OptStr(o: Option<string>): Json
  {
    if o.Some? then Str(o.value) else Null
  }

  function ParseOptStr(j: Option<Json>): Option<Option<string>>
  {
    match j
    case Some(Null) => Some(None)
    case Some(Str(s)) => Some(Some(s))
    case _ => None
  }

  datatype ToolCall = ToolCall(callId: string, name: string, arguments: Json, id: Option<string>)

  datatype ToolResult = ToolResult(callId: string, success: bool, result: Option<string>, error: Option<string>, id: Option<string>)

  datatype Message = Message(role: string, content: Option<string>, toolCall: Option<ToolCall>, toolResult: Option<ToolResult>)

  /** `_serialize_tool_call`: call id, name, arguments and id, in that order. */
  function SerializeToolCall(tc: ToolCall): Json
  {
    Obj([Field("call_id", Str(tc.callId)), Field("name", Str(tc.name)),
         Field("arguments", tc.arguments), Field("id", OptStr(tc.id))])
  }

  function ParseToolCall(j: Json): Option<ToolCall>
  {
    if !j.Obj? then None
    else
      var callId := Get(j.fields, "call_id");
      var name := Get(j.fields, "name");
      var arguments := Get(j.fields, "arguments");
      var id := ParseOptStr(Get(j.fields, "id"));
      if callId.Some? && callId.value.Str? && name.Some? && name.value.Str? && arguments.Some? && id.Some?
      then Some(ToolCall(callId.value.s, name.value.s, arguments.value, id.value))
      else None
  }

  /** `_serialize_tool_result`: call id, success, result, error and id, in that order. */
  function SerializeToolResult(tr: ToolResult): Json
  {
    Obj([Field("call_id", Str(tr.callId)), Field("success", Bool(tr.success)),
         Field("result", OptStr(tr.result)), Field("error", OptStr(tr.error)), Field("id", OptStr(tr.id))])
  }

  function ParseToolResult(j: Json): Option<ToolResult>
  {
    if !j.Obj? then None
    else
      var callId := Get(j.fields, "call_id");
      var success := Get(j.fields, "success");
      var result := ParseOptStr(Get(j.fields, "result"));
      var error := ParseOptStr(Get(j.fields, "error"));
      var id := ParseOptStr(Get(j.fields, "id"));
      if callId.Some? && callId.value.Str? && success.Some? && success.value.Bool?
        && result.Some? && error.Some? && id.Some?
      then Some(ToolResult(callId.value.s, success.value.b, result.value, error.value, id.value))
      else None
  }

  /** Reads a serialised message back; the inverse of `SerializeMessage`. */
  function ParseMessage(j: Json): Option<Message>
  {
    if !j.Obj? then None
    else
      var role := Get(j.fields, "role");
      var content := ParseOptStr(Get(j.fields, "content"));
      var call := Get(j.fields, "tool_call");
      var result := Get(j.fields, "tool_result");
      var toolCall := if call.Some? then ParseToolCall(call.value) else None;
      var toolResult := if result.Some? then ParseToolResult(result.value) else None;
      if role.Some? && role.value.Str? && content.Some?
        && (call.Some? ==> toolCall.Some?) && (result.Some? ==> toolResult.Some?)
      then Some(Message(role.value.s, content.value, toolCall, toolResult))
      else None
  }

  lemma ToolCallRoundTrip(tc: ToolCall)
    ensures ParseToolCall(SerializeToolCall(tc)) == Some(tc)
  {
    var f := SerializeToolCall(tc).fields;
    GetAt(f, 0, "call_id");
    GetAt(f, 1, "name");
    GetAt(f, 2, "arguments");
    GetAt(f, 3, "id");
  }

  lemma ToolResultRoundTrip(tr: ToolResult)
    ensures ParseToolResult(SerializeToolResult(tr)) == Some(tr)
  {
    var f := SerializeToolResult(tr).fields;
    GetAt(f, 0, "call_id");
    GetAt(f, 1, "success");
    GetAt(f, 2, "result");
    GetAt(f, 3, "error");
    GetAt(f, 4, "id");
  }

  /** `_serialize_message`: `role` and `content` always come first; a `tool_call`
      or `tool_result` key appears exactly when the message carries one, and the
      message can be read back unchanged. */
  function SerializeMessage(m: Message): (r: Json)
    ensures r.Obj? && |r.fields| >= 2
    ensures r.fields[0] == Field("role", Str(m.role)) && r.fields[1] == Field("content", OptStr(m.content))
    ensures Get(r.fields, "tool_call").Some? <==> m.toolCall.Some?
    ensures Get(r.fields, "tool_result").Some? <==> m.toolResult.Some?
    ensures ParseMessage(r) == Some(m)
  {
    var base := [Field("role", Str(m.role)), Field("content", OptStr(m.content))];
    var withCall := if m.toolCall.Some? then base + [Field("tool_call", SerializeToolCall(m.toolCall.value))] else base;
    var fields := if m.toolResult.Some? then withCall + [Field("tool_result", SerializeToolResult(m.toolResult.value))] else withCall;
    MessageFields(m, base, withCall, fields);
    MessageReadBack(m, fields);
    Obj(fields)
  }

  /** The lookups `ParseMessage` makes on the fields `SerializeMessage` builds. */
  lemma MessageFields(m: Message, base: seq<Field>, withCall: seq<Field>, fields: seq<Field>)
    requires base == [Field("role", Str(m.role)), Field("content", OptStr(m.content))]
    requires withCall == if m.toolCall.Some? then base + [Field("tool_call", SerializeToolCall(m.toolCall.value))] else base
    requires fields == if m.toolResult.Some? then withCall + [Field("tool_result", SerializeToolResult(m.toolResult.value))] else withCall
    ensures Get(fields, "role") == Some(Str(m.role))
    ensures Get(fields, "content") == Some(OptStr(m.content))
    ensures Get(fields, "tool_call") == if m.toolCall.Some? then Some(SerializeToolCall(m.toolCall.value)) else None
    ensures Get(fields, "tool_result") == if m.toolResult.Some? then Some(SerializeToolResult(m.toolResult.value)) else None
  {
    GetAt(fields, 0, "role");
    GetAt(fields, 1, "content");
    if m.toolCall.Some? {
      GetAt(fields, 2, "tool_call");
      if m.toolResult.Some? {
        GetAt(fields, 3, "tool_result");
      } else {
        GetAbsent(fields, "tool_result");
      }
    } else {
      GetAbsent(fields, "tool_call");
      if m.toolResult.Some? {
        GetAt(fields, 2, "tool_result");
      } else {
        GetAbsent(fields, "tool_result");
      }
    }
  }

  /** Fields that answer the four lookups as `MessageFields` describes read back as `m`. */
  lemma MessageReadBack(m: Message, fields: seq<Field>)
    requires Get(fields, "role") == Some(Str(m.role))
    requires Get(fields, "content") == Some(OptStr(m.content))
    requires Get(fields, "tool_call") == if m.toolCall.Some? then Some(SerializeToolCall(m.toolCall.value)) else None
    requires Get(fields, "tool_result") == if m.toolResult.Some? then Some(SerializeToolResult(m.toolResult.value)) else None
    ensures ParseMessage(Obj(fields)) == Some(m)
  {
    if m.toolCall.Some? {
      ToolCallRoundTrip(m.toolCall.value);
    }
    if m.toolResult.Some? {
      ToolResultRoundTrip(m.toolResult.value);
    }
  }

  function SerializeMessages(ms: seq<Message>): (r: seq<Json>)
    ensures |r| == |ms| && forall i :: 0 <= i < |ms| ==> ParseMessage(r[i]) == Some(ms[i])
  {
    seq(|ms|, i requires 0 <= i < |ms| => SerializeMessage(ms[i]))
  }

  function SerializeToolCalls(tcs: seq<ToolCall>): (r: seq<Json>)
    ensures |r| == |tcs| && forall i :: 0 <= i < |tcs| ==> ParseToolCall(r[i]) == Some(tcs[i])
  {
    var r := seq(|tcs|, i requires 0 <= i < |tcs| => SerializeToolCall(tcs[i]));
    assert forall i :: 0 <= i < |tcs| ==> ParseToolCall(r[i]) == Some(tcs[i]) by {
      forall i | 0 <= i < |tcs| {
        ToolCallRoundTrip(tcs[i]);
      }
    }
    r
  }

  function SerializeToolResults(trs: seq<ToolResult>): (r: seq<Json>)
    ensures |r| == |trs| && forall i :: 0 <= i < |trs| ==> ParseToolResult(r[i]) == Some(trs[i])
  {
    var r := seq(|trs|, i requires 0 <= i < |trs| => SerializeToolResult(trs[i]));
    assert forall i :: 0 <= i < |trs| ==> ParseToolResult(r[i]) == Some(trs[i]) by {
      forall i | 0 <= i < |trs| {
        ToolResultRoundTrip(trs[i]);
      }
    }
    r
  }

  /** Python's `xs if xs else None`: an absent or empty list is recorded as None. */
  function NonEmpty<T>(xs: Option<seq<T>>): (r: Option<seq<T>>)
    ensures r.Some? <==> xs.Some? && xs.value != []
    ensures r.Some? ==> r == xs
  {
    if xs.Some? && xs.value != [] then xs else None
  }

  /** One entry of `llm_interactions`; the response and its usage are the opaque `R`. */
  datatype Interaction<R> = Interaction(
    timestamp: int,
    provider: string,
    model: string,
    inputMessages: seq<Json>,
    response: R,
    toolsAvailable: Option<seq<string>>)

  /** One entry of `agent_steps`. */
  datatype AgentStep<R> = AgentStep(
    stepNumber: int,
    timestamp: int,
    state: string,
    llmMessages: Option<seq<Json>>,
    llmResponse: Option<R>,
    toolCalls: Option<seq<Json>>,
    toolResults: Option<seq<Json>>,
    reflection: Option<string>,
    error: Option<string>)

  /** `trajectory_data`; an empty start or end time string is `None`. */
  datatype Trajectory<R> = Trajectory(
    task: string,
    startTime: Option<int>,
    endTime: Option<int>,
    provider: string,
    model: string,
    maxSteps: int,
    llmInteractions: seq<Interaction<R>>,
    agentSteps: seq<AgentStep<R>>,
    success: bool,
    finalResult: Option<string>,
    executionTime: int)

  function InitialTrajectory<R>(): Trajectory<R>
  {
    Trajectory("", None, None, "", "", 0, [], [], false, None, 0)
  }

  /** Python truthiness of `max_interactions`: present and non-zero. */
  predicate Limited(maxInteractions: Option<int>)
  {
    maxInteractions.Some? && maxInteractions.value != 0
  }

  /** The interaction list after appending `x`: with a limit in force and the list
      longer than it, the oldest entry is dropped. */
  function Window<T>(l: seq<T>, x: T, maxInteractions: Option<int>): (r: seq<T>)
    ensures !Limited(maxInteractions) ==> r == l + [x]
    ensures Limited(maxInteractions) && |l| <= Max(maxInteractions.value, 0) ==>
      |r| <= Max(maxInteractions.value, 0)
    ensures Limited(maxInteractions) && |l| < maxInteractions.value ==> r == l + [x]
    ensures Limited(maxInteractions) && |l| >= maxInteractions.value ==>
      if l == [] then r == [] else r == l[1..] + [x]
  {
    var appended := l + [x];
    if Limited(maxInteractions) && |appended| > maxInteractions.value then appended[1..] else appended
  }

  /** Recording `xs` one after another into the interaction list `l`. */
  function AppendAll<T>(l: seq<T>, xs: seq<T>, maxInteractions: Option<int>): seq<T>
    decreases |xs|
  {
    if xs == [] then l else AppendAll(Window(l, xs[0], maxInteractions), xs[1..], maxInteractions)
  }

  /** One window step seen from the whole history: the window followed by the
      items still to come is what was there before, less the dropped oldest one. */
  lemma WindowStep<T>(l: seq<T>, xs: seq<T>, k: int)
    requires k >= 1 && |l| <= k && xs != []
    ensures |Window(l, xs[0], Some(k))| <= k
    ensures Window(l, xs[0], Some(k)) + xs[1..] == (l + xs)[if |l| < k then 0 else 1..]
  {
    assert xs == [xs[0]] + xs[1..];
    assert l + xs == (l + [xs[0]]) + xs[1..];
    if |l| >= k {
      assert (l + xs)[1..] == (l + [xs[0]])[1..] + xs[1..];
    }
  }

  lemma SuffixOfSuffix<T>(s: seq<T>, a: nat, b: nat)
    requires a + b <= |s|
    ensures s[a..][b..] == s[a + b..]
  {
  }

  /** With a positive limit `k`, a list that fits keeps exactly the newest `k`
      of everything appended, in order. */
  lemma {:induction false} AppendAllKeepsNewest<T>(l: seq<T>, xs: seq<T>, k: int)
    requires k >= 1 && |l| <= k
    ensures var all := l + xs;
      AppendAll(l, xs, Some(k)) == all[Max(|all| - k, 0)..]
    decreases |xs|
  {
    var all := l + xs;
    if xs == [] {
      assert all == l;
    } else {
      var w := Window(l, xs[0], Some(k));
      WindowStep(l, xs, k);
      AppendAllKeepsNewest(w, xs[1..], k);
      var d := if |l| < k then 0 else 1;
      var all' := w + xs[1..];
      assert all' == all[d..];
      SuffixOfSuffix(all, d, Max(|all'| - k, 0));
    }
  }

  /** Appending to an empty list with a positive limit `k` keeps the last
      `min(k, |xs|)` interactions. */
  lemma RecordedWindow<T>(xs: seq<T>, k: int)
    requires k >= 1
    ensures AppendAll([], xs, Some(k)) == xs[Max(|xs| - k, 0)..]
  {
    var empty: seq<T> := [];
    assert empty + xs == xs;
    AppendAllKeepsNewest(empty, xs, k);
  }

  /** The batch counter after one record call: one more, and back to 0 once it
      reaches the batch size. */
  function Tick(count: int, batchSize: int): (t: int)
    ensures t != 0 ==> t == count + 1 && t < batchSize
    ensures count >= 0 ==> (t == 0 <==> count + 1 >= batchSize)
  {
    if count + 1 >= batchSize then 0 else count + 1
  }

  /** Counter and number of saves after `n` record calls starting from `count`. */
  function Ticks(count: int, batchSize: int, n: nat): (r: (int, nat))
    ensures r.1 <= n
    ensures count >= 0 ==> r.0 >= 0
  {
    if n == 0 then (count, 0)
    else
      var (c, saves) := Ticks(count, batchSize, n - 1);
      (Tick(c, batchSize), saves + if c + 1 >= batchSize then 1 else 0)
  }

  /** A save happens on every `batchSize`-th record call: after `n` calls from a
      counter `c` below the batch size, `c + n` is the number of saves times the
      batch size plus the counter, and the counter stays below the batch size (so
      they are the quotient and remainder of `c + n` by the batch size). */
  lemma {:induction false} BatchCadence(c: int, batchSize: int, n: nat)
    requires 0 <= c < batchSize
    ensures c + n == Ticks(c, batchSize, n).1 * batchSize + Ticks(c, batchSize, n).0
    ensures 0 <= Ticks(c, batchSize, n).0 < batchSize
  {
    if n > 0 {
      BatchCadence(c, batchSize, n - 1);
      var (r, q) := Ticks(c, batchSize, n - 1);
      if r + 1 >= batchSize {
        assert (q + 1) * batchSize == q * batchSize + batchSize;
      }
    }
  }

  /** How one write attempt of `save_trajectory` ends: the directory or the file
      cannot be opened (nothing on disk changes), the snapshot is written in
      full, or the file was opened (and so emptied) but the JSON dump stopped
      part way. */
  datatype WriteOutcome = OpenFails | Written | DumpFails

  /** What the trajectory file holds: whatever was there before the recorder
      first opened it, a complete snapshot, or the truncated start of one. */
  datatype FileState<R> = Untouched | Holds(t: Trajectory<R>) | Partial(t: Trajectory<R>)

  /** The file after one write attempt of snapshot `t` from state `f`. */
  function AfterWrite<R>(f: FileState<R>, o: WriteOutcome, t: Trajectory<R>): FileState<R>
  {
    match o
    case OpenFails => f
    case Written => Holds(t)
    case DumpFails => Partial(t)
  }

  /** What the file holds after a series of write attempts: the snapshot of the
      last attempt that got the file open, complete or truncated by how that
      attempt ended; untouched when none did. */
  lemma {:induction false} FileAfterWrites<R>(saves: seq<Trajectory<R>>, outcome: nat -> WriteOutcome)
    ensures FileOf(saves, outcome) == Untouched <==> forall i :: 0 <= i < |saves| ==> outcome(i) == OpenFails
    ensures FileOf(saves, outcome) != Untouched ==> LastOpened(saves, outcome, FileOf(saves, outcome))
    decreases |saves|
  {
    if saves != [] {
      var n := |saves| - 1;
      var init := saves[..n];
      FileAfterWrites(init, outcome);
      var g := FileOf(init, outcome);
      if outcome(n) == OpenFails && g != Untouched {
        var i :| LastOpenedAt(init, outcome, g, i);
        assert LastOpenedAt(saves, outcome, g, i);
      } else if outcome(n) != OpenFails {
        assert LastOpenedAt(saves, outcome, FileOf(saves, outcome), n);
      }
    }
  }

  /** Attempt `i` is the last one that got the file open, and `f` is its snapshot,
      complete exactly when that attempt finished writing. */
  ghost predicate LastOpenedAt<R>(saves: seq<Trajectory<R>>, outcome: nat -> WriteOutcome, f: FileState<R>, i: int)
  {
    && 0 <= i < |saves| && outcome(i) != OpenFails
    && !f.Untouched? && f.t == saves[i] && (f.Holds? <==> outcome(i) == Written)
    && forall j :: i < j < |saves| ==> outcome(j) == OpenFails
  }

  ghost predicate LastOpened<R>(saves: seq<Trajectory<R>>, outcome: nat -> WriteOutcome, f: FileState<R>)
  {
    exists i :: LastOpenedAt(saves, outcome, f, i)
  }

  /** The file after the write attempts of `saves`, the i-th ending as `outcome(i)`,
      starting from an untouched file. */
  ghost function FileOf<R>(saves: seq<Trajectory<R>>, outcome: nat -> WriteOutcome): FileState<R>
  {
    if saves == [] then Untouched
    else AfterWrite(FileOf(saves[..|saves| - 1], outcome), outcome(|saves| - 1), saves[|saves| - 1])
  }

  /** The default file name for a recorder given no path. */
  function DefaultPath(stamp: string): (p: string)
    ensures StartsWith(p, "trajectory_") && |p| == |stamp| + 16
    ensures p[11..11 + |stamp|] == stamp && p[|p| - 5..] == ".json"
  {
    "trajectory_" + stamp + ".json"
  }

  class OptimizedTrajectoryRecorder<R> {
    const trajectoryPath: string
    const batchSize: int
    const maxInteractions: Option<int>
    const backgroundIo: bool
    /** How the n-th write attempt (counting from 0) ends. */
    const writeOutcome: nat -> WriteOutcome
    var batchCount: int
    var data: Trajectory<R>
    var startTime: Option<int>
    /** Every snapshot written, in order. */
    ghost var saves: seq<Trajectory<R>>
    /** What the trajectory file holds. */
    ghost var file: FileState<R>

    /** The counter never goes below 0 and is reset whenever it reaches the batch
        size; the interaction list respects the limit; the header's start time is
        the recorder's own. */
    ghost predicate Valid()
      reads this
    {
      && 0 <= batchCount
      && (batchCount < batchSize || batchCount == 0)
      && (Limited(maxInteractions) ==> |data.llmInteractions| <= Max(maxInteractions.value, 0))
      && data.startTime == startTime
      && file == FileOf(saves, writeOutcome)
    }

    /** `__init__`; `stamp` is the formatted current time used in the default name. */
    constructor (path: Option<string>, stamp: string, batchSize: int, maxInteractions: Option<int>,
      backgroundIo: bool, writeOutcome: nat -> WriteOutcome)
      ensures Valid()
      ensures trajectoryPath == (if path.Some? then path.value else DefaultPath(stamp))
      ensures this.batchSize == batchSize && this.maxInteractions == maxInteractions
      ensures this.backgroundIo == backgroundIo && this.writeOutcome == writeOutcome
      ensures batchCount == 0 && data == InitialTrajectory() && startTime == None
      ensures saves == [] && file == Untouched
    {
      trajectoryPath := if path.Some? then path.value else DefaultPath(stamp);
      this.batchSize := batchSize;
      this.maxInteractions := maxInteractions;
      this.backgroundIo := backgroundIo;
      this.writeOutcome := writeOutcome;
      batchCount := 0;
      data := InitialTrajectory();
      startTime := None;
      saves := [];
      file := Untouched;
    }

    /** `save_trajectory`: writes the whole current trajectory. A write that
        cannot open the file leaves it as it was, one that fails while dumping
        leaves it truncated; neither is reported to the caller. */
    method SaveTrajectory()
      modifies this
      ensures saves == old(saves) + [data]
      ensures file == AfterWrite(old(file), writeOutcome(|old(saves)|), data)
      ensures old(file) == FileOf(old(saves), writeOutcome) ==> file == FileOf(saves, writeOutcome)
      ensures data == old(data) && batchCount == old(batchCount) && startTime == old(startTime)
    {
      file := AfterWrite(file, writeOutcome(|saves|), data);
      saves := saves + [data];
      assert saves[..|saves| - 1] == old(saves);
    }

    /** `_maybe_save_trajectory`: saves and resets the counter exactly when it has
        reached the batch size; otherwise nothing changes. */
    method MaybeSaveTrajectory()
      requires 0 <= batchCount
      modifies this
      ensures old(file) == FileOf(old(saves), writeOutcome) ==> file == FileOf(saves, writeOutcome)
      ensures 0 <= batchCount && (batchCount < batchSize || batchCount == 0)
      ensures old(batchCount) >= batchSize ==>
        saves == old(saves) + [data] && batchCount == 0
        && file == AfterWrite(old(file), writeOutcome(|old(saves)|), data)
      ensures old(batchCount) < batchSize ==> saves == old(saves) && file == old(file) && batchCount == old(batchCount)
      ensures data == old(data) && startTime == old(startTime)
    {
      if batchCount >= batchSize {
        SaveTrajectory();
        batchCount := 0;
      }
    }

    /** `start_recording`: sets the header, empties both lists, keeps the counter
        and saves only if the counter already calls for it. */
    method StartRecording(task: string, provider: string, model: string, maxSteps: int, now: int)
      requires Valid()
      modifies this
      ensures Valid()
      ensures startTime == Some(now)
      ensures data == old(data).(task := task, startTime := Some(now), provider := provider, model := model,
        maxSteps := maxSteps, llmInteractions := [], agentSteps := [])
      ensures batchCount == (if old(batchCount) >= batchSize then 0 else old(batchCount))
      ensures saves == old(saves) + (if old(batchCount) >= batchSize then [data] else [])
      ensures file == (if old(batchCount) >= batchSize then AfterWrite(old(file), writeOutcome(|old(saves)|), data) else old(file))
    {
      startTime := Some(now);
      data := data.(task := task, startTime := Some(now), provider := provider, model := model,
        maxSteps := maxSteps, llmInteractions := [], agentSteps := []);
      MaybeSaveTrajectory();
    }

    /** `record_llm_interaction`: the interaction goes at the end of the window
        (dropping the oldest when over the limit), the counter ticks once, and a
        save happens when the batch is full. */
    method RecordLlmInteraction(messages: seq<Message>, response: R, provider: string, model: string,
      tools: Option<seq<string>>, now: int)
      requires Valid()
      modifies this
      ensures Valid()
      ensures var interaction := Interaction(now, provider, model, SerializeMessages(messages), response, NonEmpty(tools));
        data == old(data).(llmInteractions := Window(old(data).llmInteractions, interaction, maxInteractions))
      ensures batchCount == Tick(old(batchCount), batchSize)
      ensures saves == old(saves) + (if old(batchCount) + 1 >= batchSize then [data] else [])
      ensures file == (if old(batchCount) + 1 >= batchSize then AfterWrite(old(file), writeOutcome(|old(saves)|), data) else old(file))
      ensures startTime == old(startTime)
    {
      var interaction := Interaction(now, provider, model, SerializeMessages(messages), response, NonEmpty(tools));
      var interactions := data.llmInteractions + [interaction];
      if Limited(maxInteractions) && |interactions| > maxInteractions.value {
        interactions := interactions[1..];
      }
      data := data.(llmInteractions := interactions);
      batchCount := batchCount + 1;
      MaybeSaveTrajectory();
    }

    /** `record_agent_step`: the step goes at the end (steps are never dropped),
        the counter ticks once, and a save happens when the batch is full. */
    method RecordAgentStep(stepNumber: int, state: string, llmMessages: Option<seq<Message>>,
      llmResponse: Option<R>, toolCalls: Option<seq<ToolCall>>, toolResults: Option<seq<ToolResult>>,
      reflection: Option<string>, error: Option<string>, now: int)
      requires Valid()
      modifies this
      ensures Valid()
      ensures |data.agentSteps| == |old(data).agentSteps| + 1
      ensures data == old(data).(agentSteps := old(data).agentSteps + [StepRecord(stepNumber, state, llmMessages,
        llmResponse, toolCalls, toolResults, reflection, error, now)])
      ensures batchCount == Tick(old(batchCount), batchSize)
      ensures saves == old(saves) + (if old(batchCount) + 1 >= batchSize then [data] else [])
      ensures file == (if old(batchCount) + 1 >= batchSize then AfterWrite(old(file), writeOutcome(|old(saves)|), data) else old(file))
      ensures startTime == old(startTime)
    {
      var step := StepRecord(stepNumber, state, llmMessages, llmResponse, toolCalls, toolResults, reflection, error, now);
      data := data.(agentSteps := data.agentSteps + [step]);
      batchCount := batchCount + 1;
      MaybeSaveTrajectory();
    }

    /** `finalize_recording`: records the outcome and end time, the elapsed time
        since the start (0 when recording never started), and always saves. */
    method FinalizeRecording(success: bool, finalResult: Option<string>, now: int)
      requires Valid()
      modifies this
      ensures Valid()
      ensures data == old(data).(endTime := Some(now), success := success, finalResult := finalResult,
        executionTime := ExecutionTime(old(startTime), now))
      ensures saves == old(saves) + [data]
      ensures file == AfterWrite(old(file), writeOutcome(|old(saves)|), data)
      ensures batchCount == old(batchCount) && startTime == old(startTime)
    {
      data := data.(endTime := Some(now), success := success, finalResult := finalResult,
        executionTime := if startTime.Some? then now - startTime.value else 0);
      SaveTrajectory();
    }

    /** `get_trajectory_path`. */
    method GetTrajectoryPath() returns (p: string)
      ensures p == trajectoryPath
    {
      p := trajectoryPath;
    }
  }

  /** The step record `record_agent_step` builds; empty lists become None. */
  function StepRecord<R>(stepNumber: int, state: string, llmMessages: Option<seq<Message>>,
    llmResponse: Option<R>, toolCalls: Option<seq<ToolCall>>, toolResults: Option<seq<ToolResult>>,
    reflection: Option<string>, error: Option<string>, now: int): (s: AgentStep<R>)
    ensures s.llmMessages.Some? <==> llmMessages.Some? && llmMessages.value != []
    ensures s.llmMessages.Some? ==> |s.llmMessages.value| == |llmMessages.value|
    ensures s.llmMessages.Some? ==> forall i :: 0 <= i < |llmMessages.value| ==>
      ParseMessage(s.llmMessages.value[i]) == Some(llmMessages.value[i])
    ensures s.toolCalls.Some? <==> toolCalls.Some? && toolCalls.value != []
    ensures s.toolCalls.Some? ==> |s.toolCalls.value| == |toolCalls.value|
    ensures s.toolCalls.Some? ==> forall i :: 0 <= i < |toolCalls.value| ==>
      ParseToolCall(s.toolCalls.value[i]) == Some(toolCalls.value[i])
    ensures s.toolResults.Some? <==> toolResults.Some? && toolResults.value != []
    ensures s.toolResults.Some? ==> |s.toolResults.value| == |toolResults.value|
    ensures s.toolResults.Some? ==> forall i :: 0 <= i < |toolResults.value| ==>
      ParseToolResult(s.toolResults.value[i]) == Some(toolResults.value[i])
    ensures s.stepNumber == stepNumber && s.state == state && s.timestamp == now
    ensures s.llmResponse == llmResponse && s.reflection == reflection && s.error == error
  {
    var messages := NonEmpty(llmMessages);
    var calls := NonEmpty(toolCalls);
    var results := NonEmpty(toolResults);
    AgentStep(stepNumber, now, state,
      if messages.Some? then Some(SerializeMessages(messages.value)) else None,
      llmResponse,
      if calls.Some? then Some(SerializeToolCalls(calls.value)) else None,
      if results.Some? then Some(SerializeToolResults(results.value)) else None,
      reflection, error)
  }

  /** The `execution_time` written at the end: elapsed seconds since the start, or
      0 when recording never started. */
  function ExecutionTime(startTime: Option<int>, now: int): (t: int)
    ensures startTime == None ==> t == 0
    ensures startTime.Some? ==> startTime.value + t == now
  {
    if startTime.Some? then now - startTime.value else 0
  }
}
