/**
 * Tool arguments are conserved: what a response sends to the block of a native tool call is what
 * the upstream sent for that call, however its name, id and arguments were fragmented.
 */
module OpenAIArguments {
  import opened Text
  import opened StreamContract
  import opened SseBuilder
  import opened OpenAIStream
  import opened OpenAIContract
  import ThinkParser

  // ----- what the fragments say -----

  function Init(calls: seq<ToolDelta>): seq<ToolDelta>
    requires calls != []
  {
    calls[..|calls| - 1]
  }

  function Last(calls: seq<ToolDelta>): ToolDelta
    requires calls != []
  {
    calls[|calls| - 1]
  }

  /** A fragment that carries nothing leaves no trace. */
  predicate Mentions(tc: ToolDelta) {
    tc.name.Some? || (tc.id.Some? && tc.id.value != "") || tc.arguments != ""
  }

  function Known(calls: seq<ToolDelta>): set<int>
    decreases |calls|, 0
  {
    if calls == [] then {}
    else Known(Init(calls)) + if Mentions(Last(calls)) then {Target(Init(calls), Last(calls))} else {}
  }

  /** A fragment with a negative index is for a new tool, numbered by how many are known. */
  function Target(before: seq<ToolDelta>, tc: ToolDelta): int
    decreases |before|, 1
  {
    if tc.index < 0 then |Known(before)| else tc.index
  }

  /** All the arguments received for tool k. */
  function Received(calls: seq<ToolDelta>, k: int): string {
    if calls == [] then ""
    else Received(Init(calls), k) + if Target(Init(calls), Last(calls)) == k then Last(calls).arguments else ""
  }

  /** The name that the fragments for tool k spell. */
  function Named(calls: seq<ToolDelta>, k: int): string {
    if calls == [] then ""
    else if Target(Init(calls), Last(calls)) == k && Last(calls).name.Some?
    then MergeName(Named(Init(calls), k), Last(calls).name.value)
    else Named(Init(calls), k)
  }

  /** Arguments that are passed on at once, and whether the tool's name is Task at that moment. */
  datatype Piece = Piece(args: string, task: bool)

  /** The pieces that a fragment passes on: what came before the name, when the name opens the block, and its own. */
  function NewPieces(received: string, name: string, name': string, args: string): seq<Piece> {
    (if IsBlank(name) then PieceOf(received, name') else []) + PieceOf(args, name')
  }

  function PieceOf(args: string, name: string): seq<Piece> {
    if args == "" || IsBlank(name) then [] else [Piece(args, name == "Task")]
  }

  /** All the pieces for tool k, in order. */
  function Pieces(calls: seq<ToolDelta>, k: int): seq<Piece> {
    if calls == [] then []
    else if Target(Init(calls), Last(calls)) != k then Pieces(Init(calls), k)
    else
      Pieces(Init(calls), k)
      + NewPieces(Received(Init(calls), k), Named(Init(calls), k), Named(calls, k), Last(calls).arguments)
  }

  ghost predicate NeverTask(calls: seq<ToolDelta>, k: int) {
    forall n | 0 <= n <= |calls| :: Named(calls[..n], k) != "Task"
  }

  /** The name is Task from the moment it is known. */
  ghost predicate AlwaysTask(calls: seq<ToolDelta>, k: int) {
    forall n | 0 <= n <= |calls| :: Named(calls[..n], k) == "" || Named(calls[..n], k) == "Task"
  }

  lemma Shorter(calls: seq<ToolDelta>, tc: ToolDelta, k: int)
    ensures Init(calls + [tc]) == calls && Last(calls + [tc]) == tc
    ensures NeverTask(calls + [tc], k) ==> NeverTask(calls, k) && Named(calls + [tc], k) != "Task"
    ensures AlwaysTask(calls + [tc], k) ==>
              AlwaysTask(calls, k) && (Named(calls + [tc], k) == "" || Named(calls + [tc], k) == "Task")
  {
    var all := calls + [tc];
    assert Init(all) == calls;
    assert all[..|all|] == all;
    forall n | 0 <= n <= |calls| ensures all[..n] == calls[..n] {
    }
  }

  // ----- what the pieces say -----

  function AllText(ps: seq<Piece>): string {
    if ps == [] then "" else AllText(ps[..|ps| - 1]) + ps[|ps| - 1].args
  }

  /** What was received while the name was Task. */
  function TaskText(ps: seq<Piece>): string {
    if ps == [] then "" else TaskText(ps[..|ps| - 1]) + if ps[|ps| - 1].task then ps[|ps| - 1].args else ""
  }

  /** What was received while it was not, piece by piece. */
  function Direct(ps: seq<Piece>): seq<string> {
    if ps == [] then [] else Direct(ps[..|ps| - 1]) + if ps[|ps| - 1].task then [] else [ps[|ps| - 1].args]
  }

  /** The texts that are tried for a task, in order. */
  function Tries(ps: seq<Piece>): seq<string> {
    if ps == [] then [] else Tries(ps[..|ps| - 1]) + if ps[|ps| - 1].task then [TaskText(ps)] else []
  }

  /** The first of these texts that parses, made to run in the foreground. */
  function Call(ps: seq<Piece>, codec: Codec): Option<string> {
    if ps == [] then None
    else if Call(ps[..|ps| - 1], codec).Some? then Call(ps[..|ps| - 1], codec)
    else if !ps[|ps| - 1].task then None
    else
      match codec.loads(TaskText(ps))
      case Some(Dictionary(entries)) => Some(codec.dumps(Foreground(entries)))
      case _ => None
  }

  /** The deltas that the pieces give rise to. */
  function Delivered(ps: seq<Piece>, codec: Codec): seq<string> {
    if ps == [] then []
    else
      var init, last := ps[..|ps| - 1], ps[|ps| - 1];
      Delivered(init, codec) +
      if !last.task then [last.args]
      else if Call(init, codec).None? && Call(ps, codec).Some? then [Call(ps, codec).value]
      else []
  }

  ghost predicate NoneParses(tries: seq<string>, codec: Codec) {
    forall i | 0 <= i < |tries| :: codec.loads(tries[i]).None?
  }

  /** The one delta of a task: the first text that parses, made to run in the foreground. */
  ghost predicate IsTaskCall(json: string, tries: seq<string>, codec: Codec) {
    exists n, entries ::
      && 0 <= n < |tries| && codec.loads(tries[n]) == Some(Dictionary(entries)) && NoneParses(tries[..n], codec)
      && json == codec.dumps(Foreground(entries))
  }

  lemma TaskCallStays(json: string, tries: seq<string>, more: seq<string>, codec: Codec)
    requires IsTaskCall(json, tries, codec)
    ensures IsTaskCall(json, tries + more, codec)
  {
    var n, entries :|
      && 0 <= n < |tries| && codec.loads(tries[n]) == Some(Dictionary(entries)) && NoneParses(tries[..n], codec)
      && json == codec.dumps(Foreground(entries));
    assert (tries + more)[n] == tries[n] && (tries + more)[..n] == tries[..n];
  }

  /** No text before the call, or no text at all, has parsed to anything. */
  ghost predicate Tidy(ps: seq<Piece>, codec: Codec) {
    if Call(ps, codec).None? then NoneParses(Tries(ps), codec) else IsTaskCall(Call(ps, codec).value, Tries(ps), codec)
  }

  lemma OneMorePiece(ps: seq<Piece>, p: Piece, codec: Codec)
    ensures AllText(ps + [p]) == AllText(ps) + p.args
    ensures TaskText(ps + [p]) == TaskText(ps) + (if p.task then p.args else "")
    ensures Direct(ps + [p]) == Direct(ps) + if p.task then [] else [p.args]
    ensures Tries(ps + [p]) == Tries(ps) + if p.task then [TaskText(ps + [p])] else []
    ensures (ps + [p])[..|ps|] == ps
  {
    assert (ps + [p])[..|ps + [p]| - 1] == ps;
  }

  lemma OneMoreCall(ps: seq<Piece>, p: Piece, codec: Codec)
    ensures Call(ps + [p], codec) ==
              if Call(ps, codec).Some? then Call(ps, codec)
              else if !p.task then None
              else
                match codec.loads(TaskText(ps + [p]))
                case Some(Dictionary(entries)) => Some(codec.dumps(Foreground(entries)))
                case _ => None
    ensures Delivered(ps + [p], codec) ==
              Delivered(ps, codec) +
              if !p.task then [p.args]
              else if Call(ps, codec).None? && Call(ps + [p], codec).Some? then [Call(ps + [p], codec).value]
              else []
  {
    assert (ps + [p])[..|ps + [p]| - 1] == ps;
  }

  /** A further piece keeps things tidy, unless its text parses to something that is not an object. */
  lemma OneMoreTidy(ps: seq<Piece>, p: Piece, codec: Codec)
    requires Tidy(ps, codec)
    requires p.task && Call(ps, codec).None? ==>
               var r := codec.loads(TaskText(ps + [p])); r.Some? ==> r.value.Dictionary?
    ensures Tidy(ps + [p], codec)
  {
    OneMorePiece(ps, p, codec);
    OneMoreCall(ps, p, codec);
    var tries, text := Tries(ps), TaskText(ps + [p]);
    if Call(ps, codec).Some? {
      TaskCallStays(Call(ps, codec).value, tries, if p.task then [text] else [], codec);
    } else if p.task {
      OneMoreTry(tries, text, codec);
    }
  }

  lemma OneMoreTry(tries: seq<string>, text: string, codec: Codec)
    requires NoneParses(tries, codec)
    ensures codec.loads(text).None? ==> NoneParses(tries + [text], codec)
    ensures codec.loads(text).Some? && codec.loads(text).value.Dictionary? ==>
              IsTaskCall(codec.dumps(Foreground(codec.loads(text).value.entries)), tries + [text], codec)
  {
    var all := tries + [text];
    assert all[|tries|] == text && all[..|tries|] == tries;
    if codec.loads(text).Some? && codec.loads(text).value.Dictionary? {
      assert codec.loads(all[|tries|]) == Some(Dictionary(codec.loads(text).value.entries));
    }
  }

  // ----- what the builder knows about one tool -----

  ghost predicate AllTold(t: ToolCall, ps: seq<Piece>, codec: Codec) {
    && Tidy(ps, codec)
    && t.contents == Delivered(ps, codec) && (t.taskArgsEmitted <==> Call(ps, codec).Some?)
    && t.taskArgBuffer == if Call(ps, codec).Some? then "" else TaskText(ps)
  }

  /** All pieces but those from the n-th on, where an exception was raised for one of a task. */
  ghost predicate ToldUpTo(t: ToolCall, ps: seq<Piece>, n: nat, codec: Codec) {
    n <= |ps| && t.contents == Delivered(ps[..n], codec) && Tidy(ps[..n], codec) && (n < |ps| ==> ps[n].task)
  }

  /** `settled` is false after an exception, when the last fragment may be half handled. */
  ghost predicate PiecesTold(t: ToolCall, ps: seq<Piece>, settled: bool, codec: Codec) {
    if settled then AllTold(t, ps, codec) else exists n :: ToldUpTo(t, ps, n, codec)
  }

  ghost predicate Told(t: ToolCall, name: string, received: string, ps: seq<Piece>, settled: bool, codec: Codec) {
    && t.name == name
    && (t.started <==> !IsBlank(name))
    && (!t.started ==>
          && t.contents == [] && t.preStartArgs == received && t.taskArgBuffer == "" && !t.taskArgsEmitted
          && ps == [])
    && (t.started ==> t.preStartArgs == "" && PiecesTold(t, ps, settled, codec))
  }

  ghost predicate ToldOf(b: Builder, calls: seq<ToolDelta>, k: int, settled: bool, codec: Codec) {
    Told(ToolOr(b, k), Named(calls, k), Received(calls, k), Pieces(calls, k), settled, codec)
  }

  ghost predicate Knows(b: Builder, calls: seq<ToolDelta>, settled: bool, codec: Codec) {
    b.tools.Keys == Known(calls) && forall k :: ToldOf(b, calls, k, settled, codec)
  }

  // ----- one fragment, seen from its tool -----

  lemma Unsettled(t: ToolCall, ps: seq<Piece>, codec: Codec)
    requires AllTold(t, ps, codec)
    ensures ToldUpTo(t, ps, |ps|, codec) && PiecesTold(t, ps, false, codec)
  {
    var n: nat := |ps|;
    assert ps[..n] == ps;
    assert ToldUpTo(t, ps, n, codec);
  }

  /** What `EmitToolArgDelta` does to the tool it is for. */
  lemma ArgTold(b: Builder, k: int, args: string, ps: seq<Piece>, codec: Codec)
    requires IsStarted(b, k) && !IsBlank(b.tools[k].name) && AllTold(b.tools[k], ps, codec)
    ensures var r := EmitToolArgDelta(b, k, args, codec);
            && k in r.b.tools && r.b.tools.Keys == b.tools.Keys
            && r.b.tools[k].name == b.tools[k].name && r.b.tools[k].started
            && r.b.tools[k].preStartArgs == b.tools[k].preStartArgs
            && PiecesTold(r.b.tools[k], ps + PieceOf(args, b.tools[k].name), !r.raised, codec)
  {
    ArgKeepsTool(b, k, args, codec);
    if args == "" {
      AppendNone(ps);
    } else if b.tools[k].name == "Task" {
      TaskArgTold(b, k, Piece(args, true), ps, codec);
    } else {
      DirectArgTold(b.tools[k], Piece(args, false), ps, codec);
    }
  }

  lemma ArgKeepsTool(b: Builder, k: int, args: string, codec: Codec)
    requires IsStarted(b, k)
    ensures var t, r := b.tools[k], EmitToolArgDelta(b, k, args, codec);
            && k in r.b.tools && r.b.tools.Keys == b.tools.Keys
            && r.b.tools[k].name == t.name && r.b.tools[k].started && r.b.tools[k].preStartArgs == t.preStartArgs
            && (args == "" ==> r.b.tools[k] == t && !r.raised)
            && (args != "" && t.name != "Task" ==> r.b.tools[k] == t.(contents := t.contents + [args]) && !r.raised)
  {
  }

  lemma DirectArgTold(t: ToolCall, p: Piece, ps: seq<Piece>, codec: Codec)
    requires AllTold(t, ps, codec) && !p.task
    ensures AllTold(t.(contents := t.contents + [p.args]), ps + [p], codec)
  {
    OneMorePiece(ps, p, codec);
    OneMoreCall(ps, p, codec);
    OneMoreTidy(ps, p, codec);
    AppendNone(TaskText(ps));
  }

  lemma TaskArgTold(b: Builder, k: int, p: Piece, ps: seq<Piece>, codec: Codec)
    requires IsStarted(b, k) && b.tools[k].name == "Task" && AllTold(b.tools[k], ps, codec) && p.task && p.args != ""
    ensures var r := EmitToolArgDelta(b, k, p.args, codec);
            PiecesTold(r.b.tools[k], ps + [p], !r.raised, codec)
  {
    var t := b.tools[k];
    var r := EmitToolArgDelta(b, k, p.args, codec);
    OneMorePiece(ps, p, codec);
    OneMoreCall(ps, p, codec);
    AppendNone(Delivered(ps, codec));
    if r.raised {
      assert ToldUpTo(r.b.tools[k], ps + [p], |ps|, codec);
    } else {
      OneMoreTidy(ps, p, codec);
    }
  }

  /** A name that is not blank never becomes blank. */
  lemma MergeKeepsInk(prev: string, name: string)
    requires !IsBlank(prev)
    ensures !IsBlank(MergeName(prev, name))
  {
    var i :| 0 <= i < |prev| && !IsSpace(prev[i]);
    assert MergeName(prev, name)[i] == prev[i];
  }

  lemma RecordedTool(b: Builder, k: int, tc: ToolDelta)
    ensures var b1 := Recorded(b, k, tc); var t, t1 := ToolOr(b, k), ToolOr(b1, k);
            && t1 == t.(toolId := t1.toolId, name := if tc.name.Some? then MergeName(t.name, tc.name.value) else t.name)
            && b1.tools.Keys == b.tools.Keys + (if tc.name.Some? || (tc.id.Some? && tc.id.value != "") then {k} else {})
            && (forall j | j != k :: ToolOr(b1, j) == ToolOr(b, j))
  {
  }

  /** The tool itself after one fragment; `received`, `name` and `ps` are what was known before it. */
  lemma OwnFragment(b: Builder, tc: ToolDelta, received: string, name: string, ps: seq<Piece>, codec: Codec)
    requires var k := Resolve(b, tc); Told(ToolOr(b, k), name, received, ps, true, codec)
    ensures var k := Resolve(b, tc); var r := ProcessToolCall(b, tc, codec);
            var name' := if tc.name.Some? then MergeName(name, tc.name.value) else name;
            Told(ToolOr(r.b, k), name', received + tc.arguments, ps + NewPieces(received, name, name', tc.arguments),
                 !r.raised, codec)
  {
    var k := Resolve(b, tc);
    var b1 := Recorded(b, k, tc);
    var name' := if tc.name.Some? then MergeName(name, tc.name.value) else name;
    RecordedTool(b, k, tc);
    var t1 := ToolOr(b1, k);
    assert t1.name == name';
    if tc.name.Some? && !IsBlank(name) {
      MergeKeepsInk(name, tc.name.value);
    }
    if IsBlank(name') {
      BlankFragment(b1, k, tc, received, codec);
      AppendNone(ps);
    } else if t1.started {
      assert AllTold(t1, ps, codec);
      StartedFragment(b1, k, tc, ps, codec);
      AppendNone(PieceOf(tc.arguments, name'));
    } else {
      OpeningFragment(b1, k, tc, received, codec);
      AppendNone(NewPieces(received, name, name', tc.arguments));
    }
  }

  /** Without a name, the arguments are kept. */
  lemma BlankFragment(b1: Builder, k: int, tc: ToolDelta, received: string, codec: Codec)
    requires var t := ToolOr(b1, k); IsBlank(t.name) && !t.started && t.preStartArgs == received
    ensures Opened(b1, k, tc, codec) == Emitted(b1, [], false)
    ensures var r := Argued(b1, k, ToolOr(b1, k).name, tc.arguments, codec);
            && !r.raised && r.out == [] && ToolOr(r.b, k) == ToolOr(b1, k).(preStartArgs := received + tc.arguments)
            && r.b.tools.Keys == b1.tools.Keys + if tc.arguments != "" then {k} else {}
  {
    assert received + "" == received;
  }

  /** A fragment for a tool whose block is open. */
  lemma StartedFragment(b1: Builder, k: int, tc: ToolDelta, ps: seq<Piece>, codec: Codec)
    requires IsStarted(b1, k) && !IsBlank(b1.tools[k].name) && AllTold(b1.tools[k], ps, codec)
    ensures Opened(b1, k, tc, codec) == Emitted(b1, [], false)
    ensures var r := Argued(b1, k, b1.tools[k].name, tc.arguments, codec);
            && k in r.b.tools && r.b.tools.Keys == b1.tools.Keys
            && r.b.tools[k].name == b1.tools[k].name && r.b.tools[k].started
            && r.b.tools[k].preStartArgs == b1.tools[k].preStartArgs
            && PiecesTold(r.b.tools[k], ps + PieceOf(tc.arguments, b1.tools[k].name), !r.raised, codec)
  {
    ArgTold(b1, k, tc.arguments, ps, codec);
    if tc.arguments == "" {
      AppendNone(ps);
    }
  }

  /** The fragment that completes the name opens the block and sends what was kept. */
  lemma OpeningFragment(b1: Builder, k: int, tc: ToolDelta, received: string, codec: Codec)
    requires k in b1.tools && !b1.tools[k].started && !IsBlank(b1.tools[k].name)
    requires var t := b1.tools[k];
             t.contents == [] && t.preStartArgs == received && t.taskArgBuffer == "" && !t.taskArgsEmitted
    ensures var r := Opened(b1, k, tc, codec); var name := b1.tools[k].name;
            var ps := NewPieces(received, "", name, tc.arguments);
            && k in r.b.tools && r.b.tools.Keys == b1.tools.Keys
            && if r.raised then Told(r.b.tools[k], name, received + tc.arguments, ps, false, codec)
               else
                 var q := Argued(r.b, k, name, tc.arguments, codec);
                 k in q.b.tools && q.b.tools.Keys == b1.tools.Keys
                 && Told(q.b.tools[k], name, received + tc.arguments, ps, !q.raised, codec)
  {
    var name := b1.tools[k].name;
    var b2 := StartToolBlock(b1, k, ResolvedId(b1, k, tc), Strip(name)).0;
    if received == "" {
      assert Opened(b1, k, tc, codec).b == b2;
      assert AllTold(b2.tools[k], [], codec);
      StartedFragment(b2, k, tc, [], codec);
      AppendNone(tc.arguments);
    } else {
      var b3 := PutTool(b2, k, b2.tools[k].(preStartArgs := ""));
      KeptFragment(b3, k, received, codec);
      OpenedWithArgs(b3, EmitToolArgDelta(b3, k, received, codec), k, tc, received, codec);
    }
  }

  lemma OpenedWithArgs(b3: Builder, r: Emitted, k: int, tc: ToolDelta, received: string, codec: Codec)
    requires k in b3.tools && !IsBlank(b3.tools[k].name) && k in r.b.tools && received != ""
    requires var t, t' := b3.tools[k], r.b.tools[k];
             && t'.name == t.name && t'.started && t'.preStartArgs == ""
             && if r.raised then t.name == "Task" && t'.contents == []
                else AllTold(t', PieceOf(received, t.name), codec)
    ensures var name := b3.tools[k].name;
            var ps := NewPieces(received, "", name, tc.arguments);
            if r.raised then Told(r.b.tools[k], name, received + tc.arguments, ps, false, codec)
            else
              var q := Argued(r.b, k, name, tc.arguments, codec);
              k in q.b.tools && q.b.tools.Keys == r.b.tools.Keys
              && Told(q.b.tools[k], name, received + tc.arguments, ps, !q.raised, codec)
  {
    var name := b3.tools[k].name;
    var first, more := PieceOf(received, name), PieceOf(tc.arguments, name);
    if r.raised {
      assert ToldUpTo(r.b.tools[k], first + more, 0, codec);
    } else {
      StartedFragment(r.b, k, tc, first, codec);
    }
  }

  /** What was kept is sent when the block is opened. */
  lemma KeptFragment(b: Builder, k: int, received: string, codec: Codec)
    requires IsStarted(b, k) && !IsBlank(b.tools[k].name) && received != ""
    requires AllTold(b.tools[k], [], codec)
    ensures var t, r := b.tools[k], EmitToolArgDelta(b, k, received, codec);
            && k in r.b.tools && r.b.tools.Keys == b.tools.Keys
            && r.b.tools[k].name == t.name && r.b.tools[k].started && r.b.tools[k].preStartArgs == t.preStartArgs
            && if r.raised then t.name == "Task" && r.b.tools[k].contents == []
               else AllTold(r.b.tools[k], PieceOf(received, t.name), codec)
  {
    ArgTold(b, k, received, [], codec);
    AppendNone(PieceOf(received, b.tools[k].name));
    if EmitToolArgDelta(b, k, received, codec).raised {
      RaisedTask(b, k, received, codec);
    }
  }

  /** Only a task raises, and it then has sent nothing. */
  lemma RaisedTask(b: Builder, k: int, args: string, codec: Codec)
    requires IsStarted(b, k) && EmitToolArgDelta(b, k, args, codec).raised
    ensures b.tools[k].name == "Task"
    ensures var t := EmitToolArgDelta(b, k, args, codec).b.tools[k];
            t.contents == b.tools[k].contents && !t.taskArgsEmitted
  {
  }

  /** A fragment changes no other tool, and makes its own tool known unless it says nothing. */
  lemma OtherTools(b: Builder, tc: ToolDelta, codec: Codec)
    ensures var k := Resolve(b, tc); var r := ProcessToolCall(b, tc, codec);
            && (forall j | j != k :: ToolOr(r.b, j) == ToolOr(b, j))
            && r.b.tools.Keys ==
                 b.tools.Keys + if Mentions(tc) || IsStarted(b, k) || !IsBlank(ToolOr(b, k).name) then {k} else {}
  {
    var k := Resolve(b, tc);
    var b1 := Recorded(b, k, tc);
    RecordedTool(b, k, tc);
    var r := Opened(b1, k, tc, codec);
    OpenedTools(b1, k, tc, codec);
    if !r.raised {
      ArguedTools(r.b, k, ToolOr(b1, k).name, tc.arguments, codec);
    }
  }

  lemma OpenedTools(b1: Builder, k: int, tc: ToolDelta, codec: Codec)
    ensures var r := Opened(b1, k, tc, codec);
            && (forall j | j != k :: ToolOr(r.b, j) == ToolOr(b1, j)) && r.b.tools.Keys == b1.tools.Keys
            && (r.raised ==> k in b1.tools)
  {
    if !IsStarted(b1, k) && !IsBlank(ToolOr(b1, k).name) {
      var b2 := StartToolBlock(b1, k, ResolvedId(b1, k, tc), Strip(ToolOr(b1, k).name)).0;
      var b3 := PutTool(b2, k, b2.tools[k].(preStartArgs := ""));
      ArgTools(b3, k, b2.tools[k].preStartArgs, codec);
    }
  }

  lemma ArgTools(b: Builder, k: int, args: string, codec: Codec)
    ensures var r := EmitToolArgDelta(b, k, args, codec);
            (forall j | j != k :: ToolOr(r.b, j) == ToolOr(b, j)) && r.b.tools.Keys == b.tools.Keys
  {
  }

  lemma ArguedTools(b: Builder, k: int, name: string, args: string, codec: Codec)
    ensures var r := Argued(b, k, name, args, codec);
            && (forall j | j != k :: ToolOr(r.b, j) == ToolOr(b, j))
            && r.b.tools.Keys == b.tools.Keys + if args != "" then {k} else {}
  {
    ArgTools(EnsureToolState(b, k), k, args, codec);
    ArgTools(b, k, args, codec);
  }

  /** A fragment for another tool says nothing about tool j. */
  lemma OtherFragment(b: Builder, b': Builder, calls: seq<ToolDelta>, tc: ToolDelta, j: int, codec: Codec)
    requires ToldOf(b, calls, j, true, codec) && ToolOr(b', j) == ToolOr(b, j) && Target(calls, tc) != j
    ensures ToldOf(b', calls + [tc], j, true, codec)
  {
    Shorter(calls, tc, j);
    assert Received(calls, j) + "" == Received(calls, j);
  }

  lemma OwnTold(b: Builder, calls: seq<ToolDelta>, tc: ToolDelta, codec: Codec)
    requires Knows(b, calls, true, codec)
    ensures var r := ProcessToolCall(b, tc, codec);
            Target(calls, tc) == Resolve(b, tc) && ToldOf(r.b, calls + [tc], Resolve(b, tc), !r.raised, codec)
  {
    var k := Resolve(b, tc);
    assert |b.tools| == |b.tools.Keys|;
    Shorter(calls, tc, k);
    assert ToldOf(b, calls, k, true, codec);
    assert calls[..|calls|] == calls;
    OwnFragment(b, tc, Received(calls, k), Named(calls, k), Pieces(calls, k), codec);
  }

  lemma Settle(b: Builder, calls: seq<ToolDelta>, k: int, codec: Codec)
    requires ToldOf(b, calls, k, true, codec)
    ensures ToldOf(b, calls, k, false, codec)
  {
    if ToolOr(b, k).started {
      Unsettled(ToolOr(b, k), Pieces(calls, k), codec);
    }
  }

  lemma SettleAll(b: Builder, calls: seq<ToolDelta>, codec: Codec)
    ensures Knows(b, calls, true, codec) ==> Knows(b, calls, false, codec)
  {
    if Knows(b, calls, true, codec) {
      forall k ensures ToldOf(b, calls, k, false, codec) {
        assert ToldOf(b, calls, k, true, codec);
        Settle(b, calls, k, codec);
      }
    }
  }

  lemma OneMore(b: Builder, calls: seq<ToolDelta>, tc: ToolDelta, codec: Codec)
    requires Knows(b, calls, true, codec)
    ensures var r := ProcessToolCall(b, tc, codec);
            Knows(r.b, calls + [tc], !r.raised, codec)
  {
    var r := ProcessToolCall(b, tc, codec);
    OneMoreKnown(b, calls, tc, codec);
    OneMoreTold(b, calls, tc, r, !r.raised, codec);
  }

  lemma OneMoreTold(b: Builder, calls: seq<ToolDelta>, tc: ToolDelta, r: Emitted, settled: bool, codec: Codec)
    requires Knows(b, calls, true, codec)
    requires r == ProcessToolCall(b, tc, codec) && settled == !r.raised
    ensures forall j :: ToldOf(r.b, calls + [tc], j, settled, codec)
  {
    OtherTools(b, tc, codec);
    OwnTold(b, calls, tc, codec);
    forall j ensures ToldOf(r.b, calls + [tc], j, settled, codec) {
      if j != Resolve(b, tc) {
        assert ToldOf(b, calls, j, true, codec);
        OtherFragment(b, r.b, calls, tc, j, codec);
        Settle(r.b, calls + [tc], j, codec);
      }
    }
  }

  lemma OneMoreKnown(b: Builder, calls: seq<ToolDelta>, tc: ToolDelta, codec: Codec)
    requires Knows(b, calls, true, codec)
    ensures ProcessToolCall(b, tc, codec).b.tools.Keys == Known(calls + [tc])
  {
    var k := Resolve(b, tc);
    OtherTools(b, tc, codec);
    assert |b.tools| == |b.tools.Keys|;
    Shorter(calls, tc, k);
    assert ToldOf(b, calls, k, true, codec);
    NamedIsKnown(calls, k);
  }

  /** A tool whose name is not empty is known. */
  lemma {:induction false} NamedIsKnown(calls: seq<ToolDelta>, k: int)
    ensures Named(calls, k) != "" ==> k in Known(calls)
    decreases |calls|
  {
    if calls != [] {
      NamedIsKnown(Init(calls), k);
    }
  }

  // ----- whole runs -----

  lemma {:induction false} CallsTold(b: Builder, calls: seq<ToolDelta>, tcs: seq<ToolDelta>, codec: Codec)
    returns (handled: seq<ToolDelta>)
    requires Knows(b, calls, true, codec)
    ensures var r := ProcessToolCalls(b, tcs, codec);
            && handled <= tcs && (!r.raised ==> handled == tcs)
            && Knows(r.b, calls + handled, !r.raised, codec)
    decreases |tcs|
  {
    if tcs == [] {
      handled := [];
      assert calls + [] == calls;
    } else {
      OneMore(b, calls, tcs[0], codec);
      handled := [tcs[0]];
      var r := ProcessToolCall(b, tcs[0], codec);
      if !r.raised {
        var rest := CallsTold(r.b, calls + [tcs[0]], tcs[1..], codec);
        Assoc(calls, [tcs[0]], rest);
        assert tcs == [tcs[0]] + tcs[1..];
        PrefixJoin([tcs[0]], rest, tcs[1..]);
        handled := handled + rest;
      }
    }
  }

  lemma {:induction false} PartsKeepTools(s: Stream, parts: seq<ThinkParser.Chunk>, cfg: Config)
    ensures Parts(s, parts, cfg).0.b.tools == s.b.tools
    decreases |parts|
  {
    if parts != [] {
      if parts[0].kind.TEXT? {
        var (filtered, tools) := cfg.heuristic.feed(s.fed + [parts[0].content]);
        HeuristicKeepsTools(if filtered != "" then Say(s.b, filtered).0 else s.b, tools, cfg.codec);
      }
      PartsKeepTools(Part(s, parts[0], cfg).0, parts[1..], cfg);
    }
  }

  function CallsOf(chunks: seq<Chunk>): seq<ToolDelta> {
    if chunks == [] then []
    else (if chunks[0].Turn? then chunks[0].toolCalls else []) + CallsOf(chunks[1..])
  }

  lemma SameTools(b: Builder, b': Builder, calls: seq<ToolDelta>, codec: Codec)
    requires Knows(b, calls, true, codec) && b'.tools == b.tools
    ensures Knows(b', calls, true, codec)
  {
    forall k ensures ToldOf(b', calls, k, true, codec) {
      assert ToldOf(b, calls, k, true, codec);
    }
  }

  lemma ChunkTold(s: Stream, calls: seq<ToolDelta>, chunk: Chunk, cfg: Config) returns (handled: seq<ToolDelta>)
    requires Knows(s.b, calls, true, cfg.codec)
    ensures var r := OneChunk(s, chunk, cfg);
            && handled <= CallsOf([chunk]) && (!r.raised ==> handled == CallsOf([chunk]))
            && Knows(r.s.b, calls + handled, !r.raised, cfg.codec)
  {
    assert CallsOf([chunk]) == (if chunk.Turn? then chunk.toolCalls else []) + [];
    handled := [];
    assert calls + handled == calls;
    if chunk.Turn? {
      var b1 := Reason(s.b, chunk.reasoning, cfg.thinking).0;
      var s1 := s.(b := b1);
      var s2 := FeedContent(s1, chunk.content, cfg).0;
      if chunk.content != "" {
        var (parser, parts) := ThinkParser.Feed(s1.parser, chunk.content);
        PartsKeepTools(s1.(parser := parser), parts, cfg);
      }
      SameTools(s.b, s2.b, calls, cfg.codec);
      if chunk.toolCalls != [] {
        var b3 := CloseContentBlocks(s2.b).0;
        SameTools(s2.b, b3, calls, cfg.codec);
        handled := CallsTold(b3, calls, chunk.toolCalls, cfg.codec);
      }
      if chunk.breaks {
        SettleAll(OneChunk(s, chunk, cfg).s.b, calls + handled, cfg.codec);
      }
    }
  }

  lemma CallsFirst(chunks: seq<Chunk>)
    requires chunks != []
    ensures CallsOf(chunks) == CallsOf([chunks[0]]) + CallsOf(chunks[1..])
  {
    assert [chunks[0]][1..] == [];
    AppendNone(if chunks[0].Turn? then chunks[0].toolCalls else []);
  }

  lemma PrefixJoin<T>(first: seq<T>, rest: seq<T>, more: seq<T>)
    requires rest <= more
    ensures first + rest <= first + more
  {
  }

  lemma {:induction false} LoopTold(s: Stream, calls: seq<ToolDelta>, chunks: seq<Chunk>, cfg: Config)
    returns (handled: seq<ToolDelta>)
    requires Knows(s.b, calls, true, cfg.codec)
    ensures handled <= CallsOf(chunks) && (!Loop(s, chunks, cfg).raised ==> handled == CallsOf(chunks))
    ensures Knows(Loop(s, chunks, cfg).s.b, calls + handled, !Loop(s, chunks, cfg).raised, cfg.codec)
    decreases |chunks|
  {
    if chunks == [] {
      handled := [];
      assert calls + [] == calls;
    } else {
      CallsFirst(chunks);
      handled := ChunkTold(s, calls, chunks[0], cfg);
      var r := OneChunk(s, chunks[0], cfg);
      if !r.raised {
        var rest := LoopTold(r.s, calls + handled, chunks[1..], cfg);
        Assoc(calls, handled, rest);
        PrefixJoin(handled, rest, CallsOf(chunks[1..]));
        handled := handled + rest;
      }
    }
  }

  lemma NothingKnown(codec: Codec)
    ensures Knows(EMPTY, [], true, codec)
  {
  }

  // ----- the endings -----

  /** The "{}" that the final flush adds for tool k. */
  function FlushedFor(results: seq<(int, string)>, k: int): seq<string> {
    if results == [] then []
    else (if results[0].0 == k then [results[0].1] else []) + FlushedFor(results[1..], k)
  }

  predicate Unsent(b: Builder, k: int) {
    k in b.tools && NeedsFlush(b.tools[k])
  }

  /** The flush changes no contents, and returns an empty object for each unsent key. */
  ghost predicate FlushedAs(b: Builder, keys: seq<int>, b': Builder, results: seq<(int, string)>) {
    && b'.tools.Keys == b.tools.Keys
    && (forall k :: SameSent(b, b', k))
    && (forall p | p in results :: p.0 in b.tools)
    && (forall k :: FlushedFor(results, k) == if k in keys && Unsent(b, k) then ["{}"] else [])
  }

  predicate SameSent(b: Builder, b': Builder, k: int) {
    ToolOr(b', k).contents == ToolOr(b, k).contents && Slot(b', k) == Slot(b, k)
  }

  lemma {:induction false} FlushOnce(b: Builder, keys: seq<int>, codec: Codec)
    requires Sane(b, codec) && Distinct(keys)
    ensures var r := FlushTaskArgBuffers(b, keys, codec); r.Some? ==> FlushedAs(b, keys, r.value.0, r.value.1)
    decreases |keys|
  {
    if keys != [] {
      var k, rest := keys[0], keys[1..];
      assert keys == [k] + rest && k !in rest;
      if Unsent(b, k) {
        FlushTurn(b, keys, codec);
        FlushOnce(Emptied(b, k), rest, codec);
        var r := FlushTaskArgBuffers(Emptied(b, k), rest, codec);
        if r.Some? {
          FlushedFirst(b, k, rest, r.value.0, r.value.1);
        }
      } else {
        FlushOnce(b, rest, codec);
        var r := FlushTaskArgBuffers(b, rest, codec);
        if r.Some? {
          FlushedLater(b, k, rest, r.value.0, r.value.1);
        }
      }
    }
  }

  lemma FlushedFirst(b: Builder, k: int, rest: seq<int>, b': Builder, results: seq<(int, string)>)
    requires Unsent(b, k) && k !in rest && FlushedAs(Emptied(b, k), rest, b', results)
    ensures FlushedAs(b, [k] + rest, b', [(k, "{}")] + results)
  {
    forall j ensures SameSent(b, b', j) {
      assert SameSent(Emptied(b, k), b', j);
    }
    AppendTail([(k, "{}")], results);
    forall j ensures FlushedFor([(k, "{}")] + results, j) == if j in [k] + rest && Unsent(b, j) then ["{}"] else [] {
      AppendNone(FlushedFor(results, j));
      AppendNone(["{}"]);
      assert j != k ==> (Unsent(Emptied(b, k), j) <==> Unsent(b, j));
    }
  }

  lemma FlushedLater(b: Builder, k: int, rest: seq<int>, b': Builder, results: seq<(int, string)>)
    requires !Unsent(b, k) && FlushedAs(b, rest, b', results)
    ensures FlushedAs(b, [k] + rest, b', results)
  {
  }

  lemma {:induction false} DeltasRecorded(b: Builder, results: seq<(int, string)>, k: int)
    requires forall p | p in results :: p.0 in b.tools
    ensures ToolOr(ToolDeltas(b, results).0, k).contents == ToolOr(b, k).contents + FlushedFor(results, k)
    ensures Slot(ToolDeltas(b, results).0, k) == Slot(b, k)
    decreases |results|
  {
    if results == [] {
      assert ToolOr(b, k).contents + [] == ToolOr(b, k).contents;
    } else {
      assert results[0] in results;
      var b1 := EmitToolDelta(b, results[0].0, results[0].1).0;
      DeltasRecorded(b1, results[1..], k);
      Assoc(ToolOr(b, k).contents, if results[0].0 == k then [results[0].1] else [], FlushedFor(results[1..], k));
      assert ToolOr(b1, k).contents == ToolOr(b, k).contents + if results[0].0 == k then [results[0].1] else [];
    }
  }

  /**
   * The normal ending sends a tool nothing, except an empty object to one with arguments that never
   * parsed, and not even that if the flush raises.
   */
  lemma BeforeCloseTold(c: Check, s: Stream, cfg: Config, k: int)
    requires Mirrors(c, s.b) && Sane(s.b, cfg.codec)
    ensures var q := BeforeClose(s, cfg);
            && ToolOr(q.b, k).contents == ToolOr(s.b, k).contents + (if !q.raised && Unsent(s.b, k) then ["{}"] else [])
            && Slot(q.b, k) == Slot(s.b, k)
  {
    var b3 := Padded(s, cfg);
    PaddedReaches(c, s, cfg);
    AppendNone(ToolOr(b3, k).contents);
    FlushOnce(b3, b3.order, cfg.codec);
    var r := FlushTaskArgBuffers(b3, b3.order, cfg.codec);
    if r.Some? {
      assert SameSent(b3, r.value.0, k);
      DeltasRecorded(r.value.0, r.value.1, k);
      assert BeforeClose(s, cfg).b == ToolDeltas(r.value.0, r.value.1).0;
    }
  }

  lemma {:induction false} StopsSendNothing(tools: map<int, ToolCall>, keys: seq<int>, x: int)
    ensures DeltasAt(ToolStops(tools, keys), x) == []
  {
    if keys != [] {
      var first := if keys[0] in tools && tools[keys[0]].started then [BlockStop(tools[keys[0]].blockIndex)] else [];
      StopsSendNothing(tools, keys[1..], x);
      DeltasAtAppend(first, ToolStops(tools, keys[1..]), x);
      if first != [] {
        DeltasSingle(first[0], x, "");
      }
    }
  }

  lemma CloseSendsNothing(b: Builder, x: int)
    ensures DeltasAt(CloseAllBlocks(b).1, x) == []
  {
    var (b1, out1) := if b.thinkingStarted then StopThinkingBlock(b) else (b, []);
    var (b2, out2) := if b1.textStarted then StopTextBlock(b1) else (b1, []);
    if out1 != [] {
      DeltasSingle(out1[0], x, "");
    }
    if out2 != [] {
      DeltasSingle(out2[0], x, "");
    }
    DeltasAtAppend(out1, out2, x);
    StopsSendNothing(b2.tools, b2.order, x);
    DeltasAtAppend(out1 + out2, ToolStops(b2.tools, b2.order), x);
  }

  lemma TailSendsNothing(reason: string, tokens: int, x: int)
    ensures DeltasAt(Tail(reason, tokens), x) == []
  {
    DeltasSingle(MessageDelta(reason, tokens), x, "");
    DeltasSingle(MessageStop, x, "");
    DeltasAtAppend([MessageDelta(reason, tokens)], [MessageStop], x);
    assert Tail(reason, tokens) == [MessageDelta(reason, tokens)] + [MessageStop];
  }

  /** The failure ending sends nothing to a block that was handed out before it. */
  lemma FailureSendsNothing(b: Builder, message: string, x: int)
    requires x < b.nextIndex
    ensures DeltasAt(FailureEnding(b, message), x) == []
  {
    var (b1, out) := CloseAllBlocks(b);
    CloseSendsNothing(b, x);
    TailSendsNothing("end_turn", 1, x);
    ErrorSendsNothing(b1.nextIndex, message, x);
    var middle := if HasEmittedToolBlock(b1) then [Error(message)] else ErrorBlock(b1.nextIndex, message);
    DeltasAtAppend(out, middle, x);
    DeltasAtAppend(out + middle, Tail("end_turn", 1), x);
  }

  lemma ErrorSendsNothing(n: int, message: string, x: int)
    requires x != n
    ensures DeltasAt([Error(message)], x) == [] && DeltasAt(ErrorBlock(n, message), x) == []
  {
    DeltasSingle(Error(message), x, "");
    var t := BlockDelta(n, Delta("text_delta", message));
    MiddleDelta(BlockStart(n, TEXT_BLOCK), t, BlockStop(n), x, "");
    DeltasSingle(t, x, "");
  }

  // ----- the theorems -----

  /** The builder after all chunks, and the block that it gave to tool k. */
  function After(chunks: seq<Chunk>, cfg: Config): Looped {
    Loop(FRESH, chunks, cfg)
  }

  /** The response does not fail, and its final flush does not raise. */
  ghost predicate Normal(chunks: seq<Chunk>, fails: bool, cfg: Config) {
    !fails && !After(chunks, cfg).raised && !FlushRaises(After(chunks, cfg).s.b, cfg.codec)
  }

  ghost predicate ToolStart(out: seq<Event>, x: int) {
    exists j :: StartAt(out, j, x) && out[j].block.kind == "tool_use"
  }

  lemma SentByLoop(start: Event, chunks: seq<Chunk>, cfg: Config, k: int)
    requires start.MessageStart? && IsStarted(After(chunks, cfg).s.b, k)
    ensures var r := After(chunks, cfg);
            && Slot(r.s.b, k) < r.s.b.nextIndex
            && DeltasAt([start] + r.out, Slot(r.s.b, k)) == ToolOr(r.s.b, k).contents
  {
    var r := After(chunks, cfg);
    var x := Slot(r.s.b, k);
    EmptyMirrors(cfg.codec);
    LoopReaches(START, FRESH, chunks, cfg);
    assert Holds(r.s.b, Tool(k), x);
    assert ToolSent(EMPTY, r.out, r.s.b, k);
    AppendNone(DeltasAt(r.out, x));
    DeltasSingle(start, x, "");
    DeltasAtAppend([start], r.out, x);
  }

  lemma EndSendsNothing(b: Builder, chunks: seq<Chunk>, cfg: Config, x: int)
    ensures DeltasAt(Ending(b, chunks, cfg), x) == []
  {
    var (b1, out) := CloseAllBlocks(b);
    CloseSendsNothing(b, x);
    if Tokens(b1, chunks, cfg).Some? {
      var reason, tokens := MapStopReason(FinishReason(chunks)), Tokens(b1, chunks, cfg).value;
      TailSendsNothing(reason, tokens, x);
      DeltasAtAppend(out, Tail(reason, tokens), x);
    }
  }

  lemma Cancel(a: seq<string>, b: seq<string>, c: seq<string>)
    requires a + b == a + c
    ensures b == c
  {
    assert b == (a + b)[|a|..] == (a + c)[|a|..] == c;
  }

  lemma SentBeforeClose(c: Check, s: Stream, cfg: Config, k: int)
    requires Mirrors(c, s.b) && Sane(s.b, cfg.codec) && IsStarted(s.b, k)
    ensures DeltasAt(BeforeClose(s, cfg).out, Slot(s.b, k)) ==
              if !FlushRaises(s.b, cfg.codec) && Unsent(s.b, k) then ["{}"] else []
  {
    BeforeCloseReaches(c, s, cfg);
    BeforeCloseTold(c, s, cfg, k);
    var out, b' := BeforeClose(s, cfg).out, BeforeClose(s, cfg).b;
    SentOnTop(s.b, out, b', k);
    Cancel(ToolOr(s.b, k).contents, DeltasAt(out, Slot(s.b, k)),
           if !BeforeClose(s, cfg).raised && Unsent(s.b, k) then ["{}"] else []);
  }

  /** What the whole response sends to the block of tool k: what the builder recorded, and the flush. */
  lemma SentInResponse(start: Event, chunks: seq<Chunk>, fails: bool, message: string, cfg: Config,
                       k: int)
    requires start.MessageStart? && IsStarted(After(chunks, cfg).s.b, k)
    ensures var b := After(chunks, cfg).s.b;
            DeltasAt(Response(start, chunks, fails, message, cfg), Slot(b, k)) ==
              if Normal(chunks, fails, cfg) && Unsent(b, k) then ToolOr(b, k).contents + ["{}"]
              else ToolOr(b, k).contents
  {
    var r := After(chunks, cfg);
    var x := Slot(r.s.b, k);
    ResponseShape(start, chunks, fails, message, cfg);
    SentByLoop(start, chunks, cfg, k);
    if !fails && !r.raised {
      var q := BeforeClose(r.s, cfg);
      SentBeforeEnd(chunks, cfg, k);
      EndSendsNothing(q.b, chunks, cfg, x);
      JoinDeltas([start] + r.out, q.out, if q.raised then [] else Ending(q.b, chunks, cfg), x);
    } else {
      FailureSendsNothing(r.s.b, message, x);
      JoinDeltas([start] + r.out, [], FailureEnding(r.s.b, message), x);
      AppendNone([start] + r.out);
    }
  }

  lemma SentBeforeEnd(chunks: seq<Chunk>, cfg: Config, k: int)
    requires !After(chunks, cfg).raised && IsStarted(After(chunks, cfg).s.b, k)
    ensures var s := After(chunks, cfg).s;
            DeltasAt(BeforeClose(s, cfg).out, Slot(s.b, k)) ==
              if !FlushRaises(s.b, cfg.codec) && Unsent(s.b, k) then ["{}"] else []
  {
    EmptyMirrors(cfg.codec);
    LoopReaches(START, FRESH, chunks, cfg);
    SentBeforeClose(Run(START, After(chunks, cfg).out).value, After(chunks, cfg).s, cfg, k);
  }

  lemma JoinDeltas(a: seq<Event>, b: seq<Event>, c: seq<Event>, x: int)
    requires DeltasAt(c, x) == []
    ensures DeltasAt(a + b + c, x) == DeltasAt(a, x) + DeltasAt(b, x)
    ensures DeltasAt(b, x) == [] ==> DeltasAt(a + b + c, x) == DeltasAt(a, x)
  {
    DeltasAtAppend(a + b, c, x);
    DeltasAtAppend(a, b, x);
    AppendNone(DeltasAt(a, x) + DeltasAt(b, x));
    AppendNone(DeltasAt(a, x));
  }

  lemma SentOnTop(b: Builder, out: seq<Event>, b': Builder, k: int)
    requires Delivers(b, out, b') && IsStarted(b, k)
    ensures ToolOr(b', k).contents == ToolOr(b, k).contents + DeltasAt(out, Slot(b, k))
  {
    assert ToolSent(b, out, b', k);
  }

  /** The block of a started tool is announced as a tool block. */
  lemma Announced(start: Event, chunks: seq<Chunk>, fails: bool, message: string, cfg: Config, k: int)
    requires start.MessageStart? && IsStarted(After(chunks, cfg).s.b, k)
    ensures ToolStart(Response(start, chunks, fails, message, cfg), Slot(After(chunks, cfg).s.b, k))
  {
    var r := After(chunks, cfg);
    var x := Slot(r.s.b, k);
    EmptyMirrors(cfg.codec);
    LoopReaches(START, FRESH, chunks, cfg);
    RunMeansLegal(r.out);
    assert Holds(r.s.b, Tool(k), x);
    assert OpenAt(r.out, |r.out|, x);
    var j :| OpenFrom(r.out, j, |r.out|, x);
    var out := Response(start, chunks, fails, message, cfg);
    assert out[j + 1] == r.out[j];
    assert StartAt(out, j + 1, x);
  }

  lemma ToldAfter(chunks: seq<Chunk>, cfg: Config, k: int) returns (handled: seq<ToolDelta>)
    ensures handled <= CallsOf(chunks) && (!After(chunks, cfg).raised ==> handled == CallsOf(chunks))
    ensures ToldOf(After(chunks, cfg).s.b, handled, k, !After(chunks, cfg).raised, cfg.codec)
  {
    NothingKnown(cfg.codec);
    handled := LoopTold(FRESH, [], chunks, cfg);
    assert [] + handled == handled;
    assert ToldOf(After(chunks, cfg).s.b, handled, k, !After(chunks, cfg).raised, cfg.codec);
  }

  /**
   * What any started tool is sent, whatever its name was when: what the pieces of its arguments give
   * rise to, those received while the name was not Task as they are and the first parseable text of
   * the others once; and at the end of a normal response an empty object if there were others and
   * none of their texts parsed. `handled` is short of all fragments, and `n` of all pieces, only if
   * an exception cut the run.
   */
  lemma ArgumentsAreAccounted(id: string, model: string, chunks: seq<Chunk>, fails: bool, message: string, cfg: Config,
                              k: int)
    returns (handled: seq<ToolDelta>, n: nat)
    requires IsStarted(After(chunks, cfg).s.b, k)
    ensures handled <= CallsOf(chunks) && (!After(chunks, cfg).raised ==> handled == CallsOf(chunks))
    ensures var ps, out := Pieces(handled, k), Response(MessageStart(id, model), chunks, fails, message, cfg);
            var flushed := Normal(chunks, fails, cfg) && Call(ps, cfg.codec).None? && TaskText(ps) != "";
            && !IsBlank(Named(handled, k))
            && n <= |ps| && (!After(chunks, cfg).raised ==> n == |ps|) && (n < |ps| ==> ps[n].task)
            && Tidy(ps[..n], cfg.codec)
            && DeltasAt(out, Slot(After(chunks, cfg).s.b, k)) ==
                 Delivered(ps[..n], cfg.codec) + (if flushed then ["{}"] else [])
  {
    var r := After(chunks, cfg);
    handled := ToldAfter(chunks, cfg, k);
    var t, ps := r.s.b.tools[k], Pieces(handled, k);
    SentInResponse(MessageStart(id, model), chunks, fails, message, cfg, k);
    AppendNone(t.contents);
    if r.raised {
      n :| ToldUpTo(t, ps, n, cfg.codec);
    } else {
      n := |ps|;
      Unsettled(t, ps, cfg.codec);
    }
  }

  /** The first n pieces complete the text of the call, and fewer do not. */
  ghost predicate CompletedAt(ps: seq<Piece>, n: nat, codec: Codec) {
    && 0 < n <= |ps| && ps[n - 1].task && Call(ps[..n - 1], codec).None?
    && var text := codec.loads(TaskText(ps[..n]));
       text.Some? && text.value.Dictionary? && Call(ps, codec) == Some(codec.dumps(Foreground(text.value.entries)))
  }

  /**
   * What the pieces give rise to: as long as no text of a task has parsed, the other pieces as they
   * are; and from then on also the call, at the place of the piece that completed its text.
   */
  lemma {:induction false} DeliveredMeaning(ps: seq<Piece>, codec: Codec) returns (n: nat)
    ensures n <= |ps|
    ensures Delivered(ps, codec) ==
              if Call(ps, codec).None? then Direct(ps)
              else Direct(ps[..n]) + [Call(ps, codec).value] + Direct(ps[n..])
    ensures Call(ps, codec).Some? ==> CompletedAt(ps, n, codec)
    decreases |ps|
  {
    n := |ps|;
    if ps != [] {
      var init := ps[..|ps| - 1];
      var m := DeliveredMeaning(init, codec);
      if Call(init, codec).Some? {
        n := m;
        LaterPiece(ps, init, n, codec);
      } else if Call(ps, codec).Some? {
        CompletingPiece(ps, init, codec);
      } else {
        NoCallYet(ps, init, codec);
      }
    }
  }

  lemma NoCallYet(ps: seq<Piece>, init: seq<Piece>, codec: Codec)
    requires ps != [] && init == ps[..|ps| - 1] && Call(ps, codec).None? && Delivered(init, codec) == Direct(init)
    ensures Delivered(ps, codec) == Direct(ps)
  {
  }

  lemma CompletingPiece(ps: seq<Piece>, init: seq<Piece>, codec: Codec)
    requires ps != [] && init == ps[..|ps| - 1] && Delivered(init, codec) == Direct(init)
    requires Call(init, codec).None? && Call(ps, codec).Some?
    ensures Delivered(ps, codec) == Direct(ps[..|ps|]) + [Call(ps, codec).value] + Direct(ps[|ps|..])
    ensures CompletedAt(ps, |ps|, codec)
  {
    assert ps[..|ps|] == ps && ps[|ps|..] == [];
    AppendNone(Direct(init));
    AppendNone(Direct(init) + [Call(ps, codec).value]);
  }

  lemma LaterPiece(ps: seq<Piece>, init: seq<Piece>, n: nat, codec: Codec)
    requires ps != [] && init == ps[..|ps| - 1]
    requires Call(init, codec).Some? && CompletedAt(init, n, codec)
    requires Delivered(init, codec) == Direct(init[..n]) + [Call(init, codec).value] + Direct(init[n..])
    ensures Delivered(ps, codec) == Direct(ps[..n]) + [Call(ps, codec).value] + Direct(ps[n..])
    ensures CompletedAt(ps, n, codec)
  {
    assert init[..n] == ps[..n] && init[..n - 1] == ps[..n - 1];
    assert ps[n..][..|ps[n..]| - 1] == init[n..];
    var more := if ps[|ps| - 1].task then [] else [ps[|ps| - 1].args];
    Assoc(Direct(ps[..n]) + [Call(init, codec).value], Direct(init[n..]), more);
  }

  // ----- tools that are never, or always, named Task -----

  /** Pieces are not empty, and join to what was received once there is a name. */
  lemma {:induction false} PiecesJoin(calls: seq<ToolDelta>, k: int)
    ensures forall p | p in Pieces(calls, k) :: p.args != ""
    ensures if IsBlank(Named(calls, k)) then Pieces(calls, k) == [] else AllText(Pieces(calls, k)) == Received(calls, k)
    decreases |calls|
  {
    if calls != [] {
      var init, last := Init(calls), Last(calls);
      PiecesJoin(init, k);
      if Target(init, last) == k {
        if last.name.Some? && !IsBlank(Named(init, k)) {
          MergeKeepsInk(Named(init, k), last.name.value);
        }
        NewPiecesJoin(Pieces(init, k), Received(init, k), Named(init, k), Named(calls, k), last.arguments);
        NewPiecesAreFull(Received(init, k), Named(init, k), Named(calls, k), last.arguments);
      }
    }
  }

  lemma NewPiecesJoin(ps: seq<Piece>, received: string, name: string, name': string, args: string)
    requires !IsBlank(name) ==> !IsBlank(name')
    requires if IsBlank(name) then ps == [] else AllText(ps) == received
    ensures if IsBlank(name') then NewPieces(received, name, name', args) == []
            else AllText(ps + NewPieces(received, name, name', args)) == received + args
  {
    var first, more := PieceOf(received, name'), PieceOf(args, name');
    if !IsBlank(name) {
      assert NewPieces(received, name, name', args) == more by { AppendNone(more); }
      PieceJoins(ps, received, args, name');
    } else if !IsBlank(name') {
      AppendNone(first);
      AppendNone(first + more);
      PieceJoins([], "", received, name');
      PieceJoins(first, received, args, name');
    }
  }

  lemma NewPiecesAreFull(received: string, name: string, name': string, args: string)
    ensures forall p | p in NewPieces(received, name, name', args) :: p.args != ""
  {
  }

  lemma PieceJoins(ps: seq<Piece>, received: string, args: string, name: string)
    requires AllText(ps) == received && !IsBlank(name)
    ensures AllText(ps + PieceOf(args, name)) == received + args
    ensures received == "" ==> AllText(ps + PieceOf(args, name)) == args
  {
    if args == "" {
      AppendNone(ps);
      AppendNone(received);
    } else {
      assert (ps + PieceOf(args, name))[..|ps|] == ps;
    }
  }

  lemma {:induction false} PiecesOfOneKind(calls: seq<ToolDelta>, k: int)
    ensures NeverTask(calls, k) ==> forall p | p in Pieces(calls, k) :: !p.task
    ensures AlwaysTask(calls, k) ==> forall p | p in Pieces(calls, k) :: p.task
    decreases |calls|
  {
    if calls != [] {
      PiecesOfOneKind(Init(calls), k);
      assert calls == Init(calls) + [Last(calls)];
      Shorter(Init(calls), Last(calls), k);
    }
  }

  lemma {:induction false} DirectJoins(ps: seq<Piece>, codec: Codec)
    requires forall p | p in ps :: !p.task
    ensures Concat(Delivered(ps, codec)) == AllText(ps) && TaskText(ps) == ""
    decreases |ps|
  {
    if ps != [] {
      var init, last := ps[..|ps| - 1], ps[|ps| - 1];
      assert last in ps;
      DirectJoins(init, codec);
      ConcatSnoc(Delivered(init, codec), last.args);
    }
  }

  lemma {:induction false} TaskJoins(ps: seq<Piece>, codec: Codec)
    requires forall p | p in ps :: p.task && p.args != ""
    ensures TaskText(ps) == AllText(ps) && (ps == [] <==> AllText(ps) == "")
    ensures Delivered(ps, codec) == if Call(ps, codec).None? then [] else [Call(ps, codec).value]
    decreases |ps|
  {
    if ps != [] {
      assert ps[|ps| - 1] in ps;
      TaskJoins(ps[..|ps| - 1], codec);
    }
  }

  lemma {:induction false} TriesGrow(ps: seq<Piece>, n: nat)
    requires n <= |ps|
    ensures Tries(ps[..n]) <= Tries(ps)
    decreases |ps|
  {
    if n < |ps| {
      var init := ps[..|ps| - 1];
      assert init[..n] == ps[..n];
      TriesGrow(init, n);
    } else {
      assert ps[..n] == ps;
    }
  }

  /**
   * A native tool call that is never named Task: its block receives exactly the arguments that
   * arrived for it, before and after its name, also if the response fails. It has a block exactly
   * when a name arrived. `handled` is short of all fragments only if an exception cut the run.
   */
  lemma ArgumentsAreConserved(id: string, model: string, chunks: seq<Chunk>, fails: bool, message: string, cfg: Config,
                              k: int)
    returns (handled: seq<ToolDelta>)
    ensures handled <= CallsOf(chunks) && (!After(chunks, cfg).raised ==> handled == CallsOf(chunks))
    ensures var b, out := After(chunks, cfg).s.b, Response(MessageStart(id, model), chunks, fails, message, cfg);
            && (IsStarted(b, k) <==> !IsBlank(Named(handled, k)))
            && (IsStarted(b, k) ==> ToolStart(out, Slot(b, k)))
            && (IsStarted(b, k) && NeverTask(handled, k) ==> Concat(DeltasAt(out, Slot(b, k))) == Received(handled, k))
  {
    if IsStarted(After(chunks, cfg).s.b, k) {
      var n;
      handled, n := ArgumentsAreAccounted(id, model, chunks, fails, message, cfg, k);
      Announced(MessageStart(id, model), chunks, fails, message, cfg, k);
      var out := Response(MessageStart(id, model), chunks, fails, message, cfg);
      var sent := DeltasAt(out, Slot(After(chunks, cfg).s.b, k));
      NeverTaskSent(handled, k, n, sent, Normal(chunks, fails, cfg), cfg.codec);
    } else {
      handled := ToldAfter(chunks, cfg, k);
    }
  }

  lemma NeverTaskSent(handled: seq<ToolDelta>, k: int, n: nat, sent: seq<string>, normal: bool, codec: Codec)
    requires !IsBlank(Named(handled, k))
    requires var ps := Pieces(handled, k);
             && n <= |ps| && (n < |ps| ==> ps[n].task)
             && sent == Delivered(ps[..n], codec)
                        + (if normal && Call(ps, codec).None? && TaskText(ps) != "" then ["{}"] else [])
    ensures NeverTask(handled, k) ==> Concat(sent) == Received(handled, k)
  {
    var ps := Pieces(handled, k);
    if NeverTask(handled, k) {
      PiecesOfOneKind(handled, k);
      assert forall i | 0 <= i < |ps| :: !ps[i].task;
      assert ps[..n] == ps;
      PiecesJoin(handled, k);
      DirectJoins(ps, codec);
      AppendNone(Delivered(ps, codec));
    }
  }

  /**
   * A tool call named Task throughout sends at most one delta: the first of its argument texts that
   * parses, made to run in the foreground, or, only where the response ends normally and none
   * parses, an empty object. In a normal ending it sends one exactly when arguments arrived. The
   * texts tried are what has been received after each fragment, from the name on.
   */
  lemma TasksAreSentOnce(id: string, model: string, chunks: seq<Chunk>, fails: bool, message: string, cfg: Config,
                         k: int)
    returns (handled: seq<ToolDelta>)
    requires IsStarted(After(chunks, cfg).s.b, k)
    ensures handled <= CallsOf(chunks) && (!After(chunks, cfg).raised ==> handled == CallsOf(chunks))
    ensures AlwaysTask(handled, k) ==>
      var out := Response(MessageStart(id, model), chunks, fails, message, cfg);
      var sent, tries := DeltasAt(out, Slot(After(chunks, cfg).s.b, k)), Tries(Pieces(handled, k));
      && |sent| <= 1
      && (sent != [] ==> IsTaskCall(sent[0], tries, cfg.codec) || (sent == ["{}"] && NoneParses(tries, cfg.codec)))
      && (Normal(chunks, fails, cfg) ==> (sent == [] <==> Received(handled, k) == ""))
      && (!Normal(chunks, fails, cfg) && sent != [] ==> IsTaskCall(sent[0], tries, cfg.codec))
  {
    var n;
    handled, n := ArgumentsAreAccounted(id, model, chunks, fails, message, cfg, k);
    if AlwaysTask(handled, k) {
      var out := Response(MessageStart(id, model), chunks, fails, message, cfg);
      var sent, ps := DeltasAt(out, Slot(After(chunks, cfg).s.b, k)), Pieces(handled, k);
      PiecesOfOneKind(handled, k);
      PiecesJoin(handled, k);
      SentForTask(ps, n, sent, Normal(chunks, fails, cfg), cfg.codec);
    }
  }

  lemma SentForTask(ps: seq<Piece>, n: nat, sent: seq<string>, normal: bool, codec: Codec)
    requires n <= |ps| && (normal ==> n == |ps|) && Tidy(ps[..n], codec)
    requires forall p | p in ps :: p.task && p.args != ""
    requires sent == Delivered(ps[..n], codec)
                     + (if normal && Call(ps, codec).None? && TaskText(ps) != "" then ["{}"] else [])
    ensures |sent| <= 1
    ensures sent != [] ==> IsTaskCall(sent[0], Tries(ps), codec) || (sent == ["{}"] && NoneParses(Tries(ps), codec))
    ensures normal ==> (sent == [] <==> AllText(ps) == "")
    ensures !normal && sent != [] ==> IsTaskCall(sent[0], Tries(ps), codec)
  {
    var qs := ps[..n];
    assert n == |ps| ==> qs == ps;
    TaskJoins(ps, codec);
    TaskJoins(qs, codec);
    TriesGrow(ps, n);
    OneDelta(Call(qs, codec), Tries(qs), Tries(ps), sent, normal, AllText(ps), codec);
  }

  /** The call, if any, and otherwise the flush. */
  lemma OneDelta(call: Option<string>, tries: seq<string>, tries': seq<string>, sent: seq<string>, normal: bool,
                 text: string, codec: Codec)
    requires tries <= tries' && (normal ==> tries == tries' && (call.Some? ==> text != ""))
    requires if call.None? then NoneParses(tries, codec) else IsTaskCall(call.value, tries, codec)
    requires sent == if call.Some? then [call.value] else if normal && text != "" then ["{}"] else []
    ensures |sent| <= 1
    ensures sent != [] ==> IsTaskCall(sent[0], tries', codec) || (sent == ["{}"] && NoneParses(tries', codec))
    ensures normal ==> (sent == [] <==> text == "")
    ensures !normal && sent != [] ==> IsTaskCall(sent[0], tries', codec)
  {
    if call.Some? {
      TaskCallStays(call.value, tries, tries'[|tries|..], codec);
      assert tries + tries'[|tries|..] == tries';
    }
  }
}
