/** One response turn of the voice agent (`draft_response`, server/llm.py):
    rounds of streamed chunks, tool-call fragments accumulated by index, the
    calls dispatched in index order into recorded effects and events, until
    a round brings no tool call or a hangup ends the call. The model's
    streams, `json.loads` and the database helpers are inputs or recorded. */
module VoiceTurn {
  import opened VoicePrompt

  /** A streamed chunk: one without choices, or a delta with its text ("" for
      none) and its tool-call fragments. */
  datatype Chunk = NoChoices | Delta(content: string, toolCalls: seq<ToolCall>)

  /** What the turn yields and does, in order. `Response` is a
      `ResponseResponse`; `UpdateTrans` and `SetLocked` are the awaited
      database helpers, recorded with their arguments. */
  datatype Event =
    | Response(responseId: int, content: string, contentComplete: bool, endCall: bool)
    | Invocation(toolCallId: Option<string>, name: Option<string>, arguments: Option<string>)
    | ToolResult(toolCallId: Option<string>, content: string)
    | UpdateTrans(transNum: Option<string>, isFraud: string)
    | SetLocked(ccNum: Option<string>, locked: string)

  /** How the turn ended: the final response after a round without tool
      calls; a hangup; a TypeError while appending arguments (the generator
      raises); or the given streams ran out first. */
  datatype Ending = Completed | HungUp | Raised | OutOfRounds

  // ---------------------------------------------------------------------------
  // Text of a round

  predicate IsToolChunk(c: Chunk) {
    c.Delta? && c.toolCalls != []
  }

  predicate AnyTool(cs: seq<Chunk>) {
    exists i :: 0 <= i < |cs| && IsToolChunk(cs[i])
  }

  /** The texts yielded while the round streams: a chunk's text is yielded
      when it is non-empty and no tool-call chunk has arrived yet (the chunk
      itself included). */
  function RoundTexts(cs: seq<Chunk>): seq<string>
    decreases |cs|
  {
    if cs == [] then []
    else
      var c := cs[|cs| - 1];
      RoundTexts(cs[..|cs| - 1]) + (if c.Delta? && c.content != "" && !AnyTool(cs) then [c.content] else [])
  }

  /** The non-empty texts of the chunks. */
  function Texts(cs: seq<Chunk>): seq<string>
    decreases |cs|
  {
    if cs == [] then []
    else
      var c := cs[|cs| - 1];
      Texts(cs[..|cs| - 1]) + (if c.Delta? && c.content != "" then [c.content] else [])
  }

  /** The position of the first tool-call chunk, or |cs| when there is none. */
  function FirstToolChunk(cs: seq<Chunk>): (k: nat)
    ensures k <= |cs|
    ensures forall i :: 0 <= i < k ==> !IsToolChunk(cs[i])
    ensures k < |cs| ==> IsToolChunk(cs[k])
    decreases |cs|
  {
    if cs == [] then 0
    else if IsToolChunk(cs[0]) then 0
    else
      var k := FirstToolChunk(cs[1..]);
      assert forall i :: 1 <= i < |cs| ==> cs[i] == cs[1..][i - 1];
      k + 1
  }

  lemma AnyToolPrefix(cs: seq<Chunk>)
    requires cs != []
    ensures AnyTool(cs) <==> AnyTool(cs[..|cs| - 1]) || IsToolChunk(cs[|cs| - 1])
  {
    var init := cs[..|cs| - 1];
    if AnyTool(init) {
      var i :| 0 <= i < |init| && IsToolChunk(init[i]);
      assert cs[i] == init[i];
    }
    if AnyTool(cs) && !IsToolChunk(cs[|cs| - 1]) {
      var i :| 0 <= i < |cs| && IsToolChunk(cs[i]);
      assert init[i] == cs[i];
    }
  }

  /** Text is yielded exactly until the first tool-call chunk: the round's
      texts are the texts of the chunks before it, and later text is dropped. */
  lemma {:induction false} RoundTextsBeforeFirstTool(cs: seq<Chunk>)
    ensures RoundTexts(cs) == Texts(cs[..FirstToolChunk(cs)])
    decreases |cs|
  {
    if cs != [] {
      var init := cs[..|cs| - 1];
      RoundTextsBeforeFirstTool(init);
      var k := FirstToolChunk(init);
      if k < |init| {
        ToolBeforeLast(cs);
        assert cs[..k] == init[..k];
      } else if IsToolChunk(cs[|cs| - 1]) {
        ToolAtLast(cs);
        assert init[..k] == init;
      } else {
        NoTool(cs);
        assert cs[..|cs|] == cs;
        assert init[..k] == init;
      }
    }
  }

  /** A tool-call chunk before the last: the last chunk adds no text. */
  lemma ToolBeforeLast(cs: seq<Chunk>)
    requires cs != [] && FirstToolChunk(cs[..|cs| - 1]) < |cs| - 1
    ensures FirstToolChunk(cs) == FirstToolChunk(cs[..|cs| - 1])
    ensures RoundTexts(cs) == RoundTexts(cs[..|cs| - 1])
  {
    var init := cs[..|cs| - 1];
    var k := FirstToolChunk(init);
    assert forall i :: 0 <= i < |init| ==> init[i] == cs[i];
    AnyToolPrefix(cs);
    assert AnyTool(cs) by { assert IsToolChunk(cs[k]); }
    FirstToolChunkUnique(cs, k);
  }

  /** The last chunk is the first tool-call chunk: it adds no text. */
  lemma ToolAtLast(cs: seq<Chunk>)
    requires cs != [] && FirstToolChunk(cs[..|cs| - 1]) == |cs| - 1 && IsToolChunk(cs[|cs| - 1])
    ensures FirstToolChunk(cs) == |cs| - 1
    ensures RoundTexts(cs) == RoundTexts(cs[..|cs| - 1])
  {
    var init := cs[..|cs| - 1];
    assert forall i :: 0 <= i < |init| ==> init[i] == cs[i];
    AnyToolPrefix(cs);
    FirstToolChunkUnique(cs, |init|);
  }

  /** No tool-call chunk at all: the last chunk's text is yielded like any
      other. */
  lemma NoTool(cs: seq<Chunk>)
    requires cs != [] && FirstToolChunk(cs[..|cs| - 1]) == |cs| - 1 && !IsToolChunk(cs[|cs| - 1])
    ensures FirstToolChunk(cs) == |cs|
    ensures var c := cs[|cs| - 1];
            && RoundTexts(cs) == RoundTexts(cs[..|cs| - 1]) + (if c.Delta? && c.content != "" then [c.content] else [])
            && Texts(cs) == Texts(cs[..|cs| - 1]) + (if c.Delta? && c.content != "" then [c.content] else [])
  {
    var init := cs[..|cs| - 1];
    assert forall i :: 0 <= i < |init| ==> init[i] == cs[i];
    AnyToolPrefix(cs);
    assert !AnyTool(init) by {
      forall i | 0 <= i < |init| ensures !IsToolChunk(init[i]) { }
    }
    FirstToolChunkUnique(cs, |cs|);
  }

  /** The first tool-call chunk is the one position with none before it. */
  lemma FirstToolChunkUnique(cs: seq<Chunk>, k: nat)
    requires k <= |cs|
    requires forall i :: 0 <= i < k ==> !IsToolChunk(cs[i])
    requires k < |cs| ==> IsToolChunk(cs[k])
    ensures FirstToolChunk(cs) == k
  {
  }

  /** Once a tool-call chunk has arrived, the rest of the round adds no text. */
  lemma {:induction false} RoundTextsAfterTool(cs: seq<Chunk>, k: nat)
    requires k < |cs| && IsToolChunk(cs[k])
    ensures RoundTexts(cs) == RoundTexts(cs[..k])
    decreases |cs|
  {
    var init := cs[..|cs| - 1];
    AnyToolPrefix(cs);
    assert AnyTool(cs) by { assert IsToolChunk(cs[k]); }
    if k < |init| {
      assert init[k] == cs[k];
      RoundTextsAfterTool(init, k);
      assert init[..k] == cs[..k];
    } else {
      assert init == cs[..k];
      AnyToolPrefix(cs[..k + 1]);
      assert cs[..k + 1][..k] == cs[..k];
      assert cs[..k + 1] == cs;
    }
  }

  // ---------------------------------------------------------------------------
  // Accumulating tool-call fragments

  function OrEmpty(s: Option<string>): string {
    if s.Some? then s.value else ""
  }

  /** The fragments of a round, chunk by chunk, in order. */
  function Flatten(cs: seq<Chunk>): seq<ToolCall>
    decreases |cs|
  {
    if cs == [] then []
    else
      var c := cs[|cs| - 1];
      Flatten(cs[..|cs| - 1]) + (if c.Delta? then c.toolCalls else [])
  }

  /** One fragment into `func_calls`: a new index keeps the fragment itself;
      a known one gets the fragment's arguments (or "") appended, which raises
      a TypeError (None) when the kept arguments are None. */
  function AddFragment(calls: map<int, ToolCall>, tc: ToolCall): Option<map<int, ToolCall>> {
    if tc.index !in calls then Some(calls[tc.index := tc])
    else if calls[tc.index].arguments.None? then None
    else Some(calls[tc.index := calls[tc.index].(arguments := Some(calls[tc.index].arguments.value + OrEmpty(tc.arguments)))])
  }

  /** `func_calls` after the fragments `ds`, starting from `start`; None once
      an append raised. */
  function Fold(start: Option<map<int, ToolCall>>, ds: seq<ToolCall>): Option<map<int, ToolCall>>
    decreases |ds|
  {
    if ds == [] then start
    else
      match Fold(start, ds[..|ds| - 1])
      case None => None
      case Some(calls) => AddFragment(calls, ds[|ds| - 1])
  }

  /** `func_calls` after a round's fragments, from `{}`. */
  function Accumulate(ds: seq<ToolCall>): Option<map<int, ToolCall>> {
    Fold(Some(map[]), ds)
  }

  /** The fragments with index `idx`, in order. */
  function FragmentsOf(ds: seq<ToolCall>, idx: int): (r: seq<ToolCall>)
    ensures forall i :: 0 <= i < |r| ==> r[i].index == idx
    decreases |ds|
  {
    if ds == [] then []
    else FragmentsOf(ds[..|ds| - 1], idx) + (if ds[|ds| - 1].index == idx then [ds[|ds| - 1]] else [])
  }

  /** The concatenation of the fragments' arguments, a missing one as "". */
  function JoinArguments(fs: seq<ToolCall>): string
    decreases |fs|
  {
    if fs == [] then "" else JoinArguments(fs[..|fs| - 1]) + OrEmpty(fs[|fs| - 1].arguments)
  }

  /** Some index's first fragment has no arguments and a later fragment
      follows: the append raises. */
  ghost predicate Conflict(ds: seq<ToolCall>) {
    exists idx :: |FragmentsOf(ds, idx)| >= 2 && FragmentsOf(ds, idx)[0].arguments.None?
  }

  /** What an accumulated call is, given its fragments (at least one): the
      first fragment, itself when alone, otherwise with the arguments of all
      fragments joined in order. */
  function Expected(fs: seq<ToolCall>): ToolCall
    requires |fs| >= 1
  {
    if |fs| == 1 then fs[0] else fs[0].(arguments := Some(JoinArguments(fs)))
  }

  /** `calls` holds exactly the indices of the fragments, each as `Expected`
      says. */
  ghost predicate Agrees(calls: map<int, ToolCall>, ds: seq<ToolCall>) {
    forall idx :: (idx in calls <==> |FragmentsOf(ds, idx)| >= 1)
                  && (idx in calls ==> calls[idx] == Expected(FragmentsOf(ds, idx)))
  }

  lemma FragmentsStep(ds: seq<ToolCall>, tc: ToolCall)
    ensures forall idx :: FragmentsOf(ds + [tc], idx) == FragmentsOf(ds, idx) + (if tc.index == idx then [tc] else [])
  {
    assert (ds + [tc])[..|ds|] == ds;
  }

  lemma JoinStep(fs: seq<ToolCall>, tc: ToolCall)
    ensures JoinArguments(fs + [tc]) == JoinArguments(fs) + OrEmpty(tc.arguments)
  {
    assert (fs + [tc])[..|fs|] == fs;
  }

  lemma JoinSingle(f: ToolCall)
    ensures JoinArguments([f]) == OrEmpty(f.arguments)
  {
    assert [f][..0] == [];
  }

  /** A fragment whose index had no fragment yet, or whose index's first
      fragment carries arguments, brings no conflict. */
  lemma KeepsNoConflict(ds: seq<ToolCall>, tc: ToolCall)
    requires !Conflict(ds)
    requires |FragmentsOf(ds, tc.index)| == 0 || FragmentsOf(ds, tc.index)[0].arguments.Some?
    ensures !Conflict(ds + [tc])
  {
    FragmentsStep(ds, tc);
    forall idx | |FragmentsOf(ds + [tc], idx)| >= 2 ensures FragmentsOf(ds + [tc], idx)[0].arguments.Some? {
      if idx != tc.index || |FragmentsOf(ds, tc.index)| != 0 {
        assert FragmentsOf(ds + [tc], idx)[0] == FragmentsOf(ds, idx)[0];
      }
    }
  }

  /** A fragment with a new index is kept as it is. */
  lemma AgreesNew(calls: map<int, ToolCall>, ds: seq<ToolCall>, tc: ToolCall)
    requires Agrees(calls, ds) && tc.index !in calls
    ensures Agrees(calls[tc.index := tc], ds + [tc])
  {
    FragmentsStep(ds, tc);
    var calls' := calls[tc.index := tc];
    forall idx
      ensures (idx in calls' <==> |FragmentsOf(ds + [tc], idx)| >= 1)
              && (idx in calls' ==> calls'[idx] == Expected(FragmentsOf(ds + [tc], idx)))
    {
      if idx == tc.index {
        assert FragmentsOf(ds, idx) == [];
        assert FragmentsOf(ds + [tc], idx) == [tc];
      } else {
        assert FragmentsOf(ds + [tc], idx) == FragmentsOf(ds, idx);
      }
    }
  }

  /** A fragment with a known index whose call has arguments: they grow by
      the fragment's arguments, which is the join of all its fragments. */
  lemma AgreesAppend(calls: map<int, ToolCall>, ds: seq<ToolCall>, tc: ToolCall)
    requires Agrees(calls, ds) && !Conflict(ds)
    requires tc.index in calls && calls[tc.index].arguments.Some?
    ensures Agrees(calls[tc.index := calls[tc.index].(arguments := Some(calls[tc.index].arguments.value + OrEmpty(tc.arguments)))], ds + [tc])
  {
    FragmentsStep(ds, tc);
    var fs := FragmentsOf(ds, tc.index);
    var fs' := fs + [tc];
    assert FragmentsOf(ds + [tc], tc.index) == fs';
    assert |fs| >= 1 && calls[tc.index] == Expected(fs);
    JoinStep(fs, tc);
    if |fs| == 1 {
      JoinSingle(fs[0]);
      assert fs == [fs[0]];
    }
    assert calls[tc.index].arguments.value == JoinArguments(fs);
    assert fs'[0] == fs[0];
    var calls' := calls[tc.index := calls[tc.index].(arguments := Some(calls[tc.index].arguments.value + OrEmpty(tc.arguments)))];
    assert calls'[tc.index] == Expected(fs');
    forall idx
      ensures (idx in calls' <==> |FragmentsOf(ds + [tc], idx)| >= 1)
              && (idx in calls' ==> calls'[idx] == Expected(FragmentsOf(ds + [tc], idx)))
    {
      if idx != tc.index {
        assert FragmentsOf(ds + [tc], idx) == FragmentsOf(ds, idx);
      }
    }
  }

  /** One more fragment: the accumulation raises exactly when the fragments
      come to conflict, and otherwise keeps agreeing with them. */
  lemma AddFragmentAgrees(calls: map<int, ToolCall>, ds: seq<ToolCall>, tc: ToolCall)
    requires Agrees(calls, ds) && !Conflict(ds)
    ensures AddFragment(calls, tc).None? <==> Conflict(ds + [tc])
    ensures AddFragment(calls, tc).Some? ==> Agrees(AddFragment(calls, tc).value, ds + [tc])
  {
    var fs := FragmentsOf(ds, tc.index);
    if tc.index !in calls {
      assert |fs| == 0;
      KeepsNoConflict(ds, tc);
      AgreesNew(calls, ds, tc);
    } else {
      assert |fs| >= 1 && calls[tc.index] == Expected(fs);
      if calls[tc.index].arguments.None? {
        assert |fs| == 1;
        FragmentsStep(ds, tc);
        assert FragmentsOf(ds + [tc], tc.index) == fs + [tc];
      } else {
        assert fs[0].arguments.Some? by {
          if |fs| != 1 { assert !(|fs| >= 2 && fs[0].arguments.None?); }
        }
        KeepsNoConflict(ds, tc);
        AgreesAppend(calls, ds, tc);
      }
    }
  }

  /** A conflict stays a conflict as more fragments arrive. */
  lemma ConflictGrows(ds: seq<ToolCall>, tc: ToolCall)
    requires Conflict(ds)
    ensures Conflict(ds + [tc])
  {
    FragmentsStep(ds, tc);
    var idx :| |FragmentsOf(ds, idx)| >= 2 && FragmentsOf(ds, idx)[0].arguments.None?;
    assert FragmentsOf(ds + [tc], idx)[0] == FragmentsOf(ds, idx)[0];
  }

  /** Accumulation by index: it raises exactly when the fragments conflict;
      otherwise each index of the fragments has one call, the first fragment
      with its id and name, its arguments the in-order join of all of them. */
  lemma {:induction false} AccumulateSpec(ds: seq<ToolCall>)
    ensures Accumulate(ds).None? <==> Conflict(ds)
    ensures Accumulate(ds).Some? ==> Agrees(Accumulate(ds).value, ds)
    decreases |ds|
  {
    if ds == [] {
      assert forall idx :: FragmentsOf(ds, idx) == [];
    } else {
      var init, tc := ds[..|ds| - 1], ds[|ds| - 1];
      assert ds == init + [tc];
      AccumulateSpec(init);
      match Accumulate(init)
      case None =>
        ConflictGrows(init, tc);
      case Some(calls) =>
        AddFragmentAgrees(calls, init, tc);
    }
  }

  lemma {:induction false} FoldAppend(start: Option<map<int, ToolCall>>, a: seq<ToolCall>, b: seq<ToolCall>)
    ensures Fold(start, a + b) == Fold(Fold(start, a), b)
    decreases |b|
  {
    if b == [] {
      assert a + b == a;
    } else {
      assert (a + b)[..|a + b| - 1] == a + b[..|b| - 1];
      FoldAppend(start, a, b[..|b| - 1]);
    }
  }

  /** After a raise nothing more is accumulated. */
  lemma {:induction false} FoldRaised(b: seq<ToolCall>)
    ensures Fold(None, b) == None
    decreases |b|
  {
    if b != [] {
      FoldRaised(b[..|b| - 1]);
    }
  }

  lemma {:induction false} FlattenAppend(a: seq<Chunk>, b: seq<Chunk>)
    ensures Flatten(a + b) == Flatten(a) + Flatten(b)
    decreases |b|
  {
    if b == [] {
      assert a + b == a;
    } else {
      assert (a + b)[..|a + b| - 1] == a + b[..|b| - 1];
      FlattenAppend(a, b[..|b| - 1]);
    }
  }

  lemma FlattenStep(cs: seq<Chunk>, k: nat)
    requires k < |cs|
    ensures Flatten(cs[..k + 1]) == Flatten(cs[..k]) + (if cs[k].Delta? then cs[k].toolCalls else [])
    ensures !IsToolChunk(cs[k]) ==> Flatten(cs[..k + 1]) == Flatten(cs[..k])
  {
    assert cs[..k + 1][..k] == cs[..k];
    assert Flatten(cs[..k]) + [] == Flatten(cs[..k]);
  }

  lemma RoundTextsStep(cs: seq<Chunk>, k: nat)
    requires k < |cs|
    ensures AnyTool(cs[..k + 1]) <==> AnyTool(cs[..k]) || IsToolChunk(cs[k])
    ensures RoundTexts(cs[..k + 1]) ==
            RoundTexts(cs[..k]) + (if cs[k].Delta? && cs[k].content != "" && !AnyTool(cs[..k + 1]) then [cs[k].content] else [])
  {
    assert cs[..k + 1][..k] == cs[..k];
    AnyToolPrefix(cs[..k + 1]);
  }

  /** The `for tc in delta.tool_calls` loop: each fragment into `func_calls`,
      stopping at the append that raises. */
  method AddFragments(calls: map<int, ToolCall>, fragments: seq<ToolCall>) returns (result: Option<map<int, ToolCall>>)
    ensures result == Fold(Some(calls), fragments)
  {
    var funcCalls := calls;
    for j := 0 to |fragments|
      invariant Fold(Some(calls), fragments[..j]) == Some(funcCalls)
    {
      var tc := fragments[j];
      assert fragments[..j + 1][..j] == fragments[..j];
      if tc.index !in funcCalls {
        funcCalls := funcCalls[tc.index := tc];
      } else if funcCalls[tc.index].arguments.None? {
        // `None += str`: the generator raises here.
        FoldAppend(Some(calls), fragments[..j + 1], fragments[j + 1..]);
        assert fragments[..j + 1] + fragments[j + 1..] == fragments;
        FoldRaised(fragments[j + 1..]);
        return None;
      } else {
        var fc := funcCalls[tc.index];
        funcCalls := funcCalls[tc.index := fc.(arguments := Some(fc.arguments.value + OrEmpty(tc.arguments)))];
      }
    }
    assert fragments[..|fragments|] == fragments;
    result := Some(funcCalls);
  }

  /** The streaming loop of one round: text chunks are yielded until the
      first tool-call chunk, and fragments are folded into `func_calls`; a
      TypeError stops the round. */
  method StreamRound(chunks: seq<Chunk>) returns (texts: seq<string>, calls: Option<map<int, ToolCall>>)
    ensures texts == RoundTexts(chunks)
    ensures calls == Accumulate(Flatten(chunks))
  {
    var funcCalls: map<int, ToolCall> := map[];
    var toolCalls := false;
    texts := [];
    for k := 0 to |chunks|
      invariant Accumulate(Flatten(chunks[..k])) == Some(funcCalls)
      invariant toolCalls == AnyTool(chunks[..k])
      invariant texts == RoundTexts(chunks[..k])
    {
      var chunk := chunks[k];
      FlattenStep(chunks, k);
      RoundTextsStep(chunks, k);
      if chunk.NoChoices? {
        continue;
      }
      if chunk.toolCalls != [] {
        toolCalls := true;
        var added := AddFragments(funcCalls, chunk.toolCalls);
        FoldAppend(Some(map[]), Flatten(chunks[..k]), chunk.toolCalls);
        if added.None? {
          RaisedRound(chunks, k);
          RoundTextsAfterTool(chunks, k);
          return texts, None;
        }
        funcCalls := added.value;
      }
      if chunk.content != "" && !toolCalls {
        texts := texts + [chunk.content];
      }
    }
    assert chunks[..|chunks|] == chunks;
    calls := Some(funcCalls);
  }

  /** A raise within the first k+1 chunks is a raise of the round. */
  lemma RaisedRound(chunks: seq<Chunk>, k: nat)
    requires k < |chunks| && Accumulate(Flatten(chunks[..k + 1])).None?
    ensures Accumulate(Flatten(chunks)).None?
  {
    assert chunks[..k + 1] + chunks[k + 1..] == chunks;
    FlattenAppend(chunks[..k + 1], chunks[k + 1..]);
    FoldAppend(Some(map[]), Flatten(chunks[..k + 1]), Flatten(chunks[k + 1..]));
    FoldRaised(Flatten(chunks[k + 1..]));
  }

  // ---------------------------------------------------------------------------
  // Dispatching the calls

  /** The least element of a non-empty set. */
  function Least(s: set<int>): (m: int)
    requires s != {}
    ensures m in s && forall x :: x in s ==> m <= x
  {
    LeastExists(s);
    var m :| m in s && forall x :: x in s ==> m <= x;
    m
  }

  lemma {:induction false} LeastExists(s: set<int>)
    requires s != {}
    ensures exists m :: m in s && forall x :: x in s ==> m <= x
    decreases |s|
  {
    NoMembersEmpty(s);
    var y :| y in s;
    var rest := s - {y};
    assert forall x :: x in s ==> x == y || x in rest;
    if rest != {} {
      LeastExists(rest);
      var m :| m in rest && forall x :: x in rest ==> m <= x;
      if y < m {
        assert forall x :: x in s ==> y <= x;
      } else {
        assert forall x :: x in s ==> m <= x;
      }
    } else {
      assert forall x :: x in s ==> y <= x;
    }
  }

  lemma NoMembersEmpty(s: set<int>)
    ensures (forall y :: y !in s) ==> s == {}
  {
    if forall y :: y !in s {
      assert forall y :: y in s <==> y in {};
    }
  }

  /** `sorted(func_calls.keys())`: each index once, ascending. */
  function SortedKeys(s: set<int>): (r: seq<int>)
    ensures forall i, j :: 0 <= i < j < |r| ==> r[i] < r[j]
    ensures forall x :: x in r <==> x in s
    decreases |s|
  {
    if s == {} then []
    else
      var m := Least(s);
      var rest := SortedKeys(s - {m});
      assert forall x :: x in rest ==> m < x;
      [m] + rest
  }

  /** `args`: the parsed arguments, or {} when they are missing or do not
      parse (`json.loads` raising is caught). */
  function ArgsOf(fc: ToolCall, parse: string -> Option<map<string, string>>): map<string, string> {
    if fc.arguments.None? then map[]
    else match parse(fc.arguments.value)
      case None => map[]
      case Some(args) => args
  }

  function Get(m: map<string, string>, key: string): Option<string> {
    if key in m then Some(m[key]) else None
  }

  /** Python's rendering of an optional string in an f-string. */
  function PyStr(s: Option<string>): string {
    if s.Some? then s.value else "None"
  }

  /** What handling one call yields and does, the messages it adds to the
      conversation, and whether it hung up. */
  datatype Handled = Handled(events: seq<Event>, messages: seq<Message>, hungUp: bool)

  const FraudConfirmed: string := "Fraud confirmation recorded"

  function AuthorizationOutput(response: Option<string>): string {
    "Authorization recorded as: " + PyStr(response)
  }

  /** Which branch of the loop body a call's name selects. */
  datatype Tool = Hangup | Authorize | ConfirmFraud | Unlisted

  function ToolOf(name: Option<string>): (t: Tool)
    ensures t == Hangup <==> name == Some("hangup")
    ensures t == Authorize <==> name == Some("authorize")
    ensures t == ConfirmFraud <==> name == Some("confirmFraud")
  {
    if name == Some("hangup") then Hangup
    else if name == Some("authorize") then Authorize
    else if name == Some("confirmFraud") then ConfirmFraud
    else Unlisted
  }

  /** What a hangup says as it ends the call: its `message` argument, or "". */
  function HangupMessage(fc: ToolCall, parse: string -> Option<map<string, string>>): string {
    OrEmpty(Get(ArgsOf(fc, parse), "message"))
  }

  /** One call of the loop body: the assistant message, the invocation, then
      by name: `hangup` ends the call; `authorize` records is_fraud "yes" and
      locks the card when the answer is "no", and records "no" otherwise;
      `confirmFraud` records "yes" and locks the card always; any other name
      does nothing more. */
  function Handle(agent: Agent, fc: ToolCall, responseId: int, parse: string -> Option<map<string, string>>): Handled {
    var args := ArgsOf(fc, parse);
    var invocation := Invocation(fc.id, fc.name, fc.arguments);
    var assistant := AssistantToolCall(fc);
    var transNum, ccNum := Get(agent.transaction, "trans_num"), Get(agent.transaction, "cc_num");
    match ToolOf(fc.name)
    case Hangup =>
      var message := HangupMessage(fc, parse);
      Handled([invocation, Response(responseId, message, true, true), ToolResult(fc.id, message)], [assistant], true)
    case Authorize =>
      var response := Get(args, "response");
      var output := AuthorizationOutput(response);
      var effects := [UpdateTrans(transNum, if response == Some("no") then "yes" else "no")]
                     + (if response == Some("no") then [SetLocked(ccNum, "yes")] else []);
      Handled([invocation] + effects + [ToolResult(fc.id, output)], [assistant, ToolMessage(fc.id, output)], false)
    case ConfirmFraud =>
      Handled([invocation, UpdateTrans(transNum, "yes"), SetLocked(ccNum, "yes"), ToolResult(fc.id, FraudConfirmed)],
              [assistant, ToolMessage(fc.id, FraudConfirmed)], false)
    case Unlisted =>
      Handled([invocation], [assistant], false)
  }

  /** `authorize` marks the transaction as fraud exactly when the answer is
      "no" (a missing answer counts as not fraud) and locks the card exactly
      then; the tool result names the answer. */
  lemma AuthorizeEffects(agent: Agent, fc: ToolCall, responseId: int, parse: string -> Option<map<string, string>>)
    requires fc.name == Some("authorize")
    ensures var h, response := Handle(agent, fc, responseId, parse), Get(ArgsOf(fc, parse), "response");
            var transNum, ccNum := Get(agent.transaction, "trans_num"), Get(agent.transaction, "cc_num");
            && !h.hungUp
            && (UpdateTrans(transNum, "yes") in h.events <==> response == Some("no"))
            && (UpdateTrans(transNum, "no") in h.events <==> response != Some("no"))
            && (SetLocked(ccNum, "yes") in h.events <==> response == Some("no"))
            && h.events[|h.events| - 1] == ToolResult(fc.id, AuthorizationOutput(response))
  {
  }

  /** `confirmFraud` always marks the transaction as fraud and locks the card. */
  lemma ConfirmFraudEffects(agent: Agent, fc: ToolCall, responseId: int, parse: string -> Option<map<string, string>>)
    requires fc.name == Some("confirmFraud")
    ensures var h := Handle(agent, fc, responseId, parse);
            && !h.hungUp
            && UpdateTrans(Get(agent.transaction, "trans_num"), "yes") in h.events
            && SetLocked(Get(agent.transaction, "cc_num"), "yes") in h.events
  {
  }

  /** Only `authorize` and `confirmFraud` touch the database. */
  predicate IsEffect(e: Event) {
    e.UpdateTrans? || e.SetLocked?
  }

  lemma EffectsOnlyFromRecordingTools(agent: Agent, fc: ToolCall, responseId: int, parse: string -> Option<map<string, string>>)
    requires fc.name != Some("authorize") && fc.name != Some("confirmFraud")
    ensures forall e :: e in Handle(agent, fc, responseId, parse).events ==> !IsEffect(e)
  {
  }

  /** The calls in `order`, handled one after another until a hangup. */
  function Dispatch(agent: Agent, calls: map<int, ToolCall>, order: seq<int>, responseId: int,
                    parse: string -> Option<map<string, string>>): Handled
    requires forall i :: 0 <= i < |order| ==> order[i] in calls
    decreases |order|
  {
    if order == [] then Handled([], [], false)
    else
      var h := Handle(agent, calls[order[0]], responseId, parse);
      if h.hungUp then h
      else
        var rest := Dispatch(agent, calls, order[1..], responseId, parse);
        Handled(h.events + rest.events, h.messages + rest.messages, rest.hungUp)
  }

  /** Dispatch's first step: the first call, then the rest unless it hung up. */
  lemma DispatchUnfold(agent: Agent, calls: map<int, ToolCall>, order: seq<int>, responseId: int,
                       parse: string -> Option<map<string, string>>)
    requires order != [] && forall i :: 0 <= i < |order| ==> order[i] in calls
    ensures var h, rest := Handle(agent, calls[order[0]], responseId, parse), Dispatch(agent, calls, order[1..], responseId, parse);
            Dispatch(agent, calls, order, responseId, parse) ==
              if h.hungUp then h else Handled(h.events + rest.events, h.messages + rest.messages, rest.hungUp)
  {
  }

  /** The position of the first hangup in `order`; |order| when there is none. */
  function FirstHangup(calls: map<int, ToolCall>, order: seq<int>): (j: nat)
    requires forall i :: 0 <= i < |order| ==> order[i] in calls
    ensures j <= |order|
    ensures forall i :: 0 <= i < j ==> ToolOf(calls[order[i]].name) != Hangup
    ensures j < |order| ==> ToolOf(calls[order[j]].name) == Hangup
    decreases |order|
  {
    if order == [] || ToolOf(calls[order[0]].name) == Hangup then 0
    else
      var j := FirstHangup(calls, order[1..]);
      assert forall i :: 1 <= i < |order| ==> order[1..][i - 1] == order[i];
      1 + j
  }

  /** Ends with the response that ends the call with `fc`'s message (its
      `message` argument or ""), then `fc`'s own tool result carrying it. */
  predicate HangupEnd(events: seq<Event>, responseId: int, fc: ToolCall, parse: string -> Option<map<string, string>>) {
    && |events| >= 2
    && events[|events| - 2] == Response(responseId, HangupMessage(fc, parse), true, true)
    && events[|events| - 1] == ToolResult(fc.id, HangupMessage(fc, parse))
  }

  lemma HangupEndKept(a: seq<Event>, b: seq<Event>, responseId: int, fc: ToolCall, parse: string -> Option<map<string, string>>)
    requires HangupEnd(b, responseId, fc, parse)
    ensures HangupEnd(a + b, responseId, fc, parse)
  {
    TailKept(a, b);
  }

  /** A dispatch hangs up exactly when some call is a hangup; then its last
      two events are the ending response and the tool result of the first
      hangup in `order`, both carrying its message. */
  lemma {:induction false} DispatchHangup(agent: Agent, calls: map<int, ToolCall>, order: seq<int>, responseId: int,
                                          parse: string -> Option<map<string, string>>)
    requires forall i :: 0 <= i < |order| ==> order[i] in calls
    ensures var d := Dispatch(agent, calls, order, responseId, parse);
            && (d.hungUp <==> exists i :: 0 <= i < |order| && ToolOf(calls[order[i]].name) == Hangup)
            && (d.hungUp ==>
                  FirstHangup(calls, order) < |order| &&
                  HangupEnd(d.events, responseId, calls[order[FirstHangup(calls, order)]], parse))
            && (forall e :: e in d.events && e.Response? ==> e.contentComplete && e.endCall && d.hungUp)
    decreases |order|
  {
    if order != [] {
      var fc := calls[order[0]];
      var h := Handle(agent, fc, responseId, parse);
      if !h.hungUp {
        DispatchHangup(agent, calls, order[1..], responseId, parse);
        var rest := Dispatch(agent, calls, order[1..], responseId, parse);
        assert forall i :: 1 <= i < |order| ==> order[1..][i - 1] == order[i];
        assert (exists i :: 0 <= i < |order| && ToolOf(calls[order[i]].name) == Hangup) <==>
               (exists i :: 0 <= i < |order[1..]| && ToolOf(calls[order[1..][i]].name) == Hangup) by {
          if exists i :: 0 <= i < |order| && ToolOf(calls[order[i]].name) == Hangup {
            var i :| 0 <= i < |order| && ToolOf(calls[order[i]].name) == Hangup;
            assert i != 0;
            assert order[1..][i - 1] == order[i];
          }
        }
        assert forall e :: e in h.events ==> !e.Response?;
        if rest.hungUp {
          var j := FirstHangup(calls, order[1..]);
          assert order[1 + j] == order[1..][j];
          HangupEndKept(h.events, rest.events, responseId, calls[order[1..][j]], parse);
        }
      } else {
        assert ToolOf(calls[order[0]].name) == Hangup;
      }
    }
  }

  /** Dispatch stops at the first hangup: no call after it is handled. */
  lemma {:induction false} DispatchStopsAtHangup(agent: Agent, calls: map<int, ToolCall>, order: seq<int>, responseId: int,
                                                 parse: string -> Option<map<string, string>>)
    requires forall i :: 0 <= i < |order| ==> order[i] in calls
    ensures var j := FirstHangup(calls, order);
            j < |order| ==> Dispatch(agent, calls, order, responseId, parse) == Dispatch(agent, calls, order[..j + 1], responseId, parse)
    decreases |order|
  {
    var j := FirstHangup(calls, order);
    if j < |order| {
      var prefix := order[..j + 1];
      assert prefix[0] == order[0];
      if ToolOf(calls[order[0]].name) != Hangup {
        assert forall i :: 1 <= i < |order| ==> order[1..][i - 1] == order[i];
        DispatchStopsAtHangup(agent, calls, order[1..], responseId, parse);
        assert prefix[1..] == order[1..][..j];
      }
    }
  }

  // ---------------------------------------------------------------------------
  // The turn

  /** Everything a turn does: the conversation sent with each request, the
      events in order, and how it ended. */
  datatype Trace = Trace(requests: seq<seq<Message>>, events: seq<Event>, ending: Ending)

  function TextEvents(responseId: int, texts: seq<string>): (r: seq<Event>)
    ensures |r| == |texts|
    ensures forall i :: 0 <= i < |texts| ==> r[i] == Response(responseId, texts[i], false, false)
    decreases |texts|
  {
    if texts == [] then [] else TextEvents(responseId, texts[..|texts| - 1]) + [Response(responseId, texts[|texts| - 1], false, false)]
  }

  /** What one round does: it stops the turn with its events and ending, or
      continues with the messages the conversation is extended with. */
  datatype RoundOutcome =
    | Stop(events: seq<Event>, ending: Ending)
    | Continue(events: seq<Event>, messages: seq<Message>)

  /** One request and its stream: the round's texts, then the final response
      when there were no calls, or the calls dispatched in index order. */
  function Round(agent: Agent, chunks: seq<Chunk>, responseId: int, parse: string -> Option<map<string, string>>): RoundOutcome {
    var texts := TextEvents(responseId, RoundTexts(chunks));
    match Accumulate(Flatten(chunks))
    case None => Stop(texts, Raised)
    case Some(calls) =>
      if calls == map[] then Stop(texts + [Response(responseId, "", true, false)], Completed)
      else
        var d := Dispatch(agent, calls, SortedKeys(calls.Keys), responseId, parse);
        if d.hungUp then Stop(texts + d.events, HungUp) else Continue(texts + d.events, d.messages)
  }

  /** The turn from conversation `conversation`, the model answering the
      requests with `rounds` in turn. */
  function Run(agent: Agent, conversation: seq<Message>, rounds: seq<seq<Chunk>>, responseId: int,
               parse: string -> Option<map<string, string>>): Trace
    decreases |rounds|
  {
    if rounds == [] then Trace([], [], OutOfRounds)
    else
      match Round(agent, rounds[0], responseId, parse)
      case Stop(events, ending) => Trace([conversation], events, ending)
      case Continue(events, messages) =>
        var rest := Run(agent, conversation + messages, rounds[1..], responseId, parse);
        Trace([conversation] + rest.requests, events + rest.events, rest.ending)
  }

  /** Run's first step: the first round, then the rest unless it stopped. */
  lemma RunUnfold(agent: Agent, conversation: seq<Message>, rounds: seq<seq<Chunk>>, responseId: int,
                  parse: string -> Option<map<string, string>>)
    requires rounds != []
    ensures var o := Round(agent, rounds[0], responseId, parse);
            o.Stop? ==> Run(agent, conversation, rounds, responseId, parse) == Trace([conversation], o.events, o.ending)
    ensures var o := Round(agent, rounds[0], responseId, parse);
            o.Continue? ==>
              var rest := Run(agent, conversation + o.messages, rounds[1..], responseId, parse);
              Run(agent, conversation, rounds, responseId, parse) == Trace([conversation] + rest.requests, o.events + rest.events, rest.ending)
  {
  }

  /** `draft_response` for `request`: the prompt is the first conversation. */
  function Draft(agent: Agent, request: Request, rounds: seq<seq<Chunk>>, parse: string -> Option<map<string, string>>): Trace {
    Run(agent, Prompt(agent, request), rounds, request.responseId, parse)
  }

  /** A round without tool-call fragments ends the turn with the one final
      response: complete, not ending the call, and empty. */
  lemma NoToolRoundCompletes(agent: Agent, conversation: seq<Message>, rounds: seq<seq<Chunk>>, responseId: int,
                             parse: string -> Option<map<string, string>>)
    requires rounds != [] && Flatten(rounds[0]) == []
    ensures var t := Run(agent, conversation, rounds, responseId, parse);
            && t.ending == Completed && t.requests == [conversation]
            && t.events == TextEvents(responseId, RoundTexts(rounds[0])) + [Response(responseId, "", true, false)]
  {
  }

  /** `events` end as the hangup with the least index among `calls` that is
      a hangup ends the call. */
  predicate EndsWithHangup(events: seq<Event>, calls: map<int, ToolCall>, responseId: int,
                           parse: string -> Option<map<string, string>>) {
    exists idx :: idx in calls && ToolOf(calls[idx].name) == Hangup
      && (forall k :: k in calls && k < idx ==> ToolOf(calls[k].name) != Hangup)
      && HangupEnd(events, responseId, calls[idx], parse)
  }

  lemma EndsWithHangupKept(a: seq<Event>, b: seq<Event>, calls: map<int, ToolCall>, responseId: int,
                           parse: string -> Option<map<string, string>>)
    requires EndsWithHangup(b, calls, responseId, parse)
    ensures EndsWithHangup(a + b, calls, responseId, parse)
  {
    var idx :| idx in calls && ToolOf(calls[idx].name) == Hangup
      && (forall k :: k in calls && k < idx ==> ToolOf(calls[k].name) != Hangup)
      && HangupEnd(b, responseId, calls[idx], parse);
    HangupEndKept(a, b, responseId, calls[idx], parse);
  }

  /** Over ascending indices, the first hangup is the least index that is one. */
  lemma FirstHangupLeast(calls: map<int, ToolCall>, order: seq<int>, events: seq<Event>, responseId: int,
                         parse: string -> Option<map<string, string>>)
    requires forall i :: 0 <= i < |order| ==> order[i] in calls
    requires forall x :: x in order <==> x in calls
    requires forall i, j :: 0 <= i < j < |order| ==> order[i] < order[j]
    requires FirstHangup(calls, order) < |order|
    requires HangupEnd(events, responseId, calls[order[FirstHangup(calls, order)]], parse)
    ensures EndsWithHangup(events, calls, responseId, parse)
  {
    var j := FirstHangup(calls, order);
    var idx := order[j];
    forall k | k in calls && k < idx ensures ToolOf(calls[k].name) != Hangup {
      var i :| 0 <= i < |order| && order[i] == k;
      assert i < j;
    }
  }

  /** A streamed text response, neither complete nor ending the call. */
  predicate Partial(e: Event) {
    e.Response? && !e.contentComplete && !e.endCall
  }

  lemma TextEventsPartial(responseId: int, texts: seq<string>)
    ensures forall e :: e in TextEvents(responseId, texts) ==> Partial(e)
  {
  }

  /** Partial responses before `b` keep `b`'s tail and add no complete response. */
  lemma AfterPartial(a: seq<Event>, b: seq<Event>)
    requires forall e :: e in a ==> Partial(e)
    ensures |b| >= 1 ==> (a + b)[|a + b| - 1] == b[|b| - 1]
    ensures forall e :: e in a + b && e.Response? && (e.contentComplete || e.endCall) ==> e in b
  {
  }

  /** A round ends the call exactly when one of its accumulated calls is a
      hangup, and then ends as the hangup with the least index ends the call;
      the only complete responses it yields are the final one of a round
      without calls and the hangup's, as the last events. */
  lemma RoundShape(agent: Agent, chunks: seq<Chunk>, responseId: int, parse: string -> Option<map<string, string>>)
    ensures var o, a := Round(agent, chunks, responseId, parse), Accumulate(Flatten(chunks));
            && ((o.Stop? && o.ending == HungUp) <==>
                  a.Some? && exists idx :: idx in a.value && ToolOf(a.value[idx].name) == Hangup)
            && ((o.Stop? && o.ending == Completed) <==> a == Some(map[]))
            && (o.Stop? ==> o.ending != OutOfRounds)
            && (o.Stop? && o.ending == Completed ==>
                  |o.events| >= 1 && o.events[|o.events| - 1] == Response(responseId, "", true, false))
            && (o.Stop? && o.ending == HungUp ==> a.Some? && EndsWithHangup(o.events, a.value, responseId, parse))
            && (forall e :: e in o.events && e.Response? && e.contentComplete ==>
                  o.Stop? && (o.ending == Completed || o.ending == HungUp))
            && (forall e :: e in o.events && e.Response? && e.endCall ==> o.Stop? && o.ending == HungUp)
  {
    var texts := TextEvents(responseId, RoundTexts(chunks));
    TextEventsPartial(responseId, RoundTexts(chunks));
    match Accumulate(Flatten(chunks))
    case None =>
      assert forall e :: e in texts ==> !(e.Response? && e.contentComplete) && !(e.Response? && e.endCall);
    case Some(calls) =>
      if calls != map[] {
        var order := SortedKeys(calls.Keys);
        var d := Dispatch(agent, calls, order, responseId, parse);
        assert Round(agent, chunks, responseId, parse) == (if d.hungUp then Stop(texts + d.events, HungUp) else Continue(texts + d.events, d.messages));
        DispatchHangup(agent, calls, order, responseId, parse);
        HangupInOrder(calls, order);
        AfterPartial(texts, d.events);
        if d.hungUp {
          FirstHangupLeast(calls, order, d.events, responseId, parse);
          EndsWithHangupKept(texts, d.events, calls, responseId, parse);
        }
      } else {
        AfterPartial(texts, [Response(responseId, "", true, false)]);
      }
  }

  /** A hangup among the calls is a hangup among the sorted indices. */
  lemma HangupInOrder(calls: map<int, ToolCall>, order: seq<int>)
    requires forall x :: x in order <==> x in calls
    ensures (exists i :: 0 <= i < |order| && order[i] in calls && ToolOf(calls[order[i]].name) == Hangup) <==>
            (exists idx :: idx in calls && ToolOf(calls[idx].name) == Hangup)
  {
    if exists idx :: idx in calls && ToolOf(calls[idx].name) == Hangup {
      var idx :| idx in calls && ToolOf(calls[idx].name) == Hangup;
      var i :| 0 <= i < |order| && order[i] == idx;
      assert ToolOf(calls[order[i]].name) == Hangup;
    }
  }

  /** How each ending shows in the whole turn: one request per round used; a
      completed turn ends with the final non-ending response; a hung-up one
      hung up in the last round it used, and ends with the response that ends
      the call with that round's first hangup's message, then that hangup's
      tool result; no other response ends the call. */
  lemma EndingShape(agent: Agent, conversation: seq<Message>, rounds: seq<seq<Chunk>>, responseId: int,
                    parse: string -> Option<map<string, string>>)
    ensures var t := Run(agent, conversation, rounds, responseId, parse);
            && |t.requests| <= |rounds|
            && (rounds != [] ==> |t.requests| >= 1 && t.requests[0] == conversation)
            && (t.ending == OutOfRounds ==> |t.requests| == |rounds|)
            && (t.ending == Completed ==> |t.events| >= 1 && t.events[|t.events| - 1] == Response(responseId, "", true, false))
            && (t.ending == HungUp ==> LastRoundHungUp(t, rounds, responseId, parse))
            && (forall e :: e in t.events && e.Response? && e.endCall ==> t.ending == HungUp)
  {
    RequestsShape(agent, conversation, rounds, responseId, parse);
    TailShape(agent, conversation, rounds, responseId, parse);
    HungUpShape(agent, conversation, rounds, responseId, parse);
    EndCallOnlyOnHangup(agent, conversation, rounds, responseId, parse);
  }

  lemma {:induction false} RequestsShape(agent: Agent, conversation: seq<Message>, rounds: seq<seq<Chunk>>, responseId: int,
                                         parse: string -> Option<map<string, string>>)
    ensures var t := Run(agent, conversation, rounds, responseId, parse);
            && |t.requests| <= |rounds|
            && (rounds != [] ==> |t.requests| >= 1 && t.requests[0] == conversation)
            && (t.ending == OutOfRounds ==> |t.requests| == |rounds|)
    decreases |rounds|
  {
    if rounds != [] {
      RoundShape(agent, rounds[0], responseId, parse);
      var o := Round(agent, rounds[0], responseId, parse);
      if o.Continue? {
        RequestsShape(agent, conversation + o.messages, rounds[1..], responseId, parse);
      }
    }
  }

  lemma {:induction false} TailShape(agent: Agent, conversation: seq<Message>, rounds: seq<seq<Chunk>>, responseId: int,
                                     parse: string -> Option<map<string, string>>)
    ensures var t := Run(agent, conversation, rounds, responseId, parse);
            t.ending == Completed ==> |t.events| >= 1 && t.events[|t.events| - 1] == Response(responseId, "", true, false)
    decreases |rounds|
  {
    if rounds != [] {
      RunUnfold(agent, conversation, rounds, responseId, parse);
      var o := Round(agent, rounds[0], responseId, parse);
      if o.Stop? {
        RoundShape(agent, rounds[0], responseId, parse);
      } else {
        TailShape(agent, conversation + o.messages, rounds[1..], responseId, parse);
        var rest := Run(agent, conversation + o.messages, rounds[1..], responseId, parse);
        TailKept(o.events, rest.events);
      }
    }
  }

  /** A turn that hung up used a round whose accumulated calls hold a
      hangup, the last round it used, and ends as the first of those
      hangups ends the call. */
  predicate LastRoundHungUp(t: Trace, rounds: seq<seq<Chunk>>, responseId: int, parse: string -> Option<map<string, string>>) {
    && 1 <= |t.requests| <= |rounds|
    && var a := Accumulate(Flatten(rounds[|t.requests| - 1]));
       a.Some? && EndsWithHangup(t.events, a.value, responseId, parse)
  }

  lemma {:induction false} HungUpShape(agent: Agent, conversation: seq<Message>, rounds: seq<seq<Chunk>>, responseId: int,
                                       parse: string -> Option<map<string, string>>)
    ensures var t := Run(agent, conversation, rounds, responseId, parse);
            t.ending == HungUp ==> LastRoundHungUp(t, rounds, responseId, parse)
    decreases |rounds|
  {
    if rounds != [] {
      RunUnfold(agent, conversation, rounds, responseId, parse);
      var o := Round(agent, rounds[0], responseId, parse);
      if o.Stop? {
        RoundShape(agent, rounds[0], responseId, parse);
      } else {
        HungUpShape(agent, conversation + o.messages, rounds[1..], responseId, parse);
        var rest := Run(agent, conversation + o.messages, rounds[1..], responseId, parse);
        if rest.ending == HungUp {
          HungUpAfterRound(conversation, o.events, rest, rounds, responseId, parse);
        }
      }
    }
  }

  /** A round that continued keeps a later round's hangup as the turn's last. */
  lemma HungUpAfterRound(conversation: seq<Message>, events: seq<Event>, rest: Trace, rounds: seq<seq<Chunk>>, responseId: int,
                         parse: string -> Option<map<string, string>>)
    requires rounds != [] && LastRoundHungUp(rest, rounds[1..], responseId, parse)
    ensures LastRoundHungUp(Trace([conversation] + rest.requests, events + rest.events, rest.ending), rounds, responseId, parse)
  {
    var last := |rest.requests|;
    assert rounds[1..][last - 1] == rounds[last];
    EndsWithHangupKept(events, rest.events, Accumulate(Flatten(rounds[last])).value, responseId, parse);
  }

  lemma {:induction false} EndCallOnlyOnHangup(agent: Agent, conversation: seq<Message>, rounds: seq<seq<Chunk>>, responseId: int,
                                               parse: string -> Option<map<string, string>>)
    ensures var t := Run(agent, conversation, rounds, responseId, parse);
            forall e :: e in t.events && e.Response? && e.endCall ==> t.ending == HungUp
    decreases |rounds|
  {
    if rounds != [] {
      RoundShape(agent, rounds[0], responseId, parse);
      var o := Round(agent, rounds[0], responseId, parse);
      if o.Continue? {
        EndCallOnlyOnHangup(agent, conversation + o.messages, rounds[1..], responseId, parse);
        var rest := Run(agent, conversation + o.messages, rounds[1..], responseId, parse);
        RunUnfold(agent, conversation, rounds, responseId, parse);
        TailKept(o.events, rest.events);
      }
    }
  }

  /** Events after a prefix keep their last events. */
  lemma TailKept(a: seq<Event>, b: seq<Event>)
    ensures |b| >= 1 ==> (a + b)[|a + b| - 1] == b[|b| - 1]
    ensures |b| >= 2 ==> (a + b)[|a + b| - 2] == b[|b| - 2]
    ensures forall e :: e in a + b <==> e in a || e in b
  {
    if |b| >= 2 {
      assert (a + b)[|a + b| - 2] == b[|b| - 2];
    }
  }

  lemma Associative<T>(a: seq<T>, b: seq<T>, c: seq<T>)
    ensures a + (b + c) == (a + b) + c
  {
  }

  /** The dispatch loop over one round's sorted indices: each call is handled
      in turn, and a hangup returns at once. */
  method DispatchCalls(agent: Agent, calls: map<int, ToolCall>, order: seq<int>, responseId: int,
                       parse: string -> Option<map<string, string>>) returns (events: seq<Event>, newMessages: seq<Message>, hungUp: bool)
    requires forall i :: 0 <= i < |order| ==> order[i] in calls
    ensures Handled(events, newMessages, hungUp) == Dispatch(agent, calls, order, responseId, parse)
  {
    events, newMessages := [], [];
    for k := 0 to |order|
      invariant var rest := Dispatch(agent, calls, order[k..], responseId, parse);
                Dispatch(agent, calls, order, responseId, parse) == Handled(events + rest.events, newMessages + rest.messages, rest.hungUp)
    {
      var h := Handle(agent, calls[order[k]], responseId, parse);
      assert order[k..][1..] == order[k + 1..];
      DispatchUnfold(agent, calls, order[k..], responseId, parse);
      if h.hungUp {
        return events + h.events, newMessages + h.messages, true;
      }
      ghost var rest := Dispatch(agent, calls, order[k + 1..], responseId, parse);
      Associative(events, h.events, rest.events);
      Associative(newMessages, h.messages, rest.messages);
      events, newMessages := events + h.events, newMessages + h.messages;
    }
    assert order[|order|..] == [];
    hungUp := false;
  }

  /** One pass of the `while True` body: stream, then stop or dispatch. */
  method RunRound(agent: Agent, chunks: seq<Chunk>, responseId: int,
                  parse: string -> Option<map<string, string>>) returns (outcome: RoundOutcome)
    ensures outcome == Round(agent, chunks, responseId, parse)
  {
    var texts, funcCalls := StreamRound(chunks);
    var events := TextEvents(responseId, texts);
    if funcCalls.None? {
      return Stop(events, Raised);
    }
    if funcCalls.value == map[] {
      return Stop(events + [Response(responseId, "", true, false)], Completed);
    }
    var dispatched, newMessages, hungUp := DispatchCalls(agent, funcCalls.value, SortedKeys(funcCalls.value.Keys), responseId, parse);
    if hungUp {
      return Stop(events + dispatched, HungUp);
    }
    outcome := Continue(events + dispatched, newMessages);
  }

  /** `draft_response`: the prompt, then round after round, until a round
      brings no tool call (final response), a hangup, or a raise. */
  method DraftResponse(agent: Agent, request: Request, rounds: seq<seq<Chunk>>,
                       parse: string -> Option<map<string, string>>) returns (trace: Trace)
    ensures trace == Draft(agent, request, rounds, parse)
  {
    var conversation := PreparePrompt(agent, request);
    var requests: seq<seq<Message>> := [];
    var events: seq<Event> := [];
    for r := 0 to |rounds|
      invariant var rest := Run(agent, conversation, rounds[r..], request.responseId, parse);
                Draft(agent, request, rounds, parse) == Trace(requests + rest.requests, events + rest.events, rest.ending)
    {
      assert rounds[r..][1..] == rounds[r + 1..];
      RunUnfold(agent, conversation, rounds[r..], request.responseId, parse);
      var outcome := RunRound(agent, rounds[r], request.responseId, parse);
      if outcome.Stop? {
        return Trace(requests + [conversation], events + outcome.events, outcome.ending);
      }
      ghost var rest := Run(agent, conversation + outcome.messages, rounds[r + 1..], request.responseId, parse);
      Associative(requests, [conversation], rest.requests);
      Associative(events, outcome.events, rest.events);
      requests, events := requests + [conversation], events + outcome.events;
      conversation := conversation + outcome.messages;
    }
    assert rounds[|rounds|..] == [];
    trace := Trace(requests, events, OutOfRounds);
  }
}
