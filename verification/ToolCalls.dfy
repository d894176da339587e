/** Reassembly of streamed answers: fragments of tool calls merged by index, and the fold over a whole stream. */
module ToolCalls {
  import opened Wrappers

  datatype Call = Call(index: int, id: string, kind: string, name: string, arguments: string)

  // ----- Merging fragments -----

  function Overlaid(cur: Call, f: Call): Call {
    Call(cur.index, if f.id != "" then f.id else cur.id, if f.kind != "" then f.kind else cur.kind,
         if f.name != "" then f.name else cur.name, cur.arguments + f.arguments)
  }

  /** A fragment whose index is a position already there extends it; any other is appended. */
  function Merged(calls: seq<Call>, f: Call): seq<Call> {
    if 0 <= f.index < |calls| then calls[f.index := Overlaid(calls[f.index], f)] else calls + [f]
  }

  function AllMerged(calls: seq<Call>, fragments: seq<Call>): seq<Call> {
    if fragments == [] then calls
    else Merged(AllMerged(calls, fragments[..|fragments| - 1]), fragments[|fragments| - 1])
  }

  method MergeToolCalls(acc: seq<Call>, delta: seq<Call>) returns (calls: seq<Call>)
    ensures calls == AllMerged(acc, delta)
  {
    calls := acc;
    assert delta[..|delta|] == delta;
    for i := 0 to |delta|
      invariant calls == AllMerged(acc, delta[..i])
    {
      assert delta[..i + 1][..i] == delta[..i];
      var f := delta[i];
      if f.index >= 0 && f.index < |calls| {
        var cur := calls[f.index];
        if f.id != "" {
          cur := cur.(id := f.id);
        }
        if f.kind != "" {
          cur := cur.(kind := f.kind);
        }
        if f.name != "" {
          cur := cur.(name := f.name);
        }
        cur := cur.(arguments := cur.arguments + f.arguments);
        calls := calls[f.index := cur];
      } else {
        calls := calls + [f];
      }
    }
  }

  // ----- What reassembly should give -----

  function LastNonEmpty(ss: seq<string>, default: string): string {
    if ss == [] then default
    else if ss[|ss| - 1] != "" then ss[|ss| - 1]
    else LastNonEmpty(ss[..|ss| - 1], default)
  }

  function Concat(ss: seq<string>): string {
    if ss == [] then "" else Concat(ss[..|ss| - 1]) + ss[|ss| - 1]
  }

  /** The fragments of one index, in order. */
  function Of(fragments: seq<Call>, index: int): seq<Call> {
    if fragments == [] then []
    else
      var before, f := Of(fragments[..|fragments| - 1], index), fragments[|fragments| - 1];
      if f.index == index then before + [f] else before
  }

  function Ids(fs: seq<Call>): seq<string> {
    seq(|fs|, i requires 0 <= i < |fs| => fs[i].id)
  }

  function Kinds(fs: seq<Call>): seq<string> {
    seq(|fs|, i requires 0 <= i < |fs| => fs[i].kind)
  }

  function Names(fs: seq<Call>): seq<string> {
    seq(|fs|, i requires 0 <= i < |fs| => fs[i].name)
  }

  function Arguments(fs: seq<Call>): seq<string> {
    seq(|fs|, i requires 0 <= i < |fs| => fs[i].arguments)
  }

  /** The call its own fragments make: each field its last non-empty value, the arguments all of theirs in order. */
  function Assembled(index: int, fs: seq<Call>): Call {
    Call(index, LastNonEmpty(Ids(fs), ""), LastNonEmpty(Kinds(fs), ""), LastNonEmpty(Names(fs), ""),
         Concat(Arguments(fs)))
  }

  /** How many indices have been opened, counting from 0. */
  function Opened(fragments: seq<Call>): (n: nat) {
    if fragments == [] then 0
    else
      var before, f := Opened(fragments[..|fragments| - 1]), fragments[|fragments| - 1];
      if f.index == before then before + 1 else before
  }

  /** New indices open in the order 0, 1, 2, ... */
  predicate InOrder(fragments: seq<Call>) {
    fragments == [] || (
      var front := fragments[..|fragments| - 1];
      InOrder(front) && 0 <= fragments[|fragments| - 1].index <= Opened(front))
  }

  /** One call per index, assembled from that index's fragments. */
  predicate Grouped(calls: seq<Call>, fragments: seq<Call>) {
    && (forall i | 0 <= i < |calls| :: calls[i] == Assembled(i, Of(fragments, i)))
    && (forall k | 0 <= k < |fragments| :: 0 <= fragments[k].index < |calls|)
  }

  /** The last value that is not empty, or, with `i` past the end, the default when all are. */
  lemma {:induction false} LastNonEmptyIsLast(ss: seq<string>, default: string, i: nat)
    requires i < |ss| ==> ss[i] != ""
    requires i <= |ss| && forall k | (if i < |ss| then i + 1 else 0) <= k < |ss| :: ss[k] == ""
    ensures LastNonEmpty(ss, default) == if i < |ss| then ss[i] else default
  {
    if ss != [] && i != |ss| - 1 {
      LastNonEmptyIsLast(ss[..|ss| - 1], default, if i < |ss| then i else |ss| - 1);
    }
  }

  /** Texts are joined in order. */
  lemma {:induction false} ConcatJoins(a: seq<string>, s: string, b: seq<string>)
    ensures Concat(a + [s] + b) == Concat(a) + s + Concat(b)
  {
    if b == [] {
      assert (a + [s] + b)[..|a|] == a;
    } else {
      assert (a + [s] + b)[..|a| + |b|] == a + [s] + b[..|b| - 1];
      ConcatJoins(a, s, b[..|b| - 1]);
    }
  }

  // ----- Reassembly is right -----

  lemma OneMoreString(ss: seq<string>, s: string, default: string)
    ensures LastNonEmpty(ss + [s], default) == if s != "" then s else LastNonEmpty(ss, default)
    ensures Concat(ss + [s]) == Concat(ss) + s
  {
    assert (ss + [s])[..|ss|] == ss;
  }

  lemma AssembledGrows(index: int, fs: seq<Call>, f: Call)
    requires f.index == index
    ensures Assembled(index, fs + [f]) == if fs == [] then f else Overlaid(Assembled(index, fs), f)
  {
    var gs := fs + [f];
    assert Ids(gs) == Ids(fs) + [f.id] && Kinds(gs) == Kinds(fs) + [f.kind];
    assert Names(gs) == Names(fs) + [f.name] && Arguments(gs) == Arguments(fs) + [f.arguments];
    OneMoreString(Ids(fs), f.id, "");
    OneMoreString(Kinds(fs), f.kind, "");
    OneMoreString(Names(fs), f.name, "");
    OneMoreString(Arguments(fs), f.arguments, "");
    if fs == [] {
      assert "" + f.arguments == f.arguments;
    }
  }

  lemma {:induction false} OfIsEmptyBeyond(fragments: seq<Call>, index: int)
    requires InOrder(fragments)
    ensures 0 <= index < Opened(fragments) <==> Of(fragments, index) != []
    ensures forall k | 0 <= k < |fragments| :: 0 <= fragments[k].index < Opened(fragments)
  {
    if fragments != [] {
      OfIsEmptyBeyond(fragments[..|fragments| - 1], index);
    }
  }

  lemma {:induction false} MergingGroups(fragments: seq<Call>)
    requires InOrder(fragments)
    ensures |AllMerged([], fragments)| == Opened(fragments) && Grouped(AllMerged([], fragments), fragments)
  {
    if fragments != [] {
      var front, f := fragments[..|fragments| - 1], fragments[|fragments| - 1];
      MergingGroups(front);
      var before, calls := AllMerged([], front), AllMerged([], fragments);
      OfIsEmptyBeyond(front, f.index);
      OfIsEmptyBeyond(fragments, f.index);
      AssembledGrows(f.index, Of(front, f.index), f);
      assert calls[f.index] == Assembled(f.index, Of(fragments, f.index));
      forall i | 0 <= i < |calls| ensures calls[i] == Assembled(i, Of(fragments, i)) {
        if i != f.index {
          assert calls[i] == before[i];
        }
      }
    }
  }

  /** Entry `k` of a merge carries index `k` throughout exactly when the indices opened in order. */
  lemma {:induction false} PositionsAreIndicesExactlyWhen(fragments: seq<Call>)
    ensures (forall k | 0 <= k < |AllMerged([], fragments)| :: AllMerged([], fragments)[k].index == k)
            <==> InOrder(fragments)
    ensures InOrder(fragments) ==> |AllMerged([], fragments)| == Opened(fragments)
  {
    if fragments != [] {
      var front, f := fragments[..|fragments| - 1], fragments[|fragments| - 1];
      var before, calls := AllMerged([], front), AllMerged([], fragments);
      PositionsAreIndicesExactlyWhen(front);
      assert forall k | 0 <= k < |before| :: calls[k].index == before[k].index;
      if InOrder(front) && !InOrder(fragments) {
        assert calls[|before|].index != |before|;
      }
    }
  }

  /**
   * Reassembly gives one call per index, built from its own fragments, exactly when new indices open in the order
   * 0, 1, 2, ...
   */
  lemma ReassemblyIsRightExactlyWhen(fragments: seq<Call>)
    ensures Grouped(AllMerged([], fragments), fragments) <==> InOrder(fragments)
  {
    PositionsAreIndicesExactlyWhen(fragments);
    if InOrder(fragments) {
      MergingGroups(fragments);
    }
  }

  /** A failing input: two fragments of one index that is not the first to open stay apart. */
  lemma LateIndexIsSplit()
    ensures var fs := [Call(1, "a", "", "f", "{"), Call(1, "", "", "", "}")];
            AllMerged([], fs) == fs && !Grouped(AllMerged([], fs), fs)
  {
    var fs := [Call(1, "a", "", "f", "{"), Call(1, "", "", "", "}")];
    assert fs[..1] == [fs[0]] && [fs[0]][..0] == [];
    assert AllMerged([], [fs[0]]) == [fs[0]];
    assert !InOrder([fs[0]]);
    ReassemblyIsRightExactlyWhen(fs);
  }

  /** Two streams that give each index the same fragments reassemble alike, however indices interleave. */
  lemma InterleavingIsInvisible(a: seq<Call>, b: seq<Call>)
    requires InOrder(a) && InOrder(b) && forall i: int :: Of(a, i) == Of(b, i)
    ensures AllMerged([], a) == AllMerged([], b)
  {
    MergingGroups(a);
    MergingGroups(b);
    var x, y := AllMerged([], a), AllMerged([], b);
    OfIsEmptyBeyond(a, |x|);
    OfIsEmptyBeyond(b, |x|);
    OfIsEmptyBeyond(a, |y|);
    OfIsEmptyBeyond(b, |y|);
    assert Of(a, |x|) == Of(b, |x|) && Of(a, |y|) == Of(b, |y|);
    assert |x| == |y|;
    forall i | 0 <= i < |x| ensures x[i] == y[i] {
      assert Of(a, i) == Of(b, i);
    }
  }

  /** Where chunks end does not matter. */
  lemma {:induction false} ChunkBoundariesAreInvisible(calls: seq<Call>, a: seq<Call>, b: seq<Call>)
    ensures AllMerged(AllMerged(calls, a), b) == AllMerged(calls, a + b)
  {
    if b == [] {
      assert a + b == a;
    } else {
      assert (a + b)[..|a + b| - 1] == a + b[..|b| - 1];
      ChunkBoundariesAreInvisible(calls, a, b[..|b| - 1]);
    }
  }

  // ----- A whole stream -----

  /** A streamed piece of an answer, or the error that ends it; `usage` stands for the usage report. */
  datatype Chunk = Chunk(error: Option<string>, id: string, model: string, content: string, reasoning: string,
                         calls: seq<Call>, finish: string, usage: Option<int>)

  datatype Response = Response(id: string, model: string, content: string, calls: seq<Call>, finish: string,
                               usage: Option<int>)

  datatype Result = Ok(response: Response) | Err(error: string)

  function FirstError(chunks: seq<Chunk>): Option<string>
    decreases |chunks|
  {
    if chunks == [] then None else if chunks[0].error.Some? then chunks[0].error else FirstError(chunks[1..])
  }

  function Each(chunks: seq<Chunk>, field: Chunk -> string): seq<string> {
    seq(|chunks|, i requires 0 <= i < |chunks| => field(chunks[i]))
  }

  function AllFragments(chunks: seq<Chunk>): seq<Call> {
    if chunks == [] then [] else AllFragments(chunks[..|chunks| - 1]) + chunks[|chunks| - 1].calls
  }

  function LastUsage(chunks: seq<Chunk>): Option<int> {
    if chunks == [] then None
    else if chunks[|chunks| - 1].usage.Some? then chunks[|chunks| - 1].usage
    else LastUsage(chunks[..|chunks| - 1])
  }

  function IdOf(): Chunk -> string {
    (c: Chunk) => c.id
  }

  function ModelOf(): Chunk -> string {
    (c: Chunk) => c.model
  }

  function ContentOf(): Chunk -> string {
    (c: Chunk) => c.content
  }

  function ReasoningOf(): Chunk -> string {
    (c: Chunk) => c.reasoning
  }

  function FinishOf(): Chunk -> string {
    (c: Chunk) => c.finish
  }

  /** The whole answer: reasoning stands in for content that stayed empty, unless that fallback is off. */
  function Answer(chunks: seq<Chunk>, model: string, fallback: bool): Response {
    var content, reasoning := Concat(Each(chunks, ContentOf())), Concat(Each(chunks, ReasoningOf()));
    Response(LastNonEmpty(Each(chunks, IdOf()), ""), LastNonEmpty(Each(chunks, ModelOf()), model),
             if content == "" && reasoning != "" && fallback then reasoning else content,
             AllMerged([], AllFragments(chunks)), LastNonEmpty(Each(chunks, FinishOf()), ""), LastUsage(chunks))
  }

  lemma FieldGrows(chunks: seq<Chunk>, i: nat, field: Chunk -> string, default: string)
    requires i < |chunks|
    ensures var before, after, s := Each(chunks[..i], field), Each(chunks[..i + 1], field), field(chunks[i]);
            && LastNonEmpty(after, default) == (if s != "" then s else LastNonEmpty(before, default))
            && Concat(after) == Concat(before) + s
  {
    assert Each(chunks[..i + 1], field) == Each(chunks[..i], field) + [field(chunks[i])];
    OneMoreString(Each(chunks[..i], field), field(chunks[i]), default);
  }

  lemma CallsAndUsageGrow(chunks: seq<Chunk>, i: nat)
    requires i < |chunks|
    ensures AllMerged([], AllFragments(chunks[..i + 1]))
            == AllMerged(AllMerged([], AllFragments(chunks[..i])), chunks[i].calls)
    ensures LastUsage(chunks[..i + 1]) == if chunks[i].usage.Some? then chunks[i].usage else LastUsage(chunks[..i])
  {
    assert chunks[..i + 1][..i] == chunks[..i];
    ChunkBoundariesAreInvisible([], AllFragments(chunks[..i]), chunks[i].calls);
  }

  lemma {:induction false} NoErrorYet(chunks: seq<Chunk>, i: nat)
    requires i <= |chunks| && forall k | 0 <= k < i :: chunks[k].error.None?
    ensures FirstError(chunks) == FirstError(chunks[i..])
    decreases i
  {
    if i > 0 {
      NoErrorYet(chunks[1..], i - 1);
      assert chunks[1..][i - 1..] == chunks[i..];
    }
  }

  /** What the loop has collected after some chunks, before the fallback. */
  ghost predicate Collected(chunks: seq<Chunk>, requested: string, r: Response, reasoning: string) {
    && r.content == Concat(Each(chunks, ContentOf())) && reasoning == Concat(Each(chunks, ReasoningOf()))
    && r.id == LastNonEmpty(Each(chunks, IdOf()), "") && r.model == LastNonEmpty(Each(chunks, ModelOf()), requested)
    && r.finish == LastNonEmpty(Each(chunks, FinishOf()), "") && r.usage == LastUsage(chunks)
    && r.calls == AllMerged([], AllFragments(chunks))
  }

  function Extended(r: Response, c: Chunk): Response {
    Response(if c.id != "" then c.id else r.id, if c.model != "" then c.model else r.model, r.content + c.content,
             AllMerged(r.calls, c.calls), if c.finish != "" then c.finish else r.finish,
             if c.usage.Some? then c.usage else r.usage)
  }

  lemma CollectOne(chunks: seq<Chunk>, i: nat, requested: string, r: Response, reasoning: string)
    requires i < |chunks| && Collected(chunks[..i], requested, r, reasoning)
    ensures Collected(chunks[..i + 1], requested, Extended(r, chunks[i]), reasoning + chunks[i].reasoning)
  {
    FieldGrows(chunks, i, ContentOf(), "");
    FieldGrows(chunks, i, ReasoningOf(), "");
    FieldGrows(chunks, i, IdOf(), "");
    FieldGrows(chunks, i, ModelOf(), requested);
    FieldGrows(chunks, i, FinishOf(), "");
    CallsAndUsageGrow(chunks, i);
  }

  lemma NothingCollected(requested: string)
    ensures Collected([], requested, Response("", requested, "", [], "", None), "")
  {
  }

  lemma CollectedAnswers(chunks: seq<Chunk>, requested: string, r: Response, reasoning: string, fallback: bool)
    requires Collected(chunks, requested, r, reasoning)
    ensures Answer(chunks, requested, fallback)
            == if r.content == "" && reasoning != "" && fallback then r.(content := reasoning) else r
  {
  }

  /** An answer, chunk by chunk: from nothing but the requested model, each chunk adds its own fields. */
  lemma AnswerInFields(chunks: seq<Chunk>, c: Chunk, requested: string)
    ensures Answer([], requested, false) == Response("", requested, "", [], "", None)
    ensures var (before, after) := (Answer(chunks, requested, false), Answer(chunks + [c], requested, false));
            && after.content == before.content + c.content
            && after.id == (if c.id != "" then c.id else before.id)
            && after.model == (if c.model != "" then c.model else before.model)
            && after.finish == (if c.finish != "" then c.finish else before.finish)
            && after.usage == (if c.usage.Some? then c.usage else before.usage)
            && after.calls == AllMerged(before.calls, c.calls)
  {
    var all, i := chunks + [c], |chunks|;
    assert all[..i] == chunks && all[..i + 1] == all;
    FieldGrows(all, i, ContentOf(), "");
    FieldGrows(all, i, IdOf(), "");
    FieldGrows(all, i, ModelOf(), requested);
    FieldGrows(all, i, FinishOf(), "");
    CallsAndUsageGrow(all, i);
  }

  /** The fallback changes an answer only when no chunk has content, and then to all the reasoning, in order. */
  lemma FallbackInFields(chunks: seq<Chunk>, requested: string)
    ensures var (plain, full) := (Answer(chunks, requested, false), Answer(chunks, requested, true));
            && (plain.content != "" ==> full == plain)
            && (plain.content == "" ==> full == plain.(content := Concat(Each(chunks, (c: Chunk) => c.reasoning))))
  {
    assert Each(chunks, ReasoningOf()) == Each(chunks, (c: Chunk) => c.reasoning);
  }

  lemma {:induction false} FirstErrorIsFirst(chunks: seq<Chunk>)
    ensures FirstError(chunks).None? <==> forall c | c in chunks :: c.error.None?
    ensures FirstError(chunks).Some? ==>
              exists i | 0 <= i < |chunks| ::
                chunks[i].error == FirstError(chunks) && forall k | 0 <= k < i :: chunks[k].error.None?
    decreases |chunks|
  {
    if chunks != [] {
      var rest := chunks[1..];
      FirstErrorIsFirst(rest);
      assert chunks == [chunks[0]] + rest;
      if chunks[0].error.None? && FirstError(rest).Some? {
        var i :| 0 <= i < |rest| && rest[i].error == FirstError(rest) && forall k | 0 <= k < i :: rest[k].error.None?;
        assert chunks[i + 1].error == FirstError(chunks);
        assert forall k | 0 <= k < i + 1 :: chunks[k].error.None?;
      }
    }
  }

  /** Collects a stream into one answer; the first error discards it. */
  method GenerateViaStream(chunks: seq<Chunk>, requested: string, fallback: bool) returns (r: Result)
    ensures r == match FirstError(chunks)
                 case Some(e) => Err(e)
                 case None => Ok(Answer(chunks, requested, fallback))
    ensures r.Ok? <==> forall c | c in chunks :: c.error.None?
    ensures r.Err? ==> exists i | 0 <= i < |chunks| ::
                         chunks[i].error == Some(r.error) && forall k | 0 <= k < i :: chunks[k].error.None?
  {
    FirstErrorIsFirst(chunks);
    var content, reasoning, finish, id, model := "", "", "", "", requested;
    var calls: seq<Call> := [];
    var usage: Option<int> := None;
    NothingCollected(requested);
    assert chunks[..0] == [] && chunks[..|chunks|] == chunks;
    for i := 0 to |chunks|
      invariant forall k | 0 <= k < i :: chunks[k].error.None?
      invariant Collected(chunks[..i], requested, Response(id, model, content, calls, finish, usage), reasoning)
    {
      var chunk := chunks[i];
      NoErrorYet(chunks, i);
      if chunk.error.Some? {
        return Err(chunk.error.value);
      }
      ghost var before := Response(id, model, content, calls, finish, usage);
      CollectOne(chunks, i, requested, before, reasoning);
      if chunk.id != "" {
        id := chunk.id;
      }
      if chunk.model != "" {
        model := chunk.model;
      }
      content := content + chunk.content;
      reasoning := reasoning + chunk.reasoning;
      if |chunk.calls| > 0 {
        calls := MergeToolCalls(calls, chunk.calls);
      }
      if chunk.finish != "" {
        finish := chunk.finish;
      }
      if chunk.usage.Some? {
        usage := chunk.usage;
      }
      assert Response(id, model, content, calls, finish, usage) == Extended(before, chunk);
    }
    NoErrorYet(chunks, |chunks|);
    CollectedAnswers(chunks, requested, Response(id, model, content, calls, finish, usage), reasoning, fallback);
    if content == "" && |reasoning| > 0 && fallback {
      content := reasoning;
    }
    r := Ok(Response(id, model, content, calls, finish, usage));
  }

  /** The same text and the same fragments per index, cut into chunks in any way. */
  ghost predicate SameStream(a: seq<Chunk>, b: seq<Chunk>) {
    && Concat(Each(a, ContentOf())) == Concat(Each(b, ContentOf()))
    && Concat(Each(a, ReasoningOf())) == Concat(Each(b, ReasoningOf()))
    && LastNonEmpty(Each(a, IdOf()), "") == LastNonEmpty(Each(b, IdOf()), "")
    && LastNonEmpty(Each(a, ModelOf()), "") == LastNonEmpty(Each(b, ModelOf()), "")
    && LastNonEmpty(Each(a, FinishOf()), "") == LastNonEmpty(Each(b, FinishOf()), "")
    && LastUsage(a) == LastUsage(b)
    && InOrder(AllFragments(a)) && InOrder(AllFragments(b))
    && forall i: int :: Of(AllFragments(a), i) == Of(AllFragments(b), i)
  }

  lemma {:induction false} DefaultOnlyWhenAllEmpty(ss: seq<string>, default: string)
    ensures LastNonEmpty(ss, default) == if LastNonEmpty(ss, "") == "" then default else LastNonEmpty(ss, "")
  {
    if ss != [] {
      DefaultOnlyWhenAllEmpty(ss[..|ss| - 1], default);
    }
  }

  /** How a stream is cut into chunks, and how its indices interleave, cannot be seen in the answer. */
  lemma ChunkingIsInvisible(a: seq<Chunk>, b: seq<Chunk>, model: string, fallback: bool)
    requires SameStream(a, b)
    ensures Answer(a, model, fallback) == Answer(b, model, fallback)
  {
    InterleavingIsInvisible(AllFragments(a), AllFragments(b));
    DefaultOnlyWhenAllEmpty(Each(a, ModelOf()), model);
    DefaultOnlyWhenAllEmpty(Each(b, ModelOf()), model);
  }
}
