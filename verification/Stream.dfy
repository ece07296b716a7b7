/** The OpenAI client's two ways of receiving one reply: whole, and as a stream of fragments. */
module Streaming {
  import opened Wrappers
  import opened ChatTypes

  /** A fragment of one tool call; an absent field is the empty string. */
  datatype ToolDelta = ToolDelta(index: int, id: string, name: string, args: string)

  datatype Chunk = NoChoices | Chunk(content: string, toolCalls: seq<ToolDelta>, finishReason: string)

  datatype WholeCall = WholeCall(id: string, name: string, args: string)

  datatype Whole = Whole(text: string, calls: seq<WholeCall>, finishReason: string)

  /** What the caller gets back from either path. */
  datatype Received = Received(content: seq<Block>, stopReason: string)

  function StopReason(reason: string): string {
    if reason == "stop" then "end_turn"
    else if reason == "tool_calls" then "tool_use"
    else if reason == "length" then "max_tokens"
    else if reason == "content_filter" then "stop_sequence"
    else reason
  }

  /** `json.loads(args or "{}")`, with `{}` when that raises. */
  function ParseInput(loads: string -> Option<Json>, args: string): Json {
    match loads(if args == "" then "{}" else args)
    case Some(j) => j
    case None => EMPTY_OBJECT
  }

  // ---------- the whole reply ----------

  function CallBlocks(calls: seq<WholeCall>, loads: string -> Option<Json>): seq<Block> {
    if calls == [] then []
    else CallBlocks(calls[..|calls| - 1], loads)
         + [ToolUse(calls[|calls| - 1].id, calls[|calls| - 1].name, ParseInput(loads, calls[|calls| - 1].args))]
  }

  function Batch(w: Whole, loads: string -> Option<Json>): Received {
    Received((if w.text == "" then [] else [Text(w.text)]) + CallBlocks(w.calls, loads), StopReason(w.finishReason))
  }

  /** The content is the text, if any, and then one block per call, with its id, its name and its arguments as read; the
      finish reason is renamed. */
  predicate Carries(w: Whole, loads: string -> Option<Json>, r: Received) {
    var head := if w.text == "" then 0 else 1;
    |r.content| == head + |w.calls|
    && (w.text != "" ==> r.content[0] == Text(w.text))
    && (forall i :: 0 <= i < |w.calls| ==> IsCall(w.calls[i], loads, r.content[head + i]))
    && Renamed(w.finishReason, r.stopReason)
  }

  predicate IsCall(c: WholeCall, loads: string -> Option<Json>, b: Block) {
    var parsed := loads(if c.args == "" then "{}" else c.args);
    b.ToolUse? && b.id == c.id && b.name == c.name
    && (parsed.Some? ==> b.input == parsed.value) && (parsed.None? ==> b.input == Obj("{}"))
  }

  predicate Renamed(reason: string, stop: string) {
    (reason == "stop" ==> stop == "end_turn")
    && (reason == "tool_calls" ==> stop == "tool_use")
    && (reason == "length" ==> stop == "max_tokens")
    && (reason == "content_filter" ==> stop == "stop_sequence")
    && (reason !in ["stop", "tool_calls", "length", "content_filter"] ==> stop == reason)
  }

  lemma {:induction false} BlocksAreCalls(calls: seq<WholeCall>, loads: string -> Option<Json>)
    ensures |CallBlocks(calls, loads)| == |calls|
    ensures forall i :: 0 <= i < |calls| ==> IsCall(calls[i], loads, CallBlocks(calls, loads)[i])
  {
    if calls != [] {
      BlocksAreCalls(calls[..|calls| - 1], loads);
    }
  }

  /** What is received carries the message, whatever the message. */
  lemma BatchCarries(w: Whole, loads: string -> Option<Json>)
    ensures Carries(w, loads, Batch(w, loads))
  {
    BlocksAreCalls(w.calls, loads);
  }

  /** And nothing else carries it. */
  lemma CarriesOnlyOne(w: Whole, loads: string -> Option<Json>, r: Received)
    requires Carries(w, loads, r)
    ensures r == Batch(w, loads)
  {
    BatchCarries(w, loads);
    var b := Batch(w, loads);
    var head := if w.text == "" then 0 else 1;
    forall i | 0 <= i < |r.content|
      ensures r.content[i] == b.content[i]
    {
      if i >= head {
        assert IsCall(w.calls[i - head], loads, r.content[head + (i - head)]);
        assert IsCall(w.calls[i - head], loads, b.content[head + (i - head)]);
      }
    }
  }

  method ReceiveWhole(w: Whole, loads: string -> Option<Json>) returns (r: Received)
    ensures r == Batch(w, loads) && Carries(w, loads, r)
  {
    BatchCarries(w, loads);
    hide Carries;
    var content := [];
    if w.text != "" {
      content := content + [Text(w.text)];
    }
    ghost var head := content;
    for i := 0 to |w.calls|
      invariant content == head + CallBlocks(w.calls[..i], loads)
    {
      assert w.calls[..i + 1][..i] == w.calls[..i];
      content := content + [ToolUse(w.calls[i].id, w.calls[i].name, ParseInput(loads, w.calls[i].args))];
    }
    assert w.calls[..|w.calls|] == w.calls;
    r := Received(content, StopReason(w.finishReason));
  }

  // ---------- what a sequence of fragments carries, field by field ----------

  function Concat(parts: seq<string>): string {
    if parts == [] then "" else Concat(parts[..|parts| - 1]) + parts[|parts| - 1]
  }

  function LastNonEmpty(parts: seq<string>): string {
    if parts == [] then ""
    else if parts[|parts| - 1] != "" then parts[|parts| - 1]
    else LastNonEmpty(parts[..|parts| - 1])
  }

  function Contents(chunks: seq<Chunk>): seq<string> {
    if chunks == [] then []
    else
      var c := chunks[|chunks| - 1];
      Contents(chunks[..|chunks| - 1]) + (if c.NoChoices? then [] else [c.content])
  }

  function Finishes(chunks: seq<Chunk>): seq<string> {
    if chunks == [] then []
    else
      var c := chunks[|chunks| - 1];
      Finishes(chunks[..|chunks| - 1]) + (if c.NoChoices? then [] else [c.finishReason])
  }

  function Deltas(chunks: seq<Chunk>): seq<ToolDelta> {
    if chunks == [] then []
    else
      var c := chunks[|chunks| - 1];
      Deltas(chunks[..|chunks| - 1]) + (if c.NoChoices? then [] else c.toolCalls)
  }

  /** The fragments of the call at `index`, in arrival order. */
  function Of(ds: seq<ToolDelta>, index: int): seq<ToolDelta> {
    if ds == [] then []
    else Of(ds[..|ds| - 1], index) + (if ds[|ds| - 1].index == index then [ds[|ds| - 1]] else [])
  }

  function IdsOf(ds: seq<ToolDelta>): (r: seq<string>)
    ensures |r| == |ds|
  {
    seq(|ds|, i requires 0 <= i < |ds| => ds[i].id)
  }

  function NamesOf(ds: seq<ToolDelta>): (r: seq<string>)
    ensures |r| == |ds|
  {
    seq(|ds|, i requires 0 <= i < |ds| => ds[i].name)
  }

  function ArgsOf(ds: seq<ToolDelta>): (r: seq<string>)
    ensures |r| == |ds|
  {
    seq(|ds|, i requires 0 <= i < |ds| => ds[i].args)
  }

  /** The call that a call's own fragments spell. */
  function Spelled(ds: seq<ToolDelta>): WholeCall {
    WholeCall(LastNonEmpty(IdsOf(ds)), LastNonEmpty(NamesOf(ds)), Concat(ArgsOf(ds)))
  }

  predicate Ascending(ks: seq<int>) {
    forall i, j :: 0 <= i < j < |ks| ==> ks[i] < ks[j]
  }

  /** Adds `k` to an ascending list that lacks it. */
  function InsertIndex(ks: seq<int>, k: int): seq<int> {
    if ks == [] then [k]
    else if k == ks[0] then ks
    else if k < ks[0] then [k] + ks
    else [ks[0]] + InsertIndex(ks[1..], k)
  }

  /** The indices that occur, ascending and once each. */
  function Indices(ds: seq<ToolDelta>): seq<int> {
    if ds == [] then [] else InsertIndex(Indices(ds[..|ds| - 1]), ds[|ds| - 1].index)
  }

  function CallsAt(ds: seq<ToolDelta>, ks: seq<int>): (cs: seq<WholeCall>)
    ensures |cs| == |ks| && forall i :: 0 <= i < |ks| ==> cs[i] == Spelled(Of(ds, ks[i]))
  {
    seq(|ks|, i requires 0 <= i < |ks| => Spelled(Of(ds, ks[i])))
  }

  /** The reply that a stream spells. */
  function Assembled(chunks: seq<Chunk>): Whole {
    var ds := Deltas(chunks);
    Whole(Concat(Contents(chunks)), CallsAt(ds, Indices(ds)), LastNonEmpty(Finishes(chunks)))
  }

  /** `chunks` is some fragmentation of `w`, with call number p sent under index `ix[p]`. */
  predicate Fragments(w: Whole, ix: seq<int>, chunks: seq<Chunk>) {
    var ds := Deltas(chunks);
    && Ascending(ix) && |ix| == |w.calls|
    && Concat(Contents(chunks)) == w.text
    && LastNonEmpty(Finishes(chunks)) == w.finishReason
    && (forall d :: d in ds ==> d.index in ix)
    && (forall p :: 0 <= p < |ix| ==> Of(ds, ix[p]) != [] && Spelled(Of(ds, ix[p])) == w.calls[p])
  }

  // ---------- the streaming code ----------

  datatype Frag = Frag(id: string, name: string, args: string)

  method ReceiveStream(chunks: seq<Chunk>, loads: string -> Option<Json>)
    returns (textDeltas: seq<string>, r: Received)
    ensures r == Batch(Assembled(chunks), loads) && Carries(Assembled(chunks), loads, r)
    ensures Concat(textDeltas) == Assembled(chunks).text && "" !in textDeltas
  {
    hide Batch, Spelled, Contents, Finishes, Deltas, LastNonEmpty, Carries;
    var keys: seq<int> := [];
    var frags: map<int, Frag> := map[];
    var finishReason := "";
    textDeltas := [];
    Nothing();
    for c := 0 to |chunks|
      invariant Concat(textDeltas) == Concat(Contents(chunks[..c])) && "" !in textDeltas
      invariant finishReason == LastNonEmpty(Finishes(chunks[..c]))
      invariant Tracks(keys, frags, Deltas(chunks[..c]))
    {
      hide Tracks, Concat;
      var chunk := chunks[c];
      NextChunk(chunks, c);
      if chunk.NoChoices? {
        continue;
      }
      if chunk.content != "" {
        ConcatAppend(textDeltas, chunk.content);
        textDeltas := textDeltas + [chunk.content];
      }
      keys, frags := AbsorbDeltas(keys, frags, chunk.toolCalls, Deltas(chunks[..c]));
      if chunk.finishReason != "" {
        finishReason := chunk.finishReason;
      }
    }
    assert chunks[..|chunks|] == chunks;
    r := Finish(textDeltas, keys, frags, finishReason, loads, Deltas(chunks));
    BatchCarries(Assembled(chunks), loads);
  }

  /** After the last chunk: builds the content from the text and the fragment table. */
  method Finish(textBuf: seq<string>, keys: seq<int>, frags: map<int, Frag>, finishReason: string,
                loads: string -> Option<Json>, ghost ds: seq<ToolDelta>) returns (r: Received)
    requires Tracks(keys, frags, ds) && "" !in textBuf
    ensures r == Batch(Whole(Concat(textBuf), CallsAt(ds, Indices(ds)), finishReason), loads)
  {
    hide Spelled, Indices, IsCall, CallBlocks, StopReason;
    var content := [];
    if textBuf != [] {
      NonEmptyConcat(textBuf);
      content := content + [Text(Concat(textBuf))];
    }
    var sorted := SortKeys(keys);
    IndicesAscending(ds);
    AscendingUnique(sorted, Indices(ds));
    var blocks := FragBlocks(sorted, keys, frags, loads, ds);
    r := Received(content + blocks, StopReason(finishReason));
  }

  method FragBlocks(sorted: seq<int>, ghost keys: seq<int>, frags: map<int, Frag>, loads: string -> Option<Json>,
                    ghost ds: seq<ToolDelta>)
    returns (blocks: seq<Block>)
    requires Tracks(keys, frags, ds) && forall k :: k in sorted ==> k in keys
    ensures blocks == CallBlocks(CallsAt(ds, sorted), loads)
    ensures |blocks| == |sorted|
    ensures forall i :: 0 <= i < |sorted| ==> IsCall(Spelled(Of(ds, sorted[i])), loads, blocks[i])
  {
    BlocksAreCalls(CallsAt(ds, sorted), loads);
    hide IsCall, Spelled, Indices, ParseInput, Of;
    blocks := [];
    ghost var calls := CallsAt(ds, sorted);
    for i := 0 to |sorted|
      invariant blocks == CallBlocks(calls[..i], loads)
    {
      assert calls[..i + 1][..i] == calls[..i];
      var frag := frags[sorted[i]];
      blocks := blocks + [ToolUse(frag.id, frag.name, ParseInput(loads, frag.args))];
    }
    assert calls[..|sorted|] == calls;
  }

  lemma Nothing()
    ensures Contents([]) == [] && Finishes([]) == [] && Deltas([]) == []
    ensures LastNonEmpty([]) == "" && Tracks([], map[], [])
  {
  }

  /** What one more chunk adds to each field. */
  lemma NextChunk(chunks: seq<Chunk>, c: nat)
    requires c < |chunks|
    ensures var chunk := chunks[c];
      if chunk.NoChoices? then
        Contents(chunks[..c + 1]) == Contents(chunks[..c]) && Finishes(chunks[..c + 1]) == Finishes(chunks[..c])
        && Deltas(chunks[..c + 1]) == Deltas(chunks[..c])
      else
        Concat(Contents(chunks[..c + 1])) == Concat(Contents(chunks[..c])) + chunk.content
        && LastNonEmpty(Finishes(chunks[..c + 1]))
           == (if chunk.finishReason != "" then chunk.finishReason else LastNonEmpty(Finishes(chunks[..c])))
        && Deltas(chunks[..c + 1]) == Deltas(chunks[..c]) + chunk.toolCalls
  {
    hide Concat, LastNonEmpty;
    assert chunks[..c + 1][..c] == chunks[..c];
    if !chunks[c].NoChoices? {
      ConcatAppend(Contents(chunks[..c]), chunks[c].content);
      LastNonEmptyAppend(Finishes(chunks[..c]), chunks[c].finishReason);
    }
  }

  /** The fragment table after the fragments `ds`; `keys` lists its keys in insertion order. */
  ghost predicate Tracks(keys: seq<int>, frags: map<int, Frag>, ds: seq<ToolDelta>) {
    (forall k :: k in keys <==> k in Indices(ds))
    && (forall k :: k in keys <==> k in frags)
    && (forall k :: k in frags ==>
          frags[k].id == Spelled(Of(ds, k)).id && frags[k].name == Spelled(Of(ds, k)).name
          && frags[k].args == Spelled(Of(ds, k)).args)
  }

  method AbsorbDeltas(keysBefore: seq<int>, before: map<int, Frag>, ds: seq<ToolDelta>, ghost past: seq<ToolDelta>)
    returns (keys: seq<int>, frags: map<int, Frag>)
    requires Tracks(keysBefore, before, past)
    ensures Tracks(keys, frags, past + ds)
  {
    hide Tracks;
    keys, frags := keysBefore, before;
    assert past + ds[..0] == past;
    for j := 0 to |ds|
      invariant Tracks(keys, frags, past + ds[..j])
    {
      ghost var seen := past + ds[..j];
      var d := ds[j];
      var frag := if d.index in frags then frags[d.index] else Frag("", "", "");
      if d.id != "" {
        frag := frag.(id := d.id);
      }
      if d.name != "" {
        frag := frag.(name := d.name);
      }
      frag := frag.(args := frag.args + d.args);
      TrackOne(keys, frags, seen, d, frag);
      if d.index !in frags {
        keys := keys + [d.index];
      }
      frags := frags[d.index := frag];
      assert past + ds[..j + 1] == seen + [d];
    }
    assert past + ds[..|ds|] == past + ds;
  }

  method SortKeys(ks: seq<int>) returns (r: seq<int>)
    ensures Ascending(r) && forall k :: k in r <==> k in ks
  {
    r := [];
    for i := 0 to |ks|
      invariant Ascending(r) && forall k :: k in r <==> k in ks[..i]
    {
      InsertIndexAscends(r, ks[i]);
      r := InsertIndex(r, ks[i]);
      assert ks[..i + 1] == ks[..i] + [ks[i]];
    }
    assert ks[..|ks|] == ks;
  }

  // ---------- lemmas ----------

  lemma {:induction false} InsertIndexMembers(ks: seq<int>, k: int)
    ensures forall x :: x in InsertIndex(ks, k) <==> x in ks || x == k
  {
    if ks != [] && k > ks[0] {
      InsertIndexMembers(ks[1..], k);
      assert ks == [ks[0]] + ks[1..];
    }
  }

  lemma TailIsAbove(ks: seq<int>)
    requires Ascending(ks) && ks != []
    ensures Ascending(ks[1..]) && forall x :: x in ks[1..] ==> ks[0] < x
  {
  }

  lemma PrependAscends(k: int, ks: seq<int>)
    requires Ascending(ks) && forall x :: x in ks ==> k < x
    ensures Ascending([k] + ks)
  {
    assert forall i :: 0 <= i < |ks| ==> ks[i] in ks;
  }

  lemma {:induction false} InsertIndexAscends(ks: seq<int>, k: int)
    requires Ascending(ks)
    ensures Ascending(InsertIndex(ks, k))
    ensures forall x :: x in InsertIndex(ks, k) <==> x in ks || x == k
  {
    InsertIndexMembers(ks, k);
    if ks != [] && k > ks[0] {
      InsertIndexAscends(ks[1..], k);
      TailIsAbove(ks);
      PrependAscends(ks[0], InsertIndex(ks[1..], k));
    }
  }

  lemma {:induction false} IndicesAscending(ds: seq<ToolDelta>)
    ensures Ascending(Indices(ds))
    ensures forall k :: k in Indices(ds) <==> Of(ds, k) != []
    ensures forall k :: k in Indices(ds) <==> exists d :: d in ds && d.index == k
  {
    if ds != [] {
      var init, last := ds[..|ds| - 1], ds[|ds| - 1];
      IndicesAscending(init);
      InsertIndexAscends(Indices(init), last.index);
      assert ds == init + [last];
    }
  }

  lemma Inhabited(s: seq<int>)
    ensures s == [] || exists k :: k in s
  {
    if s != [] {
      var k := s[0];
      assert k in s;
    }
  }

  lemma {:induction false} AscendingUnique(s: seq<int>, t: seq<int>)
    requires Ascending(s) && Ascending(t)
    requires forall k :: k in s <==> k in t
    ensures s == t
  {
    if s == [] {
      Inhabited(t);
    } else {
      assert s[0] in t && t[0] in s;
      assert s[0] == t[0];
      forall k
        ensures k in s[1..] <==> k in t[1..]
      {
        assert k in s <==> k == s[0] || k in s[1..];
        assert k in t <==> k == t[0] || k in t[1..];
        assert s[0] !in s[1..] && t[0] !in t[1..];
      }
      AscendingUnique(s[1..], t[1..]);
    }
  }

  lemma NonEmptyConcat(parts: seq<string>)
    requires parts != [] && "" !in parts
    ensures Concat(parts) != ""
  {
    assert parts[|parts| - 1] in parts;
  }

  lemma SpelledAppend(ds: seq<ToolDelta>, d: ToolDelta)
    ensures var s, s' := Spelled(ds), Spelled(ds + [d]);
      s'.id == (if d.id != "" then d.id else s.id) && s'.name == (if d.name != "" then d.name else s.name)
      && s'.args == s.args + d.args
  {
    assert IdsOf(ds + [d]) == IdsOf(ds) + [d.id];
    assert NamesOf(ds + [d]) == NamesOf(ds) + [d.name];
    assert ArgsOf(ds + [d]) == ArgsOf(ds) + [d.args];
    LastNonEmptyAppend(IdsOf(ds), d.id);
    LastNonEmptyAppend(NamesOf(ds), d.name);
    ConcatAppend(ArgsOf(ds), d.args);
  }

  lemma LastNonEmptyAppend(parts: seq<string>, p: string)
    ensures LastNonEmpty(parts + [p]) == if p != "" then p else LastNonEmpty(parts)
  {
    assert (parts + [p])[..|parts|] == parts;
  }

  lemma ConcatAppend(parts: seq<string>, p: string)
    ensures Concat(parts + [p]) == Concat(parts) + p
  {
    assert (parts + [p])[..|parts|] == parts;
  }

  lemma OfAppend(ds: seq<ToolDelta>, d: ToolDelta, k: int)
    ensures Of(ds + [d], k) == Of(ds, k) + (if d.index == k then [d] else [])
  {
    assert (ds + [d])[..|ds|] == ds;
  }

  lemma TrackOne(keys: seq<int>, frags: map<int, Frag>, seen: seq<ToolDelta>, d: ToolDelta, frag: Frag)
    requires Tracks(keys, frags, seen)
    requires var prev := if d.index in frags then frags[d.index] else Frag("", "", "");
      frag.id == (if d.id != "" then d.id else prev.id) && frag.name == (if d.name != "" then d.name else prev.name)
      && frag.args == prev.args + d.args
    ensures Tracks(if d.index in frags then keys else keys + [d.index], frags[d.index := frag], seen + [d])
  {
    hide Spelled, Of, Indices;
    IndicesStep(seen, d);
    NotYetSeen(seen, d.index);
    forall k | k in frags[d.index := frag]
      ensures var f := frags[d.index := frag][k]; var s := Spelled(Of(seen + [d], k));
        f.id == s.id && f.name == s.name && f.args == s.args
    {
      TrackField(seen, d, k);
    }
  }

  lemma IndicesStep(seen: seq<ToolDelta>, d: ToolDelta)
    ensures forall k :: k in Indices(seen + [d]) <==> k in Indices(seen) || k == d.index
  {
    assert (seen + [d])[..|seen|] == seen;
    InsertIndexMembers(Indices(seen), d.index);
  }

  lemma NotYetSeen(seen: seq<ToolDelta>, k: int)
    ensures k !in Indices(seen) ==> Spelled(Of(seen, k)) == WholeCall("", "", "")
  {
    hide Spelled, Of, Indices;
    IndicesAscending(seen);
    SpelledEmpty();
  }

  lemma TrackField(seen: seq<ToolDelta>, d: ToolDelta, k: int)
    ensures var s, t := Spelled(Of(seen, k)), Spelled(Of(seen + [d], k));
      if k != d.index then t == s
      else t.id == (if d.id != "" then d.id else s.id) && t.name == (if d.name != "" then d.name else s.name)
           && t.args == s.args + d.args
  {
    hide Spelled;
    OfAppend(seen, d, k);
    SpelledAppend(Of(seen, k), d);
    assert Of(seen, k) + [] == Of(seen, k);
  }

  lemma SpelledEmpty()
    ensures Spelled([]) == WholeCall("", "", "")
  {
  }

  // ---------- chunking does not matter ----------

  /** A stream spells `w` exactly when it is a fragmentation of `w`, under whatever ascending indices. */
  lemma AssembledIff(w: Whole, chunks: seq<Chunk>)
    ensures Assembled(chunks) == w <==> exists ix :: Fragments(w, ix, chunks)
  {
    var ds := Deltas(chunks);
    IndicesAscending(ds);
    if Assembled(chunks) == w {
      assert Fragments(w, Indices(ds), chunks);
    }
    if ix :| Fragments(w, ix, chunks) {
      forall k
        ensures k in ix <==> k in Indices(ds)
      {
        if k in ix {
          var p :| 0 <= p < |ix| && ix[p] == k;
          assert Of(ds, ix[p]) != [];
        }
      }
      AscendingUnique(ix, Indices(ds));
    }
  }

  /** However a reply is cut up, interleaved and indexed, the stream path gives what the whole path gives. */
  lemma StreamEqualsWhole(w: Whole, ix: seq<int>, chunks: seq<Chunk>, loads: string -> Option<Json>)
    requires Fragments(w, ix, chunks)
    ensures Batch(Assembled(chunks), loads) == Batch(w, loads)
  {
    AssembledIff(w, chunks);
  }

  /** Fragments of different calls commute. */
  lemma InterleavingIrrelevant(l: seq<ToolDelta>, d: ToolDelta, e: ToolDelta, r: seq<ToolDelta>, k: int)
    requires d.index != e.index
    ensures Of(l + [d, e] + r, k) == Of(l + [e, d] + r, k)
  {
    OfConcat(l + [d, e], r, k);
    OfConcat(l + [e, d], r, k);
    assert l + [d, e] == l + [d] + [e] && l + [e, d] == l + [e] + [d];
    OfAppend(l, d, k);
    OfAppend(l + [d], e, k);
    OfAppend(l, e, k);
    OfAppend(l + [e], d, k);
  }

  lemma {:induction false} OfConcat(s: seq<ToolDelta>, t: seq<ToolDelta>, k: int)
    ensures Of(s + t, k) == Of(s, k) + Of(t, k)
  {
    if t == [] {
      assert s + t == s;
    } else {
      assert (s + t)[..|s + t| - 1] == s + t[..|t| - 1];
      OfConcat(s, t[..|t| - 1], k);
    }
  }

  /** Calls that share an index are merged: there are as many calls in the result as distinct indices in the stream. */
  lemma OneCallPerIndex(chunks: seq<Chunk>, loads: string -> Option<Json>)
    ensures |ToolUses(Batch(Assembled(chunks), loads).content)| == |Indices(Deltas(chunks))|
  {
    var w := Assembled(chunks);
    var blocks := CallBlocks(w.calls, loads);
    BlocksAreCalls(w.calls, loads);
    AllUses(blocks);
    if w.text != "" {
      assert ([Text(w.text)] + blocks)[1..] == blocks;
    } else {
      assert [] + blocks == blocks;
    }
  }

  lemma {:induction false} AllUses(content: seq<Block>)
    requires forall i :: 0 <= i < |content| ==> content[i].ToolUse?
    ensures ToolUses(content) == content
  {
    if content != [] {
      AllUses(content[1..]);
    }
  }
}
