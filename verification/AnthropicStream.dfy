/** A streamed Anthropic reply against the same reply received whole: what a sequence of block events
    encodes, and that accumulation and extraction agree on it
    (internal/providers/anthropic/anthropic.go:130-181 against 252-379 and 384-412). */
module AnthropicStream {
  import opened Api
  import opened StreamAggregate
  import opened Anthropic
  import opened MapOrder

  /** The block that the events have opened at `k`. */
  function Opened(es: seq<Event>, k: int): Option<Block> {
    if es == [] then None
    else
      var e := es[|es| - 1];
      if e.BlockStart? && e.index == k then Some(e.block) else Opened(es[..|es| - 1], k)
  }

  predicate IsPiece(e: Event, k: int) {
    (e.TextPiece? || e.ThinkingPiece? || e.JsonPiece?) && e.index == k
  }

  function PieceOf(e: Event): string {
    if e.TextPiece? || e.ThinkingPiece? then e.text else if e.JsonPiece? then e.json else ""
  }

  /** The text, thinking or JSON pieces for block `k`, joined. */
  function Pieces(es: seq<Event>, k: int): string {
    if es == [] then ""
    else
      var before := Pieces(es[..|es| - 1], k);
      if IsPiece(es[|es| - 1], k) then before + PieceOf(es[|es| - 1]) else before
  }

  /** The last signature sent for block `k`, or the one it was opened with. */
  function SignatureFor(es: seq<Event>, k: int, first: string): string {
    if es == [] then first
    else
      var e := es[|es| - 1];
      if e.SignaturePiece? && e.index == k then e.signature else SignatureFor(es[..|es| - 1], k, first)
  }

  /** The block `k` that the events spell out.  A tool's input comes from its pieces alone. */
  function Spelled(es: seq<Event>, k: int): Option<Block> {
    match Opened(es, k)
    case None => None
    case Some(Text(text)) => Some(Text(text + Pieces(es, k)))
    case Some(Thinking(text, signature)) => Some(Thinking(text + Pieces(es, k), SignatureFor(es, k, signature)))
    case Some(ToolUse(id, name, _)) => Some(ToolUse(id, name, Pieces(es, k)))
    case Some(b) => Some(b)
  }

  /** Each position is opened once, and a piece goes to an open block of its own kind. */
  predicate Fits(es: seq<Event>, e: Event) {
    match e
    case BlockStart(k, _) => Opened(es, k).None?
    case TextPiece(k, _) => Opened(es, k).Some? && Opened(es, k).value.Text?
    case ThinkingPiece(k, _) => Opened(es, k).Some? && Opened(es, k).value.Thinking?
    case SignaturePiece(k, _) => Opened(es, k).Some? && Opened(es, k).value.Thinking?
    case JsonPiece(k, _) => Opened(es, k).Some? && Opened(es, k).value.ToolUse?
    case _ => true
  }

  predicate Orderly(es: seq<Event>) {
    es == [] || (Orderly(es[..|es| - 1]) && Fits(es[..|es| - 1], es[|es| - 1]))
  }

  /** The events are some interleaving of the blocks of `content`. */
  ghost predicate Encodes(es: seq<Event>, content: seq<Block>) {
    && Orderly(es)
    && (forall k :: 0 <= k < |content| ==> Spelled(es, k) == Some(content[k]))
    && (forall k :: k < 0 || k >= |content| ==> Opened(es, k).None?)
  }

  lemma {:induction false} NothingBeforeOpening(es: seq<Event>, k: int, first: string)
    requires Orderly(es) && Opened(es, k).None?
    ensures Pieces(es, k) == "" && SignatureFor(es, k, first) == first
  {
    if es != [] {
      NothingBeforeOpening(es[..|es| - 1], k, first);
    }
  }

  /** The accumulated maps hold at `k` exactly what the events spell out there. */
  ghost predicate Holds(a: Accum, k: int, b: Option<Block>) {
    && (k in a.blocks <==> b.Some? && Stored(b.value).Some?)
    && (k in a.blocks ==> Some(a.blocks[k]) == Stored(b.value))
    && (k in a.calls <==> b.Some? && Called(b.value).Some?)
    && (k in a.calls ==> Some(a.calls[k]) == Called(b.value))
  }

  function Concerns(e: Event, k: int): bool {
    !e.MessageStart? && !e.MessageDelta? && !e.Ignored? && e.index == k
  }

  /** What one more event does to block `k`. */
  function Respelled(b: Option<Block>, e: Event): Option<Block> {
    match e
    case BlockStart(_, block) => Some(if block.ToolUse? then block.(input := "") else block)
    case TextPiece(_, text) => if b.Some? && b.value.Text? then Some(Text(b.value.text + text)) else b
    case ThinkingPiece(_, text) =>
      if b.Some? && b.value.Thinking? then Some(Thinking(b.value.text + text, b.value.signature)) else b
    case SignaturePiece(_, s) => if b.Some? && b.value.Thinking? then Some(Thinking(b.value.text, s)) else b
    case JsonPiece(_, json) =>
      if b.Some? && b.value.ToolUse? then Some(ToolUse(b.value.id, b.value.name, b.value.input + json)) else b
    case _ => b
  }

  lemma SpellingOn(es: seq<Event>, k: int)
    requires Orderly(es) && es != []
    ensures var init, e := es[..|es| - 1], es[|es| - 1];
            Spelled(es, k) == if Concerns(e, k) then Respelled(Spelled(init, k), e) else Spelled(init, k)
  {
    var init, e := es[..|es| - 1], es[|es| - 1];
    if e.BlockStart? && e.index == k {
      NothingBeforeOpening(init, k, if e.block.Thinking? then e.block.signature else "");
      assert e.block.Text? || e.block.Thinking? ==> e.block.text + "" == e.block.text;
    } else if Opened(init, k).Some? && (Opened(init, k).value.Text? || Opened(init, k).value.Thinking?) {
      Associative(Opened(init, k).value.text, Pieces(init, k), PieceOf(e));
    }
  }

  lemma Associative(a: string, b: string, c: string)
    ensures a + (b + c) == a + b + c
  {
  }

  lemma AccumulatingOn(a: Accum, e: Event, k: int, b: Option<Block>)
    requires Holds(a, k, b)
    requires Concerns(e, k) ==>
               match e
               case BlockStart(_, _) => b.None?
               case TextPiece(_, _) => b.Some? && b.value.Text?
               case ThinkingPiece(_, _) => b.Some? && b.value.Thinking?
               case SignaturePiece(_, _) => b.Some? && b.value.Thinking?
               case JsonPiece(_, _) => b.Some? && b.value.ToolUse?
               case _ => true
    ensures Holds(Accumulate(a, e), k, if Concerns(e, k) then Respelled(b, e) else b)
  {
  }

  lemma {:induction false} AccumulationSpells(es: seq<Event>, k: int)
    requires Orderly(es)
    ensures Holds(After(es), k, Spelled(es, k))
  {
    if es != [] {
      var init, e := es[..|es| - 1], es[|es| - 1];
      AccumulationSpells(init, k);
      SpellingOn(es, k);
      AccumulatingOn(After(init), e, k, Spelled(init, k));
      hide Holds, Spelled, Respelled, Accumulate;
    }
  }

  lemma {:induction false} CollectedIsExtracted(a: Accum, content: seq<Block>, n: nat)
    requires n <= |content|
    requires forall k :: 0 <= k < n ==> Holds(a, k, Some(content[k]))
    ensures BlocksBelow(a.blocks, n) == ContentIn(content[..n])
    ensures CallsBelow(a.calls, n) == CallsIn(content[..n])
  {
    if n > 0 {
      CollectedIsExtracted(a, content, n - 1);
      assert content[..n][..n - 1] == content[..n - 1];
      assert Holds(a, n - 1, Some(content[n - 1]));
    }
  }

  /** Whatever the interleaving: the replay message built from the stream has the same content blocks
      and tool calls in the same order as the one extracted from the whole reply. */
  lemma ReplayMessageIsTheSame(es: seq<Event>, content: seq<Block>, n: nat)
    requires Encodes(es, content) && Bounds(After(es), n)
    ensures NativeBelow(After(es), n) == Native(ContentIn(content), CallsIn(content))
  {
    var a := After(es);
    forall k ensures Holds(a, k, Spelled(es, k)) {
      AccumulationSpells(es, k);
    }
    forall k | k in a.blocks || k in a.calls ensures k < |content| {
      assert Holds(a, k, Spelled(es, k));
    }
    CollectedIsExtracted(a, content, |content|);
    assert content[..|content|] == content;
    NothingBeyond(a, |content|, if n < |content| then |content| else n);
    NothingBeyond(a, n, if n < |content| then |content| else n);
  }

  /** The text deltas, each with the position of its block. */
  datatype Piece = Piece(index: int, text: string)

  function TextPieces(es: seq<Event>): seq<Piece> {
    if es == [] then []
    else
      var e := es[|es| - 1];
      var before := TextPieces(es[..|es| - 1]);
      if e.TextPiece? then before + [Piece(e.index, e.text)] else before
  }

  function Joined(ps: seq<Piece>): string {
    if ps == [] then "" else Joined(ps[..|ps| - 1]) + ps[|ps| - 1].text
  }

  function JoinedAt(ps: seq<Piece>, k: int): string {
    if ps == [] then ""
    else
      var before := JoinedAt(ps[..|ps| - 1], k);
      if ps[|ps| - 1].index == k then before + ps[|ps| - 1].text else before
  }

  lemma JoinedMore(ps: seq<Piece>, p: Piece, k: int)
    ensures Joined(ps + [p]) == Joined(ps) + p.text
    ensures JoinedAt(ps + [p], k) == if p.index == k then JoinedAt(ps, k) + p.text else JoinedAt(ps, k)
  {
    assert (ps + [p])[..|ps|] == ps;
  }

  lemma TextOfMore(ds: seq<Delta>, d: Delta)
    ensures TextOf(ds + [d]) == TextOf(ds) + d.text
  {
    assert (ds + [d])[..|ds|] == ds;
  }

  /** The pieces joined block after block, in order of position. */
  function ByBlock(ps: seq<Piece>, n: nat): string {
    if n == 0 then "" else ByBlock(ps, n - 1) + JoinedAt(ps, n - 1)
  }

  predicate Nondecreasing(s: seq<int>) {
    forall i, j :: 0 <= i < j < |s| ==> s[i] <= s[j]
  }

  function Shape(ps: seq<Piece>): seq<int> {
    seq(|ps|, i requires 0 <= i < |ps| => ps[i].index)
  }

  predicate Within(ps: seq<Piece>, n: nat) {
    forall i :: 0 <= i < |ps| ==> 0 <= ps[i].index < n
  }

  lemma {:induction false} NothingAt(ps: seq<Piece>, k: int)
    requires forall i :: 0 <= i < |ps| ==> ps[i].index != k
    ensures JoinedAt(ps, k) == ""
  {
    if ps != [] {
      NothingAt(ps[..|ps| - 1], k);
    }
  }

  lemma {:induction false} OneMorePiece(ps: seq<Piece>, p: Piece, m: nat)
    requires p.index >= 0 && forall i :: 0 <= i < |ps| ==> ps[i].index <= p.index
    ensures ByBlock(ps + [p], m) == if p.index < m then ByBlock(ps, m) + p.text else ByBlock(ps, m)
  {
    if m > 0 {
      OneMorePiece(ps, p, m - 1);
      JoinedMore(ps, p, m - 1);
      if p.index < m - 1 {
        NothingAt(ps, m - 1);
      } else if p.index == m - 1 {
        Associative(ByBlock(ps, m - 1), JoinedAt(ps, m - 1), p.text);
      }
      hide JoinedAt;
    }
  }

  lemma {:induction false} NondecreasingJoins(ps: seq<Piece>, n: nat)
    requires Within(ps, n) && Nondecreasing(Shape(ps))
    ensures Joined(ps) == ByBlock(ps, n)
  {
    if ps == [] {
      NoPieces(n);
    } else {
      var init, p := ps[..|ps| - 1], ps[|ps| - 1];
      assert Nondecreasing(Shape(init)) by {
        assert Shape(init) == Shape(ps)[..|init|];
      }
      NondecreasingJoins(init, n);
      assert ps == init + [p];
      forall i | 0 <= i < |init| ensures init[i].index <= p.index {
        assert Shape(ps)[i] <= Shape(ps)[|init|];
      }
      OneMorePiece(init, p, n);
    }
  }

  lemma {:induction false} NoPieces(n: nat)
    ensures ByBlock([], n) == ""
  {
    if n > 0 {
      NoPieces(n - 1);
    }
  }

  /** Pieces of the given shape, all empty but the one at `i`. */
  function Single(shape: seq<int>, i: int, text: string): seq<Piece> {
    seq(|shape|, j requires 0 <= j < |shape| => Piece(shape[j], if j == i then text else ""))
  }

  lemma {:induction false} SingleJoins(shape: seq<int>, i: int, text: string, k: int)
    ensures Joined(Single(shape, i, text)) == if 0 <= i < |shape| then text else ""
    ensures JoinedAt(Single(shape, i, text), k) == if 0 <= i < |shape| && shape[i] == k then text else ""
  {
    if shape != [] {
      SingleJoins(shape[..|shape| - 1], i, text, k);
      assert Single(shape, i, text)[..|shape| - 1] == Single(shape[..|shape| - 1], i, text);
    }
  }

  /** Pieces of later blocks, then one of block `q`: the text by block starts with the latter. */
  lemma {:induction false} DescentByBlock(ps: seq<Piece>, q: int, second: string, m: nat)
    requires |second| > 0 && q >= 0 && forall k :: k <= q ==> JoinedAt(ps, k) == ""
    ensures var text := ByBlock(ps + [Piece(q, second)], m);
            if m <= q then |text| == 0 else |text| > 0 && text[0] == second[0]
  {
    if m > 0 {
      DescentByBlock(ps, q, second, m - 1);
      JoinedMore(ps, Piece(q, second), m - 1);
      hide JoinedAt;
    }
  }

  lemma {:induction false} AnEmptyPieceAddsNothing(ps: seq<Piece>, k: int, n: nat)
    ensures ByBlock(ps + [Piece(k, "")], n) == ByBlock(ps, n) && Joined(ps + [Piece(k, "")]) == Joined(ps)
  {
    assert (ps + [Piece(k, "")])[..|ps|] == ps;
    if n > 0 {
      AnEmptyPieceAddsNothing(ps, k, n - 1);
    }
  }

  lemma LateDescent(init: seq<int>, i: nat, q: int, n: nat) returns (ps: seq<Piece>)
    requires i < |init| && 0 <= q < init[i] < n
    ensures Shape(ps) == init + [q] && Joined(ps) != ByBlock(ps, n)
  {
    ps := Single(init, i, "b");
    forall k ensures JoinedAt(ps, k) == (if k == init[i] then "b" else "") && Joined(ps) == "b" {
      SingleJoins(init, i, "b", k);
    }
    DescentByBlock(ps, q, "a", n);
    JoinedMore(ps, Piece(q, "a"), 0);
    assert Shape(ps) == init;
    assert Joined(ps + [Piece(q, "a")])[0] == 'b';
    ps := ps + [Piece(q, "a")];
    hide Joined, ByBlock, Single, JoinedAt;
  }

  lemma {:induction false} ADescentGarbles(shape: seq<int>, n: nat) returns (ps: seq<Piece>)
    requires (forall i :: 0 <= i < |shape| ==> 0 <= shape[i] < n) && !Nondecreasing(shape)
    ensures Shape(ps) == shape && Joined(ps) != ByBlock(ps, n)
  {
    hide Joined, ByBlock, Shape;
    var init, q := shape[..|shape| - 1], shape[|shape| - 1];
    assert shape == init + [q];
    if Nondecreasing(init) {
      var i :| 0 <= i < |init| && q < init[i];
      ps := LateDescent(init, i, q, n);
    } else {
      ps := ADescentGarbles(init, n);
      AnEmptyPieceAddsNothing(ps, q, n);
      ShapeMore(ps, Piece(q, ""));
      ps := ps + [Piece(q, "")];
    }
  }

  lemma ShapeMore(ps: seq<Piece>, p: Piece)
    ensures Shape(ps + [p]) == Shape(ps) + [p.index]
  {
  }

  /** Text deltas concatenate to the text of the whole reply, whatever the pieces, exactly when they
      never return to an earlier block. */
  lemma TextNeedsBlockOrder(shape: seq<int>, n: nat)
    requires forall i :: 0 <= i < |shape| ==> 0 <= shape[i] < n
    ensures Nondecreasing(shape) <==> forall ps: seq<Piece> :: Shape(ps) == shape ==> Joined(ps) == ByBlock(ps, n)
  {
    if Nondecreasing(shape) {
      forall ps: seq<Piece> | Shape(ps) == shape ensures Joined(ps) == ByBlock(ps, n) {
        assert forall i :: 0 <= i < |ps| ==> ps[i].index == Shape(ps)[i];
        NondecreasingJoins(ps, n);
      }
    } else {
      var ps := ADescentGarbles(shape, n);
    }
  }

  /** The delta that an event makes the goroutine hand over. */
  function Emitted(a: Accum, e: Event): Option<Delta> {
    match e
    case BlockStart(index, ToolUse(id, name, _)) => Some(ToolDelta("", "", ToolCallDelta(index, id, name, "")))
    case TextPiece(_, text) => Some(Delta(a.id, a.model, text, false, None, None, None))
    case JsonPiece(index, json) => Some(ToolDelta(a.id, a.model, ToolCallDelta(index, "", "", json)))
    case _ => None
  }

  lemma EmittedIsSent(a: Accum, e: Event)
    ensures Accumulate(a, e).sent == if Emitted(a, e).Some? then a.sent + [Emitted(a, e).value] else a.sent
  {
  }

  lemma {:induction false} EmittedText(es: seq<Event>)
    ensures TextOf(After(es).sent) == Joined(TextPieces(es))
  {
    if es != [] {
      var init, e := es[..|es| - 1], es[|es| - 1];
      EmittedText(init);
      var a := After(init);
      EmittedIsSent(a, e);
      if Emitted(a, e).Some? {
        TextOfMore(a.sent, Emitted(a, e).value);
        assert TextOf(a.sent) + "" == TextOf(a.sent);
      }
      if e.TextPiece? {
        JoinedMore(TextPieces(init), Piece(e.index, e.text), 0);
      }
      hide TextOf, Joined, Accumulate;
    }
  }

  lemma {:induction false} PiecesOfText(es: seq<Event>, k: int)
    requires Orderly(es)
    ensures JoinedAt(TextPieces(es), k) ==
            if Opened(es, k).Some? && Opened(es, k).value.Text? then Pieces(es, k) else ""
  {
    if es != [] {
      var init, e := es[..|es| - 1], es[|es| - 1];
      PiecesOfText(init, k);
      NothingIfUnopened(init, k);
      if e.TextPiece? {
        JoinedMore(TextPieces(init), Piece(e.index, e.text), k);
      }
      assert TextPieces(es) == if e.TextPiece? then TextPieces(init) + [Piece(e.index, e.text)] else TextPieces(init);
      assert Fits(init, e);
      hide Orderly, TextPieces, JoinedAt;
    }
  }

  lemma NothingIfUnopened(es: seq<Event>, k: int)
    requires Orderly(es)
    ensures Opened(es, k).None? ==> Pieces(es, k) == ""
  {
    if Opened(es, k).None? {
      NothingBeforeOpening(es, k, "");
    }
  }

  /** Text blocks are opened empty, as the protocol has it. */
  ghost predicate OpensTextEmpty(es: seq<Event>) {
    forall k :: OpensBlank(es, k)
  }

  predicate OpensBlank(es: seq<Event>, k: int) {
    Opened(es, k).Some? && Opened(es, k).value.Text? ==> Opened(es, k).value.text == ""
  }

  lemma {:induction false} TextByBlock(es: seq<Event>, content: seq<Block>, n: nat)
    requires Encodes(es, content) && OpensTextEmpty(es) && n <= |content|
    ensures ByBlock(TextPieces(es), n) == TextIn(content[..n])
  {
    if n > 0 {
      TextByBlock(es, content, n - 1);
      assert content[..n][..n - 1] == content[..n - 1];
      PiecesOfText(es, n - 1);
      assert Spelled(es, n - 1) == Some(content[n - 1]) && OpensBlank(es, n - 1);
    }
  }

  lemma {:induction false} TextPiecesAreWithin(es: seq<Event>)
    requires Orderly(es)
    ensures forall i :: 0 <= i < |TextPieces(es)| ==> Opened(es, TextPieces(es)[i].index).Some?
  {
    if es != [] {
      TextPiecesAreWithin(es[..|es| - 1]);
    }
  }

  /** The emitted text is the text of the whole reply when the text pieces follow the block order. */
  lemma TextIsTheSame(es: seq<Event>, content: seq<Block>)
    requires Encodes(es, content) && OpensTextEmpty(es) && Nondecreasing(Shape(TextPieces(es)))
    ensures TextOf(After(es).sent) == TextIn(content)
  {
    EmittedText(es);
    TextPiecesAreWithin(es);
    NondecreasingJoins(TextPieces(es), |content|);
    TextByBlock(es, content, |content|);
    assert content[..|content|] == content;
  }

  /** What the first `n` blocks say as they open. */
  function OpeningText(es: seq<Event>, n: nat): string {
    if n == 0 then ""
    else
      var b := Opened(es, n - 1);
      OpeningText(es, n - 1) + if b.Some? && b.value.Text? then b.value.text else ""
  }

  lemma {:induction false} TextLength(es: seq<Event>, content: seq<Block>, n: nat)
    requires Encodes(es, content) && n <= |content|
    ensures |TextIn(content[..n])| == |ByBlock(TextPieces(es), n)| + |OpeningText(es, n)|
  {
    if n > 0 {
      TextLength(es, content, n - 1);
      assert content[..n][..n - 1] == content[..n - 1];
      PiecesOfText(es, n - 1);
      assert Spelled(es, n - 1) == Some(content[n - 1]);
      hide Orderly, Pieces, TextPieces, JoinedAt, Encodes, Opened;
    }
  }

  lemma {:induction false} OpeningTextIsEmpty(es: seq<Event>, n: nat)
    ensures |OpeningText(es, n)| == 0 <==> forall k :: 0 <= k < n ==> OpensBlank(es, k)
  {
    if n > 0 {
      OpeningTextIsEmpty(es, n - 1);
      assert |OpeningText(es, n)| == 0 <==> |OpeningText(es, n - 1)| == 0 && OpensBlank(es, n - 1);
      hide Opened, OpensBlank, OpeningText;
    }
  }

  lemma EmittedTextLength(es: seq<Event>, content: seq<Block>)
    requires Encodes(es, content) && Nondecreasing(Shape(TextPieces(es)))
    ensures |TextIn(content)| == |TextOf(After(es).sent)| + |OpeningText(es, |content|)|
  {
    EmittedText(es);
    TextPiecesAreWithin(es);
    assert Within(TextPieces(es), |content|) by { hide Spelled, Opened, Orderly, TextPieces; }
    hide Encodes, Opened;
    NondecreasingJoins(TextPieces(es), |content|);
    TextLength(es, content, |content|);
    assert content[..|content|] == content;
    hide After, TextOf, TextPieces, Joined, ByBlock, Shape, Nondecreasing, Within;
  }

  lemma OnlyBlocksOpen(es: seq<Event>, content: seq<Block>)
    requires Encodes(es, content)
    ensures OpensTextEmpty(es) <==> |OpeningText(es, |content|)| == 0
  {
    OpeningTextIsEmpty(es, |content|);
    forall k | k < 0 || k >= |content| ensures OpensBlank(es, k) {
      assert Opened(es, k).None?;
    }
    hide Orderly, Opened, Spelled, OpensBlank;
  }

  /** With text pieces in block order, the emitted text is the reply's exactly when every text block opens
      empty: what a block says as it opens is stored but not emitted. */
  lemma EmittedTextNeedsEmptyOpenings(es: seq<Event>, content: seq<Block>)
    requires Encodes(es, content) && Nondecreasing(Shape(TextPieces(es)))
    ensures TextOf(After(es).sent) == TextIn(content) <==> OpensTextEmpty(es)
  {
    OnlyBlocksOpen(es, content);
    EmittedTextLength(es, content);
    hide Encodes, OpensTextEmpty, After, TextOf, OpeningText, TextPieces, Nondecreasing, Shape;
    if OpensTextEmpty(es) {
      TextIsTheSame(es, content);
    }
  }

  /** The failure: a text block that opens with its text is stored, and nothing is emitted for it. */
  lemma AnOpeningTextIsNotEmitted(text: string)
    requires text != ""
    ensures var es, content := [BlockStart(0, Text(text))], [Text(text)];
            && Encodes(es, content) && Nondecreasing(Shape(TextPieces(es)))
            && TextOf(After(es).sent) == "" && TextIn(content) == text
  {
    var es, content := [BlockStart(0, Text(text))], [Text(text)];
    assert es[..0] == [] && content[..0] == [] && Orderly([]) && Fits([], es[0]);
    assert forall k :: Opened(es, k) == if k == 0 then Some(Text(text)) else None;
    assert Pieces(es, 0) == "" && text + "" == text && "" + text == text;
    assert Spelled(es, 0) == Some(Text(text));
    assert TextPieces(es) == [];
    NothingEmitted(es);
    hide After, Spelled, Opened, Pieces;
  }

  lemma NothingEmitted(es: seq<Event>)
    requires |es| == 1 && es[0].BlockStart? && es[0].block.Text?
    ensures After(es).sent == []
  {
    assert es[..0] == [] && After([]) == NOTHING;
    assert After(es) == Accumulate(NOTHING, es[0]);
  }

  /** `n` text blocks open, then these pieces arrive. */
  function Played(n: nat, ps: seq<Piece>): seq<Event> {
    if ps != [] then Played(n, ps[..|ps| - 1]) + [TextPiece(ps[|ps| - 1].index, ps[|ps| - 1].text)]
    else if n > 0 then Played(n - 1, []) + [BlockStart(n - 1, Text(""))]
    else []
  }

  lemma PieceIsPlayedLast(n: nat, ps: seq<Piece>)
    requires ps != []
    ensures var es, p := Played(n, ps), ps[|ps| - 1];
            es != [] && es[..|es| - 1] == Played(n, ps[..|ps| - 1]) && es[|es| - 1] == TextPiece(p.index, p.text)
  {
  }

  lemma OpeningIsPlayedLast(n: nat)
    requires n > 0
    ensures var es := Played(n, []);
            es != [] && es[..|es| - 1] == Played(n - 1, []) && es[|es| - 1] == BlockStart(n - 1, Text(""))
  {
  }

  lemma {:induction false} PlayedOpens(n: nat, ps: seq<Piece>, k: int)
    ensures Opened(Played(n, ps), k) == if 0 <= k < n then Some(Text("")) else None
    decreases n + |ps|
  {
    if ps != [] {
      PieceIsPlayedLast(n, ps);
      PlayedOpens(n, ps[..|ps| - 1], k);
      hide Played;
    } else if n > 0 {
      OpeningIsPlayedLast(n);
      PlayedOpens(n - 1, [], k);
      hide Played;
    }
  }

  lemma {:induction false} PlayedIsOrderly(n: nat, ps: seq<Piece>)
    requires Within(ps, n)
    ensures Orderly(Played(n, ps))
    decreases n + |ps|
  {
    if ps != [] {
      PieceIsPlayedLast(n, ps);
      PlayedIsOrderly(n, ps[..|ps| - 1]);
      PlayedOpens(n, ps[..|ps| - 1], ps[|ps| - 1].index);
      hide Played, Opened;
    } else if n > 0 {
      OpeningIsPlayedLast(n);
      PlayedIsOrderly(n - 1, []);
      PlayedOpens(n - 1, [], n - 1);
      hide Played, Opened;
    }
  }

  lemma {:induction false} PlayedPieces(n: nat, ps: seq<Piece>, k: int)
    ensures TextPieces(Played(n, ps)) == ps && Pieces(Played(n, ps), k) == JoinedAt(ps, k)
    decreases n + |ps|
  {
    if ps != [] {
      var init := ps[..|ps| - 1];
      PieceIsPlayedLast(n, ps);
      PlayedPieces(n, init, k);
      assert ps == init + [ps[|ps| - 1]];
      hide Played;
    } else if n > 0 {
      OpeningIsPlayedLast(n);
      PlayedPieces(n - 1, [], k);
      hide Played;
    }
  }

  function Texts(n: nat, ps: seq<Piece>): seq<Block> {
    seq(n, k requires 0 <= k < n => Text(JoinedAt(ps, k)))
  }

  lemma PlayedEncodes(n: nat, ps: seq<Piece>)
    requires Within(ps, n)
    ensures Encodes(Played(n, ps), Texts(n, ps)) && OpensTextEmpty(Played(n, ps))
  {
    var es := Played(n, ps);
    PlayedIsOrderly(n, ps);
    forall k ensures Opened(es, k) == if 0 <= k < n then Some(Text("")) else None {
      PlayedOpens(n, ps, k);
    }
    forall k: int | 0 <= k < n ensures Spelled(es, k) == Some(Texts(n, ps)[k]) {
      PlayedPieces(n, ps, k);
      assert "" + JoinedAt(ps, k) == JoinedAt(ps, k);
    }
    hide Played, Opened, Orderly, Spelled;
  }

  /** The emitted text is the text of the reply, for every stream of this shape, exactly when the shape
      never returns to an earlier block. */
  lemma EmittedTextNeedsBlockOrder(shape: seq<int>)
    requires forall i :: 0 <= i < |shape| ==> shape[i] >= 0
    ensures Nondecreasing(shape) <==>
            forall es, content ::
              Encodes(es, content) && OpensTextEmpty(es) && Shape(TextPieces(es)) == shape ==>
                TextOf(After(es).sent) == TextIn(content)
  {
    if Nondecreasing(shape) {
      forall es, content | Encodes(es, content) && OpensTextEmpty(es) && Shape(TextPieces(es)) == shape
        ensures TextOf(After(es).sent) == TextIn(content)
      {
        TextIsTheSame(es, content);
      }
    } else {
      var es, content := AGarbledStream(shape);
    }
    hide Encodes, OpensTextEmpty, After, TextOf;
  }

  /** For every shape with a return to an earlier block, a stream whose emitted text is not the reply's. */
  lemma AGarbledStream(shape: seq<int>) returns (es: seq<Event>, content: seq<Block>)
    requires (forall i :: 0 <= i < |shape| ==> shape[i] >= 0) && !Nondecreasing(shape)
    ensures Encodes(es, content) && OpensTextEmpty(es) && Shape(TextPieces(es)) == shape
    ensures TextOf(After(es).sent) != TextIn(content)
  {
    var n := Above(shape);
    var ps := ADescentGarbles(shape, n);
    assert Within(ps, n) by {
      assert forall i :: 0 <= i < |ps| ==> ps[i].index == Shape(ps)[i];
    }
    es, content := Played(n, ps), Texts(n, ps);
    PlayedEncodes(n, ps);
    PlayedPieces(n, ps, 0);
    EmittedText(es);
    TextByBlock(es, content, n);
    assert content[..n] == content;
    hide Encodes, OpensTextEmpty, After, TextOf, Played, Texts, Joined, ByBlock;
  }

  lemma {:induction false} Above(shape: seq<int>) returns (n: nat)
    ensures forall i :: 0 <= i < |shape| ==> shape[i] < n
  {
    n := 0;
    if shape != [] {
      n := Above(shape[..|shape| - 1]);
      if shape[|shape| - 1] >= n {
        n := shape[|shape| - 1] + 1;
      }
    }
  }

  /** The positions of the tool blocks, in the order in which they open. */
  function ToolsOpened(es: seq<Event>): seq<int> {
    if es == [] then []
    else
      var before, e := ToolsOpened(es[..|es| - 1]), es[|es| - 1];
      if e.BlockStart? && e.block.ToolUse? then before + [e.index] else before
  }

  predicate OpensTool(es: seq<Event>, k: int) {
    Opened(es, k).Some? && Opened(es, k).value.ToolUse?
  }

  lemma {:induction false} ToolsOpenedMembers(es: seq<Event>, k: int)
    requires Orderly(es)
    ensures k in ToolsOpened(es) <==> OpensTool(es, k)
  {
    if es != [] {
      ToolsOpenedMembers(es[..|es| - 1], k);
    }
  }

  lemma MoreDeltas(ds: seq<Delta>, d: Delta, k: int)
    ensures CallOrder(ds + [d]) == (if d.tool.Some? && d.tool.value.index !in CallOrder(ds)
                                    then CallOrder(ds) + [d.tool.value.index] else CallOrder(ds))
    ensures CallIdOf(ds + [d], k) == (if Touches(d, k) then FirstSet(CallIdOf(ds, k), d.tool.value.id) else CallIdOf(ds, k))
    ensures NameOf(ds + [d], k) == (if Touches(d, k) then FirstSet(NameOf(ds, k), d.tool.value.name) else NameOf(ds, k))
    ensures ArgumentsOf(ds + [d], k)
            == if Touches(d, k) then ArgumentsOf(ds, k) + d.tool.value.arguments else ArgumentsOf(ds, k)
  {
    assert (ds + [d])[..|ds|] == ds;
    assert ArgumentsOf(ds, k) + "" == ArgumentsOf(ds, k);
  }

  /** The call at `k` that the deltas amount to is the tool block that the events spell out there. */
  ghost predicate Speaks(ds: seq<Delta>, k: int, b: Option<Block>) {
    CallOf(ds, k) == if b.Some? && Called(b.value).Some? then Called(b.value).value else ToolCall("", "", "")
  }

  function Extended(c: ToolCall, tc: ToolCallDelta): ToolCall {
    ToolCall(FirstSet(c.id, tc.id), FirstSet(c.name, tc.name), c.arguments + tc.arguments)
  }

  lemma CallMore(ds: seq<Delta>, d: Delta, k: int)
    ensures CallOf(ds + [d], k) == if Touches(d, k) then Extended(CallOf(ds, k), d.tool.value) else CallOf(ds, k)
  {
    MoreDeltas(ds, d, k);
    hide CallIdOf, NameOf, ArgumentsOf, CallOrder;
  }

  lemma FirstExtension(k: int, id: string, name: string)
    ensures Extended(ToolCall("", "", ""), ToolCallDelta(k, id, name, "")) == ToolCall(id, name, "")
  {
    assert "" + "" == "";
  }

  lemma LaterExtension(c: ToolCall, k: int, json: string)
    ensures Extended(c, ToolCallDelta(k, "", "", json)) == ToolCall(c.id, c.name, c.arguments + json)
  {
  }

  lemma SpeakingOn(ds: seq<Delta>, a: Accum, e: Event, k: int, b: Option<Block>)
    requires Speaks(ds, k, b)
    requires Concerns(e, k) && e.BlockStart? ==> b.None?
    requires Concerns(e, k) && e.JsonPiece? ==> b.Some? && b.value.ToolUse?
    ensures Speaks(if Emitted(a, e).Some? then ds + [Emitted(a, e).value] else ds, k,
                   if Concerns(e, k) then Respelled(b, e) else b)
  {
    if Emitted(a, e).Some? {
      CallMore(ds, Emitted(a, e).value, k);
    }
    if e.BlockStart? && e.block.ToolUse? {
      FirstExtension(e.index, e.block.id, e.block.name);
    } else if e.JsonPiece? {
      LaterExtension(CallOf(ds, k), e.index, e.json);
    }
    hide CallOf, Extended;
  }

  lemma {:induction false} EmissionSpeaks(es: seq<Event>, k: int)
    requires Orderly(es)
    ensures Speaks(After(es).sent, k, Spelled(es, k))
  {
    if es != [] {
      var init, e := es[..|es| - 1], es[|es| - 1];
      EmissionSpeaks(init, k);
      SpellingOn(es, k);
      EmittedIsSent(After(init), e);
      SpeakingOn(After(init).sent, After(init), e, k, Spelled(init, k));
      hide Speaks, Respelled, Accumulate, Emitted;
    }
  }

  lemma {:induction false} EmissionOrder(es: seq<Event>)
    requires Orderly(es)
    ensures CallOrder(After(es).sent) == ToolsOpened(es)
  {
    if es != [] {
      var init, e := es[..|es| - 1], es[|es| - 1];
      var a := After(init);
      EmissionOrder(init);
      EmittedIsSent(a, e);
      if Emitted(a, e).Some? {
        MoreDeltas(a.sent, Emitted(a, e).value, 0);
      }
      if e.BlockStart? || e.JsonPiece? {
        ToolsOpenedMembers(init, e.index);
      }
      assert Fits(init, e);
      hide CallOrder, Accumulate, CallIdOf, NameOf, ArgumentsOf, Opened;
    }
  }

  function ToolPositions(content: seq<Block>): seq<int> {
    if content == [] then []
    else
      var before := ToolPositions(content[..|content| - 1]);
      if content[|content| - 1].ToolUse? then before + [|content| - 1] else before
  }

  lemma {:induction false} ToolPositionsMembers(content: seq<Block>, k: int)
    ensures k in ToolPositions(content) <==> 0 <= k < |content| && content[k].ToolUse?
  {
    if content != [] {
      ToolPositionsMembers(content[..|content| - 1], k);
    }
  }

  lemma {:induction false} ToolPositionsAscend(content: seq<Block>)
    ensures Ascending(ToolPositions(content))
  {
    if content != [] {
      var init := content[..|content| - 1];
      ToolPositionsAscend(init);
      var before := ToolPositions(init);
      forall i | 0 <= i < |before| ensures before[i] < |init| {
        ToolPositionsMembers(init, before[i]);
      }
    }
  }

  lemma {:induction false} CallsByPosition(content: seq<Block>, ds: seq<Delta>)
    requires forall k :: 0 <= k < |content| && content[k].ToolUse? ==> Some(CallOf(ds, k)) == Called(content[k])
    ensures CallsIn(content) == seq(|ToolPositions(content)|, i requires 0 <= i < |ToolPositions(content)| =>
                                      CallOf(ds, ToolPositions(content)[i]))
  {
    if content != [] {
      CallsByPosition(content[..|content| - 1], ds);
      hide CallOf;
    }
  }

  /** The calls that the deltas amount to are those of the whole reply when the tool blocks open in
      the order of their positions; their arguments may interleave freely. */
  lemma CallsAreTheSame(es: seq<Event>, content: seq<Block>)
    requires Encodes(es, content) && Ascending(ToolsOpened(es))
    ensures CallsOf(After(es).sent) == CallsIn(content)
  {
    var ds := After(es).sent;
    EmissionOrder(es);
    ToolPositionsAscend(content);
    forall k ensures k in ToolsOpened(es) <==> k in ToolPositions(content) {
      ToolsOpenedMembers(es, k);
      ToolPositionsMembers(content, k);
      assert 0 <= k < |content| ==> Spelled(es, k) == Some(content[k]);
    }
    AscendingIsUnique(ToolsOpened(es), ToolPositions(content));
    forall k | 0 <= k < |content| && content[k].ToolUse? ensures Some(CallOf(ds, k)) == Called(content[k]) {
      EmissionSpeaks(es, k);
      assert Spelled(es, k) == Some(content[k]);
    }
    CallsByPosition(content, ds);
    hide Encodes, CallOf, CallOrder;
  }

  /** No two tool blocks share an id. */
  predicate DistinctToolIds(content: seq<Block>) {
    forall j, k :: 0 <= j < k < |content| && content[j].ToolUse? && content[k].ToolUse? ==> content[j].id != content[k].id
  }

  /** With distinct ids the opening order is not only enough but needed. */
  lemma CallsNeedOpeningOrder(es: seq<Event>, content: seq<Block>)
    requires Encodes(es, content) && DistinctToolIds(content)
    ensures CallsOf(After(es).sent) == CallsIn(content) <==> Ascending(ToolsOpened(es))
  {
    if Ascending(ToolsOpened(es)) {
      CallsAreTheSame(es, content);
    } else if CallsOf(After(es).sent) == CallsIn(content) {
      EqualCallsOpenInOrder(es, content);
      ToolPositionsAscend(content);
    }
  }

  lemma EqualCallsOpenInOrder(es: seq<Event>, content: seq<Block>)
    requires Encodes(es, content) && DistinctToolIds(content) && CallsOf(After(es).sent) == CallsIn(content)
    ensures ToolsOpened(es) == ToolPositions(content)
  {
    var ds := After(es).sent;
    var order, positions := ToolsOpened(es), ToolPositions(content);
    EmissionOrder(es);
    forall k | 0 <= k < |content| && content[k].ToolUse? ensures Some(CallOf(ds, k)) == Called(content[k]) {
      EmissionSpeaks(es, k);
      assert Spelled(es, k) == Some(content[k]);
    }
    CallsByPosition(content, ds);
    forall i | 0 <= i < |positions| ensures order[i] == positions[i] {
      assert CallsOf(ds)[i] == CallOf(ds, order[i]) && CallsIn(content)[i] == CallOf(ds, positions[i]);
      assert order[i] in order && positions[i] in positions;
      ToolsOpenedMembers(es, order[i]);
      ToolPositionsMembers(content, positions[i]);
      assert 0 <= order[i] < |content| && Spelled(es, order[i]) == Some(content[order[i]]);
      hide Encodes, CallOf, CallOrder, Opened, Spelled, After, CallsIn;
    }
  }

  function OutputTokens(es: seq<Event>): int {
    if es == [] then 0
    else if es[|es| - 1].MessageDelta? then es[|es| - 1].outputTokens
    else OutputTokens(es[..|es| - 1])
  }

  /** The events open with the head of the reply, name it once, and end on its output tokens. */
  ghost predicate Announces(es: seq<Event>, r: Reply) {
    && es != [] && es[0] == MessageStart(r.id, r.model, r.usage.inputTokens)
    && (forall i :: 0 < i < |es| ==> !es[i].MessageStart?)
    && OutputTokens(es) == r.usage.outputTokens
  }

  lemma {:induction false} HeadIsKept(es: seq<Event>)
    requires es != [] && es[0].MessageStart? && forall i :: 0 < i < |es| ==> !es[i].MessageStart?
    ensures var a := After(es);
            && a.id == es[0].id && a.model == es[0].model && a.inputTokens == es[0].inputTokens
            && a.outputTokens == OutputTokens(es)
  {
    var init := es[..|es| - 1];
    if init != [] {
      HeadIsKept(init);
    } else {
      assert After(init) == NOTHING && OutputTokens(init) == 0;
    }
  }

  ghost predicate Branded(ds: seq<Delta>, id: string, model: string) {
    forall i :: 0 <= i < |ds| ==> !ds[i].done && (ds[i].id == "" || ds[i].id == id) && (ds[i].model == "" || ds[i].model == model)
  }

  lemma {:induction false} SentIsBranded(es: seq<Event>)
    requires es != [] ==> es[0].MessageStart? && forall i :: 0 < i < |es| ==> !es[i].MessageStart?
    ensures es != [] ==> Branded(After(es).sent, es[0].id, es[0].model)
  {
    if |es| == 1 {
      assert After(es[..0]) == NOTHING;
    } else if es != [] {
      var init, e := es[..|es| - 1], es[|es| - 1];
      SentIsBranded(init);
      HeadIsKept(init);
      EmittedIsSent(After(init), e);
      hide Accumulate;
    }
  }

  lemma {:induction false} BrandedHead(ds: seq<Delta>, id: string, model: string)
    requires Branded(ds, id, model)
    ensures ResultIdOf(ds) == "" || ResultIdOf(ds) == id
    ensures ModelOf(ds) == "" || ModelOf(ds) == model
    ensures UpToDone(ds) == ds && !HasDone(ds)
  {
    if ds != [] {
      var init := ds[..|ds| - 1];
      assert Branded(init, id, model);
      BrandedHead(init, id, model);
    }
  }

  lemma SameCalls(a: seq<Delta>, b: seq<Delta>)
    requires CallOrder(a) == CallOrder(b) && forall k :: CallOf(a, k) == CallOf(b, k)
    ensures CallsOf(a) == CallsOf(b)
  {
    hide CallOf, CallOrder;
  }

  lemma LastDelta(ds: seq<Delta>, d: Delta)
    requires d.done && d.text == "" && d.tool.None? && d.usage.Some? && UpToDone(ds) == ds && !HasDone(ds)
    requires forall i :: 0 <= i < |ds| ==> ds[i].replay.None?
    ensures var all := ds + [d];
            && UpToDone(all) == all
            && TextOf(all) == TextOf(ds) && CallsOf(all) == CallsOf(ds)
            && ResultIdOf(all) == FirstSet(ResultIdOf(ds), d.id) && ModelOf(all) == FirstSet(ModelOf(ds), d.model)
            && UsageOf(all) == d.usage && ReplayOf(all) == d.replay
  {
    var all := ds + [d];
    assert all[..|ds|] == ds;
    TextOfMore(ds, d);
    MoreDeltas(ds, d, 0);
    assert TextOf(ds) + "" == TextOf(ds);
    NoReplay(ds);
    forall k ensures CallOf(all, k) == CallOf(ds, k) {
      CallMore(ds, d, k);
    }
    SameCalls(all, ds);
    assert UpToDone(all) == all;
    hide CallOf, CallsOf, CallOrder, TextOf, CallIdOf, NameOf, ArgumentsOf, UpToDone;
  }

  lemma {:induction false} NoReplay(ds: seq<Delta>)
    requires forall i :: 0 <= i < |ds| ==> ds[i].replay.None?
    ensures ReplayOf(ds) == None
  {
    if ds != [] {
      NoReplay(ds[..|ds| - 1]);
    }
  }

  lemma {:induction false} SentCarriesNoReplay(es: seq<Event>)
    ensures forall i :: 0 <= i < |After(es).sent| ==> After(es).sent[i].replay.None?
  {
    if es != [] {
      SentCarriesNoReplay(es[..|es| - 1]);
      EmittedIsSent(After(es[..|es| - 1]), es[|es| - 1]);
      hide Accumulate;
    }
  }

  /** End to end: when text pieces follow the block order and tool blocks open in order, the deltas
      handed over amount to the very result that `Generate` extracts from the same reply received
      whole, however thinking, text, signatures and tool arguments interleave. */
  lemma StreamAmountsToTheReply(es: seq<Event>, r: Reply, requestModel: string)
    requires Announces(es, r) && Encodes(es, r.content) && OpensTextEmpty(es)
    requires Nondecreasing(Shape(TextPieces(es))) && Ascending(ToolsOpened(es))
    ensures UpToDone(Sent(es)) == Sent(es)
    ensures Aggregate(Sent(es), requestModel) == ResultOf(r).(model := FirstSet(r.model, requestModel))
  {
    var a, ds := After(es), After(es).sent;
    HeadIsKept(es);
    SentIsBranded(es);
    BrandedHead(ds, r.id, r.model);
    SentCarriesNoReplay(es);
    ReachBounds(es);
    ReplayMessageIsTheSame(es, r.content, Reach(es));
    TextIsTheSame(es, r.content);
    CallsAreTheSame(es, r.content);
    LastDelta(ds, Sent(es)[|ds|]);
    hide After, Encodes, OpensTextEmpty, Nondecreasing, Ascending, UpToDone, Branded, NativeBelow, TextOf,
         CallsOf, ModelOf, ResultIdOf, UsageOf, ReplayOf, OutputTokens, Reach;
  }

  /** The same blocks, but for the inputs of tools. */
  predicate SameButInput(a: Block, b: Block) {
    if a.ToolUse? then b.ToolUse? && a.id == b.id && a.name == b.name else a == b
  }

  predicate AllSameButInput(a: seq<Block>, b: seq<Block>) {
    |a| == |b| && forall k :: 0 <= k < |a| ==> SameButInput(a[k], b[k])
  }

  lemma SameEnds<T>(x: seq<T>, y: seq<T>, c: T, d: T)
    requires |x| == |y|
    ensures x + [c] == y + [d] <==> x == y && c == d
  {
    assert (x + [c])[..|x|] == x && (x + [c])[|x|] == c;
    assert (y + [d])[..|y|] == y && (y + [d])[|y|] == d;
  }

  lemma {:induction false} SameContent(a: seq<Block>, b: seq<Block>)
    requires AllSameButInput(a, b)
    ensures ContentIn(a) == ContentIn(b) && |CallsIn(a)| == |CallsIn(b)|
  {
    if a != [] {
      var n := |a| - 1;
      assert SameButInput(a[n], b[n]);
      SameContent(a[..n], b[..n]);
    }
  }

  lemma {:induction false} InputsShowInCalls(a: seq<Block>, b: seq<Block>)
    requires AllSameButInput(a, b) && CallsIn(a) == CallsIn(b)
    ensures a == b
  {
    if a != [] {
      var n := |a| - 1;
      var x, y := CallsIn(a[..n]), CallsIn(b[..n]);
      assert SameButInput(a[n], b[n]);
      SameContent(a[..n], b[..n]);
      if a[n].ToolUse? {
        assert CallsIn(a) == x + [ToolCall(a[n].id, a[n].name, a[n].input)];
        assert CallsIn(b) == y + [ToolCall(b[n].id, b[n].name, b[n].input)];
        SameEnds(x, y, ToolCall(a[n].id, a[n].name, a[n].input), ToolCall(b[n].id, b[n].name, b[n].input));
      } else {
        assert CallsIn(a) == x && CallsIn(b) == y;
      }
      hide CallsIn, ContentIn;
      InputsShowInCalls(a[..n], b[..n]);
      assert a == a[..n] + [a[n]] && b == b[..n] + [b[n]];
    }
  }

  lemma NativeShowsInputs(a: seq<Block>, b: seq<Block>)
    requires AllSameButInput(a, b)
    ensures Native(ContentIn(a), CallsIn(a)) == Native(ContentIn(b), CallsIn(b)) <==> a == b
  {
    SameContent(a, b);
    if CallsIn(a) == CallsIn(b) {
      InputsShowInCalls(a, b);
    }
    hide ContentIn, CallsIn;
  }

  lemma SpelledInputs(es: seq<Event>, spelled: seq<Block>, content: seq<Block>)
    requires Encodes(es, spelled) && AllSameButInput(spelled, content)
    ensures spelled == content <==> forall k :: 0 <= k < |content| && content[k].ToolUse? ==> Pieces(es, k) == content[k].input
  {
    hide Orderly, Pieces, SignatureFor;
    forall k | 0 <= k < |content|
      ensures spelled[k] == if content[k].ToolUse? then ToolUse(content[k].id, content[k].name, Pieces(es, k)) else content[k]
    {
      assert SameButInput(spelled[k], content[k]);
      assert Spelled(es, k) == Some(spelled[k]);
    }
    hide Encodes, AllSameButInput, Opened;
  }

  /** Where the two paths part: for any interleaving that agrees with the reply but for the inputs of tools,
      the replay messages are equal exactly when each tool's pieces spell its input.  A tool without
      pieces streams "" where the reply has "{}". */
  lemma ReplayMessageNeedsInputs(es: seq<Event>, spelled: seq<Block>, content: seq<Block>, n: nat)
    requires Encodes(es, spelled) && AllSameButInput(spelled, content) && Bounds(After(es), n)
    ensures NativeBelow(After(es), n) == Native(ContentIn(content), CallsIn(content)) <==>
            forall k :: 0 <= k < |content| && content[k].ToolUse? ==> Pieces(es, k) == content[k].input
  {
    hide After, Encodes, NativeBelow, ContentIn, CallsIn, Native, AllSameButInput, Bounds;
    ReplayMessageIsTheSame(es, spelled, n);
    NativeShowsInputs(spelled, content);
    SpelledInputs(es, spelled, content);
  }

  /** One more block opens at a position that is free. */
  lemma OneMoreOpening(es: seq<Event>, at: int, b: Block)
    requires Orderly(es) && Opened(es, at).None?
    ensures var all := es + [BlockStart(at, b)];
            && Orderly(all)
            && (forall k :: Opened(all, k) == if k == at then Some(b) else Opened(es, k))
            && (forall k :: Pieces(all, k) == Pieces(es, k))
            && ToolsOpened(all) == (if b.ToolUse? then ToolsOpened(es) + [at] else ToolsOpened(es))
  {
    var all := es + [BlockStart(at, b)];
    assert all[..|all| - 1] == es && all[|all| - 1] == BlockStart(at, b);
    assert Fits(es, BlockStart(at, b));
  }

  lemma NoEvents()
    ensures Orderly([]) && ToolsOpened([]) == [] && forall k :: Opened([], k).None? && Pieces([], k) == ""
  {
  }

  lemma OneToolEncodes(id: string, name: string, n: nat)
    requires n > 0
    ensures var es := [BlockStart(0, ToolUse(id, name, "{}"))];
            Encodes(es, [ToolUse(id, name, "")]) && Pieces(es, 0) == "" && Bounds(After(es), n)
  {
    var es := [BlockStart(0, ToolUse(id, name, "{}"))];
    NoEvents();
    OneMoreOpening([], 0, ToolUse(id, name, "{}"));
    assert [] + es == es;
    ReachBounds(es);
    assert es[..|es| - 1] == [] && Reach([]) == 0 && Reach(es) == 1;
    hide Orderly, Opened, Pieces, After, Reach;
  }

  /** The failure: a tool that takes no arguments and streams no JSON is replayed with "" on one path and with
      the marshalled "{}" on the other. */
  lemma AToolWithoutPiecesDiffers(id: string, name: string, n: nat)
    requires n > 0
    ensures var es, content := [BlockStart(0, ToolUse(id, name, "{}"))], [ToolUse(id, name, "{}")];
            && Bounds(After(es), n)
            && NativeBelow(After(es), n) != Native(ContentIn(content), CallsIn(content))
  {
    var es, content := [BlockStart(0, ToolUse(id, name, "{}"))], [ToolUse(id, name, "{}")];
    OneToolEncodes(id, name, n);
    assert content[0].ToolUse? && Pieces(es, 0) != content[0].input;
    hide NativeBelow, ContentIn, CallsIn, Encodes, Pieces, After, Bounds, Native;
    ReplayMessageNeedsInputs(es, [ToolUse(id, name, "")], content, n);
  }

  lemma BackwardsEncodes(a: string, b: string, name: string)
    ensures var es := [BlockStart(1, ToolUse(b, name, "")), BlockStart(0, ToolUse(a, name, ""))];
            && Encodes(es, [ToolUse(a, name, ""), ToolUse(b, name, "")])
            && ToolsOpened(es) == [1, 0]
  {
    var one := [BlockStart(1, ToolUse(b, name, ""))];
    var es := [BlockStart(1, ToolUse(b, name, "")), BlockStart(0, ToolUse(a, name, ""))];
    NoEvents();
    OneMoreOpening([], 1, ToolUse(b, name, ""));
    assert [] + one == one && [] + [1] == [1];
    OneMoreOpening(one, 0, ToolUse(a, name, ""));
    assert one + [BlockStart(0, ToolUse(a, name, ""))] == es && [1] + [0] == [1, 0];
    hide Orderly, Opened, Pieces, ToolsOpened;
    assert Spelled(es, 0) == Some(ToolUse(a, name, "")) && Spelled(es, 1) == Some(ToolUse(b, name, ""));
  }

  /** The failure of the opening order: two tool blocks that open at 1 and then at 0 come out as two calls the
      other way round. */
  lemma ToolsOpenedBackwardsDiffer(a: string, b: string, name: string)
    requires a != b
    ensures var es := [BlockStart(1, ToolUse(b, name, "")), BlockStart(0, ToolUse(a, name, ""))];
            var content := [ToolUse(a, name, ""), ToolUse(b, name, "")];
            Encodes(es, content) && CallsOf(After(es).sent) != CallsIn(content)
  {
    var es := [BlockStart(1, ToolUse(b, name, "")), BlockStart(0, ToolUse(a, name, ""))];
    BackwardsEncodes(a, b, name);
    assert ToolsOpened(es)[0] > ToolsOpened(es)[1];
    hide Encodes, CallsOf, CallsIn, After;
    CallsNeedOpeningOrder(es, [ToolUse(a, name, ""), ToolUse(b, name, "")]);
  }
}
