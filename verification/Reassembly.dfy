/** Blocks that are streamed in pieces come together again: text by text, thinking up to the piece
    that signs it. */
module Reassembly {
  import opened Wrappers
  import opened Messages
  import opened Accumulator

  /** What a provider streams for a block: pieces of a text for the same audience; pieces of
      thinking, of which only the last carries the signature; any other block as it is. */
  predicate PiecesOf(pieces: seq<Content>, block: Content) {
    pieces != []
    && match block
       case Text(text, audience) =>
         (forall i :: 0 <= i < |pieces| ==> pieces[i].Text? && pieces[i].audience == audience)
         && Spoken(pieces) == text
       case Thinking(thinking, signature) =>
         (forall i :: 0 <= i < |pieces| ==>
            pieces[i].Thinking? && pieces[i].signature == if i == |pieces| - 1 then signature else "")
         && Spoken(pieces) == thinking
       case _ => pieces == [block]
  }

  function Spoken(pieces: seq<Content>): string {
    if pieces == [] then ""
    else
      var p := pieces[|pieces| - 1];
      Spoken(pieces[..|pieces| - 1]) + if p.Text? then p.text else if p.Thinking? then p.thinking else ""
  }

  /** Two blocks that a stream keeps apart: not texts for one audience, and no thinking behind
      thinking that is unsigned or signed alike. */
  predicate Apart(a: Content, b: Content) {
    !(a.Text? && b.Text? && a.audience == b.audience)
    && !(a.Thinking? && b.Thinking? && (a.signature == "" || a.signature == b.signature))
  }

  /** The content after the pieces came one by one in messages of one id. */
  function MergeAll(content: seq<Content>, pieces: seq<Content>): seq<Content> {
    if pieces == [] then content else Merge(MergeAll(content, pieces[..|pieces| - 1]), [pieces[|pieces| - 1]])
  }

  /** The block as far as its pieces have come. */
  function SoFar(block: Content, pieces: seq<Content>): Content {
    match block
    case Text(_, audience) => Text(Spoken(pieces), audience)
    case Thinking(_, _) => Thinking(Spoken(pieces), if pieces == [] then "" else Signature(pieces[|pieces| - 1]))
    case _ => block
  }

  function Signature(c: Content): string {
    if c.Thinking? then c.signature else ""
  }

  lemma {:induction false} PiecesCome(before: seq<Content>, pieces: seq<Content>, block: Content, n: nat)
    requires PiecesOf(pieces, block) && 1 <= n <= |pieces|
    requires before != [] ==> Apart(before[|before| - 1], block)
    ensures MergeAll(before, pieces[..n]) == before + [SoFar(block, pieces[..n])]
  {
    var init, p := pieces[..n - 1], pieces[n - 1];
    assert pieces[..n][..n - 1] == init && pieces[..n][n - 1] == p;
    if n == 1 {
      assert init == [] && pieces[..1] == [p] && MergeAll(before, []) == before;
      FirstPiece(before, pieces, block);
      SoFarOne(pieces, block);
    } else {
      PiecesCome(before, pieces, block, n - 1);
      NextPiece(before, pieces, block, n);
    }
  }

  lemma SoFarOne(pieces: seq<Content>, block: Content)
    requires PiecesOf(pieces, block)
    ensures SoFar(block, [pieces[0]]) == pieces[0]
  {
    var p := pieces[0];
    assert Spoken([p]) == "" + if p.Text? then p.text else if p.Thinking? then p.thinking else "";
    assert p.Text? ==> "" + p.text == p.text;
    assert p.Thinking? ==> "" + p.thinking == p.thinking;
  }

  lemma NextPiece(before: seq<Content>, pieces: seq<Content>, block: Content, n: nat)
    requires PiecesOf(pieces, block) && 1 < n <= |pieces|
    ensures Merge(before + [SoFar(block, pieces[..n - 1])], [pieces[n - 1]]) == before + [SoFar(block, pieces[..n])]
  {
    var init, p := pieces[..n - 1], pieces[n - 1];
    assert pieces[..n][..n - 1] == init && init[n - 2] == pieces[n - 2];
    assert Spoken(pieces[..n]) ==
           Spoken(init) + if p.Text? then p.text else if p.Thinking? then p.thinking else "";
    var now := before + [SoFar(block, init)];
    assert now[..|now| - 1] == before;
  }

  lemma FirstPiece(before: seq<Content>, pieces: seq<Content>, block: Content)
    requires PiecesOf(pieces, block)
    requires before != [] ==> Apart(before[|before| - 1], block)
    ensures Merge(before, [pieces[0]]) == before + [pieces[0]]
  {
  }

  lemma AllCome(before: seq<Content>, pieces: seq<Content>, block: Content)
    requires PiecesOf(pieces, block)
    requires before != [] ==> Apart(before[|before| - 1], block)
    ensures MergeAll(before, pieces) == before + [block]
  {
    PiecesCome(before, pieces, block, |pieces|);
    assert pieces[..|pieces|] == pieces;
  }

  /** The pieces of several blocks, one behind the other. */
  function Flat(pieces: seq<seq<Content>>): seq<Content> {
    if pieces == [] then [] else Flat(pieces[..|pieces| - 1]) + pieces[|pieces| - 1]
  }

  predicate AllApart(blocks: seq<Content>) {
    forall i :: 0 <= i < |blocks| - 1 ==> Apart(blocks[i], blocks[i + 1])
  }

  lemma {:induction false} MergeAllConcat(content: seq<Content>, a: seq<Content>, b: seq<Content>)
    ensures MergeAll(content, a + b) == MergeAll(MergeAll(content, a), b)
  {
    hide Merge;
    if b == [] {
      assert a + b == a;
    } else {
      var init := b[..|b| - 1];
      MergeAllConcat(content, a, init);
      assert a + b == (a + init) + [b[|b| - 1]];
    }
  }

  predicate CutInto(pieces: seq<seq<Content>>, blocks: seq<Content>) {
    |pieces| == |blocks| && forall i :: 0 <= i < |blocks| ==> PiecesOf(pieces[i], blocks[i])
  }

  lemma WithoutLast(blocks: seq<Content>, pieces: seq<seq<Content>>)
    requires blocks != [] && CutInto(pieces, blocks) && AllApart(blocks)
    ensures var n := |blocks| - 1;
            blocks == blocks[..n] + [blocks[n]] && CutInto(pieces[..n], blocks[..n]) && AllApart(blocks[..n])
            && PiecesOf(pieces[n], blocks[n]) && (n > 0 ==> Apart(blocks[..n][n - 1], blocks[n]))
            && Flat(pieces) == Flat(pieces[..n]) + pieces[n]
  {
    var n := |blocks| - 1;
    hide PiecesOf, Apart;
    forall i | 0 <= i < n - 1
      ensures Apart(blocks[..n][i], blocks[..n][i + 1])
    {
      assert Apart(blocks[i], blocks[i + 1]);
    }
    assert n > 0 ==> Apart(blocks[n - 1], blocks[n - 1 + 1]);
  }

  /** However blocks are cut into pieces, if adjacent ones are apart the pieces make up exactly
      those blocks, signatures included. */
  lemma {:induction false} BlocksReassemble(blocks: seq<Content>, pieces: seq<seq<Content>>)
    requires CutInto(pieces, blocks) && AllApart(blocks)
    ensures MergeAll([], Flat(pieces)) == blocks
  {
    if blocks != [] {
      var n := |blocks| - 1;
      WithoutLast(blocks, pieces);
      hide Merge, MergeAll, PiecesOf, Apart, AllApart, Flat, CutInto;
      BlocksReassemble(blocks[..n], pieces[..n]);
      MergeAllConcat([], Flat(pieces[..n]), pieces[n]);
      AllCome(blocks[..n], pieces[n], blocks[n]);
    }
  }

  // ---------- in the accumulator ----------

  /** A chunk of one piece, as it is pushed. */
  predicate Carries(m: Message, id: int, piece: Content) {
    m.id == Some(id) && m.content == [piece]
  }

  function PushAll(messages: seq<Message>, chunks: seq<Message>): seq<Message> {
    if chunks == [] then messages else Pushed(PushAll(messages, chunks[..|chunks| - 1]), chunks[|chunks| - 1])
  }

  lemma {:induction false} PushedTogether(messages: seq<Message>, chunks: seq<Message>, id: int, pieces: seq<Content>)
    requires |chunks| == |pieces| > 0
    requires forall i :: 0 <= i < |chunks| ==> Carries(chunks[i], id, pieces[i])
    requires messages != [] ==> messages[|messages| - 1].id != Some(id)
    ensures var after := PushAll(messages, chunks);
            |after| == |messages| + 1 && after[..|messages|] == messages
            && after[|messages|].id == Some(id) && after[|messages|].content == MergeAll([], pieces)
  {
    var n := |chunks| - 1;
    assert Carries(chunks[n], id, pieces[n]);
    if n == 0 {
      assert PushAll(messages, []) == messages && MergeAll([], []) == [];
      assert [] + [pieces[0]] == [pieces[0]] && pieces[..0] == [] && chunks[..0] == [];
    } else {
      PushedTogether(messages, chunks[..n], id, pieces[..n]);
      var before := PushAll(messages, chunks[..n]);
      assert before == before[..|messages|] + [before[|messages|]];
    }
  }

  /** Streamed in chunks of one id and pushed one by one, the blocks stand in one message, whole and
      in order. */
  lemma StreamedBlocksReassemble(
    messages: seq<Message>, chunks: seq<Message>, id: int, blocks: seq<Content>, pieces: seq<seq<Content>>)
    requires CutInto(pieces, blocks) && AllApart(blocks)
    requires |chunks| == |Flat(pieces)| > 0
    requires forall i :: 0 <= i < |chunks| ==> Carries(chunks[i], id, Flat(pieces)[i])
    requires messages != [] ==> messages[|messages| - 1].id != Some(id)
    ensures var after := PushAll(messages, chunks);
            |after| == |messages| + 1 && after[..|messages|] == messages && after[|messages|].content == blocks
  {
    BlocksReassemble(blocks, pieces);
    PushedTogether(messages, chunks, id, Flat(pieces));
  }

  // ---------- signatures ----------

  /** Thinking joins thinking that is unsigned, and takes its signature, or that is signed alike; of
      two different signatures none is lost. */
  lemma SignaturesStay(last: seq<Content>, a: Content, b: Content)
    requires a.Thinking? && b.Thinking?
    ensures Merge(last + [a], [b]) ==
            if a.signature == "" || a.signature == b.signature then
              last + [Thinking(a.thinking + b.thinking, b.signature)]
            else last + [a, b]
  {
    assert (last + [a])[..|last|] == last && last + [a] + [b] == last + [a, b];
  }
}
