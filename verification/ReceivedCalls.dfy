/** Which tool requests and responses an accumulator holds after a stream. */
module ReceivedCalls {
  import opened Wrappers
  import opened Messages
  import opened Accumulator
  import opened ToolThinking
  import opened ToolCalls

  predicate Speaks(c: Content) {
    c.ToolRequest? || c.ToolResponse?
  }

  /** Only the requests and responses. */
  function Ledger(content: seq<Content>): seq<Content> {
    if content == [] then []
    else
      var init, c := content[..|content| - 1], content[|content| - 1];
      if Speaks(c) then Ledger(init) + [c] else Ledger(init)
  }

  function AtomLedger(atoms: seq<Atom>): seq<Content> {
    if atoms == [] then []
    else
      var init, a := atoms[..|atoms| - 1], atoms[|atoms| - 1];
      if a.Block? && Speaks(a.content) then AtomLedger(init) + [a.content] else AtomLedger(init)
  }

  lemma {:induction false} AtomLedgerConcat(a: seq<Atom>, b: seq<Atom>)
    ensures AtomLedger(a + b) == AtomLedger(a) + AtomLedger(b)
  {
    if b == [] {
      assert a + b == a;
    } else {
      var init, x := b[..|b| - 1], b[|b| - 1];
      AtomLedgerConcat(a, init);
      assert a + b == (a + init) + [x];
      assert (a + b)[..|a + b| - 1] == a + init;
      if x.Block? {
        Assoc(AtomLedger(a), AtomLedger(init), [x.content]);
      }
    }
  }

  lemma {:induction false} NoBlocks(atoms: seq<Atom>)
    requires forall i :: 0 <= i < |atoms| ==> !atoms[i].Block?
    ensures AtomLedger(atoms) == []
  {
    if atoms != [] {
      NoBlocks(atoms[..|atoms| - 1]);
    }
  }

  lemma PartLedger(c: Content)
    ensures AtomLedger(Part(c, false)) == if Speaks(c) then [c] else []
  {
    match c
    case Text(text, audience) => NoBlocks(TextAtoms(text, audience));
    case Thinking(_, _) =>
    case _ => OneBlock(c);
  }

  lemma OneBlock(c: Content)
    ensures AtomLedger([Block(c)]) == if Speaks(c) then [c] else []
  {
    assert [Block(c)][..0] == [];
    assert AtomLedger([]) == [];
  }

  lemma {:induction false} ContentLedger(content: seq<Content>)
    ensures AtomLedger(Atoms(content, false)) == Ledger(content)
  {
    if content != [] {
      var init, c := content[..|content| - 1], content[|content| - 1];
      ContentLedger(init);
      AtomLedgerConcat(Atoms(init, false), Part(c, false));
      PartLedger(c);
    }
  }

  lemma {:induction false} SaidIsContents(messages: seq<Message>, t: bool)
    ensures Said(messages, t) == Atoms(Contents(messages), t)
  {
    if messages != [] {
      var init := messages[..|messages| - 1];
      SaidIsContents(init, t);
      AtomsConcat(Contents(init), messages[|messages| - 1].content, t);
    }
  }

  lemma {:induction false} LedgerDecides(content: seq<Content>, answered: set<string>)
    ensures RequestIds(content) == RequestIds(Ledger(content))
    ensures Answers(content) == Answers(Ledger(content))
    ensures PendingFrom(content, answered) == PendingFrom(Ledger(content), answered)
  {
    if content != [] {
      LedgerDecides(content[..|content| - 1], answered);
    }
  }

  lemma {:induction false} UnseenIds(content: seq<Content>, seen: set<string>)
    ensures RequestIds(Unseen(content, seen)) == RequestIds(content) - seen
    ensures Answers(Unseen(content, seen)) == Answers(content)
  {
    if content != [] {
      var init, c := content[..|content| - 1], content[|content| - 1];
      UnseenIds(init, seen);
      var kept := Unseen(init, seen);
      assert (kept + [c])[..|kept|] == kept;
    }
  }

  lemma {:induction false} UnseenDistinct(content: seq<Content>, seen: set<string>, answered: set<string>)
    ensures Distinct(IdsOf(PendingFrom(Unseen(content, seen), answered)))
  {
    if content != [] {
      var init, c := content[..|content| - 1], content[|content| - 1];
      UnseenDistinct(init, seen, answered);
      UnseenIds(init, seen);
      var kept := Unseen(init, seen);
      assert (kept + [c])[..|kept|] == kept;
      PendingNotAnswered(kept, answered);
      if Outstanding(c, answered) {
        IdsSnoc(PendingFrom(kept, answered), c);
        DistinctSnoc(IdsOf(PendingFrom(kept, answered)), c.id);
      }
    }
  }

  /** The accumulator requests and answers what was streamed; each id it requests only once. */
  lemma StreamedCalls(items: seq<Item>)
    ensures var received := Contents(Collect(items).messages);
            RequestIds(received) == RequestIds(Streamed(items))
            && Answers(received) == Answers(Streamed(items))
            && Distinct(IdsOf(PendingFrom(received, {})))
  {
    var received, kept := Contents(Collect(items).messages), Unseen(Streamed(items), {});
    NothingElseIsLost(items);
    SaidIsContents(Collect(items).messages, false);
    ContentLedger(received);
    ContentLedger(kept);
    LedgerDecides(received, {});
    LedgerDecides(kept, {});
    UnseenIds(Streamed(items), {});
    UnseenDistinct(Streamed(items), {}, {});
  }
}
