/** Clients that read a stream of events one by one and may refuse it. */
module ChatClient {
  import opened Basics

  /** What a client knows after some events; None if it refused one of them. */
  function Read<C, E>(accept: (C, E) -> Option<C>, c: C, es: seq<E>): Option<C> {
    if es == [] then Some(c)
    else match Read(accept, c, es[..|es| - 1])
         case None => None
         case Some(c1) => accept(c1, es[|es| - 1])
  }

  lemma {:induction false} ReadConcat<C, E>(accept: (C, E) -> Option<C>, c: C, a: seq<E>, b: seq<E>)
    ensures Read(accept, c, a + b) == (match Read(accept, c, a) case None => None case Some(c1) => Read(accept, c1, b))
  {
    if b == [] {
      assert a + b == a;
    } else {
      assert (a + b)[..|a + b| - 1] == a + b[..|b| - 1];
      ReadConcat(accept, c, a, b[..|b| - 1]);
    }
  }

  lemma ReadNone<C, E>(accept: (C, E) -> Option<C>, c: C)
    ensures Read(accept, c, []) == Some(c)
  {
  }

  lemma ReadOne<C, E>(accept: (C, E) -> Option<C>, c: C, e: E)
    ensures Read(accept, c, [e]) == accept(c, e) && Read(accept, c, []) == Some(c)
  {
    assert [e][..0] == [];
  }

  lemma ReadTwo<C, E>(accept: (C, E) -> Option<C>, c: C, e: E, f: E)
    ensures Read(accept, c, [e, f]) == (match accept(c, e) case None => None case Some(c1) => accept(c1, f))
  {
    assert [e, f] == [e] + [f];
    ReadConcat(accept, c, [e], [f]);
    ReadOne(accept, c, e);
    if accept(c, e).Some? { ReadOne(accept, accept(c, e).value, f); }
  }
}
