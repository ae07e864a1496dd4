/** No element of the explicit producer is skipped: what module ReadHistory says of claims
    holds of its consumers in every run. */
module ExplicitHistory {
  import opened ExplicitProducer
  import P = ExplicitProducerProof
  import H = ReadHistory
  import C = DequeueCounters

  /** How far a consumer has come with its claim. */
  function ReadTo(r: ReaderPc, pc: C.Pc): nat
  {
    match r
    case RBlock(_, _, i) => i
    case RRead(_, _, _, _, at) => at
    case RMark(_, _, _, _, to, _) => to
    case _ => if pc.Reading? then pc.first else 0
  }

  function Seen(s: State): H.View
  {
    H.View(s.c, seq(|s.readers|, t requires 0 <= t < |s.readers| =>
                      if t < |s.c.threads| then ReadTo(s.readers[t], s.c.threads[t]) else 0),
           s.read.Keys, s.finished)
  }

  lemma ProducerSeen(s: State, s': State)
    requires ProducerStep(s, s')
    ensures H.Step(Seen(s), Seen(s'))
  {
    P.ProducerProjects(s, s');
    ProducerLeaves(s, s');
    assert Seen(s').upTo == Seen(s).upTo;
    assert H.TailMoves(Seen(s), Seen(s'));
  }

  lemma ProducerLeaves(s: State, s': State)
    requires ProducerStep(s, s')
    ensures s'.readers == s.readers && s'.read == s.read && s'.finished == s.finished
  {
    if s.producer.PAlloc? && s' != s.(producer := PIdle) {
      var b :| NotOurs(s, b) && Linked(s, b, s');
    }
  }

  lemma CountSeen(s: State, t: nat, s': State)
    requires CountStep(s, t, s')
    ensures H.Step(Seen(s), Seen(s'))
  {
    C.CounterFacts(s.c, t, s'.c);
    assert Seen(s').upTo == Seen(s).upTo[t := Seen(s').upTo[t]];
    assert H.Counts(Seen(s), t, Seen(s'));
  }

  lemma LookupSeen(s: State, t: nat, s': State)
    requires LookupStep(s, t, s')
    ensures H.Step(Seen(s), Seen(s'))
  {
    LookupPlace(s, t, s');
    assert Seen(s').upTo == Seen(s).upTo;
  }

  lemma LookupPlace(s: State, t: nat, s': State)
    requires LookupStep(s, t, s')
    ensures s' == Go(s, t, s'.readers[t])
    ensures ReadTo(s'.readers[t], s.c.threads[t]) == ReadTo(s.readers[t], s.c.threads[t])
  {}

  lemma ReadSeen(s: State, g: P.Ghosts, t: nat, s': State)
    requires ReadStep(s, t, s') && P.ReaderOk(s, g, t)
    ensures H.Step(Seen(s), Seen(s'))
  {
    if s'.readers[t].RRead? {
      ElementSeen(s, t, s');
    } else {
      assert Seen(s').upTo == Seen(s).upTo;
    }
  }

  lemma ElementSeen(s: State, t: nat, s': State)
    requires ReadStep(s, t, s') && s'.readers[t].RRead? && s.readers[t].at < C.ClaimEnd(s.c, t)
    ensures H.Step(Seen(s), Seen(s'))
  {
    assert Seen(s').upTo == Seen(s).upTo[t := Seen(s).upTo[t] + 1];
    assert H.Reads(Seen(s), t, Seen(s'));
  }

  lemma MarkSeen(s: State, g: P.Ghosts, t: nat, s': State)
    requires MarkStep(s, t, s') && P.ReaderOk(s, g, t)
    ensures H.Step(Seen(s), Seen(s'))
  {
    var r := s.readers[t];
    if r.left > 0 {
      assert Seen(s').upTo == Seen(s).upTo;
      assert H.Finishes(Seen(s), t, Seen(s'));
    } else if r.to < C.ClaimEnd(s.c, t) {
      assert Seen(s').upTo == Seen(s).upTo;
    } else {
      DoneSeen(s, g, t, s');
    }
  }

  lemma DoneSeen(s: State, g: P.Ghosts, t: nat, s': State)
    requires MarkStep(s, t, s') && P.ReaderOk(s, g, t)
    requires s.readers[t].left == 0 && s.readers[t].to >= C.ClaimEnd(s.c, t)
    ensures H.Step(Seen(s), Seen(s'))
  {
    C.CounterFacts(s.c, t, s'.c);
    C.ReadingEnds(s.c, t, s'.c);
    assert Seen(s').upTo == Seen(s).upTo[t := Seen(s').upTo[t]];
    assert H.Counts(Seen(s), t, Seen(s'));
  }

  lemma NextSeen(s: State, g: P.Ghosts, s': State)
    requires P.ReadersOk(s, g) && Next(s, s')
    ensures H.Step(Seen(s), Seen(s'))
  {
    if ProducerStep(s, s') {
      ProducerSeen(s, s');
    } else {
      var t: nat :| ConsumerStep(s, t, s');
      if CountStep(s, t, s') {
        CountSeen(s, t, s');
      } else if LookupStep(s, t, s') {
        LookupSeen(s, t, s');
      } else {
        assert P.ReaderOk(s, g, t);
        if ReadStep(s, t, s') {
          ReadSeen(s, g, t, s');
        } else {
          MarkSeen(s, g, t, s');
        }
      }
    }
  }

  lemma RunSeen(tr: seq<State>) returns (vs: seq<H.View>)
    requires Execution(tr)
    ensures H.Run(vs) && |vs| == |tr| && forall i | 0 <= i < |tr| :: vs[i] == Seen(tr[i])
  {
    vs := seq(|tr|, i requires 0 <= i < |tr| => Seen(tr[i]));
    forall i: nat | i < |tr| - 1 ensures H.Step(vs[i], vs[i + 1]) {
      var g, _ := P.Reachable(tr, i);
      assert Next(tr[i], tr[i + 1]);
      NextSeen(tr[i], g, tr[i + 1]);
    }
  }

  /** In every state of every run each index below the head has been read, with the value
      that was enqueued at it, or lies ahead of a consumer that claimed it; only indices
      that have been read are counted as dequeued; and when no consumer is reading, the
      indices read are exactly those below the head. */
  lemma NothingSkipped(tr: seq<State>, i: nat)
    requires Execution(tr) && i < |tr|
    ensures H.Complete(Seen(tr[i]), tr[i].enqueued, tr[i].read)
  {
    var vs := RunSeen(tr);
    H.Always(vs, i);
    var g, _ := P.Reachable(tr, i);
    C.PromisedNat(tr[i].c.threads);
    H.IsComplete(Seen(tr[i]), tr[i].enqueued, tr[i].read);
  }
}
