/** Which claimed indices have been read. Consumers claim ranges through the counters and
    read them from the front. No index is skipped: below the head, each has been read or is
    ahead of the one consumer that claimed it; and only indices that have been read are
    counted as finished. Both kinds of producer are seen through a View. */
module ReadHistory {
  import C = DequeueCounters

  /** `upTo[t]` is how far consumer t has come with its claim. */
  datatype View = View(c: C.State, upTo: seq<nat>, read: set<nat>, finished: set<nat>)

  ghost predicate ClaimRead(v: View, t: nat)
    requires t < |v.c.threads| == |v.upTo|
  {
    v.c.threads[t].Reading? ==>
      && v.c.threads[t].first <= v.upTo[t] <= C.ClaimEnd(v.c, t)
      && forall i: nat | v.c.threads[t].first <= i < v.upTo[t] :: i in v.read
  }

  /** Consumer t has claimed index i and not come to it yet. */
  ghost predicate Ahead(v: View, i: nat, t: nat)
  {
    t < |v.c.threads| == |v.upTo| && v.c.threads[t].Reading? && v.upTo[t] <= i < C.ClaimEnd(v.c, t)
  }

  ghost predicate Covered(v: View, i: nat) { i in v.read || exists t :: Ahead(v, i, t) }

  ghost predicate Ok(v: View)
  {
    && |v.upTo| == |v.c.threads| && v.finished <= v.read
    && (forall t: nat | t < |v.c.threads| :: ClaimRead(v, t))
    && (forall i: nat | i < v.c.head :: Covered(v, i))
  }

  // ------------------------------------------------------------------ steps

  ghost predicate TailMoves(v: View, v': View) { v' == v.(c := v.c.(tail := v'.c.tail)) }

  /** Consumer t reads the next index of its claim. */
  ghost predicate Reads(v: View, t: nat, v': View)
  {
    && t < |v.c.threads| == |v.upTo| && v.c.threads[t].Reading? && v.upTo[t] < C.ClaimEnd(v.c, t)
    && v' == v.(upTo := v.upTo[t := v.upTo[t] + 1], read := v.read + {v.upTo[t]})
  }

  /** Consumer t counts indices it has read as finished. */
  ghost predicate Finishes(v: View, t: nat, v': View)
  {
    && t < |v.c.threads| == |v.upTo| && v.c.threads[t].Reading? && v' == v.(finished := v'.finished)
    && forall i | i in v'.finished && i !in v.finished :: v.c.threads[t].first <= i < v.upTo[t]
  }

  /** Consumer t steps on the counters: it may claim a range, or be done with its own. */
  ghost predicate Counts(v: View, t: nat, v': View)
  {
    && |v.c.threads| == |v.upTo| && C.ThreadStep(v.c, t, v'.c)
    && |v'.upTo| == |v.upTo| && v' == v.(c := v'.c, upTo := v.upTo[t := v'.upTo[t]])
    && (v.c.threads[t].Reading? ==> v.upTo[t] == C.ClaimEnd(v.c, t))
    && (v'.c.threads[t].Reading? ==> v'.upTo[t] == v'.c.threads[t].first)
  }

  ghost predicate Step(v: View, v': View)
  {
    v' == v || TailMoves(v, v') || exists t: nat :: Reads(v, t, v') || Finishes(v, t, v') || Counts(v, t, v')
  }

  lemma TailKeeps(v: View, v': View)
    requires Ok(v) && TailMoves(v, v')
    ensures Ok(v')
  {
    forall u: nat | u < |v'.c.threads| ensures ClaimRead(v', u) {
      assert ClaimRead(v, u);
    }
    forall i: nat | i < v'.c.head ensures Covered(v', i) {
      assert Covered(v, i);
      if i !in v.read {
        var u: nat :| Ahead(v, i, u);
        assert Ahead(v', i, u);
      }
    }
  }

  lemma ReadsKeeps(v: View, t: nat, v': View)
    requires Ok(v) && Reads(v, t, v')
    ensures Ok(v')
  {
    forall u: nat | u < |v'.c.threads| ensures ClaimRead(v', u) {
      assert ClaimRead(v, u);
    }
    forall i: nat | i < v'.c.head ensures Covered(v', i) {
      assert Covered(v, i);
      if i !in v'.read {
        var u: nat :| Ahead(v, i, u);
        assert Ahead(v', i, u);
      }
    }
  }

  lemma FinishesKeeps(v: View, t: nat, v': View)
    requires Ok(v) && Finishes(v, t, v')
    ensures Ok(v')
  {
    assert ClaimRead(v, t);
    forall u: nat | u < |v'.c.threads| ensures ClaimRead(v', u) {
      assert ClaimRead(v, u);
    }
    forall i: nat | i < v'.c.head ensures Covered(v', i) {
      assert Covered(v, i);
      if i !in v.read {
        var u: nat :| Ahead(v, i, u);
        assert Ahead(v', i, u);
      }
    }
  }

  lemma CountsKeeps(v: View, t: nat, v': View)
    requires Ok(v) && Counts(v, t, v')
    ensures Ok(v')
  {
    C.CounterFacts(v.c, t, v'.c);
    ClaimsNew(v.c, t, v'.c);
    forall u: nat | u < |v'.c.threads| ensures ClaimRead(v', u) {
      assert ClaimRead(v, u);
    }
    forall i: nat | i < v'.c.head ensures Covered(v', i) {
      if i < v.c.head {
        assert Covered(v, i);
        if i !in v.read {
          var u: nat :| Ahead(v, i, u);
          assert Ahead(v', i, u);
        }
      } else {
        assert Ahead(v', i, t);
      }
    }
  }

  /** The head moves only by what the stepping thread claims. */
  lemma ClaimsNew(c: C.State, t: nat, c': C.State)
    requires C.ThreadStep(c, t, c')
    ensures t < |c'.threads| && (c'.head > c.head ==> c'.threads[t].Reading? && C.ClaimEnd(c', t) == c'.head)
  {}

  lemma StepKeeps(v: View, v': View)
    requires Ok(v) && Step(v, v')
    ensures Ok(v')
  {
    if TailMoves(v, v') {
      TailKeeps(v, v');
    } else if v' != v {
      var t: nat :| Reads(v, t, v') || Finishes(v, t, v') || Counts(v, t, v');
      if Reads(v, t, v') {
        ReadsKeeps(v, t, v');
      } else if Finishes(v, t, v') {
        FinishesKeeps(v, t, v');
      } else {
        CountsKeeps(v, t, v');
      }
    }
  }

  // ------------------------------------------------------------------ runs

  ghost predicate Run(vs: seq<View>)
  {
    && vs != [] && C.Init(vs[0].c) && |vs[0].upTo| == |vs[0].c.threads| && vs[0].read == vs[0].finished == {}
    && forall i | 0 <= i < |vs| - 1 :: Step(vs[i], vs[i + 1])
  }

  lemma {:induction false} Always(vs: seq<View>, i: nat)
    requires Run(vs) && i < |vs|
    ensures Ok(vs[i])
  {
    if i > 0 {
      Always(vs, i - 1);
      assert Step(vs[i - 1], vs[i]);
      StepKeeps(vs[i - 1], vs[i]);
    }
  }

  /** Every index below the head has been read, with the value enqueued at it, or is ahead
      of a consumer; what is finished has been read; and while nobody is reading, the
      indices read are exactly those below the head. */
  ghost predicate Complete<V>(v: View, enqueued: seq<V>, read: map<nat, V>)
  {
    && |enqueued| == v.c.tail && v.c.head <= v.c.tail && v.finished <= read.Keys
    && (forall x: nat | x < v.c.head :: (x in read && read[x] == enqueued[x]) || exists t :: Ahead(v, x, t))
    && ((forall t | 0 <= t < |v.c.threads| :: !v.c.threads[t].Reading?) ==>
          forall x: nat :: x in read <==> x < v.c.head)
  }

  lemma IsComplete<V>(v: View, enqueued: seq<V>, read: map<nat, V>)
    requires Ok(v) && v.read == read.Keys && |enqueued| == v.c.tail && v.c.head <= v.c.tail
    requires forall x | x in read :: x < v.c.head && read[x] == enqueued[x]
    ensures Complete(v, enqueued, read)
  {
    forall x: nat | x < v.c.head
      ensures (x in read && read[x] == enqueued[x]) || exists t :: Ahead(v, x, t)
    {
      assert Covered(v, x);
    }
  }
}
