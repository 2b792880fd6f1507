/** Several runs on the same XML at once, interleaved commit by commit and lookup by lookup. */
module IngestionOverlap {
  import opened ChunkKeys
  import opened Ingestion
  import opened Reingestion

  /** How far a run is: rows committed, lookups still to make, or chunks still to embed; `complete` says
      that no embedding has failed. */
  datatype Phase =
    | Upserting(done: nat)
    | Looking(todo: seq<Pending>, pending: seq<Pending>)
    | Embedding(pending: seq<Pending>, complete: bool)
    | Over(complete: bool)

  datatype State = State(tables: Tables, runs: map<nat, Phase>)

  datatype Action =
    | Start(run: nat) | CommitRows(run: nat) | LookUp(run: nat) | Embed(run: nat, ok: bool) | Die(run: nat)

  function SectionChunks(s: Section): seq<Pending> {
    seq(|Chunks(s.body)|, (i: nat) requires i < |Chunks(s.body)| => Pending(s.url, i, Chunks(s.body)[i]))
  }

  /** Every chunk of the sections, in the order they are looked up. */
  function AllChunks(sections: seq<Section>): seq<Pending> {
    if sections == [] then []
    else AllChunks(sections[..|sections| - 1]) + SectionChunks(sections[|sections| - 1])
  }

  /** The end of the batch that starts at `done`. */
  function BatchEnd(sections: seq<Section>, done: nat): nat {
    if done + 50 < |sections| then done + 50 else |sections|
  }

  function Next(sections: seq<Section>, t: Tables, phase: Phase, a: Action): (Tables, Phase) {
    match (phase, a)
    case (Upserting(done), CommitRows(_)) =>
      var end := BatchEnd(sections, done);
      if done >= end then (t, if sections == [] then Over(true) else Looking(AllChunks(sections), []))
      else
        (t.(legislation := t.legislation + Rows(sections[done..end])),
         if end == |sections| then Looking(AllChunks(sections), []) else Upserting(end))
    case (Looking(todo, pending), LookUp(_)) =>
      if todo == [] then (t, Embedding(pending, true))
      else (t, Looking(todo[1..], if KeyOfPending(todo[0]) in t.chunks then pending else pending + [todo[0]]))
    case (Embedding(pending, complete), Embed(_, ok)) =>
      if pending == [] then (t, Over(complete))
      else if ok then (t.(chunks := t.chunks + {KeyOfPending(pending[0])}), Embedding(pending[1..], complete))
      else (t, Embedding(pending[1..], false))
    case _ => (t, phase)
  }

  /** Statements out of turn change nothing. */
  function Step(sections: seq<Section>, s: State, a: Action): State {
    if a.Start? then if a.run in s.runs then s else s.(runs := s.runs[a.run := Upserting(0)])
    else if a.run !in s.runs then s
    else if a.Die? then s.(runs := s.runs - {a.run})
    else
      var (t, phase) := Next(sections, s.tables, s.runs[a.run], a);
      State(t, s.runs[a.run := phase])
  }

  function RunAll(sections: seq<Section>, s: State, actions: seq<Action>): State
    decreases |actions|
  {
    if actions == [] then s else RunAll(sections, Step(sections, s, actions[0]), actions[1..])
  }

  // ---- Rows ----

  lemma {:induction false} RowsFrom(sections: seq<Section>, url: string)
    ensures url in Rows(sections) <==> exists s | s in sections :: s.url == url
    ensures url in Rows(sections) ==>
              exists s | s in sections :: s.url == url && Rows(sections)[url] == Row(s.heading, s.body)
  {
    if sections != [] {
      var front, last := sections[..|sections| - 1], sections[|sections| - 1];
      RowsFrom(front, url);
      assert sections == front + [last];
      assert last in sections;
    }
  }

  /** A batch writes rows of the sections; with one section for each URL, the rows that stay. */
  lemma BatchRows(sections: seq<Section>, from: nat, to: nat)
    requires from <= to <= |sections|
    ensures Rows(sections[from..to]).Keys <= Rows(sections).Keys
    ensures OneSectionPerUrl(sections) ==>
              forall url | url in Rows(sections[from..to]) :: Rows(sections[from..to])[url] == Rows(sections)[url]
  {
    hide Rows;
    var batch := sections[from..to];
    forall url | url in Rows(batch)
      ensures url in Rows(sections) && (OneSectionPerUrl(sections) ==> Rows(batch)[url] == Rows(sections)[url])
    {
      RowsFrom(batch, url);
      RowsFrom(sections, url);
      assert forall s | s in batch :: s in sections;
    }
  }

  lemma PrefixAndBatch(sections: seq<Section>, done: nat, end: nat, url: string)
    requires done <= end <= |sections|
    ensures url in Rows(sections[..end]) ==> url in Rows(sections[..done]) || url in Rows(sections[done..end])
  {
    hide Rows;
    RowsFrom(sections[..end], url);
    RowsFrom(sections[..done], url);
    RowsFrom(sections[done..end], url);
    assert sections[..end] == sections[..done] + sections[done..end];
  }

  // ---- Chunks ----

  lemma SectionChunksKeys(s: Section)
    ensures PendingKeys(SectionChunks(s)) == SectionKeys(s)
  {
    forall key ensures key in PendingKeys(SectionChunks(s)) <==> key in SectionKeys(s) {
      assert forall i | 0 <= i < |Chunks(s.body)| :: KeyOfPending(SectionChunks(s)[i]) == KeyOf(s, i);
      if key in SectionKeys(s) {
        var i: nat :| i < |Chunks(s.body)| && KeyOf(s, i) == key;
        assert SectionChunks(s)[i] in SectionChunks(s);
      }
    }
  }

  lemma {:induction false} AllChunksKeys(sections: seq<Section>)
    ensures PendingKeys(AllChunks(sections)) == Keys(sections)
  {
    hide PendingKeys, SectionKeys, SectionChunks;
    if sections == [] {
      NoPendingKeys();
    } else {
      var front, last := sections[..|sections| - 1], sections[|sections| - 1];
      AllChunksKeys(front);
      SectionChunksKeys(last);
      PendingKeysJoin(AllChunks(front), SectionChunks(last));
    }
  }

  lemma NoPendingKeys()
    ensures PendingKeys([]) == {}
  {
  }

  lemma HeadKey(pending: seq<Pending>)
    requires pending != []
    ensures PendingKeys(pending) == {KeyOfPending(pending[0])} + PendingKeys(pending[1..])
  {
    assert pending == [pending[0]] + pending[1..];
    PendingKeysJoin([pending[0]], pending[1..]);
    assert PendingKeys([pending[0]]) == {KeyOfPending(pending[0])};
  }

  // ---- What every run keeps ----

  /** The rows of these sections are stored as the sections have them. */
  predicate Stored(sections: seq<Section>, part: seq<Section>, t: Tables) {
    OneSectionPerUrl(sections) ==>
      forall url | url in Rows(part) && url in Rows(sections) ::
        url in t.legislation && t.legislation[url] == Rows(sections)[url]
  }

  /** What one run still has to store is all that may be missing. */
  ghost predicate PhaseOk(sections: seq<Section>, t: Tables, phase: Phase) {
    match phase
    case Upserting(done) => done <= |sections| && Stored(sections, sections[..done], t)
    case Looking(todo, pending) =>
      && Stored(sections, sections, t)
      && PendingKeys(todo) + PendingKeys(pending) <= Keys(sections)
      && Keys(sections) <= t.chunks + PendingKeys(todo) + PendingKeys(pending)
    case Embedding(pending, complete) =>
      && Stored(sections, sections, t) && PendingKeys(pending) <= Keys(sections)
      && (complete ==> Keys(sections) <= t.chunks + PendingKeys(pending))
    case Over(complete) => Stored(sections, sections, t) && (complete ==> Keys(sections) <= t.chunks)
  }

  ghost predicate Inv(sections: seq<Section>, start: Tables, s: State) {
    && Touched(start, s.tables, sections)
    && forall r | r in s.runs :: PhaseOk(sections, s.tables, s.runs[r])
  }

  lemma TouchedTwice(t: Tables, u: Tables, v: Tables, sections: seq<Section>)
    requires Touched(t, u, sections) && Touched(u, v, sections)
    ensures Touched(t, v, sections)
  {
    hide Rows, Keys;
  }

  /** Other runs' commits take nothing away from a run. */
  lemma PhaseStaysOk(sections: seq<Section>, t: Tables, u: Tables, phase: Phase)
    requires PhaseOk(sections, t, phase) && t.chunks <= u.chunks
    requires OneSectionPerUrl(sections) ==>
               forall url | url in t.legislation && url in Rows(sections)
                            && t.legislation[url] == Rows(sections)[url] ::
                 url in u.legislation && u.legislation[url] == Rows(sections)[url]
    ensures PhaseOk(sections, u, phase)
  {
    hide Rows, Keys, PendingKeys;
  }

  lemma CommitRowsOk(sections: seq<Section>, t: Tables, done: nat)
    requires PhaseOk(sections, t, Upserting(done)) && done < |sections|
    ensures var end := BatchEnd(sections, done);
            var u := t.(legislation := t.legislation + Rows(sections[done..end]));
            && Touched(t, u, sections) && Stored(sections, sections[..end], u)
            && (OneSectionPerUrl(sections) ==>
                  forall url | url in t.legislation && url in Rows(sections)
                               && t.legislation[url] == Rows(sections)[url] ::
                    url in u.legislation && u.legislation[url] == Rows(sections)[url])
  {
    var end := BatchEnd(sections, done);
    BatchRows(sections, done, end);
    hide Rows, Keys;
    forall url
      ensures url in Rows(sections[..end]) ==> url in Rows(sections[..done]) || url in Rows(sections[done..end])
    {
      PrefixAndBatch(sections, done, end, url);
    }
  }

  lemma LookingStarts(sections: seq<Section>, t: Tables)
    requires Stored(sections, sections, t)
    ensures PhaseOk(sections, t, Looking(AllChunks(sections), []))
  {
    AllChunksKeys(sections);
    NoPendingKeys();
    hide Keys, PendingKeys, Stored;
  }

  lemma NextOk(sections: seq<Section>, t: Tables, phase: Phase, a: Action)
    requires PhaseOk(sections, t, phase)
    ensures var (u, next) := Next(sections, t, phase, a);
            && Touched(t, u, sections) && PhaseOk(sections, u, next) && t.chunks <= u.chunks
            && (OneSectionPerUrl(sections) ==>
                  forall url | url in t.legislation && url in Rows(sections)
                               && t.legislation[url] == Rows(sections)[url] ::
                    url in u.legislation && u.legislation[url] == Rows(sections)[url])
  {
    hide Rows, Keys, PendingKeys, KeyOfPending, AllChunks, OneSectionPerUrl;
    match (phase, a)
    case (Upserting(done), CommitRows(_)) =>
      var (u, next) := Next(sections, t, phase, a);
      if done < |sections| {
        CommitRowsOk(sections, t, done);
      }
      assert sections[..|sections|] == sections;
      if next.Looking? {
        LookingStarts(sections, u);
      } else if next.Over? {
        assert Keys([]) == {} by { NoKeys(); }
      }
    case (Looking(todo, pending), LookUp(_)) =>
      if todo != [] {
        HeadKey(todo);
        PendingKeysSnoc(pending, todo[0]);
      } else {
        NoPendingKeys();
      }
    case (Embedding(pending, complete), Embed(_, ok)) =>
      if pending != [] {
        HeadKey(pending);
      } else {
        NoPendingKeys();
      }
    case _ =>
  }

  lemma NoKeys()
    ensures Keys([]) == {}
  {
  }

  lemma StepKeeps(sections: seq<Section>, start: Tables, s: State, a: Action)
    requires Inv(sections, start, s)
    ensures Inv(sections, start, Step(sections, s, a))
  {
    hide Next, PhaseOk, Touched, Rows;
    if a.Start? {
      assert PhaseOk(sections, s.tables, Upserting(0)) by { StartOk(sections, s.tables); }
    } else if a.run in s.runs && !a.Die? {
      var u := Next(sections, s.tables, s.runs[a.run], a).0;
      NextOk(sections, s.tables, s.runs[a.run], a);
      TouchedTwice(start, s.tables, u, sections);
      forall r | r in s.runs ensures PhaseOk(sections, u, s.runs[r]) {
        PhaseStaysOk(sections, s.tables, u, s.runs[r]);
      }
    }
  }

  lemma StartOk(sections: seq<Section>, t: Tables)
    ensures PhaseOk(sections, t, Upserting(0))
  {
    assert sections[..0] == [] && Rows([]) == map[];
  }

  lemma {:induction false} RunKeeps(sections: seq<Section>, start: Tables, s: State, actions: seq<Action>)
    requires Inv(sections, start, s)
    ensures Inv(sections, start, RunAll(sections, s, actions))
    decreases |actions|
  {
    if actions != [] {
      StepKeeps(sections, start, s, actions[0]);
      RunKeeps(sections, start, Step(sections, s, actions[0]), actions[1..]);
    }
  }

  lemma NothingTouched(t: Tables, sections: seq<Section>)
    ensures Touched(t, t, sections)
  {
  }

  // ---- Convergence ----

  /** Any number of runs on the same XML, interleaved, crashed and failed in any way, followed by one
      clean run, leave what one clean run would have left. */
  lemma OverlappingRunsConverge(sections: seq<Section>, t: Tables, actions: seq<Action>)
    ensures Clean(RunAll(sections, State(t, map[]), actions).tables, sections) == Clean(t, sections)
  {
    hide Touched, RunAll;
    NothingTouched(t, sections);
    RunKeeps(sections, t, State(t, map[]), actions);
    CleanAfterTouched(t, RunAll(sections, State(t, map[]), actions).tables, sections);
  }

  /** No clean run need stand alone: once any run has ended without a failed embedding, whatever ran
      beside it, every chunk is stored, and with one section for each URL the tables are exactly those
      of one clean run. */
  lemma CompleteRunSettles(sections: seq<Section>, t: Tables, actions: seq<Action>, r: nat)
    requires var s := RunAll(sections, State(t, map[]), actions); r in s.runs && s.runs[r] == Over(true)
    ensures var u := RunAll(sections, State(t, map[]), actions).tables;
            && u.chunks == Clean(t, sections).chunks
            && (OneSectionPerUrl(sections) ==> u == Clean(t, sections))
  {
    hide RunAll, Rows, Keys, OneSectionPerUrl;
    NothingTouched(t, sections);
    RunKeeps(sections, t, State(t, map[]), actions);
    var s := RunAll(sections, State(t, map[]), actions);
    assert PhaseOk(sections, s.tables, s.runs[r]);
    if OneSectionPerUrl(sections) {
      assert s.tables.legislation == t.legislation + Rows(sections);
    }
  }
}
