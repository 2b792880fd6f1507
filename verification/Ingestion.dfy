/** Ingesting one Act: rows are upserted in transactions of fifty, then each missing chunk is embedded
    and inserted in a transaction of its own. A run may die at any statement and be started again. */
module Ingestion {
  import opened ChunkKeys

  /** A parsed section; several may come out under one URL. */
  datatype Section = Section(url: string, heading: string, body: string)

  datatype Row = Row(heading: string, body: string)

  /** `legislation` by its unique source_url (chunk_index is always 0) and `corpus_chunks` by its
      unique hash. */
  datatype Tables = Tables(legislation: map<string, Row>, chunks: set<string>)

  // ---- What the sections stand for ----

  /** The row of each URL: the last section under it wins. */
  function Rows(sections: seq<Section>): map<string, Row> {
    if sections == [] then map[]
    else
      var last := sections[|sections| - 1];
      Rows(sections[..|sections| - 1])[last.url := Row(last.heading, last.body)]
  }

  function KeyOf(section: Section, i: nat): string
    requires i < |Chunks(section.body)|
  {
    KeyText(section.url, i, Chunks(section.body)[i])
  }

  function SectionKeys(section: Section): set<string> {
    set i | 0 <= i < |Chunks(section.body)| :: KeyOf(section, i)
  }

  function Keys(sections: seq<Section>): set<string> {
    if sections == [] then {}
    else Keys(sections[..|sections| - 1]) + SectionKeys(sections[|sections| - 1])
  }

  function ChunkCount(sections: seq<Section>): nat {
    if sections == [] then 0
    else ChunkCount(sections[..|sections| - 1]) + |Chunks(sections[|sections| - 1].body)|
  }

  /** One run without a failure. */
  function Clean(t: Tables, sections: seq<Section>): Tables {
    Tables(t.legislation + Rows(sections), t.chunks + Keys(sections))
  }

  /** What the commits of any runs can have done so far: only rows of these sections are changed, no
      row or chunk is lost, and only chunks of these sections are added. */
  predicate Touched(before: Tables, after: Tables, sections: seq<Section>) {
    && after.legislation.Keys <= before.legislation.Keys + Rows(sections).Keys
    && before.legislation.Keys <= after.legislation.Keys
    && (forall url | url in before.legislation && url !in Rows(sections) ::
          after.legislation[url] == before.legislation[url])
    && before.chunks <= after.chunks <= before.chunks + Keys(sections)
  }

  /** What one run leaves, wherever it died: whole batches of rows, and chunks only after all rows. */
  ghost predicate Attempt(before: Tables, after: Tables, sections: seq<Section>) {
    exists n: nat ::
      && n <= |sections| && (n == |sections| || n % 50 == 0)
      && after.legislation == before.legislation + Rows(sections[..n])
      && before.chunks <= after.chunks <= before.chunks + Keys(sections)
      && (n < |sections| ==> after.chunks == before.chunks)
  }

  // ---- Restarting ----

  lemma {:induction false} RowsOfPrefix(sections: seq<Section>, n: nat)
    requires n <= |sections|
    ensures Rows(sections[..n]).Keys <= Rows(sections).Keys
    decreases |sections|
  {
    if n < |sections| {
      var front := sections[..|sections| - 1];
      RowsOfPrefix(front, n);
      assert front[..n] == sections[..n];
    } else {
      assert sections[..n] == sections;
    }
  }

  lemma AttemptTouches(before: Tables, after: Tables, sections: seq<Section>)
    requires Attempt(before, after, sections)
    ensures Touched(before, after, sections)
  {
    var n: nat :|
      && n <= |sections| && (n == |sections| || n % 50 == 0)
      && after.legislation == before.legislation + Rows(sections[..n])
      && before.chunks <= after.chunks <= before.chunks + Keys(sections)
      && (n < |sections| ==> after.chunks == before.chunks);
    RowsOfPrefix(sections, n);
  }

  lemma CleanAfterTouched(before: Tables, after: Tables, sections: seq<Section>)
    requires Touched(before, after, sections)
    ensures Clean(after, sections) == Clean(before, sections)
  {
    hide Rows, Keys;
    var rows := Rows(sections);
    assert after.legislation + rows == before.legislation + rows;
  }

  /** Runs on the same XML, one after another and each dying or failing anywhere (AttemptTouches), followed
      by one clean run, leave what one clean run from the start would: the same rows and chunks. */
  lemma {:induction false} RestartsConverge(trace: seq<Tables>, sections: seq<Section>)
    requires trace != [] && forall i | 0 <= i < |trace| - 1 :: Touched(trace[i], trace[i + 1], sections)
    ensures Clean(trace[|trace| - 1], sections) == Clean(trace[0], sections)
  {
    if |trace| > 1 {
      var front := trace[..|trace| - 1];
      forall i | 0 <= i < |front| - 1 ensures Touched(front[i], front[i + 1], sections) {
        assert Touched(trace[i], trace[i + 1], sections);
      }
      RestartsConverge(front, sections);
      CleanAfterTouched(trace[|trace| - 2], trace[|trace| - 1], sections);
    }
  }

  /** A clean run is itself such a run, and repeating it changes nothing. */
  lemma CleanIsStable(t: Tables, sections: seq<Section>)
    ensures Attempt(t, Clean(t, sections), sections)
    ensures Clean(Clean(t, sections), sections) == Clean(t, sections)
  {
    assert sections[..|sections|] == sections;
    AttemptTouches(t, Clean(t, sections), sections);
    CleanAfterTouched(t, Clean(t, sections), sections);
  }

  // ---- A run ----

  datatype Pending = Pending(url: string, index: nat, body: string)

  function KeyOfPending(p: Pending): string {
    KeyText(p.url, p.index, p.body)
  }

  function PendingKeys(pending: seq<Pending>): set<string> {
    set p | p in pending :: KeyOfPending(p)
  }

  lemma PendingKeysSnoc(pending: seq<Pending>, p: Pending)
    ensures PendingKeys(pending + [p]) == PendingKeys(pending) + {KeyOfPending(p)}
  {
  }

  /** The first n embeddings succeed. */
  ghost predicate AllEmbed(embeds: nat -> bool, n: nat) {
    forall k | 0 <= k < n :: embeds(k)
  }

  /** Some of the keys were added to what was stored, or all of them. */
  ghost predicate Stored(before: set<string>, after: set<string>, keys: set<string>, all: bool) {
    before <= after <= before + keys && (all ==> after == before + keys)
  }

  datatype Outcome = Finished(sections: nat, rows: nat, chunksEmbedded: nat) | Died

  /** A database session. Statements act on `working`; a commit makes it `committed`, and the death of
      the process takes `working` back. `life` is how many more statements the process survives. */
  class Session {
    var committed: Tables
    var working: Tables
    var life: nat

    constructor (t: Tables, life: nat)
      ensures committed == working == t && this.life == life
    {
      committed, working, this.life := t, t, life;
    }

    method Commit()
      modifies this
      ensures committed == working == old(working) && life == old(life)
    {
      committed := working;
    }

    /** Executes the next statement, or dies. */
    method Survive() returns (alive: bool)
      modifies this
      ensures alive == (old(life) > 0)
      ensures alive ==> life == old(life) - 1 && working == old(working)
      ensures !alive ==> life == 0 && working == committed
      ensures committed == old(committed)
    {
      alive := life > 0;
      if alive {
        life := life - 1;
      } else {
        working := committed;
      }
    }

    method UpsertRows(sections: seq<Section>) returns (alive: bool, inserted: nat)
      requires working == committed
      modifies this
      ensures working == committed && committed.chunks == old(committed.chunks)
      ensures alive == (old(life) >= |sections|)
      ensures alive ==>
                && inserted == |sections| && life == old(life) - |sections|
                && committed.legislation == old(committed.legislation) + Rows(sections)
      ensures !alive ==>
                exists n: nat | n < |sections| && n % 50 == 0 ::
                  committed.legislation == old(committed.legislation) + Rows(sections[..n])
    {
      ghost var start := committed;
      ghost var n := 0;
      inserted := 0;
      assert start.legislation + Rows(sections[..0]) == start.legislation;
      var i := 0;
      while i < |sections|
        invariant 0 <= i <= |sections| && inserted == i && life == old(life) - i
        invariant n <= i && n % 50 == 0 && (i < |sections| ==> n <= i) && (i > 0 ==> n < |sections|)
        invariant committed == Tables(start.legislation + Rows(sections[..n]), start.chunks)
        invariant working == Tables(start.legislation + Rows(sections[..i]), start.chunks)
      {
        if i > 0 && i % 50 == 0 {
          Commit();
          n := i;
        }
        alive := Survive();
        if !alive {
          assert n < |sections| && n % 50 == 0;
          return;
        }
        var s := sections[i];
        RowsSnoc(sections, i, start.legislation);
        working := working.(legislation := working.legislation[s.url := Row(s.heading, s.body)]);
        inserted := inserted + 1;
        i := i + 1;
      }
      Commit();
      assert sections[..|sections|] == sections;
      alive := true;
    }

    /** The chunks not yet stored, read in one transaction. */
    method FindPending(sections: seq<Section>) returns (alive: bool, pending: seq<Pending>)
      requires working == committed
      modifies this
      ensures working == committed == old(committed)
      ensures alive == (old(life) >= ChunkCount(sections))
      ensures alive ==>
                && life == old(life) - ChunkCount(sections)
                && |pending| <= ChunkCount(sections)
                && PendingKeys(pending) == Keys(sections) - committed.chunks
    {
      pending := [];
      alive := true;
      assert sections[..0] == [];
      assert PendingKeys([]) == {};
      for i := 0 to |sections|
        invariant working == committed == old(committed)
        invariant old(life) >= ChunkCount(sections[..i]) && life == old(life) - ChunkCount(sections[..i])
        invariant |pending| <= ChunkCount(sections[..i])
        invariant PendingKeys(pending) == Keys(sections[..i]) - committed.chunks
      {
        var more: seq<Pending>;
        CountSnoc(sections, i);
        alive, more := PendingOfSection(sections[i]);
        if !alive {
          CountOfPrefix(sections, i + 1);
          return;
        }
        KeysSnoc(sections, i);
        PendingKeysJoin(pending, more);
        pending := pending + more;
      }
      assert sections[..|sections|] == sections;
    }

    method PendingOfSection(section: Section) returns (alive: bool, pending: seq<Pending>)
      requires working == committed
      modifies this
      ensures working == committed == old(committed)
      ensures alive == (old(life) >= |Chunks(section.body)|)
      ensures alive ==>
                && life == old(life) - |Chunks(section.body)|
                && |pending| <= |Chunks(section.body)|
                && PendingKeys(pending) == SectionKeys(section) - committed.chunks
    {
      var chunks := Chunks(section.body);
      pending := [];
      alive := true;
      FirstAndLast(section);
      hide FirstKeys, PendingKeys, SectionKeys, KeyText, Chunks;
      for i := 0 to |chunks|
        invariant working == committed == old(committed)
        invariant life == old(life) - i && |pending| <= i
        invariant PendingKeys(pending) == FirstKeys(section, i) - committed.chunks
      {
        alive := Survive();
        if !alive {
          return;
        }
        OneChunkFurther(section, i, pending, working.chunks);
        var p := Pending(section.url, i, chunks[i]);
        if KeyText(section.url, i, chunks[i]) !in working.chunks {
          pending := pending + [p];
        }
      }
    }

    /** INSERT ... ON CONFLICT (chunk_hash) DO NOTHING, and the commit; `added` is the row count. */
    method StoreChunk(p: Pending) returns (alive: bool, added: nat)
      requires working == committed
      modifies this
      ensures working == committed && committed.legislation == old(committed.legislation)
      ensures alive == (old(life) > 0)
      ensures alive ==> life == old(life) - 1 && committed.chunks == old(committed.chunks) + {KeyOfPending(p)}
      ensures !alive ==> committed == old(committed)
      ensures added == |committed.chunks| - |old(committed.chunks)|
    {
      added := 0;
      alive := Survive();
      if alive {
        var key := KeyText(p.url, p.index, p.body);
        if key !in working.chunks {
          working := working.(chunks := working.chunks + {key});
          added := 1;
        } else {
          assert working.chunks + {key} == working.chunks;
        }
        Commit();
      }
    }

    /** Embeds outside any transaction and stores each chunk in its own; a failed embedding is skipped. */
    method EmbedPending(pending: seq<Pending>, embeds: nat -> bool) returns (alive: bool, embedded: nat)
      requires working == committed
      modifies this
      ensures working == committed && committed.legislation == old(committed.legislation)
      ensures Stored(old(committed.chunks), committed.chunks, PendingKeys(pending),
                     alive && AllEmbed(embeds, |pending|))
      ensures old(life) >= |pending| ==> alive
      ensures alive ==> embedded == |committed.chunks| - |old(committed.chunks)|
    {
      hide PendingKeys, KeyOfPending, Stored, AllEmbed;
      ghost var start := committed.chunks;
      embedded := 0;
      alive := true;
      NothingStored(start, pending, embeds);
      for i := 0 to |pending|
        invariant working == committed && committed.legislation == old(committed.legislation)
        invariant Stored(start, committed.chunks, PendingKeys(pending[..i]), AllEmbed(embeds, i))
        invariant life >= old(life) - i
        invariant embedded == |committed.chunks| - |start|
      {
        StoredOneMore(start, committed.chunks, pending, i, embeds);
        if embeds(i) {
          var added: nat;
          alive, added := StoreChunk(pending[i]);
          if !alive {
            StoredOfPrefix(start, committed.chunks, pending, i, AllEmbed(embeds, i));
            return;
          }
          embedded := embedded + added;
        }
      }
      assert pending[..|pending|] == pending;
    }

    /** A run, with the death of the process and every embedding failure chosen by the caller. */
    method IngestAct(sections: seq<Section>, embeds: nat -> bool) returns (r: Outcome)
      requires working == committed
      modifies this
      ensures working == committed
      ensures Attempt(old(committed), committed, sections)
      ensures r.Finished? && (forall i :: embeds(i)) ==> committed == Clean(old(committed), sections)
      ensures r.Finished? ==>
                && committed.legislation == old(committed.legislation) + Rows(sections)
                && r.sections == r.rows == |sections|
                && r.chunksEmbedded == |committed.chunks| - |old(committed.chunks)|
      ensures old(life) >= |sections| + 2 * ChunkCount(sections) ==> r.Finished?
    {
      hide Rows, Keys, PendingKeys, ChunkCount, AllEmbed, Attempt;
      ghost var start := committed;
      if |sections| == 0 {
        NothingToDo(start);
        return Finished(0, 0, 0);
      }
      var alive, rows := UpsertRows(sections);
      if !alive {
        DiedInRows(start, committed, sections);
        return Died;
      }
      var pending: seq<Pending>;
      alive, pending := FindPending(sections);
      if !alive {
        AllRowsIn(start, committed, sections);
        return Died;
      }
      var embedded: nat;
      alive, embedded := EmbedPending(pending, embeds);
      assert start.chunks + (Keys(sections) - start.chunks) == start.chunks + Keys(sections);
      AllRowsIn(start, committed, sections);
      EveryEmbedding(embeds, |pending|);
      r := if alive then Finished(|sections|, rows, embedded) else Died;
    }
  }

  lemma NothingToDo(t: Tables)
    ensures Attempt(t, t, []) && Clean(t, []) == t && t.legislation + Rows([]) == t.legislation
  {
    var none: seq<Section> := [];
    assert none[..0] == none && t.legislation + map[] == t.legislation && t.chunks + {} == t.chunks;
  }

  lemma DiedInRows(before: Tables, after: Tables, sections: seq<Section>)
    requires before.chunks == after.chunks
    requires exists n: nat | n < |sections| && n % 50 == 0 ::
               after.legislation == before.legislation + Rows(sections[..n])
    ensures Attempt(before, after, sections)
  {
    hide Rows, Keys;
  }

  lemma AllRowsIn(before: Tables, after: Tables, sections: seq<Section>)
    requires after.legislation == before.legislation + Rows(sections)
    requires before.chunks <= after.chunks <= before.chunks + Keys(sections)
    ensures Attempt(before, after, sections)
  {
    hide Rows, Keys;
    assert sections[..|sections|] == sections;
  }

  lemma EveryEmbedding(embeds: nat -> bool, n: nat)
    ensures (forall i :: embeds(i)) ==> AllEmbed(embeds, n)
  {
  }

  lemma RowsSnoc(sections: seq<Section>, i: nat, m: map<string, Row>)
    requires i < |sections|
    ensures m + Rows(sections[..i + 1])
            == (m + Rows(sections[..i]))[sections[i].url := Row(sections[i].heading, sections[i].body)]
  {
    assert sections[..i + 1][..i] == sections[..i];
  }

  lemma CountSnoc(sections: seq<Section>, i: nat)
    requires i < |sections|
    ensures ChunkCount(sections[..i + 1]) == ChunkCount(sections[..i]) + |Chunks(sections[i].body)|
  {
    assert sections[..i + 1][..i] == sections[..i];
  }

  lemma KeysSnoc(sections: seq<Section>, i: nat)
    requires i < |sections|
    ensures Keys(sections[..i + 1]) == Keys(sections[..i]) + SectionKeys(sections[i])
  {
    assert sections[..i + 1][..i] == sections[..i];
  }

  lemma {:induction false} CountOfPrefix(sections: seq<Section>, n: nat)
    requires n <= |sections|
    ensures ChunkCount(sections[..n]) <= ChunkCount(sections)
    decreases |sections|
  {
    if n < |sections| {
      var front := sections[..|sections| - 1];
      CountOfPrefix(front, n);
      assert front[..n] == sections[..n];
    } else {
      assert sections[..n] == sections;
    }
  }

  function FirstKeys(section: Section, n: nat): set<string>
    requires n <= |Chunks(section.body)|
  {
    set i | 0 <= i < n :: KeyOf(section, i)
  }

  lemma FirstAndLast(section: Section)
    ensures FirstKeys(section, 0) == {} == PendingKeys([])
    ensures FirstKeys(section, |Chunks(section.body)|) == SectionKeys(section)
  {
  }

  lemma OneChunkFurther(section: Section, i: nat, pending: seq<Pending>, stored: set<string>)
    requires i < |Chunks(section.body)| && PendingKeys(pending) == FirstKeys(section, i) - stored
    ensures var p := Pending(section.url, i, Chunks(section.body)[i]);
            PendingKeys(if KeyOfPending(p) in stored then pending else pending + [p])
            == FirstKeys(section, i + 1) - stored
  {
    FirstKeysSnoc(section, i);
    PendingKeysSnoc(pending, Pending(section.url, i, Chunks(section.body)[i]));
    hide FirstKeys, PendingKeys, Chunks;
  }

  lemma FirstKeysSnoc(section: Section, n: nat)
    requires n < |Chunks(section.body)|
    ensures FirstKeys(section, n + 1) == FirstKeys(section, n) + {KeyOf(section, n)}
  {
  }

  lemma PendingKeysJoin(one: seq<Pending>, two: seq<Pending>)
    ensures PendingKeys(one + two) == PendingKeys(one) + PendingKeys(two)
  {
  }

  lemma OnePendingMore(pending: seq<Pending>, i: nat)
    requires i < |pending|
    ensures PendingKeys(pending[..i + 1]) == PendingKeys(pending[..i]) + {KeyOfPending(pending[i])}
  {
    PendingKeysSnoc(pending[..i], pending[i]);
    assert pending[..i + 1] == pending[..i] + [pending[i]];
  }

  lemma NothingStored(start: set<string>, pending: seq<Pending>, embeds: nat -> bool)
    ensures Stored(start, start, PendingKeys(pending[..0]), AllEmbed(embeds, 0))
  {
  }

  lemma StoredOneMore(start: set<string>, chunks: set<string>, pending: seq<Pending>, i: nat, embeds: nat -> bool)
    requires i < |pending| && Stored(start, chunks, PendingKeys(pending[..i]), AllEmbed(embeds, i))
    ensures embeds(i) ==>
              Stored(start, chunks + {KeyOfPending(pending[i])}, PendingKeys(pending[..i + 1]), AllEmbed(embeds, i + 1))
    ensures !embeds(i) ==> Stored(start, chunks, PendingKeys(pending[..i + 1]), AllEmbed(embeds, i + 1))
  {
    hide PendingKeys, KeyOfPending;
    OnePendingMore(pending, i);
  }

  lemma StoredOfPrefix(start: set<string>, chunks: set<string>, pending: seq<Pending>, i: nat, all: bool)
    requires i <= |pending| && Stored(start, chunks, PendingKeys(pending[..i]), all)
    ensures Stored(start, chunks, PendingKeys(pending), false)
  {
    hide PendingKeys;
    KeysOfPrefix(pending, i);
  }

  lemma KeysOfPrefix(pending: seq<Pending>, n: nat)
    requires n <= |pending|
    ensures PendingKeys(pending[..n]) <= PendingKeys(pending)
  {
  }
}
