/** Ingesting an Act again after its XML has changed. */
module Reingestion {
  import opened Text
  import opened ChunkKeys
  import opened Ingestion

  lemma {:induction false} InKeys(sections: seq<Section>, key: string)
    ensures key in Keys(sections)
            <==> exists s, i: nat | s in sections && i < |Chunks(s.body)| :: KeyOf(s, i) == key
  {
    if sections != [] {
      var front, last := sections[..|sections| - 1], sections[|sections| - 1];
      InKeys(front, key);
      assert sections == front + [last];
      assert key in SectionKeys(last) <==> exists i: nat | i < |Chunks(last.body)| :: KeyOf(last, i) == key;
    }
  }

  predicate OneSectionPerUrl(sections: seq<Section>) {
    forall s, t | s in sections && t in sections && s.url == t.url :: s == t
  }

  /** No two different URLs of old and new sections are ones whose chunks can have one hashed text. */
  ghost predicate Apart(old': seq<Section>, new': seq<Section>) {
    forall s, t | s in old' && t in new' && s.url != t.url :: !Collide(s.url, t.url)
  }

  lemma SameKeySameChunk(s: Section, i: nat, t: Section, j: nat)
    requires i < |Chunks(s.body)| && j < |Chunks(t.body)| && KeyOf(s, i) == KeyOf(t, j)
    requires s.url == t.url || !Collide(s.url, t.url)
    ensures s.url == t.url && i == j && Chunks(s.body)[i] == Chunks(t.body)[j]
  {
    var b, c := Chunks(s.body)[i], Chunks(t.body)[j];
    ChunkIsHashable(s.body, i, b);
    ChunkIsHashable(t.body, j, c);
    hide Chunks, Hashable, KeyText;
    ChunksOfOneUrlDiffer(s.url, i, b, j, c);
  }

  /** Nothing of the old section is out of date. */
  predicate Kept(s: Section, new': seq<Section>) {
    Strip(s.body) == "" || exists t | t in new' :: t.url == s.url && Continues(Strip(s.body), Strip(t.body))
  }

  lemma KeptKeys(s: Section, new': seq<Section>, i: nat)
    requires Kept(s, new') && i < |Chunks(s.body)|
    ensures KeyOf(s, i) in Keys(new')
  {
    ChunksJoin(s.body);
    var t :| t in new' && t.url == s.url && Continues(Strip(s.body), Strip(t.body));
    ChunksContinue(s.body, t.body);
    hide Keys, Chunks, Continues;
    InKeys(new', KeyOf(s, i));
    assert Chunks(t.body)[i] == Chunks(s.body)[i];
    assert KeyOf(t, i) == KeyOf(s, i);
  }

  /** The section of the new XML that has one chunk of the old section. */
  lemma HolderOf(s: Section, i: nat, old': seq<Section>, new': seq<Section>) returns (t: Section)
    requires s in old' && Apart(old', new') && i < |Chunks(s.body)| && KeyOf(s, i) in Keys(new')
    ensures t in new' && t.url == s.url && i < |Chunks(t.body)| && Chunks(t.body)[i] == Chunks(s.body)[i]
  {
    hide Keys, Chunks, KeyOf;
    InKeys(new', KeyOf(s, i));
    var u, j: nat :| u in new' && j < |Chunks(u.body)| && KeyOf(u, j) == KeyOf(s, i);
    SameKeySameChunk(s, i, u, j);
    t := u;
  }

  lemma KeysKept(s: Section, old': seq<Section>, new': seq<Section>)
    requires s in old' && OneSectionPerUrl(new') && Apart(old', new')
    requires forall i: nat | i < |Chunks(s.body)| :: KeyOf(s, i) in Keys(new')
    ensures Kept(s, new')
  {
    hide Keys, Chunks, Continues, Strip, KeyOf, Apart;
    ChunksJoin(s.body);
    if Strip(s.body) != "" {
      var t := HolderOf(s, 0, old', new');
      forall i | 0 <= i < |Chunks(s.body)| ensures i < |Chunks(t.body)| && Chunks(t.body)[i] == Chunks(s.body)[i] {
        var u := HolderOf(s, i, old', new');
        assert u == t;
      }
      ChunksContinue(s.body, t.body);
    }
  }

  /** Chunks are never withdrawn. Re-ingesting changed XML gives the corpus of the new text alone exactly
      when every old section was blank, or is still there and its text is the same or was only added to
      at a chunk boundary. */
  lemma CorpusIsCurrentExactlyWhen(old': seq<Section>, new': seq<Section>)
    requires OneSectionPerUrl(new') && Apart(old', new')
    ensures var empty := Tables(map[], {});
            Clean(Clean(empty, old'), new').chunks == Clean(empty, new').chunks
            <==> forall s | s in old' :: Kept(s, new')
  {
    hide Keys, Kept, Chunks, KeyOf;
    if Keys(old') <= Keys(new') {
      forall s | s in old' ensures Kept(s, new') {
        forall i: nat | i < |Chunks(s.body)| ensures KeyOf(s, i) in Keys(new') {
          InKeys(old', KeyOf(s, i));
        }
        KeysKept(s, old', new');
      }
    }
    if forall s | s in old' :: Kept(s, new') {
      forall key | key in Keys(old') ensures key in Keys(new') {
        InKeys(old', key);
        var s, i: nat :| s in old' && i < |Chunks(s.body)| && KeyOf(s, i) == key;
        KeptKeys(s, new', i);
      }
    }
    UnionIsLarger(Keys(old'), Keys(new'));
  }

  lemma UnionIsLarger<T>(a: set<T>, b: set<T>)
    ensures {} + a + b == {} + b <==> a <= b
  {
    if {} + a + b == {} + b {
      forall x | x in a ensures x in b {
        assert x in {} + a + b;
      }
    }
  }

  /** One letter of one section changes: its old chunk stays. */
  lemma ChangedLetterLeavesStaleChunk(url: string, heading: string)
    ensures var empty := Tables(map[], {});
            var old', new' := [Section(url, heading, "a")], [Section(url, heading, "b")];
            Clean(Clean(empty, old'), new').chunks != Clean(empty, new').chunks
  {
    var s, t := Section(url, heading, "a"), Section(url, heading, "b");
    assert Strip("a") == "a" && Strip("b") == "b";
    hide Clean, Keys;
    assert s in [s] && !Kept(s, [t]);
    CorpusIsCurrentExactlyWhen([s], [t]);
  }
}
