/** Cutting a section into chunks, and the text each chunk is hashed by. */
module ChunkKeys {
  import opened Text
  import opened IsoText
  import opened DateText

  // ---- chunk_text ----

  function Pieces(t: string, size: nat): seq<string>
    requires size > 0
  {
    if t == "" then [] else if |t| <= size then [t] else [t[..size]] + Pieces(t[size..], size)
  }

  function Chunks(text: string, size: nat := 800): seq<string>
    requires size > 0
  {
    Pieces(Strip(text), size)
  }

  function Joined(pieces: seq<string>): string {
    if pieces == [] then "" else pieces[0] + Joined(pieces[1..])
  }

  /** The pieces are the slices t[k * size..(k + 1) * size]. */
  lemma {:induction false} PieceAt(t: string, size: nat, k: nat)
    requires size > 0 && k < |Pieces(t, size)|
    ensures k * size < |t|
    ensures Pieces(t, size)[k] == t[k * size..if k * size + size <= |t| then k * size + size else |t|]
  {
    if k > 0 {
      var rest := t[size..];
      PieceAt(rest, size, k - 1);
      assert Pieces(t, size)[k] == Pieces(rest, size)[k - 1];
      hide Pieces;
      assert (k - 1) * size + size == k * size;
      SliceOfRest(t, size, (k - 1) * size, if k * size <= |rest| then k * size else |rest|);
    }
  }

  lemma {:induction false} PieceCount(t: string, size: nat, k: nat)
    requires size > 0
    ensures k < |Pieces(t, size)| <==> k * size < |t|
  {
    if |t| > size && k > 0 {
      PieceCount(t[size..], size, k - 1);
      assert (k - 1) * size == k * size - size;
    } else if k > 0 {
      assert k * size >= size;
    }
  }

  lemma SliceOfRest(t: string, size: nat, a: nat, b: nat)
    requires size <= |t| && a <= b <= |t| - size
    ensures t[size..][a..b] == t[a + size..b + size]
  {
  }

  lemma {:induction false} PiecesJoin(t: string, size: nat)
    requires size > 0
    ensures Joined(Pieces(t, size)) == t
    ensures forall p | p in Pieces(t, size) :: 1 <= |p| <= size
  {
    if |t| > size {
      PiecesJoin(t[size..], size);
      assert t == t[..size] + t[size..];
      assert Pieces(t, size)[1..] == Pieces(t[size..], size);
    } else if t != "" {
      assert Joined([t]) == t + Joined([]);
    }
  }

  /** A section's chunks concatenate to its stripped body, and each has 1 to 800 characters. */
  lemma ChunksJoin(body: string)
    ensures Joined(Chunks(body)) == Strip(body)
    ensures forall p | p in Chunks(body) :: 1 <= |p| <= 800
    ensures Chunks(body) == [] <==> Strip(body) == ""
  {
    PiecesJoin(Strip(body), 800);
  }

  /** What can stand as the i-th chunk of some section: 1 to 800 characters, not starting with white
      space at index 0, and not ending with it when shorter than 800. */
  predicate Hashable(i: nat, b: string) {
    1 <= |b| <= 800 && (i == 0 ==> !IsSpace(b[0])) && (|b| < 800 ==> !IsSpace(b[|b| - 1]))
  }

  ghost predicate IsChunk(text: string, i: nat, b: string) {
    i < |Chunks(text)| && Chunks(text)[i] == b
  }

  lemma StrippedText(t: string)
    requires t != "" && !IsSpace(t[0]) && !IsSpace(t[|t| - 1])
    ensures Strip(t) == t
  {
  }

  function Filler(n: nat): (s: string)
    ensures |s| == n && forall i | 0 <= i < n :: s[i] == 'x'
  {
    seq(n, _ => 'x')
  }

  lemma ChunkIsHashable(text: string, i: nat, b: string)
    requires IsChunk(text, i, b)
    ensures Hashable(i, b)
  {
    var t := Strip(text);
    StripIsMiddle(text);
    PiecesJoin(t, 800);
    PieceAt(t, 800, i);
    assert b in Pieces(t, 800);
  }

  lemma HashableIsChunk(i: nat, b: string) returns (text: string)
    requires Hashable(i, b)
    ensures IsChunk(text, i, b)
  {
    text := Filler(800 * i) + b + (if |b| == 800 then "x" else "");
    assert text[|text| - 1] == if |b| == 800 then 'x' else b[|b| - 1];
    assert i > 0 ==> text[0] == 'x';
    assert i == 0 ==> text[0] == b[0];
    StrippedText(text);
    PieceCount(text, 800, i);
    PieceAt(text, 800, i);
    assert text[800 * i..800 * i + |b|] == b;
  }

  /** The bodies that are ever hashed at an index, exactly. */
  lemma ChunksAreTheHashableTexts(i: nat, b: string)
    ensures (exists text :: IsChunk(text, i, b)) <==> Hashable(i, b)
  {
    if Hashable(i, b) {
      var text := HashableIsChunk(i, b);
    }
    forall text | IsChunk(text, i, b) ensures Hashable(i, b) {
      ChunkIsHashable(text, i, b);
    }
  }

  // ---- Chunks of a text that was changed ----

  /** q starts with p. */
  predicate Agree(p: seq<string>, q: seq<string>) {
    forall i | 0 <= i < |p| :: i < |q| && q[i] == p[i]
  }

  lemma AgreeIsPrefix(p: seq<string>, q: seq<string>)
    ensures Agree(p, q) <==> p <= q
  {
    if Agree(p, q) && p != [] {
      var last := |p| - 1;
      assert last < |q| by { assert p[last] == p[last]; }
    }
  }

  /** The new text keeps every chunk of the old one: it is the same, or it was only added to and the
      old text ends at a chunk boundary. */
  predicate Continues(old': string, new': string) {
    old' <= new' && (|old'| == |new'| || |old'| % 800 == 0)
  }

  lemma ContinuesAfterPiece(o: string, n: string)
    requires |o| > 800 && |n| > 800
    ensures Continues(o, n) <==> o[..800] == n[..800] && Continues(o[800..], n[800..])
  {
    assert o == o[..800] + o[800..] && n == n[..800] + n[800..];
    assert o <= n <==> o[..800] == n[..800] && o[800..] <= n[800..];
  }

  lemma {:induction false} PiecesContinue(o: string, n: string)
    ensures Pieces(o, 800) <= Pieces(n, 800) <==> Continues(o, n)
    decreases |o|
  {
    if |o| > 800 && |n| > 800 {
      PiecesContinue(o[800..], n[800..]);
      ContinuesAfterPiece(o, n);
      var rest, more := Pieces(o[800..], 800), Pieces(n[800..], 800);
      assert Pieces(o, 800) == [o[..800]] + rest && Pieces(n, 800) == [n[..800]] + more;
      hide Pieces, Continues;
      assert [o[..800]] + rest <= [n[..800]] + more <==> o[..800] == n[..800] && rest <= more by {
        ConsPrefix(o[..800], rest, n[..800], more);
      }
    } else if |o| > 800 {
      assert |Pieces(o, 800)| >= 2 && |Pieces(n, 800)| <= 1;
    } else if o != "" && n != "" {
      var first := if |n| <= 800 then n else n[..800];
      assert Pieces(n, 800) == [first] + Pieces(n, 800)[1..] && Pieces(o, 800) == [o] + [];
      ConsPrefix(o, [], first, Pieces(n, 800)[1..]);
      FirstPieceContinues(o, n);
    }
  }

  lemma FirstPieceContinues(o: string, n: string)
    requires 1 <= |o| <= 800 && n != ""
    ensures Continues(o, n) <==> o == if |n| <= 800 then n else n[..800]
  {
    if |n| > 800 && o == n[..800] {
      assert n == o + n[800..];
    }
  }

  lemma ConsPrefix<T>(a: T, s: seq<T>, b: T, t: seq<T>)
    ensures [a] + s <= [b] + t <==> a == b && s <= t
  {
    if [a] + s <= [b] + t {
      assert ([a] + s)[0] == a && ([b] + t)[0] == b;
      assert ([a] + s)[1..] == s && ([b] + t)[1..] == t;
    }
  }

  lemma ChunksContinue(body: string, other: string)
    ensures Agree(Chunks(body), Chunks(other)) <==> Continues(Strip(body), Strip(other))
  {
    AgreeIsPrefix(Chunks(body), Chunks(other));
    PiecesContinue(Strip(body), Strip(other));
  }

  // ---- chunk_hash ----

  /** The hashed text. SHA-256 is taken to be free of collisions, so a chunk is known by this text. */
  function KeyText(url: string, index: nat, body: string): string {
    "a7ingest:" + (url + ([':'] + (Decimal(index) + ([':'] + body))))
  }

  function LeadingDigits(s: string): (n: nat)
    ensures n <= |s|
  {
    if s == "" || !IsDigit(s[0]) then 0 else 1 + LeadingDigits(s[1..])
  }

  lemma {:induction false} DigitsLead(d: string, b: string)
    requires AllDigits(d)
    ensures LeadingDigits(d + ([':'] + b)) == |d|
  {
    var s := d + ([':'] + b);
    if d == "" {
      assert s[0] == ':';
    } else {
      DigitsLead(d[1..], b);
      assert s[0] == d[0] && s[1..] == d[1..] + ([':'] + b);
    }
  }

  /** A number is over at the first colon. */
  lemma DigitsUntilColon(d: string, b: string, e: string, c: string)
    requires AllDigits(d) && AllDigits(e) && d + ([':'] + b) == e + ([':'] + c)
    ensures d == e && b == c
  {
    DigitsLead(d, b);
    DigitsLead(e, c);
    assert (d + ([':'] + b))[..|d|] == d && (e + ([':'] + c))[..|e|] == e;
    CancelPrefix(d + [':'], b, c);
    assert d + [':'] + b == d + ([':'] + b) && d + [':'] + c == d + ([':'] + c);
  }

  lemma {:induction false} DecimalValue(n: nat)
    ensures ToNat(Decimal(n)) == n
  {
    if n >= 10 {
      DecimalValue(n / 10);
      assert Decimal(n)[..|Decimal(n)| - 1] == Decimal(n / 10);
    } else {
      assert [DigitChar(n)][..0] == "";
    }
  }

  lemma DecimalInjective(m: nat, n: nat)
    requires Decimal(m) == Decimal(n)
    ensures m == n
  {
    DecimalValue(m);
    DecimalValue(n);
  }

  lemma CancelPrefix(p: string, s: string, t: string)
    ensures p + s == p + t <==> s == t
  {
    if p + s == p + t {
      assert s == (p + s)[|p|..];
      assert t == (p + t)[|p|..];
    }
  }

  /** Under one URL, different chunks have different texts. */
  lemma ChunksOfOneUrlDiffer(url: string, i: nat, b: string, j: nat, c: string)
    ensures KeyText(url, i, b) == KeyText(url, j, c) <==> i == j && b == c
  {
    if KeyText(url, i, b) == KeyText(url, j, c) {
      hide KeyText;
      AfterUrl(url, i, b, url, j, c);
      CancelPrefix(url, [':'] + (Decimal(i) + ([':'] + b)), [':'] + (Decimal(j) + ([':'] + c)));
      CancelPrefix([':'], Decimal(i) + ([':'] + b), Decimal(j) + ([':'] + c));
      DigitsUntilColon(Decimal(i), b, Decimal(j), c);
      DecimalInjective(i, j);
    }
  }

  lemma AfterUrl(u: string, i: nat, b: string, v: string, j: nat, c: string)
    ensures KeyText(u, i, b) == KeyText(v, j, c)
            <==> u + ([':'] + (Decimal(i) + ([':'] + b))) == v + ([':'] + (Decimal(j) + ([':'] + c)))
  {
    CancelPrefix("a7ingest:", u + ([':'] + (Decimal(i) + ([':'] + b))), v + ([':'] + (Decimal(j) + ([':'] + c))));
  }

  /** The start of the hashed text of a chunk, up to its body. */
  function Head(url: string, i: nat): string {
    url + ([':'] + (Decimal(i) + [':']))
  }

  /** v goes on after u with a colon and a number that ends at a colon or with v, leaving at most 796
      characters of v (and no white space first, after the number 0). */
  predicate ExtendsWith(u: string, i: nat, v: string) {
    var rest := |v| + 1 - |Head(u, i)|;
    && Head(u, i) <= v + [':'] && rest <= 797
    && (i == 0 && rest > 0 ==> !IsSpace((v + [':'])[|Head(u, i)|]))
  }

  ghost predicate Extends(u: string, v: string) {
    exists i: nat :: ExtendsWith(u, i, v)
  }

  /** Two chunks of some sections under these URLs have the same hashed text. */
  ghost predicate Collide(u: string, v: string) {
    exists i: nat, b, j: nat, c | Hashable(i, b) && Hashable(j, c) :: KeyText(u, i, b) == KeyText(v, j, c)
  }

  lemma HeadAndBody(u: string, i: nat, b: string, v: string, j: nat, c: string)
    ensures KeyText(u, i, b) == KeyText(v, j, c) <==> Head(u, i) + b == Head(v, j) + c
  {
    AfterUrl(u, i, b, v, j, c);
    hide Decimal, KeyText;
    assert Head(u, i) + b == u + ([':'] + (Decimal(i) + ([':'] + b)));
    assert Head(v, j) + c == v + ([':'] + (Decimal(j) + ([':'] + c)));
  }

  /** The head of the shorter URL ends within the longer one and its colon. */
  lemma HeadIsPrefix(u: string, i: nat, b: string, v: string, j: nat, c: string)
    requires |u| < |v| && Head(u, i) + b == Head(v, j) + c
    ensures Head(u, i) <= v + [':']
  {
    hide Decimal;
    var d := Decimal(i);
    var p, q := Head(u, i), v + [':'];
    var s := p + b;
    assert s[..|p|] == p;
    assert s == q + (Decimal(j) + ([':'] + c));
    assert s[..|q|] == q;
    // the colon that ends q is none of the digits before the one that ends p
    assert s[|v|] == q[|v|] == ':';
    assert forall k | |u| < k < |p| - 1 :: s[k] == d[k - |u| - 1];
    assert |p| <= |q|;
    assert p == s[..|q|][..|p|];
  }

  lemma LongerUrlExtends(u: string, i: nat, b: string, v: string, j: nat, c: string)
    requires |u| < |v| && Hashable(i, b) && Hashable(j, c) && KeyText(u, i, b) == KeyText(v, j, c)
    ensures ExtendsWith(u, i, v)
  {
    HeadAndBody(u, i, b, v, j, c);
    hide KeyText, Decimal, IsSpace;
    HeadIsPrefix(u, i, b, v, j, c);
    var p, q := Head(u, i), v + [':'];
    var rest := q[|p|..];
    var tail := Decimal(j) + ([':'] + c);
    assert p + b == q + tail;
    assert q + tail == p + (rest + tail) by { assert q == p + rest; }
    CancelPrefix(p, b, rest + tail);
    assert |rest| > 0 ==> b[0] == rest[0] == q[|p|];
  }

  lemma ExtensionCollides(u: string, i: nat, v: string)
    requires ExtendsWith(u, i, v)
    ensures Collide(u, v)
  {
    var p, q := Head(u, i), v + [':'];
    var rest := q[|p|..];
    var tail := Decimal(0) + ([':'] + "x");
    assert tail == "0:x";
    var b := rest + tail;
    assert q == p + rest && p + b == q + tail && q + tail == Head(v, 0) + "x";
    HeadAndBody(u, i, b, v, 0, "x");
    assert b[|b| - 1] == 'x' && (b[0] == if rest == "" then '0' else rest[0]);
    hide KeyText, Head;
    assert Hashable(i, b) && Hashable(0, "x");
  }

  /** Chunks of two URLs can have one hashed text exactly when one URL goes on after the other with a
      colon and a number. */
  lemma UrlsCollideExactlyWhen(u: string, v: string)
    requires u != v
    ensures Collide(u, v) <==> Extends(u, v) || Extends(v, u)
  {
    hide KeyText, ExtendsWith, Hashable;
    forall i: nat | ExtendsWith(u, i, v) ensures Collide(u, v) {
      ExtensionCollides(u, i, v);
    }
    forall i: nat | ExtendsWith(v, i, u) ensures Collide(u, v) {
      ExtensionCollides(v, i, u);
    }
    forall i: nat, b, j: nat, c | Hashable(i, b) && Hashable(j, c) && KeyText(u, i, b) == KeyText(v, j, c)
      ensures Extends(u, v) || Extends(v, u)
    {
      if |u| < |v| {
        LongerUrlExtends(u, i, b, v, j, c);
      } else if |v| < |u| {
        LongerUrlExtends(v, j, c, u, i, b);
      } else {
        AfterUrl(u, i, b, v, j, c);
        SameLengthSameUrl(u, [':'] + (Decimal(i) + ([':'] + b)), v, [':'] + (Decimal(j) + ([':'] + c)));
      }
    }
  }

  lemma SameLengthSameUrl(u: string, s: string, v: string, t: string)
    requires |u| == |v| && u + s == v + t
    ensures u == v
  {
    assert (u + s)[..|u|] == u && (v + t)[..|v|] == v;
  }

  /** Such a pair: any URL, and the same one with a port. The section "0:x" of the first is hashed as
      the section "x" of the second. */
  lemma PortCollides(url: string)
    ensures IsChunk("0:x", 0, "0:x") && IsChunk("x", 0, "x")
    ensures KeyText(url, 0, "0:x") == KeyText(url + ":0", 0, "x") && Collide(url, url + ":0")
  {
    assert Pieces("0:x", 800) == ["0:x"] && Pieces("x", 800) == ["x"];
    assert Decimal(0) == "0";
    assert Head(url, 0) + "0:x" == Head(url + ":0", 0) + "x";
    HeadAndBody(url, 0, "0:x", url + ":0", 0, "x");
    assert Hashable(0, "0:x") && Hashable(0, "x");
  }
}
