/** Node tags as they travel through gossip: `key=value,key=value`, in the order the map yields. */
module Tags {
  import opened Common

  /** The text up to the first `c`. */
  function Cut(s: string, c: char): string {
    s[..IndexOf(s, c)]
  }

  /** strings.Split with a one-character separator. */
  function Split(s: string, c: char): (parts: seq<string>)
    ensures |parts| > 0
    decreases |s|
  {
    var i := IndexOf(s, c);
    if i == |s| then [s] else [s[..i]] + Split(s[i + 1..], c)
  }

  function Pair(k: string, v: string): string {
    k + "=" + v
  }

  /** The flattened text for a given order of the keys. */
  function Flat(tags: map<string, string>, order: seq<string>): string
    requires forall k :: k in order ==> k in tags
    decreases order
  {
    if order == [] then ""
    else
      var n := |order| - 1;
      var out := Flat(tags, order[..n]);
      out + (if out != "" then "," else "") + Pair(order[n], tags[order[n]])
  }

  /** One piece of the split text: kept if it has an `=`, ignored otherwise. */
  function AddPiece(m: map<string, string>, piece: string): map<string, string> {
    var i := IndexOf(piece, '=');
    if i == |piece| then m else m[piece[..i] := piece[i + 1..]]
  }

  function AddPieces(m: map<string, string>, pieces: seq<string>): map<string, string>
    decreases pieces
  {
    if pieces == [] then m else AddPiece(AddPieces(m, pieces[..|pieces| - 1]), pieces[|pieces| - 1])
  }

  /** The tags a receiver reads; no tags and nil read alike. */
  function Parsed(flat: string): map<string, string> {
    if flat == "" then map[] else AddPieces(map[], Split(flat, ','))
  }

  method FlattenTags(tags: map<string, string>) returns (out: string)
    ensures exists order :: IsOrder(order, tags) && out == Flat(tags, order)
  {
    out := "";
    ghost var order := [];
    var rest := tags.Keys;
    while rest != {}
      invariant rest <= tags.Keys && (forall k :: k in order <==> k in tags.Keys - rest)
      invariant Distinct(order)
      invariant out == Flat(tags, order)
      decreases rest
    {
      var k :| k in rest;
      if out != "" {
        out := out + ",";
      }
      out := out + k + "=" + tags[k];
      assert (order + [k])[..|order|] == order && k !in order;
      order, rest := order + [k], rest - {k};
    }
    assert IsOrder(order, tags);
  }

  method ParseTags(flat: string) returns (out: map<string, string>)
    ensures out == Parsed(flat)
  {
    if flat == "" {
      return map[];
    }
    var pairs := Split(flat, ',');
    out := map[];
    for n := 0 to |pairs|
      invariant out == AddPieces(map[], pairs[..n])
    {
      var i := IndexOf(pairs[n], '=');
      if i < |pairs[n]| {
        out := out[pairs[n][..i] := pairs[n][i + 1..]];
      }
      assert pairs[..n + 1][..n] == pairs[..n];
    }
    assert pairs[..|pairs|] == pairs;
  }

  /** Some iteration order of the map. */
  ghost predicate IsOrder(order: seq<string>, tags: map<string, string>) {
    && (forall k :: k in order <==> k in tags)
    && Distinct(order)
  }

  ghost predicate Distinct(order: seq<string>) {
    forall i, j :: 0 <= i < j < |order| ==> order[i] != order[j]
  }

  // ---------- The codec ----------

  lemma SplitAt(s: string, c: char, i: nat)
    requires i < |s| && s[i] == c && c !in s[..i]
    ensures Split(s, c) == [s[..i]] + Split(s[i + 1..], c)
  {
    IndexOfIs(s, c, i);
  }

  lemma IndexOfNone(s: string, c: char)
    requires c !in s
    ensures IndexOf(s, c) == |s|
  {
  }

  lemma JoinedCut(a: string, b: string, c: char, i: nat)
    requires i <= |a|
    ensures var s := a + [c] + b;
            s[..i] == a[..i] && s[i + 1..] == if i == |a| then b else a[i + 1..] + [c] + b
  {
  }

  /** The first separator of a joined text is that of its first part, or else the joint. */
  lemma SplitJoined(a: string, b: string, c: char, i: nat)
    requires i == IndexOf(a, c)
    ensures Split(a + [c] + b, c) == [a[..i]] + Split(if i == |a| then b else a[i + 1..] + [c] + b, c)
  {
    var s := a + [c] + b;
    JoinedCut(a, b, c, i);
    assert i < |a| ==> s[i] == a[i];
    SplitAt(s, c, i);
  }

  lemma {:induction false} SplitAppend(a: string, b: string, c: char)
    ensures Split(a + [c] + b, c) == Split(a, c) + Split(b, c)
    decreases |a|
  {
    var i := IndexOf(a, c);
    SplitJoined(a, b, c, i);
    if i < |a| {
      SplitAt(a, c, i);
      SplitAppend(a[i + 1..], b, c);
      AppendAssociates([a[..i]], Split(a[i + 1..], c), Split(b, c));
    } else {
      assert a[..i] == a;
    }
  }

  lemma {:induction false} AddPiecesAppend(m: map<string, string>, p: seq<string>, q: seq<string>)
    ensures AddPieces(m, p + q) == AddPieces(AddPieces(m, p), q)
    decreases |q|
  {
    if q == [] {
      assert p + q == p;
    } else {
      var n := |q| - 1;
      assert (p + q)[..|p + q| - 1] == p + q[..n];
      AddPiecesAppend(m, p, q[..n]);
    }
  }

  lemma {:induction false} PiecesWithoutEquals(m: map<string, string>, pieces: seq<string>)
    requires forall i :: 0 <= i < |pieces| ==> '=' !in pieces[i]
    ensures AddPieces(m, pieces) == m
    decreases |pieces|
  {
    if pieces != [] {
      IndexOfNone(pieces[|pieces| - 1], '=');
      PiecesWithoutEquals(m, pieces[..|pieces| - 1]);
    }
  }

  lemma {:induction false} SplitHoldsOnly(s: string, c: char, x: char)
    requires x !in s
    ensures forall i :: 0 <= i < |Split(s, c)| ==> x !in Split(s, c)[i]
    decreases |s|
  {
    var i := IndexOf(s, c);
    if i < |s| {
      SplitHoldsOnly(s[i + 1..], c, x);
    }
  }

  predicate CleanKey(k: string) {
    ',' !in k && '=' !in k
  }

  /** Whatever follows the first comma of a value holds no `=`. */
  predicate TailClean(v: string) {
    '=' !in v[IndexOf(v, ',')..]
  }

  /** A pair without commas, read back. */
  lemma PieceReadsBack(m: map<string, string>, k: string, v: string)
    requires CleanKey(k)
    ensures AddPieces(m, [Pair(k, v)]) == m[k := v]
  {
    var p := Pair(k, v);
    assert p[..|k|] == k && p[|k| + 1..] == v;
    IndexOfIs(p, '=', |k|);
    assert [p][..0] == [] && AddPieces(m, []) == m;
  }

  lemma NoCommaInPair(k: string, v: string)
    requires CleanKey(k) && ',' !in v
    ensures Split(Pair(k, v), ',') == [Pair(k, v)]
  {
    assert ',' !in Pair(k, v);
    IndexOfNone(Pair(k, v), ',');
  }

  /** A pair whose value goes on after a comma is cut there. */
  lemma PairSplits(k: string, a: string, b: string)
    requires CleanKey(k) && ',' !in a
    ensures Split(Pair(k, a + [','] + b), ',') == [Pair(k, a)] + Split(b, ',')
  {
    NoCommaInPair(k, a);
    assert Pair(k, a + [','] + b) == Pair(k, a) + [','] + b;
    SplitAppend(Pair(k, a), b, ',');
  }

  /** One pair, split at commas and read back: the value up to its first comma. */
  lemma PairReadsBack(m: map<string, string>, k: string, v: string)
    requires CleanKey(k) && TailClean(v)
    ensures AddPieces(m, Split(Pair(k, v), ',')) == m[k := Cut(v, ',')]
  {
    var i := IndexOf(v, ',');
    PieceReadsBack(m, k, v[..i]);
    if i == |v| {
      assert v[..i] == v;
      NoCommaInPair(k, v);
    } else {
      var tail := v[i + 1..];
      assert v == v[..i] + [','] + tail && v[i..][1..] == tail;
      PairSplits(k, v[..i], tail);
      AddPiecesAppend(m, [Pair(k, v[..i])], Split(tail, ','));
      SplitHoldsOnly(tail, ',', '=');
      PiecesWithoutEquals(m[k := v[..i]], Split(tail, ','));
    }
  }

  /** One more pair at the end of a flattened text. */
  lemma ParsedAppend(out: string, k: string, v: string)
    requires CleanKey(k) && TailClean(v)
    ensures Parsed(Pair(k, v)) == map[k := Cut(v, ',')]
    ensures out != "" ==> Parsed(out + "," + Pair(k, v)) == Parsed(out)[k := Cut(v, ',')]
  {
    var pair := Pair(k, v);
    PairReadsBack(map[], k, v);
    if out != "" {
      assert out + "," + pair == out + [','] + pair;
      SplitAppend(out, pair, ',');
      AddPiecesAppend(map[], Split(out, ','), Split(pair, ','));
      PairReadsBack(Parsed(out), k, v);
    }
  }

  function CutAll(tags: map<string, string>, keys: seq<string>): map<string, string> {
    map k | k in keys && k in tags :: Cut(tags[k], ',')
  }

  /** Every key listed has a clean name and a value with a clean tail. */
  ghost predicate Cuttable(tags: map<string, string>, order: seq<string>) {
    forall k :: k in order ==> k in tags && CleanKey(k) && TailClean(tags[k])
  }

  /** The last key, and the keys before it. */
  lemma LastKey(tags: map<string, string>, order: seq<string>)
    requires order != [] && Cuttable(tags, order) && Distinct(order)
    ensures var n := |order| - 1;
            && Cuttable(tags, order[..n]) && Distinct(order[..n])
            && CutAll(tags, order) == CutAll(tags, order[..n])[order[n] := Cut(tags[order[n]], ',')]
  {
    assert order == order[..|order| - 1] + [order[|order| - 1]];
  }

  lemma FlatAppend(tags: map<string, string>, order: seq<string>)
    requires order != [] && Cuttable(tags, order)
    ensures var before, k := order[..|order| - 1], order[|order| - 1];
            && Flat(tags, order) != ""
            && (Flat(tags, before) != "" ==>
                  Parsed(Flat(tags, order)) == Parsed(Flat(tags, before))[k := Cut(tags[k], ',')])
            && (Flat(tags, before) == "" ==> Parsed(Flat(tags, order)) == map[k := Cut(tags[k], ',')])
  {
    var k := order[|order| - 1];
    var out := Flat(tags, order[..|order| - 1]);
    ParsedAppend(out, k, tags[k]);
    assert "" + "" + Pair(k, tags[k]) == Pair(k, tags[k]);
  }

  /** For every iteration order the receiver reads each key with its value cut at the first comma. So
      a key survives whatever its neighbours hold, even a GPU list joined by commas. */
  lemma {:induction false} ParseFlattenCuts(tags: map<string, string>, order: seq<string>)
    requires Cuttable(tags, order) && Distinct(order)
    ensures Parsed(Flat(tags, order)) == CutAll(tags, order)
    ensures order != [] ==> Flat(tags, order) != ""
    decreases |order|
  {
    if order != [] {
      LastKey(tags, order);
      ParseFlattenCuts(tags, order[..|order| - 1]);
      FlatAppend(tags, order);
      assert Flat(tags, order[..|order| - 1]) == "" ==> CutAll(tags, []) == map[];
    }
  }

  lemma {:induction false} SplitHasNoSeparator(s: string, c: char)
    ensures forall i :: 0 <= i < |Split(s, c)| ==> c !in Split(s, c)[i]
    decreases |s|
  {
    var i := IndexOf(s, c);
    if i < |s| {
      SplitHasNoSeparator(s[i + 1..], c);
    }
  }

  predicate Clean(tags: map<string, string>) {
    forall k :: k in tags ==> CleanKey(k) && ',' !in tags[k]
  }

  lemma {:induction false} AddPiecesClean(pieces: seq<string>)
    requires forall i :: 0 <= i < |pieces| ==> ',' !in pieces[i]
    ensures Clean(AddPieces(map[], pieces))
    decreases |pieces|
  {
    if pieces != [] {
      AddPiecesClean(pieces[..|pieces| - 1]);
    }
  }

  /** What a receiver reads is always clean, whoever sent it. */
  lemma ParsedIsClean(flat: string)
    ensures Clean(Parsed(flat))
  {
    SplitHasNoSeparator(flat, ',');
    if flat != "" {
      AddPiecesClean(Split(flat, ','));
    }
  }

  /** The round trip is the identity, in every order or in none, exactly on tags whose keys hold no
      comma or equals sign and whose values hold no comma. */
  lemma RoundTripIffClean(tags: map<string, string>, order: seq<string>)
    requires IsOrder(order, tags)
    ensures Parsed(Flat(tags, order)) == tags <==> Clean(tags)
  {
    if Clean(tags) {
      forall k | k in tags ensures CleanKey(k) && TailClean(tags[k]) && Cut(tags[k], ',') == tags[k] {
        IndexOfNone(tags[k], ',');
        assert tags[k][|tags[k]|..] == "";
      }
      ParseFlattenCuts(tags, order);
      assert CutAll(tags, order) == tags;
    }
    ParsedIsClean(Flat(tags, order));
  }
}
