/** BERT's WordPiece tokenizer: split text into words, cut each word greedily into
    the longest known pieces, and encode. Text is a sequence of runes; lower-casing
    and accent stripping happen before it arrives here, and the Unicode classes are
    parameters. */
module WordPiece {

  type Vocab = map<string, int>

  const CLS := "[CLS]"
  const SEP := "[SEP]"
  const UNK := "[UNK]"
  const MAX_CHARS_PER_WORD := 100

  // ----- Greedy longest match -----

  // A candidate piece; continuations carry the "##" prefix.
  function Piece(word: string, start: nat, end: nat): string
    requires start <= end <= |word|
  {
    if start > 0 then "##" + word[start..end] else word[start..end]
  }

  // The longest known piece at a position ends at `end`.
  ghost predicate Longest(vocab: Vocab, word: string, start: nat, end: nat) {
    && start < end <= |word| && Piece(word, start, end) in vocab
    && forall e | end < e <= |word| :: Piece(word, start, e) !in vocab
  }

  ghost predicate NoPiece(vocab: Vocab, word: string, start: nat) {
    start < |word| && forall e | start < e <= |word| :: Piece(word, start, e) !in vocab
  }

  // Cuts made by always taking the longest piece, from the start of the word, and
  // the pieces between them.
  ghost predicate GreedyPath(vocab: Vocab, word: string, cuts: seq<nat>, pieces: seq<string>)
    decreases |pieces|
  {
    var n := |pieces|;
    && |cuts| == n + 1
    && if n == 0 then cuts[0] == 0
       else && GreedyPath(vocab, word, cuts[..n], pieces[..n - 1])
            && Longest(vocab, word, cuts[n - 1], cuts[n])
            && pieces[n - 1] == Piece(word, cuts[n - 1], cuts[n])
  }

  // The greedy scan is over: at the end of the word, or where nothing matches.
  ghost predicate Final(vocab: Vocab, word: string, cuts: seq<nat>, pieces: seq<string>) {
    && GreedyPath(vocab, word, cuts, pieces)
    && (cuts[|pieces|] == |word| || NoPiece(vocab, word, cuts[|pieces|]))
  }

  lemma {:induction false} PathAt(vocab: Vocab, word: string, cuts: seq<nat>, pieces: seq<string>, i: nat)
    requires GreedyPath(vocab, word, cuts, pieces) && i < |pieces|
    ensures cuts[0] == 0 && Longest(vocab, word, cuts[i], cuts[i + 1]) && pieces[i] == Piece(word, cuts[i], cuts[i + 1])
    decreases |pieces|
  {
    var n := |pieces|;
    if n > 1 {
      PathAt(vocab, word, cuts[..n], pieces[..n - 1], if i < n - 1 then i else 0);
    }
  }

  lemma {:induction false} CutsAgree(vocab: Vocab, word: string, c: seq<nat>, p: seq<string>, d: seq<nat>,
                                     q: seq<string>, n: nat)
    requires GreedyPath(vocab, word, c, p) && GreedyPath(vocab, word, d, q) && n <= |p| && n <= |q|
    ensures c[n] == d[n]
    decreases n
  {
    if n > 0 {
      CutsAgree(vocab, word, c, p, d, q, n - 1);
      PathAt(vocab, word, c, p, n - 1);
      PathAt(vocab, word, d, q, n - 1);
    } else {
      StartsAtZero(vocab, word, c, p);
      StartsAtZero(vocab, word, d, q);
    }
  }

  lemma StartsAtZero(vocab: Vocab, word: string, cuts: seq<nat>, pieces: seq<string>)
    requires GreedyPath(vocab, word, cuts, pieces)
    ensures cuts[0] == 0
  {
    if |pieces| > 0 {
      PathAt(vocab, word, cuts, pieces, 0);
    }
  }

  // A finished scan has nowhere further to go.
  lemma FinalIsLongest(vocab: Vocab, word: string, c: seq<nat>, p: seq<string>, d: seq<nat>, q: seq<string>)
    requires Final(vocab, word, c, p) && GreedyPath(vocab, word, d, q)
    ensures |q| <= |p|
  {
    if |p| < |q| {
      CutsAgree(vocab, word, c, p, d, q, |p|);
      PathAt(vocab, word, d, q, |p|);
    }
  }

  /** There is only one greedy scan of a word. */
  lemma GreedyIsUnique(vocab: Vocab, word: string, c: seq<nat>, p: seq<string>, d: seq<nat>, q: seq<string>)
    requires Final(vocab, word, c, p) && Final(vocab, word, d, q)
    ensures c == d && p == q
  {
    FinalIsLongest(vocab, word, c, p, d, q);
    FinalIsLongest(vocab, word, d, q, c, p);
    forall i: nat | i <= |p| ensures c[i] == d[i] {
      CutsAgree(vocab, word, c, p, d, q, i);
    }
    forall i: nat | i < |p| ensures p[i] == q[i] {
      PathAt(vocab, word, c, p, i);
      PathAt(vocab, word, d, q, i);
    }
  }

  // What a word becomes: its greedy pieces, or one unknown token when it is too
  // long or the scan reaches a position nothing matches.
  ghost predicate Segmented(vocab: Vocab, word: string, out: seq<string>) {
    if |word| > MAX_CHARS_PER_WORD then out == [UNK]
    else
      exists cuts, pieces ::
        Final(vocab, word, cuts, pieces) && out == if cuts[|pieces|] == |word| then pieces else [UNK]
  }

  /** The segmentation of a word is unique. */
  lemma SegmentedOnce(vocab: Vocab, word: string, a: seq<string>, b: seq<string>)
    requires Segmented(vocab, word, a) && Segmented(vocab, word, b)
    ensures a == b
  {
    if |word| <= MAX_CHARS_PER_WORD {
      var c, p :| Final(vocab, word, c, p) && a == if c[|p|] == |word| then p else [UNK];
      var d, q :| Final(vocab, word, d, q) && b == if d[|q|] == |word| then q else [UNK];
      GreedyIsUnique(vocab, word, c, p, d, q);
    }
  }

  function Stripped(piece: string): string {
    if |piece| >= 2 then piece[2..] else piece
  }

  // Pieces joined, with the prefix of every continuation stripped.
  function Rejoined(pieces: seq<string>): string {
    if pieces == [] then ""
    else Rejoined(pieces[..|pieces| - 1]) + if |pieces| > 1 then Stripped(pieces[|pieces| - 1]) else pieces[0]
  }

  lemma StrippedPiece(word: string, start: nat, end: nat)
    requires 0 < start <= end <= |word|
    ensures Stripped(Piece(word, start, end)) == word[start..end]
  {
    assert ("##" + word[start..end])[2..] == word[start..end];
  }

  // Pieces cut one after another from the start of the word.
  ghost predicate CutInto(word: string, cuts: seq<nat>, pieces: seq<string>) {
    && |cuts| == |pieces| + 1 && cuts[0] == 0
    && forall i: nat | i < |pieces| :: CutAt(word, cuts, pieces, i)
  }

  ghost predicate CutAt(word: string, cuts: seq<nat>, pieces: seq<string>, i: nat)
    requires |cuts| == |pieces| + 1 && i < |pieces|
  {
    cuts[i] < cuts[i + 1] <= |word| && pieces[i] == Piece(word, cuts[i], cuts[i + 1])
  }

  lemma PathCuts(vocab: Vocab, word: string, cuts: seq<nat>, pieces: seq<string>)
    requires GreedyPath(vocab, word, cuts, pieces)
    ensures CutInto(word, cuts, pieces)
  {
    StartsAtZero(vocab, word, cuts, pieces);
    forall i: nat | i < |pieces| ensures CutAt(word, cuts, pieces, i) {
      PathAt(vocab, word, cuts, pieces, i);
    }
  }

  // One more piece brings the word so far up to its end.
  lemma RejoinsOneMore(word: string, front: seq<string>, from: nat, to: nat)
    requires from <= to <= |word| && Rejoined(front) == word[..from] && (from == 0 <==> front == [])
    ensures Rejoined(front + [Piece(word, from, to)]) == word[..to]
  {
    var pieces := front + [Piece(word, from, to)];
    assert pieces[..|front|] == front;
    if front != [] {
      StrippedPiece(word, from, to);
    }
    assert word[..from] + word[from..to] == word[..to];
  }

  lemma OneMorePiece(pieces: seq<string>, n: nat)
    requires 0 < n <= |pieces|
    ensures pieces[..n - 1] + [pieces[n - 1]] == pieces[..n]
  {
  }

  lemma {:induction false} CutsRejoin(word: string, cuts: seq<nat>, pieces: seq<string>, n: nat)
    requires CutInto(word, cuts, pieces) && n <= |pieces|
    ensures cuts[n] <= |word| && Rejoined(pieces[..n]) == word[..cuts[n]] && (n > 0 <==> cuts[n] > 0)
    decreases n
  {
    if n > 0 {
      CutsRejoin(word, cuts, pieces, n - 1);
      assert CutAt(word, cuts, pieces, n - 1);
      RejoinsOneMore(word, pieces[..n - 1], cuts[n - 1], cuts[n]);
      OneMorePiece(pieces, n);
    }
  }

  /** Stripping the prefixes and joining the pieces gives back the word as far as
      the scan got, the whole word when it got to the end. */
  lemma PiecesRejoin(vocab: Vocab, word: string, cuts: seq<nat>, pieces: seq<string>)
    requires GreedyPath(vocab, word, cuts, pieces)
    ensures cuts[|pieces|] <= |word| && Rejoined(pieces) == word[..cuts[|pieces|]]
    ensures |pieces| > 0 <==> cuts[|pieces|] > 0
  {
    PathCuts(vocab, word, cuts, pieces);
    CutsRejoin(word, cuts, pieces, |pieces|);
    assert pieces[..|pieces|] == pieces;
  }

  /** Greedy longest-match-first over one word. */
  method Wordpiece(vocab: Vocab, word: string) returns (out: seq<string>)
    ensures Segmented(vocab, word, out)
  {
    if |word| > MAX_CHARS_PER_WORD {
      return [UNK];
    }
    out := [];
    var start := 0;
    ghost var cuts: seq<nat> := [0];
    while start < |word|
      invariant start <= |word| && GreedyPath(vocab, word, cuts, out) && cuts[|out|] == start
      decreases |word| - start
    {
      var end, found := LongestFrom(vocab, word, start);
      if !found {
        FinalSegments(vocab, word, cuts, out);
        return [UNK];
      }
      PathExtends(vocab, word, cuts, out, end);
      out := out + [Piece(word, start, end)];
      cuts := cuts + [end];
      start := end;
    }
    FinalSegments(vocab, word, cuts, out);
  }

  lemma PathExtends(vocab: Vocab, word: string, cuts: seq<nat>, pieces: seq<string>, end: nat)
    requires GreedyPath(vocab, word, cuts, pieces) && Longest(vocab, word, cuts[|pieces|], end)
    ensures GreedyPath(vocab, word, cuts + [end], pieces + [Piece(word, cuts[|pieces|], end)])
  {
    assert (cuts + [end])[..|cuts|] == cuts;
    assert (pieces + [Piece(word, cuts[|pieces|], end)])[..|pieces|] == pieces;
  }

  lemma FinalSegments(vocab: Vocab, word: string, cuts: seq<nat>, pieces: seq<string>)
    requires |word| <= MAX_CHARS_PER_WORD && Final(vocab, word, cuts, pieces)
    ensures Segmented(vocab, word, if cuts[|pieces|] == |word| then pieces else [UNK])
  {
  }

  // The inner scan: shrink the candidate from the end of the word until it is known.
  method LongestFrom(vocab: Vocab, word: string, start: nat) returns (end: nat, found: bool)
    requires start < |word|
    ensures found ==> Longest(vocab, word, start, end)
    ensures !found ==> NoPiece(vocab, word, start)
  {
    end, found := |word|, false;
    while end > start
      invariant start <= end <= |word|
      invariant forall e | end < e <= |word| :: Piece(word, start, e) !in vocab
    {
      if Piece(word, start, end) in vocab {
        return end, true;
      }
      end := end - 1;
    }
  }

  // ----- Splitting text into words -----

  // Unicode character classes: separators (Zs), controls, punctuation and symbols.
  datatype Classes = Classes(separator: char -> bool, control: char -> bool, punctuation: char -> bool)
  {
    predicate Space(c: char) {
      c == ' ' || c == '\t' || c == '\n' || c == '\r' || separator(c)
    }

    predicate Control(c: char) {
      c != '\t' && c != '\n' && c != '\r' && control(c)
    }

    predicate Punct(c: char) {
      33 <= c as int <= 47 || 58 <= c as int <= 64 || 91 <= c as int <= 96 || 123 <= c as int <= 126 || punctuation(c)
    }

    predicate Plain(c: char) {
      !Space(c) && !Punct(c)
    }

    predicate Unwanted(c: char) {
      c as int == 0 || c as int == 0xFFFD || Control(c)
    }
  }

  function Clean(cls: Classes, text: string): string {
    if text == "" then ""
    else Clean(cls, text[..|text| - 1])
         + var c := text[|text| - 1]; if cls.Unwanted(c) then "" else if cls.Space(c) then " " else [c]
  }

  // Length of the run of plain characters the text starts with.
  function Run(cls: Classes, text: string): (n: nat)
    ensures n <= |text| && (forall i | 0 <= i < n :: cls.Plain(text[i])) && (n < |text| ==> !cls.Plain(text[n]))
  {
    if text == "" || !cls.Plain(text[0]) then 0 else 1 + Run(cls, text[1..])
  }

  // The words of a text: maximal plain runs, and every punctuation character alone.
  function Words(cls: Classes, text: string): seq<string>
    decreases |text|
  {
    if text == "" then []
    else if cls.Space(text[0]) then Words(cls, text[1..])
    else if cls.Punct(text[0]) then [[text[0]]] + Words(cls, text[1..])
    else var n := Run(cls, text); assert n > 0; [text[..n]] + Words(cls, text[n..])
  }

  predicate AllPlain(cls: Classes, s: string) {
    forall i | 0 <= i < |s| :: cls.Plain(s[i])
  }

  // A plain run in front of a break is one word.
  lemma RunThenBreak(cls: Classes, cur: string, rest: string)
    requires AllPlain(cls, cur) && (rest != "" ==> !cls.Plain(rest[0]))
    ensures Words(cls, cur + rest) == (if cur == "" then [] else [cur]) + Words(cls, rest)
  {
    if cur == "" {
      assert cur + rest == rest;
    } else {
      var text := cur + rest;
      var n := Run(cls, text);
      assert forall i | 0 <= i < |cur| :: text[i] == cur[i];
      assert rest != "" ==> text[|cur|] == rest[0];
      assert n == |cur|;
      assert text[..n] == cur && text[n..] == rest;
      assert text[0] == cur[0];
    }
  }

  // What one separator or punctuation character adds to the words before it.
  lemma BreakAt(cls: Classes, cur: string, text: string, i: nat)
    requires AllPlain(cls, cur) && i < |text| && !cls.Plain(text[i])
    ensures Words(cls, cur + text[i..])
         == (if cur == "" then [] else [cur]) + (if cls.Space(text[i]) then [] else [[text[i]]])
             + Words(cls, text[i + 1..])
  {
    var rest := text[i..];
    assert rest[0] == text[i] && rest[1..] == text[i + 1..];
    RunThenBreak(cls, cur, rest);
    var before, mark := if cur == "" then [] else [cur], if cls.Space(rest[0]) then [] else [[rest[0]]];
    assert Words(cls, rest) == mark + Words(cls, rest[1..]);
    Joins(before, mark, Words(cls, rest[1..]));
  }

  // One character: it joins the buffer, or ends the word in it.
  method Advance(cls: Classes, text: string, i: nat, tokens: seq<string>, cur: string)
    returns (tokens': seq<string>, cur': string)
    requires i < |text| && AllPlain(cls, cur)
    ensures AllPlain(cls, cur')
    ensures tokens' + Words(cls, cur' + text[i + 1..]) == tokens + Words(cls, cur + text[i..])
  {
    var c := text[i];
    if cls.Plain(c) {
      MovesOver(cur, text, i);
      return tokens, cur + [c];
    }
    BreakAt(cls, cur, text, i);
    var ended := (if cur == "" then [] else [cur]) + (if cls.Space(c) then [] else [[c]]);
    Joins(tokens, ended, Words(cls, text[i + 1..]));
    assert "" + text[i + 1..] == text[i + 1..];
    tokens', cur' := tokens + ended, "";
  }

  /** The scan with a buffer yields exactly the words of the cleaned text. */
  method BasicTokenize(cls: Classes, text: string) returns (tokens: seq<string>)
    ensures tokens == Words(cls, Clean(cls, text))
  {
    var clean := CleanText(cls, text);
    ghost var words := Words(cls, clean);
    tokens := [];
    var cur := "";
    assert cur + clean[0..] == clean;
    for i := 0 to |clean|
      invariant AllPlain(cls, cur)
      invariant words == tokens + Words(cls, cur + clean[i..])
    {
      tokens, cur := Advance(cls, clean, i, tokens, cur);
    }
    assert cur + clean[|clean|..] == cur;
    LastWord(cls, cur);
    if cur != "" {
      tokens := tokens + [cur];
    }
  }

  lemma LastWord(cls: Classes, cur: string)
    requires AllPlain(cls, cur)
    ensures Words(cls, cur) == if cur == "" then [] else [cur]
  {
    RunThenBreak(cls, cur, "");
    assert cur + "" == cur;
  }

  lemma MovesOver(cur: string, text: string, i: nat)
    requires i < |text|
    ensures cur + text[i..] == (cur + [text[i]]) + text[i + 1..]
  {
  }

  lemma Joins(a: seq<string>, b: seq<string>, c: seq<string>)
    ensures a + (b + c) == (a + b) + c
  {
  }

  method CleanText(cls: Classes, text: string) returns (clean: string)
    ensures clean == Clean(cls, text)
  {
    clean := "";
    for i := 0 to |text|
      invariant clean == Clean(cls, text[..i])
    {
      var c := text[i];
      assert text[..i + 1][..i] == text[..i];
      if cls.Unwanted(c) {
      } else if cls.Space(c) {
        clean := clean + " ";
      } else {
        clean := clean + [c];
      }
    }
    assert text[..|text|] == text;
  }

  // ----- Encoding -----

  function Flattened(parts: seq<seq<string>>): seq<string> {
    if parts == [] then [] else Flattened(parts[..|parts| - 1]) + parts[|parts| - 1]
  }

  function Truncated(pieces: seq<string>, maxSeqLen: int): seq<string>
    requires maxSeqLen >= 1
  {
    if |pieces| > maxSeqLen then pieces[..maxSeqLen - 1] + [SEP] else pieces
  }

  // Unknown pieces share the unknown token's id, which is 0 if that is missing too.
  function IdOf(vocab: Vocab, piece: string): int {
    if piece in vocab then vocab[piece] else if UNK in vocab then vocab[UNK] else 0
  }

  // The pieces of every word in turn.
  method PiecesOf(vocab: Vocab, tokens: seq<string>) returns (pieces: seq<string>, ghost parts: seq<seq<string>>)
    ensures |parts| == |tokens| && pieces == Flattened(parts)
    ensures forall i | 0 <= i < |tokens| :: Segmented(vocab, tokens[i], parts[i])
  {
    pieces, parts := [], [];
    for i := 0 to |tokens|
      invariant |parts| == i && pieces == Flattened(parts)
      invariant forall j | 0 <= j < i :: Segmented(vocab, tokens[j], parts[j])
    {
      var out := Wordpiece(vocab, tokens[i]);
      assert (parts + [out])[..|parts|] == parts;
      pieces, parts := pieces + out, parts + [out];
    }
  }

  /** The model input: the words' pieces between the two markers, cut to the limit.
      The last id is always the end marker's; the first is the start marker's
      whenever the limit leaves room for both. */
  method Encode(vocab: Vocab, cls: Classes, text: string, maxSeqLen: int)
    returns (ids: seq<int>, mask: seq<int>, types: seq<int>, ghost parts: seq<seq<string>>)
    requires maxSeqLen >= 1
    ensures |parts| == |Words(cls, Clean(cls, text))|
    ensures forall i | 0 <= i < |parts| :: Segmented(vocab, Words(cls, Clean(cls, text))[i], parts[i])
    ensures
      var pieces := Truncated([CLS] + Flattened(parts) + [SEP], maxSeqLen);
      |ids| == |pieces| && forall i | 0 <= i < |ids| :: ids[i] == IdOf(vocab, pieces[i])
    ensures 1 <= |ids| <= maxSeqLen && |mask| == |ids| == |types|
    ensures ids[|ids| - 1] == IdOf(vocab, SEP) && (maxSeqLen >= 2 ==> ids[0] == IdOf(vocab, CLS))
    ensures forall i | 0 <= i < |ids| :: mask[i] == 1 && types[i] == 0
  {
    var tokens := BasicTokenize(cls, text);
    var body;
    body, parts := PiecesOf(vocab, tokens);
    var pieces := [CLS] + body + [SEP];
    if |pieces| > maxSeqLen {
      pieces := pieces[..maxSeqLen - 1] + [SEP];
    }
    ids := [];
    for i := 0 to |pieces|
      invariant |ids| == i && forall j | 0 <= j < i :: ids[j] == IdOf(vocab, pieces[j])
    {
      ids := ids + [IdOf(vocab, pieces[i])];
    }
    mask := seq(|ids|, _ => 1);
    types := seq(|ids|, _ => 0);
  }

  // ----- What the pieces and ids mean -----

  /** The first piece is cut from the word as it is and every later one is marked; and
      at each cut no longer known piece could have been taken. */
  lemma PiecesAreMarked(vocab: Vocab, word: string, cuts: seq<nat>, pieces: seq<string>, i: nat, end: nat)
    requires GreedyPath(vocab, word, cuts, pieces) && i < |pieces|
    ensures cuts[i] < cuts[i + 1] <= |word|
    ensures pieces[i] == (if i == 0 then "" else "##") + word[cuts[i]..cuts[i + 1]] && pieces[i] in vocab
    ensures cuts[i + 1] < end <= |word| ==> (if i == 0 then "" else "##") + word[cuts[i]..end] !in vocab
  {
    PathAt(vocab, word, cuts, pieces, i);
    CutsGrow(vocab, word, cuts, pieces, i);
    assert "" + word[cuts[i]..cuts[i + 1]] == word[cuts[i]..cuts[i + 1]];
    if cuts[i + 1] < end <= |word| {
      assert Piece(word, cuts[i], end) !in vocab;
      assert "" + word[cuts[i]..end] == word[cuts[i]..end];
    }
  }

  lemma {:induction false} CutsGrow(vocab: Vocab, word: string, cuts: seq<nat>, pieces: seq<string>, i: nat)
    requires GreedyPath(vocab, word, cuts, pieces) && i <= |pieces|
    ensures cuts[i] > 0 <==> i > 0
    decreases i
  {
    StartsAtZero(vocab, word, cuts, pieces);
    if i > 0 {
      PathAt(vocab, word, cuts, pieces, i - 1);
    }
  }

  /** A word of up to 100 characters that is itself known stays whole, and a longer one is
      never looked at. */
  lemma WholeWord(vocab: Vocab, word: string, out: seq<string>)
    requires Segmented(vocab, word, out)
    ensures |word| > 100 ==> out == ["[UNK]"]
    ensures 0 < |word| <= 100 && word in vocab ==> out == [word]
  {
    if 0 < |word| <= 100 && word in vocab {
      var cuts, pieces :| Final(vocab, word, cuts, pieces) && out == if cuts[|pieces|] == |word| then pieces else [UNK];
      WholeIsFinal(vocab, word);
      GreedyIsUnique(vocab, word, cuts, pieces, [0] + [|word|], [] + [word]);
    }
  }

  lemma WholeIsFinal(vocab: Vocab, word: string)
    requires word != "" && word in vocab
    ensures Final(vocab, word, [0] + [|word|], [] + [word])
  {
    assert Piece(word, 0, |word|) == word;
    PathExtends(vocab, word, [0], [], |word|);
  }

  /** Every piece of a word is known, unless the whole word has become unknown. */
  lemma PiecesAreKnown(vocab: Vocab, word: string, out: seq<string>)
    requires Segmented(vocab, word, out)
    ensures out == [UNK] || forall i | 0 <= i < |out| :: out[i] in vocab
  {
    if |word| <= MAX_CHARS_PER_WORD {
      var cuts, pieces :| Final(vocab, word, cuts, pieces) && out == if cuts[|pieces|] == |word| then pieces else [UNK];
      forall i | 0 <= i < |pieces| ensures pieces[i] in vocab {
        PathAt(vocab, word, cuts, pieces, i);
      }
    }
  }

  function IdsOf(vocab: Vocab, pieces: seq<string>): (ids: seq<int>)
    ensures |ids| == |pieces|
  {
    seq(|pieces|, i requires 0 <= i < |pieces| => IdOf(vocab, pieces[i]))
  }

  // The piece with an id, if the vocabulary has one.
  predicate Names(vocab: Vocab, id: int, piece: string) {
    piece in vocab && vocab[piece] == id
  }

  /** In a vocabulary without repeated ids, the ids of known pieces give back the pieces;
      an unknown piece has the unknown token's id. */
  lemma IdsNamePieces(vocab: Vocab, pieces: seq<string>, i: nat, other: string)
    requires i < |pieces| && forall a, b | a in vocab && b in vocab && vocab[a] == vocab[b] :: a == b
    ensures pieces[i] in vocab ==> (Names(vocab, IdsOf(vocab, pieces)[i], other) <==> other == pieces[i])
    ensures pieces[i] !in vocab && "[UNK]" in vocab ==> Names(vocab, IdsOf(vocab, pieces)[i], "[UNK]")
    ensures pieces[i] !in vocab && "[UNK]" !in vocab ==> IdsOf(vocab, pieces)[i] == 0
  {
  }

  /** Cutting to the limit keeps the beginning, and the end marker at the end. */
  lemma TruncatedKeepsStart(pieces: seq<string>, maxSeqLen: int, i: nat)
    requires maxSeqLen >= 1 && pieces != [] && pieces[|pieces| - 1] == "[SEP]"
    ensures
      var cut := Truncated(pieces, maxSeqLen);
      && |cut| == (if |pieces| <= maxSeqLen then |pieces| else maxSeqLen) && cut[|cut| - 1] == "[SEP]"
      && (i < |cut| - 1 ==> cut[i] == pieces[i])
  {
  }

  lemma {:induction false} FlattenedJoins(a: seq<seq<string>>, b: seq<seq<string>>)
    ensures Flattened(a + b) == Flattened(a) + Flattened(b)
  {
    if b == [] {
      assert a + b == a;
    } else {
      FlattenedJoins(a, b[..|b| - 1]);
      assert (a + b)[..|a + b| - 1] == a + b[..|b| - 1];
    }
  }

  // ----- What cleaning and splitting keep -----

  // A character of the text that survives cleaning as it is.
  predicate Kept(cls: Classes, c: char) {
    && c != ' ' && c != '\t' && c != '\n' && c != '\r' && !cls.separator(c)
    && c as int != 0 && c as int != 0xFFFD && !cls.control(c)
  }

  // What one character becomes.
  function Cleaned(cls: Classes, c: char): string {
    if Kept(cls, c) then [c]
    else if c as int == 0 || c as int == 0xFFFD || (cls.control(c) && c !in "\t\n\r") then ""
    else " "
  }

  function CleanedFrom(cls: Classes, text: string): string
    decreases |text|
  {
    if text == "" then "" else Cleaned(cls, text[0]) + CleanedFrom(cls, text[1..])
  }

  lemma {:induction false} CleanJoins(cls: Classes, a: string, b: string)
    ensures Clean(cls, a + b) == Clean(cls, a) + Clean(cls, b)
  {
    if b == "" {
      assert a + b == a;
    } else {
      CleanJoins(cls, a, b[..|b| - 1]);
      assert (a + b)[..|a + b| - 1] == a + b[..|b| - 1];
    }
  }

  /** Cleaning goes character by character: ordinary ones stay, spaces of every kind
      become blanks, and NUL, replacement and control characters go. */
  lemma {:induction false} CleansEachCharacter(cls: Classes, text: string)
    ensures Clean(cls, text) == CleanedFrom(cls, text)
    decreases |text|
  {
    if text != "" {
      CleansEachCharacter(cls, text[1..]);
      CleanJoins(cls, [text[0]], text[1..]);
      assert [text[0]] + text[1..] == text && [text[0]][..0] == "";
      assert Clean(cls, [text[0]]) == Cleaned(cls, text[0]);
    }
  }

  function Spelled(words: seq<string>): string
    decreases |words|
  {
    if words == [] then "" else words[0] + Spelled(words[1..])
  }

  function Spaceless(cls: Classes, text: string): string
    decreases |text|
  {
    if text == "" then "" else (if cls.Space(text[0]) then "" else [text[0]]) + Spaceless(cls, text[1..])
  }

  lemma {:induction false} PlainIsSpaceless(cls: Classes, run: string, rest: string)
    requires AllPlain(cls, run)
    ensures Spaceless(cls, run + rest) == run + Spaceless(cls, rest)
    decreases |run|
  {
    if run == "" {
      assert run + rest == rest && "" + Spaceless(cls, rest) == Spaceless(cls, rest);
    } else {
      PlainIsSpaceless(cls, run[1..], rest);
      assert (run + rest)[1..] == run[1..] + rest && (run + rest)[0] == run[0];
      FirstOf(run, Spaceless(cls, rest));
    }
  }

  lemma FirstOf(run: string, rest: string)
    requires run != ""
    ensures [run[0]] + (run[1..] + rest) == run + rest
  {
  }

  // A word is a run of plain characters or a single mark.
  predicate IsWord(cls: Classes, w: string) {
    w != "" && (AllPlain(cls, w) || (|w| == 1 && cls.Punct(w[0]) && !cls.Space(w[0])))
  }

  /** Splitting loses nothing but the spaces, and every word is a run of plain characters
      or one punctuation mark. */
  lemma {:induction false} WordsKeepText(cls: Classes, text: string)
    ensures Spelled(Words(cls, text)) == Spaceless(cls, text)
    ensures forall w | w in Words(cls, text) :: IsWord(cls, w)
    decreases |text|
  {
    if text != "" {
      var n := if cls.Plain(text[0]) then Run(cls, text) else 1;
      WordsKeepText(cls, text[n..]);
      if cls.Plain(text[0]) {
        PlainIsSpaceless(cls, text[..n], text[n..]);
        assert text[..n] + text[n..] == text;
      }
      if !cls.Space(text[0]) {
        var first := if cls.Plain(text[0]) then text[..n] else [text[0]];
        assert Words(cls, text) == [first] + Words(cls, text[n..]);
        assert ([first] + Words(cls, text[n..]))[1..] == Words(cls, text[n..]);
        assert IsWord(cls, first);
      }
    }
  }

  const ASCII_MARKS := "!\"#$%&'()*+,-./:;<=>?@[\\]^_`{|}~"

  // The code points of those marks, in order.
  lemma AsciiMarks(i: nat)
    requires i < |ASCII_MARKS|
    ensures |ASCII_MARKS| == 32
    ensures
      var gap := if i < 15 then 33 else if i < 22 then 43 else if i < 28 then 69 else 95;
      ASCII_MARKS[i] as int == i + gap
  {
  }

  /** Without further classes the marks are those of ASCII. */
  lemma AsciiPunctuation(cls: Classes, c: char)
    requires !cls.punctuation(c)
    ensures cls.Punct(c) <==> c in ASCII_MARKS
  {
    var n := c as int;
    if cls.Punct(c) {
      var i: nat := if n <= 47 then n - 33 else if n <= 64 then n - 43 else if n <= 96 then n - 69 else n - 95;
      AsciiMarks(i);
      assert ASCII_MARKS[i] == c;
    } else if c in ASCII_MARKS {
      var i: nat :| i < |ASCII_MARKS| && ASCII_MARKS[i] == c;
      AsciiMarks(i);
    }
  }
}
