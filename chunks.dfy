/** The chunking of a long analysis into Discord-sized messages
    (`splitIntoChunks`) and the order in which the analysis command sends the
    chunks. */
module Chunks {
  import opened Text

  /** The separators the chunker may drop or re-insert. */
  const Breaks: set<char> := {' ', '\n'}

  /** The text with every space and line break removed: what chunking must
      keep, in order. */
  function Visible(s: string): string {
    Remove(s, Breaks)
  }

  /** A single word: no space and no line break. */
  predicate NoBreak(s: string) {
    ' ' !in s && '\n' !in s
  }

  /** Every piece of `split` is free of the separator and made of the
      string's own characters. */
  lemma {:induction false} SplitPieces(s: string, sep: char)
    ensures forall k :: 0 <= k < |Split(s, sep)| ==> sep !in Split(s, sep)[k]
    ensures forall k, c :: 0 <= k < |Split(s, sep)| && c in Split(s, sep)[k] ==> c in s
    decreases |s|
  {
    if sep in s {
      var i := IndexOf(s, sep);
      SplitPieces(s[i + 1..], sep);
      var parts := Split(s, sep);
      forall k, c | 0 <= k < |parts| && c in parts[k] ensures c in s {
        if k == 0 {
          assert parts[0] == s[..i];
        } else {
          assert parts[k] == Split(s[i + 1..], sep)[k - 1];
          assert c in s[i + 1..];
        }
      }
    }
  }

  /** Splitting on a break character and concatenating the pieces loses
      only break characters. */
  lemma {:induction false} SplitVisible(s: string, sep: char)
    requires sep in Breaks
    ensures Visible(Concat(Split(s, sep))) == Visible(s)
    decreases |s|
  {
    if sep !in s {
      assert Split(s, sep) == [s];
      assert Concat([s]) == s + Concat([]);
      assert Concat(Split(s, sep)) == s;
    } else {
      var i := IndexOf(s, sep);
      var a, rest := s[..i], s[i + 1..];
      var tail := Split(rest, sep);
      SplitVisible(rest, sep);
      assert Split(s, sep) == [a] + tail;
      assert Concat([a] + tail) == a + Concat(tail) by {
        assert ([a] + tail)[1..] == tail;
      }
      RemoveAppend(a, Concat(tail), Breaks);
      assert s == a + ([sep] + rest);
      VisibleAroundBreak(a, sep, rest);
    }
  }

  /** A break between two strings is invisible. */
  lemma VisibleAroundBreak(a: string, sep: char, rest: string)
    requires sep in Breaks
    ensures Visible(a + ([sep] + rest)) == Visible(a) + Visible(rest)
  {
    RemoveAppend(a, [sep] + rest, Breaks);
    assert ([sep] + rest)[1..] == rest;
  }

  /** Appending `sep` and a piece to the open chunk adds the piece's visible
      characters. */
  lemma AppendPiece(done: string, cur: string, sep: string, piece: string)
    requires sep == "" || sep == " " || sep == "\n"
    ensures Visible(done + (cur + sep + piece)) == Visible(done + cur) + Visible(piece)
  {
    assert done + (cur + sep + piece) == (done + cur) + (sep + piece);
    RemoveAppend(done + cur, sep + piece, Breaks);
    RemoveAppend(sep, piece, Breaks);
  }

  /** Closing the open chunk moves it to the list without changing the text. */
  lemma Push(chunks: seq<string>, cur: string)
    ensures Concat(chunks + [cur]) + "" == Concat(chunks) + cur
  {
    ConcatAppend(chunks, [cur]);
    assert Concat([cur]) == cur + Concat([]);
  }

  /** The first `i + 1` pieces are the first `i` and one more. */
  lemma ConcatStep(xs: seq<string>, i: nat)
    requires i < |xs|
    ensures Concat(xs[..i + 1]) == Concat(xs[..i]) + xs[i]
  {
    assert xs[..i + 1] == xs[..i] + [xs[i]];
    ConcatAppend(xs[..i], [xs[i]]);
    assert Concat([xs[i]]) == xs[i] + Concat([]);
  }

  /** A chunk may be sent: it fits, or it is one word too long to split. */
  predicate Fits(c: string, maxLength: nat) {
    |c| <= maxLength || NoBreak(c)
  }

  /** The closed chunks: none empty, each one fits. */
  predicate Packed(chunks: seq<string>, maxLength: nat) {
    forall k :: 0 <= k < |chunks| ==> chunks[k] != "" && Fits(chunks[k], maxLength)
  }

  lemma PackedPush(chunks: seq<string>, cur: string, maxLength: nat)
    requires Packed(chunks, maxLength) && cur != "" && Fits(cur, maxLength)
    ensures Packed(chunks + [cur], maxLength)
  {
  }

  /** One iteration of the word loop: a word that does not fit after the
      open chunk and a space closes that chunk and opens the next one;
      otherwise it joins the open chunk. */
  method PlaceWord(chunks0: seq<string>, current0: string, word: string, maxLength: nat)
    returns (chunks: seq<string>, current: string)
    requires Packed(chunks0, maxLength) && Fits(current0, maxLength)
    requires NoBreak(word)
    ensures Packed(chunks, maxLength) && Fits(current, maxLength)
    ensures Visible(Concat(chunks) + current) == Visible(Concat(chunks0) + current0) + Visible(word)
  {
    chunks, current := chunks0, current0;
    if |current| + |word| + 1 > maxLength {
      if current != "" {
        Push(chunks, current);
        PackedPush(chunks, current, maxLength);
        chunks := chunks + [current];
      }
      AppendPiece(Concat(chunks), "", "", word);
      assert "" + "" + word == word;
      current := word;
    } else {
      var sep := if current != "" then " " else "";
      AppendPiece(Concat(chunks), current, sep, word);
      current := current + sep + word;
    }
  }

  /** The word loop of `splitIntoChunks` for a line too long on its own:
      words are joined by spaces while they fit, and a word that does not
      fit closes the open chunk and starts the next one. */
  method PackWords(chunks0: seq<string>, words: seq<string>, maxLength: nat)
    returns (chunks: seq<string>, current: string)
    requires Packed(chunks0, maxLength)
    requires forall k :: 0 <= k < |words| ==> NoBreak(words[k])
    ensures Packed(chunks, maxLength) && Fits(current, maxLength)
    ensures Visible(Concat(chunks) + current) == Visible(Concat(chunks0)) + Visible(Concat(words))
  {
    chunks, current := chunks0, "";
    ghost var before := Visible(Concat(chunks0));
    assert Concat(chunks) + current == Concat(chunks0);
    var j := 0;
    while j < |words|
      invariant 0 <= j <= |words|
      invariant Packed(chunks, maxLength) && Fits(current, maxLength)
      invariant Visible(Concat(chunks) + current) == before + Visible(Concat(words[..j]))
    {
      ConcatStep(words, j);
      RemoveAppend(Concat(words[..j]), words[j], Breaks);
      chunks, current := PlaceWord(chunks, current, words[j], maxLength);
      j := j + 1;
    }
    assert words[..j] == words;
  }

  /** One line of the line loop of `splitIntoChunks`. */
  method PackLine(chunks0: seq<string>, current0: string, line: string, maxLength: nat)
    returns (chunks: seq<string>, current: string)
    requires Packed(chunks0, maxLength) && Fits(current0, maxLength)
    requires '\n' !in line
    ensures Packed(chunks, maxLength) && Fits(current, maxLength)
    ensures Visible(Concat(chunks) + current) == Visible(Concat(chunks0) + current0) + Visible(line)
  {
    chunks, current := chunks0, current0;
    if |current| + |line| + 1 > maxLength {
      if current != "" {
        Push(chunks, current);
        PackedPush(chunks, current, maxLength);
        chunks := chunks + [current];
        current := "";
      }
      if |line| > maxLength {
        var words := Split(line, ' ');
        SplitPieces(line, ' ');
        SplitVisible(line, ' ');
        forall k | 0 <= k < |words| ensures NoBreak(words[k]) {
          assert '\n' !in words[k];
        }
        assert Concat(chunks) + current == Concat(chunks);
        assert Visible(Concat(chunks)) == Visible(Concat(chunks0) + current0);
        chunks, current := PackWords(chunks, words, maxLength);
      } else {
        AppendPiece(Concat(chunks), "", "", line);
        assert "" + "" + line == line;
        current := line;
      }
    } else {
      var sep := if current != "" then "\n" else "";
      AppendPiece(Concat(chunks), current, sep, line);
      current := current + sep + line;
    }
  }

  /** `splitIntoChunks(text, maxLength)`: a text that fits is one chunk;
      otherwise lines are packed into chunks joined by line breaks, and a
      line too long on its own is packed word by word joined by spaces.
      Every chunk then is non-empty, fits unless it is a single overlong
      word, and no character other than a space or a line break is lost,
      added or moved. */
  method SplitIntoChunks(text: string, maxLength: nat) returns (chunks: seq<string>)
    ensures |text| <= maxLength ==> chunks == [text]
    ensures |text| > maxLength ==> forall k :: 0 <= k < |chunks| ==> chunks[k] != ""
    ensures forall k :: 0 <= k < |chunks| ==> |chunks[k]| <= maxLength || NoBreak(chunks[k])
    ensures Visible(Concat(chunks)) == Visible(text)
  {
    if |text| <= maxLength {
      assert Concat([text]) == text + Concat([]);
      assert text + Concat([]) == text;
      return [text];
    }
    chunks := [];
    var lines := Split(text, '\n');
    SplitPieces(text, '\n');
    var current := "";
    var i := 0;
    while i < |lines|
      invariant 0 <= i <= |lines|
      invariant Packed(chunks, maxLength) && Fits(current, maxLength)
      invariant Visible(Concat(chunks) + current) == Visible(Concat(lines[..i]))
    {
      ConcatStep(lines, i);
      RemoveAppend(Concat(lines[..i]), lines[i], Breaks);
      chunks, current := PackLine(chunks, current, lines[i], maxLength);
      i := i + 1;
    }
    if current != "" {
      Push(chunks, current);
      PackedPush(chunks, current, maxLength);
      chunks := chunks + [current];
    }
    assert Concat(chunks) + "" == Concat(chunks);
    assert lines[..i] == lines;
    SplitVisible(text, '\n');
  }

  /** A message of the analysis command: the deferred reply is edited once,
      further chunks are follow-ups. */
  datatype Send = EditReply(content: string) | FollowUp(content: string)

  /** The limit the command chunks with, below Discord's 2000 characters. */
  const AnalysisChunkLength: nat := 1900

  const EmptyAnalysis := "\U{274C} Erreur: L'analyse g\U{E9}n\U{E9}r\U{E9}e est vide."

  /** The sending part of `execute`: no chunk reports an empty analysis;
      otherwise chunk 0 edits the reply and the rest follow in order. */
  method SendAnalysis(analysis: string) returns (sends: seq<Send>)
    ensures |sends| >= 1 && sends[0].EditReply?
    ensures forall k :: 1 <= k < |sends| ==> sends[k].FollowUp?
    ensures |analysis| <= AnalysisChunkLength ==> sends == [EditReply(analysis)]
    ensures Visible(Concat(Contents(sends))) == Visible(analysis)
            || (sends == [EditReply(EmptyAnalysis)] && Visible(analysis) == "")
  {
    var chunks := SplitIntoChunks(analysis, AnalysisChunkLength);
    if |chunks| == 0 {
      return [EditReply(EmptyAnalysis)];
    }
    sends := [EditReply(chunks[0])];
    var i := 1;
    while i < |chunks|
      invariant 1 <= i <= |chunks|
      invariant |sends| == i && sends[0] == EditReply(chunks[0])
      invariant forall k :: 1 <= k < i ==> sends[k] == FollowUp(chunks[k])
      invariant Contents(sends) == chunks[..i]
    {
      ContentsAppend(sends, FollowUp(chunks[i]));
      assert chunks[..i + 1] == chunks[..i] + [chunks[i]];
      sends := sends + [FollowUp(chunks[i])];
      i := i + 1;
    }
    assert chunks[..i] == chunks;
  }

  /** The texts sent, in order. */
  function Contents(sends: seq<Send>): (r: seq<string>)
    ensures |r| == |sends|
    ensures forall k :: 0 <= k < |sends| ==> r[k] == sends[k].content
  {
    seq(|sends|, k requires 0 <= k < |sends| => sends[k].content)
  }

  lemma ContentsAppend(sends: seq<Send>, s: Send)
    ensures Contents(sends + [s]) == Contents(sends) + [s.content]
  {
  }
}
