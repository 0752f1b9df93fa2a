/**
  The browser widget's text chunker (chrome-bot/content.js): the page text is
  cut at single spaces and the words are packed greedily into chunks under a
  character budget; only the first chunk is sent with the question.
 */
module ContentScript {
  import opened Strings

  /** The budget `ask` passes to `splitText`. */
  const ChunkBudget: int := 5000

  /** Every word followed by exactly one space, in order. */
  function Spaced(words: seq<String>): String
    decreases |words|
  {
    if |words| == 0 then [] else Spaced(words[..|words| - 1]) + Last(words) + [' ']
  }

  /** The chunks concatenated in order. */
  function Flatten(chunks: seq<String>): String
    decreases |chunks|
  {
    if |chunks| == 0 then [] else Flatten(chunks[..|chunks| - 1]) + Last(chunks)
  }

  lemma FlattenAppend(chunks: seq<String>, c: String)
    ensures Flatten(chunks + [c]) == Flatten(chunks) + c
  {
    assert (chunks + [c])[..|chunks|] == chunks;
  }

  lemma SpacedAppend(words: seq<String>, i: nat)
    requires i < |words|
    ensures Spaced(words[..i + 1]) == Spaced(words[..i]) + words[i] + [' ']
  {
    assert words[..i + 1][..i] == words[..i];
  }

  /** The first chunk starts the concatenation. */
  lemma {:induction false} FlattenStartsWithHead(chunks: seq<String>)
    requires |chunks| >= 1
    ensures IsPrefix(chunks[0], Flatten(chunks))
    decreases |chunks|
  {
    if |chunks| > 1 {
      var init := chunks[..|chunks| - 1];
      FlattenStartsWithHead(init);
      assert Flatten(chunks) == Flatten(init) + Last(chunks);
      assert Flatten(chunks)[..|chunks[0]|] == Flatten(init)[..|chunks[0]|];
    }
  }

  /** Head-first form of `Flatten`. */
  lemma {:induction false} FlattenCons(c: String, chunks: seq<String>)
    ensures Flatten([c] + chunks) == c + Flatten(chunks)
    decreases |chunks|
  {
    if |chunks| > 0 {
      var init := chunks[..|chunks| - 1];
      FlattenCons(c, init);
      assert ([c] + chunks)[..|chunks|] == [c] + init;
    } else {
      assert Flatten([c]) == Flatten([]) + c;
    }
  }

  /** Head-first form of `Spaced`, matching how `Join` is built. */
  lemma {:induction false} SpacedCons(w: String, words: seq<String>)
    ensures Spaced([w] + words) == w + [' '] + Spaced(words)
    decreases |words|
  {
    if |words| > 0 {
      var init := words[..|words| - 1];
      SpacedCons(w, init);
      assert ([w] + words)[..|words|] == [w] + init;
    } else {
      assert Spaced([w]) == Spaced([]) + w + [' '];
    }
  }

  lemma {:induction false} SpacedIsJoin(words: seq<String>)
    requires |words| >= 1
    ensures Spaced(words) == Join(words, " ") + " "
    decreases |words|
  {
    if |words| == 1 {
      assert Spaced(words) == Spaced([]) + words[0] + [' '];
    } else {
      SpacedIsJoin(words[1..]);
      SpacedCons(words[0], words[1..]);
      assert [words[0]] + words[1..] == words;
    }
  }

  /** Re-joining the words of `text.split(' ')`, each with its space, gives `text` plus one space. */
  lemma SpacedWordsOfText(text: String)
    ensures Spaced(Split(text, " ")) == text + " "
  {
    SpacedIsJoin(Split(text, " "));
    JoinSplit(text, " ");
  }

  /** The text before the first space: the word a chunk starts with. */
  function FirstWord(s: String): (r: String)
    ensures IsPrefix(r, s) && ' ' !in r
    ensures |r| < |s| ==> s[|r|] == ' '
    decreases |s|
  {
    if |s| == 0 || s[0] == ' ' then [] else [s[0]] + FirstWord(s[1..])
  }

  /** A word free of spaces, followed by its space, starts with exactly that word. */
  lemma {:induction false} FirstWordOfSpaced(w: String, rest: String)
    requires !Contains(w, " ")
    ensures FirstWord(w + " " + rest) == w
    decreases |w|
  {
    if |w| > 0 {
      assert !IsPrefix(" ", w) && !Contains(w[1..], " ");
      FirstWordOfSpaced(w[1..], rest);
      assert (w + " " + rest)[1..] == w[1..] + " " + rest;
    }
  }

  /** What follows a space does not change the first word. */
  lemma {:induction false} FirstWordExtend(c: String, rest: String)
    requires ' ' in c
    ensures FirstWord(c + rest) == FirstWord(c)
    decreases |c|
  {
    if c[0] != ' ' {
      assert (c + rest)[1..] == c[1..] + rest;
      FirstWordExtend(c[1..], rest);
    }
  }

  /** A chunk is empty or ends with the space that follows its last word. */
  predicate EndsInSpace(c: String) {
    c == [] || Last(c) == ' '
  }

  /** A chunk is empty, within the budget, or one of the first `i` words with its space. */
  ghost predicate Fits(c: String, words: seq<String>, i: nat, n: int) {
    c == [] || |c| <= n || exists j :: 0 <= j < i && j < |words| && c == words[j] + " "
  }

  lemma FitsGrows(c: String, words: seq<String>, i: nat, i': nat, n: int)
    requires i <= i' && Fits(c, words, i, n)
    ensures Fits(c, words, i', n)
  {
  }

  /** The state of `splitText`'s loop after its first `i` words. */
  ghost predicate Packed(words: seq<String>, n: int, chunks: seq<String>, chunk: String, i: nat) {
    && i <= |words|
    && Flatten(chunks) + chunk == Spaced(words[..i])
    && (chunk == [] <==> i == 0)
    && EndsInSpace(chunk)
    && Fits(chunk, words, i, n)
    && (|chunks| == 0 ==> chunk == [] || |chunk| <= n)
    && (|chunks| > 0 ==> chunks[0] == [] || |chunks[0]| <= n)
    && ((i > 0 && |words[0]| >= n) <==> (|chunks| > 0 && chunks[0] == []))
    && (forall k :: 1 <= k < |chunks| ==> chunks[k] != [])
    && (forall k :: 0 <= k < |chunks| ==> EndsInSpace(chunks[k]) && Fits(chunks[k], words, i, n))
  }

  /** One turn of the loop keeps `Packed`, in both branches of the budget test. */
  lemma PackStep(words: seq<String>, n: int, chunks: seq<String>, chunk: String, i: nat)
    requires i < |words| && Packed(words, n, chunks, chunk, i)
    ensures |chunk| + |words[i]| < n ==> Packed(words, n, chunks, chunk + words[i] + " ", i + 1)
    ensures |chunk| + |words[i]| >= n ==> Packed(words, n, chunks + [chunk], words[i] + " ", i + 1)
  {
    SpacedAppend(words, i);
    forall k | 0 <= k < |chunks| ensures Fits(chunks[k], words, i + 1, n) {
      FitsGrows(chunks[k], words, i, i + 1, n);
    }
    if |chunk| + |words[i]| < n {
      var c := chunk + words[i] + " ";
      assert Last(c) == ' ';
      assert Flatten(chunks) + c == Spaced(words[..i + 1]);
    } else {
      var cs := chunks + [chunk];
      var c := words[i] + " ";
      FlattenAppend(chunks, chunk);
      assert Flatten(cs) + c == Spaced(words[..i + 1]);
      assert Last(c) == ' ';
      assert Fits(c, words, i + 1, n);
      FitsGrows(chunk, words, i, i + 1, n);
      assert forall k :: 0 <= k < |chunks| ==> cs[k] == chunks[k];
    }
  }

  /**
    Every closed chunk was closed because the next word did not fit:
    its length plus that word's reaches the budget.
   */
  ghost predicate Greedy(n: int, chunks: seq<String>, chunk: String) {
    && (forall k :: 0 <= k < |chunks| - 1 ==> |chunks[k]| + |FirstWord(chunks[k + 1])| >= n)
    && (|chunks| > 0 ==> chunk != [] && EndsInSpace(chunk) && |Last(chunks)| + |FirstWord(chunk)| >= n)
  }

  /** A word that fits joins the open chunk, which keeps its first word. */
  lemma GreedyExtend(n: int, chunks: seq<String>, chunk: String, w: String)
    requires Greedy(n, chunks, chunk)
    ensures Greedy(n, chunks, chunk + w + " ")
  {
    if |chunks| > 0 {
      FirstWordExtend(chunk, w + " ");
      assert chunk + w + " " == chunk + (w + " ");
    }
  }

  /** A word that does not fit closes the open chunk and starts the next one. */
  lemma GreedyBreak(n: int, chunks: seq<String>, chunk: String, words: seq<String>, i: nat)
    requires Greedy(n, chunks, chunk) && i < |words| && !Contains(words[i], " ")
    requires |chunk| + |words[i]| >= n
    ensures Greedy(n, chunks + [chunk], words[i] + " ")
  {
    var cs, w := chunks + [chunk], words[i];
    FirstWordOfSpaced(w, []);
    assert w + " " + [] == w + " ";
    assert forall k :: 0 <= k < |chunks| ==> cs[k] == chunks[k];
    assert Last(cs) == chunk;
  }

  /** Pushing the last chunk keeps every closed chunk's reason for closing. */
  lemma GreedyClose(n: int, chunks: seq<String>, chunk: String)
    requires Greedy(n, chunks, chunk)
    ensures var cs := chunks + [chunk];
            forall k :: 0 <= k < |cs| - 1 ==> |cs[k]| + |FirstWord(cs[k + 1])| >= n
  {
    var cs := chunks + [chunk];
    assert forall k :: 0 <= k < |chunks| ==> cs[k] == chunks[k];
  }

  /**
    What `splitText(text, N)` returns: the words of `text.split(' ')`, each
    with its space, cut into chunks. Only the first chunk may be empty, which
    happens exactly when the first word alone reaches the budget. A chunk is
    within the budget or a single word, and each chunk was closed because
    the word that starts the next one did not fit.
   */
  ghost predicate GreedyChunks(text: String, n: int, chunks: seq<String>) {
    && |chunks| >= 1
    && Flatten(chunks) == text + " "
    && (chunks[0] == [] <==> |Split(text, " ")[0]| >= n)
    && (chunks[0] == [] || |chunks[0]| <= n)
    && IsPrefix(chunks[0], text + " ")
    && (forall k :: 1 <= k < |chunks| ==> chunks[k] != [])
    && (forall k :: 0 <= k < |chunks| ==> EndsInSpace(chunks[k]))
    && (forall k :: 0 <= k < |chunks| ==> Fits(chunks[k], Split(text, " "), |Split(text, " ")|, n))
    && (forall k :: 0 <= k < |chunks| - 1 ==> |chunks[k]| + |FirstWord(chunks[k + 1])| >= n)
  }

  /** The loop's state after the last word, with the open chunk pushed, is the greedy chunking. */
  lemma LoopExitChunks(text: String, n: int, chunks: seq<String>, chunk: String)
    requires Packed(Split(text, " "), n, chunks, chunk, |Split(text, " ")|)
    requires Greedy(n, chunks, chunk)
    ensures GreedyChunks(text, n, chunks + [chunk])
  {
    var words := Split(text, " ");
    var cs := chunks + [chunk];
    FlattenAppend(chunks, chunk);
    GreedyClose(n, chunks, chunk);
    assert words[..|words|] == words;
    SpacedWordsOfText(text);
    FlattenStartsWithHead(cs);
    assert forall k :: 0 <= k < |chunks| ==> cs[k] == chunks[k];
  }

  /** One turn of `splitText`'s loop on the closed chunks and the open chunk. */
  function PackWord(state: (seq<String>, String), w: String, n: int): (seq<String>, String) {
    var (chunks, chunk) := state;
    if |chunk| + |w| < n then (chunks, chunk + w + " ") else (chunks + [chunk], w + " ")
  }

  /** The loop of `splitText` over `words`, as a fold: the closed chunks and the open chunk. */
  function PackFold(words: seq<String>, n: int): (seq<String>, String)
    decreases |words|
  {
    if |words| == 0 then ([], []) else PackWord(PackFold(words[..|words| - 1], n), Last(words), n)
  }

  /** The chunks `splitText(text, N)` returns. */
  function SplitChunks(text: String, n: int): seq<String> {
    var (chunks, chunk) := PackFold(Split(text, " "), n);
    chunks + [chunk]
  }

  /** The fold over one more word is one more turn of the loop. */
  lemma PackFoldStep(words: seq<String>, n: int, i: nat)
    requires i < |words|
    ensures PackFold(words[..i + 1], n) == PackWord(PackFold(words[..i], n), words[i], n)
  {
    assert words[..i + 1][..i] == words[..i] && Last(words[..i + 1]) == words[i];
  }

  lemma PackWordPacked(words: seq<String>, n: int, state: (seq<String>, String), i: nat)
    requires i < |words| && Packed(words, n, state.0, state.1, i)
    ensures Packed(words, n, PackWord(state, words[i], n).0, PackWord(state, words[i], n).1, i + 1)
  {
    PackStep(words, n, state.0, state.1, i);
  }

  lemma PackWordGreedy(words: seq<String>, n: int, state: (seq<String>, String), i: nat)
    requires i < |words| && !Contains(words[i], " ") && Greedy(n, state.0, state.1)
    ensures Greedy(n, PackWord(state, words[i], n).0, PackWord(state, words[i], n).1)
  {
    if |state.1| + |words[i]| < n {
      GreedyExtend(n, state.0, state.1, words[i]);
    } else {
      GreedyBreak(n, state.0, state.1, words, i);
    }
  }

  /** After `i` words the fold is in a `Packed` state. */
  lemma {:induction false} PackFoldPacked(words: seq<String>, n: int, i: nat)
    requires i <= |words|
    ensures Packed(words, n, PackFold(words[..i], n).0, PackFold(words[..i], n).1, i)
  {
    if i > 0 {
      PackFoldPacked(words, n, i - 1);
      PackFoldStep(words, n, i - 1);
      PackWordPacked(words, n, PackFold(words[..i - 1], n), i - 1);
    }
  }

  /** After `i` words of a text split at spaces the fold is in a `Greedy` state. */
  lemma {:induction false} PackFoldGreedy(words: seq<String>, n: int, i: nat)
    requires i <= |words|
    requires forall k :: 0 <= k < |words| ==> !Contains(words[k], " ")
    ensures Greedy(n, PackFold(words[..i], n).0, PackFold(words[..i], n).1)
  {
    if i > 0 {
      PackFoldGreedy(words, n, i - 1);
      PackFoldStep(words, n, i - 1);
      PackWordGreedy(words, n, PackFold(words[..i - 1], n), i - 1);
    }
  }

  /** The chunks of `splitText` are the greedy chunking of the text. */
  lemma SplitChunksGreedy(text: String, n: int)
    ensures GreedyChunks(text, n, SplitChunks(text, n))
  {
    var words := Split(text, " ");
    SplitPiecesFree(text, " ");
    PackFoldPacked(words, n, |words|);
    PackFoldGreedy(words, n, |words|);
    assert words[..|words|] == words;
    LoopExitChunks(text, n, PackFold(words, n).0, PackFold(words, n).1);
  }

  /**
    `splitText(text, N)`: packs the space-separated words greedily; a word
    joins the current chunk exactly when `chunk.length + word.length < N`.
   */
  method SplitText(text: String, n: int) returns (chunks: seq<String>)
    ensures chunks == SplitChunks(text, n)
    ensures GreedyChunks(text, n, chunks)
  {
    var words := Split(text, " ");
    chunks := [];
    var chunk: String := [];
    var i := 0;
    while i < |words|
      invariant i <= |words|
      invariant (chunks, chunk) == PackFold(words[..i], n)
    {
      PackFoldStep(words, n, i);
      if |chunk| + |words[i]| < n {
        chunk := chunk + words[i] + " ";
      } else {
        chunks := chunks + [chunk];
        chunk := words[i] + " ";
      }
      i := i + 1;
    }
    assert words[..i] == words;
    chunks := chunks + [chunk];
    SplitChunksGreedy(text, n);
  }

  /** Two short words share one chunk: `splitText("a b", 10)` is `["a b "]`. */
  lemma ShortWordsShareAChunk()
    ensures SplitChunks("a b", 10) == ["a b "]
  {
    assert Split("a b", " ") == ["a", "b"] by {
      assert Split("b", " ") == ["b"] by {
        assert !IsPrefix(" ", "b") && "b"[1..] == [] && Split([], " ") == [[]];
        var empty: seq<String> := [[]];
        assert ['b'] + [] == "b" && empty[1..] == [];
      }
      assert Split(" b", " ") == [[], "b"] by {
        assert IsPrefix(" ", " b") && " b"[1..] == "b";
      }
      assert !IsPrefix(" ", "a b") && "a b"[1..] == " b" && ['a'] + [] == "a";
    }
    var words := ["a", "b"];
    var first := words[..1];
    assert PackFold(first, 10) == ([], "a ") by {
      assert first[..|first| - 1] == [] && PackFold([], 10) == ([], []);
      assert Last(first) == "a" && [] + "a" + " " == "a ";
    }
    assert PackFold(words, 10) == ([], "a b ") by {
      assert words[..1] == words[..|words| - 1] && Last(words) == "b" && "a " + "b" + " " == "a b ";
    }
  }

  /** The word after the first chunk is the one the second chunk starts with. */
  lemma FirstWordAfterHead(chunks: seq<String>)
    requires |chunks| >= 2 && chunks[1] != [] && Last(chunks[1]) == ' '
    ensures |chunks[0]| <= |Flatten(chunks)|
    ensures FirstWord(Flatten(chunks)[|chunks[0]|..]) == FirstWord(chunks[1])
  {
    var c, next, rest := chunks[0], chunks[1], chunks[2..];
    FlattenCons(c, chunks[1..]);
    FlattenCons(next, rest);
    assert [c] + chunks[1..] == chunks && [next] + rest == chunks[1..];
    assert Flatten(chunks)[|c|..] == next + Flatten(rest);
    FirstWordExtend(next, Flatten(rest));
  }

  /** The first chunk `splitText(text, N)` returns: the part of the page `remote_ask` sends. */
  function FirstChunk(text: String, n: int): String {
    SplitChunks(text, n)[0]
  }

  /**
    The first chunk is the greedy one: a prefix of the text (plus its final
    space) that ends at a word boundary and stays within the budget, empty
    exactly when the first word alone reaches the budget, and when text
    follows it, the next word would not have fit.
   */
  lemma FirstChunkIsGreedy(text: String, n: int)
    ensures var c := FirstChunk(text, n);
            && IsPrefix(c, text + " ") && EndsInSpace(c)
            && (c == [] <==> |Split(text, " ")[0]| >= n)
            && (c == [] || |c| <= n)
            && (c != [] && |c| < |text| + 1 ==> |c| + |FirstWord((text + " ")[|c|..])| >= n)
  {
    var chunks := SplitChunks(text, n);
    SplitChunksGreedy(text, n);
    if |chunks| == 1 {
      assert Flatten(chunks) == Flatten([]) + chunks[0];
    } else {
      FirstWordAfterHead(chunks);
    }
  }

  /** The request body `remote_ask` posts: the first chunk of the page text, then the question. */
  method RemotePrompt(pageText: String, question: String) returns (prompt: String)
    ensures |prompt| <= ChunkBudget + |question|
    ensures exists k :: 0 <= k <= |pageText| + 1 && prompt == (pageText + " ")[..k] + question
    ensures prompt == FirstChunk(pageText, ChunkBudget) + question
  {
    var blocks := SplitText(pageText, ChunkBudget);
    prompt := blocks[0] + question;
    assert prompt == (pageText + " ")[..|blocks[0]|] + question;
  }
}
