/** `ASLGPC12Translator.to_gloss`: English to ASL gloss by filtering and
    mapping the tokens an English parser produces. The parser itself is not
    modelled: its output, one (lemma, part of speech) pair per token, is the
    input here. */
module GlossTranslator {
  import opened Text

  datatype Token = Token(baseForm: string, pos: string)

  /** Parts of speech that never reach the gloss. */
  const SkippedTags: set<string> := {"AUX", "DET", "ADP", "CCONJ", "PUNCT"}

  /** `word_map`: fixed overrides; an empty value drops the word. */
  const WordMap: map<string, string> := map[
    "thank" := "THANK-YOU", "name" := "NAME", "hello" := "HELLO", "watching" := "WATCH",
    "is" := "", "a" := "", "an" := "", "the" := "", "to" := "", "for" := "", "of" := "", "be" := ""]

  /** `word_map.get(word, word.upper())` for `word = lemma.lower()`. */
  function MapLemma(baseForm: string): string {
    var word := Lower(baseForm);
    if word in WordMap then WordMap[word] else Upper(word)
  }

  /** The gloss words of the tokens, in token order. */
  function GlossWords(tokens: seq<Token>): seq<string>
    decreases |tokens|
  {
    if tokens == [] then []
    else
      var init, t := GlossWords(tokens[..|tokens| - 1]), tokens[|tokens| - 1];
      if t.pos in SkippedTags then init
      else if MapLemma(t.baseForm) == "" then init
      else init + [MapLemma(t.baseForm)]
  }

  /** A token survives when its tag is kept and its mapping is not empty. */
  predicate Emits(t: Token) {
    t.pos !in SkippedTags && MapLemma(t.baseForm) != ""
  }

  /** `to_gloss`: the surviving tokens' words joined by single spaces. */
  method ToGloss(tokens: seq<Token>) returns (gloss: string)
    ensures gloss == Join(GlossWords(tokens))
    ensures gloss == "" <==> forall i :: 0 <= i < |tokens| ==> !Emits(tokens[i])
  {
    var glossWords: seq<string> := [];
    var i := 0;
    while i < |tokens|
      invariant 0 <= i <= |tokens|
      invariant glossWords == GlossWords(tokens[..i])
    {
      var token := tokens[i];
      assert tokens[..i + 1][..i] == tokens[..i];
      var word := Lower(token.baseForm);
      if token.pos in SkippedTags {
        i := i + 1;
        continue;
      }
      var mapped := if word in WordMap then WordMap[word] else Upper(word);
      if mapped != "" {
        glossWords := glossWords + [mapped];
      }
      i := i + 1;
    }
    assert tokens[..i] == tokens;
    gloss := Join(glossWords);
    GlossWordsNonEmpty(tokens);
    JoinEmpty(glossWords);
    GlossWordsEmpty(tokens);
  }

  /** Translating two token runs one after the other gives the two glosses in order. */
  lemma {:induction false} GlossWordsAppend(a: seq<Token>, b: seq<Token>)
    ensures GlossWords(a + b) == GlossWords(a) + GlossWords(b)
    decreases |b|
  {
    if b == [] {
      assert a + b == a;
    } else {
      var b' := b[..|b| - 1];
      assert (a + b)[..|a + b| - 1] == a + b';
      assert (a + b)[|a + b| - 1] == b[|b| - 1];
      GlossWordsAppend(a, b');
    }
  }

  /** A token tagged AUX, DET, ADP, CCONJ or PUNCT contributes nothing,
      wherever it stands. */
  lemma SkippedTokenIgnored(before: seq<Token>, t: Token, after: seq<Token>)
    requires t.pos in SkippedTags
    ensures GlossWords(before + [t] + after) == GlossWords(before + after)
  {
    GlossWordsAppend(before + [t], after);
    GlossWordsAppend(before, [t]);
    GlossWordsAppend(before, after);
    assert [t][..0] == [];
  }

  /** `word` is the mapping of some surviving token among `tokens`. */
  predicate FromSurvivor(word: string, tokens: seq<Token>) {
    exists j :: 0 <= j < |tokens| && Emits(tokens[j]) && word == MapLemma(tokens[j].baseForm)
  }

  /** Every emitted word is non-empty, and each comes from a surviving token. */
  lemma GlossWordsNonEmpty(tokens: seq<Token>)
    ensures forall k :: 0 <= k < |GlossWords(tokens)| ==> GlossWords(tokens)[k] != ""
    ensures forall k :: 0 <= k < |GlossWords(tokens)| ==> FromSurvivor(GlossWords(tokens)[k], tokens)
  {
    forall k | 0 <= k < |GlossWords(tokens)|
      ensures GlossWords(tokens)[k] != "" && FromSurvivor(GlossWords(tokens)[k], tokens)
    {
      var j := GlossWordSource(tokens, k);
    }
  }

  /** The index of the surviving token that the `k`-th gloss word comes from. */
  lemma {:induction false} GlossWordSource(tokens: seq<Token>, k: nat) returns (j: nat)
    requires k < |GlossWords(tokens)|
    ensures j < |tokens| && Emits(tokens[j]) && GlossWords(tokens)[k] == MapLemma(tokens[j].baseForm)
    ensures GlossWords(tokens)[k] != ""
    decreases |tokens|
  {
    var init, last := tokens[..|tokens| - 1], tokens[|tokens| - 1];
    var before := GlossWords(init);
    if k < |before| {
      j := GlossWordSource(init, k);
      assert GlossWords(tokens)[k] == before[k];
      assert tokens[j] == init[j];
    } else {
      assert Emits(last) && GlossWords(tokens) == before + [MapLemma(last.baseForm)];
      j := |tokens| - 1;
    }
  }

  /** The gloss is empty exactly when no token survives. */
  lemma {:induction false} GlossWordsEmpty(tokens: seq<Token>)
    ensures GlossWords(tokens) == [] <==> forall i :: 0 <= i < |tokens| ==> !Emits(tokens[i])
    decreases |tokens|
  {
    if tokens != [] {
      var init := tokens[..|tokens| - 1];
      GlossWordsEmpty(init);
      if forall i :: 0 <= i < |tokens| ==> !Emits(tokens[i]) {
        assert forall i :: 0 <= i < |init| ==> !Emits(init[i]) by {
          forall i | 0 <= i < |init| ensures !Emits(init[i]) { assert init[i] == tokens[i]; }
        }
      } else {
        var i :| 0 <= i < |tokens| && Emits(tokens[i]);
        if i < |init| {
          assert init[i] == tokens[i];
        }
      }
    }
  }

  /** An unmapped lemma is emitted in upper case whatever its case was. */
  lemma UnmappedLemmaUppercased(baseForm: string)
    requires Lower(baseForm) !in WordMap
    ensures MapLemma(baseForm) == Upper(baseForm)
  {
    UpperOfLower(baseForm);
  }

  /** The fixed overrides, and the words the map drops. */
  lemma WordMapOverrides()
    ensures MapLemma("thank") == "THANK-YOU" && MapLemma("Hello") == "HELLO"
    ensures MapLemma("name") == "NAME" && MapLemma("watching") == "WATCH"
    ensures forall w :: w in {"is", "a", "an", "the", "to", "for", "of", "be"} ==> MapLemma(w) == ""
  {
    assert Lower("Hello") == "hello";
    assert Lower("thank") == "thank";
    assert Lower("name") == "name";
    assert Lower("watching") == "watching";
    forall w | w in {"is", "a", "an", "the", "to", "for", "of", "be"} ensures MapLemma(w) == "" {
      assert Lower(w) == w;
    }
  }

  lemma UpperCharKeepsSpace(c: char)
    ensures IsSpace(UpperChar(c)) <==> IsSpace(c)
    ensures IsSpace(LowerChar(c)) <==> IsSpace(c)
  {
  }

  /** A lemma without whitespace maps to a word without whitespace. */
  lemma MapLemmaNoSpace(baseForm: string)
    requires NoSpace(baseForm)
    ensures NoSpace(MapLemma(baseForm))
  {
    var word := Lower(baseForm);
    forall i | 0 <= i < |word| ensures !IsSpace(word[i]) { UpperCharKeepsSpace(baseForm[i]); }
    if word !in WordMap {
      forall i | 0 <= i < |word| ensures !IsSpace(Upper(word)[i]) { UpperCharKeepsSpace(word[i]); }
    }
  }

  /** When no lemma contains whitespace, splitting the translated gloss on
      whitespace (as the avatar generator does) gives back exactly the
      translator's words. */
  lemma GlossSplitsBack(tokens: seq<Token>)
    requires forall i :: 0 <= i < |tokens| ==> NoSpace(tokens[i].baseForm)
    ensures Split(Join(GlossWords(tokens))) == GlossWords(tokens)
  {
    var words := GlossWords(tokens);
    GlossWordsNonEmpty(tokens);
    forall k | 0 <= k < |words| ensures words[k] != [] && NoSpace(words[k]) {
      var j :| 0 <= j < |tokens| && Emits(tokens[j]) && words[k] == MapLemma(tokens[j].baseForm);
      MapLemmaNoSpace(tokens[j].baseForm);
    }
    SplitJoin(words);
  }
}
