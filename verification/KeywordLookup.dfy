/** From a keyword table to the emitted matcher: what the generated parseKeyword returns,
    how far it reads, and for which tables the generated code compiles. */
module KeywordLookup {
  import opened Common
  import opened KeywordTrie
  import opened KeywordCompiler

  type Entry = (Word, Token)

  /** The table the entries describe; a later entry for the same word wins. */
  ghost function TableOf(entries: seq<Entry>): map<Word, Token> {
    if entries == [] then map[]
    else
      var n := |entries| - 1;
      TableOf(entries[..n])[entries[n].0 := entries[n].1]
  }

  function InsertAll(entries: seq<Entry>): Trie {
    if entries == [] then NewTrie([])
    else
      var n := |entries| - 1;
      Insert(InsertAll(entries[..n]), entries[n].0, entries[n].1)
  }

  /** The trie that is printed. */
  function Finished(entries: seq<Entry>, weights: map<Word, real>): Trie {
    FillOut(CoalesceRoot(InsertAll(entries)), [], weights)
  }

  function Generate(entries: seq<Entry>, weights: map<Word, real>): seq<Stmt> {
    Emit(Finished(entries, weights))
  }

  function MaxTokenLength(entries: seq<Entry>, weights: map<Word, real>): nat {
    MaxLength(Finished(entries, weights)) + 1
  }

  lemma {:induction false} InsertAllShape(entries: seq<Entry>)
    ensures Forked(InsertAll(entries)) && Plain(InsertAll(entries)) && InsertAll(entries).prefix == []
  {
    if entries != [] {
      var n := |entries| - 1;
      InsertAllShape(entries[..n]);
      InsertKeepsShape(InsertAll(entries[..n]), entries[n].0, entries[n].1);
    }
  }

  lemma {:induction false} InsertAllFind(entries: seq<Entry>, w: Text)
    ensures Find(InsertAll(entries), w) == if w in TableOf(entries) then Some(TableOf(entries)[w]) else None
  {
    if entries != [] {
      var n := |entries| - 1;
      InsertAllShape(entries[..n]);
      InsertAllFind(entries[..n], w);
      InsertFind(InsertAll(entries[..n]), entries[n].0, entries[n].1, w);
    }
  }

  /** The printed trie answers every lookup as the table does, whatever the weights. */
  lemma {:induction false} FinishedFind(entries: seq<Entry>, weights: map<Word, real>, w: Text)
    ensures Forked(Finished(entries, weights)) && Spelled(Finished(entries, weights), [])
    ensures Find(Finished(entries, weights), w) == if w in TableOf(entries) then Some(TableOf(entries)[w]) else None
  {
    var t := InsertAll(entries);
    InsertAllShape(entries);
    CoalesceKeepsShape(t);
    InsertAllFind(entries, w);
    CoalesceFind(t, w);
    FillOutKeepsShape(CoalesceRoot(t), [], weights);
    FillOutSpells(CoalesceRoot(t), [], weights);
    FillOutFind(CoalesceRoot(t), [], weights, w);
  }

  /** The first `n` units are a keyword and nothing continues it. */
  ghost predicate IsKeywordAt(table: map<Word, Token>, input: Input, n: nat) {
    n <= |input.code| && input.code[..n] in table && !input.isIdentPart(n)
  }

  /** What parseKeyword has to return: the shortest keyword, or IDENT. */
  ghost predicate LooksUp(table: map<Word, Token>, input: Input, r: Keyword) {
    match r
    case Crash => false
    case Identifier => forall n: nat :: !IsKeywordAt(table, input, n)
    case Keyword(token, shift, ident) =>
      && IsKeywordAt(table, input, shift)
      && token == table[input.code[..shift]]
      && ident == input.code[..shift]
      && forall n: nat :: n < shift ==> !IsKeywordAt(table, input, n)
  }

  ghost predicate Answers(t: Trie, table: map<Word, Token>, w: Text) {
    Find(t, w) == if w in table then Some(table[w]) else None
  }

  lemma {:induction false} CorrectLooksUp(t: Trie, table: map<Word, Token>, input: Input, o: Outcome)
    requires t.fullPrefix == []
    requires forall n :: 0 <= n <= |input.code| ==> Answers(t, table, input.code[..n])
    requires Correct(t, input, o)
    ensures LooksUp(table, input, ToKeyword(o))
  {
    forall n: nat ensures Hit(t, input, n) <==> IsKeywordAt(table, input, n) {
      if n <= |input.code| {
        assert input.code[0..n] == input.code[..n];
        assert Answers(t, table, input.code[..n]);
      }
    }
    if o.Returned? {
      assert input.code[0..o.shift] == input.code[..o.shift];
      assert Answers(t, table, input.code[..o.shift]);
    }
  }

  /** The generated matcher looks the word up in the table, on every platform, for every order of
      weights, and never reads at or beyond maxTokenLength. */
  lemma {:induction false} GeneratedLookup(p: Platform, entries: seq<Entry>, weights: map<Word, real>, input: Input)
    requires UnitsFit(p.units, input.code)
    requires |input.code| >= MaxTokenLength(entries, weights)
    requires ShortEdges(Finished(entries, weights))
    ensures LooksUp(TableOf(entries), input, ParseKeyword(p, Generate(entries, weights), input))
  {
    var t := Finished(entries, weights);
    forall n | 0 <= n <= |input.code| ensures Answers(t, TableOf(entries), input.code[..n]) {
      FinishedFind(entries, weights, input.code[..n]);
    }
    FinishedFind(entries, weights, []);
    EmitCorrect(p, t, input);
    CorrectLooksUp(t, TableOf(entries), input, Exec(p, Emit(t), input));
  }

  /** Where the letters of keywords are identifier parts, the matcher returns a keyword
      exactly when it is there: no other keyword can be there too. */
  lemma {:induction false} GeneratedLookupUnique(p: Platform, entries: seq<Entry>, weights: map<Word, real>,
                                                 input: Input, n: nat)
    requires UnitsFit(p.units, input.code)
    requires |input.code| >= MaxTokenLength(entries, weights)
    requires ShortEdges(Finished(entries, weights))
    requires forall w, i :: w in TableOf(entries) && 0 <= i < |w| && i < |input.code| && input.code[i] == w[i] ==>
               input.isIdentPart(i)
    ensures IsKeywordAt(TableOf(entries), input, n) <==>
            ParseKeyword(p, Generate(entries, weights), input).Keyword? &&
            ParseKeyword(p, Generate(entries, weights), input).shift == n
  {
    GeneratedLookup(p, entries, weights, input);
  }
}
