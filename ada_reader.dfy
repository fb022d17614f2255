/** The token-level part of the Ada reader: keyword folding, the
    whitespace filter and the comment test. */
module AdaReader {
  import opened Wrappers

  /** The reserved words of Ada, all lower case. The set is written as six
      displays, and membership as the disjunction of the six, so that each
      proof about it stays small. */
  const KeywordsAToC: set<string> := {
    "abort", "abs", "abstract", "accept", "access", "aliased", "all", "and", "array", "at", "begin", "body", "case", "constant" }
  const KeywordsDToF: set<string> := {
    "declare", "delay", "delta", "digits", "do", "else", "elsif", "end", "entry", "exception", "exit", "for", "function" }
  const KeywordsGToO: set<string> := {
    "generic", "goto", "if", "in", "interface", "is", "limited", "loop", "mod", "new", "not", "null", "of", "or", "others" }
  const KeywordsOToR: set<string> := {
    "out", "overriding", "package", "pragma", "private", "procedure", "protected", "raise", "range", "record", "rem", "renames" }
  const KeywordsRToT: set<string> := {
    "requeue", "return", "reverse", "select", "separate", "subtype", "synchronized", "tagged", "task", "terminate", "then" }
  const KeywordsTToX: set<string> := {
    "type", "until", "use", "when", "while", "with", "xor" }
  /** Membership in the keyword set. */
  predicate IsKeyword(w: string) {
    w in KeywordsAToC || w in KeywordsDToF || w in KeywordsGToO || w in KeywordsOToR || w in KeywordsRToT || w in KeywordsTToX
  }

  /** The characters Python's `str.isspace` treats as white space. */
  predicate IsSpaceChar(c: char) {
    c == ' ' || c == '\t' || c == '\n' || c == '\r' || c == '\U{0B}' || c == '\U{0C}'
    || ('\U{1C}' <= c <= '\U{1F}') || c == '\U{85}' || c == '\U{A0}' || c == '\U{1680}'
    || ('\U{2000}' <= c <= '\U{200A}') || c == '\U{2028}' || c == '\U{2029}'
    || c == '\U{202F}' || c == '\U{205F}' || c == '\U{3000}'
  }

  /** `token.isspace()`: non-empty and made of white space only. */
  predicate IsSpace(t: string) {
    |t| > 0 && forall i :: 0 <= i < |t| ==> IsSpaceChar(t[i])
  }

  /** One character of `str.lower`, as far as it can matter here: the ASCII
      capitals and the Kelvin sign, the only characters whose lower-case form
      is an ASCII letter. Every other character is kept. */
  function LowerChar(c: char): (r: char) {
    if 'A' <= c <= 'Z' then (c as int + 32) as char
    else if c == '\U{212A}' then 'k'
    else c
  }

  function Lower(t: string): (r: string) {
    seq(|t|, i requires 0 <= i < |t| => LowerChar(t[i]))
  }

  /** Whether `preprocess` passes the token on: every white-space token
      except the newline is dropped. */
  predicate Kept(t: string) {
    !(IsSpace(t) && t != "\n")
  }

  /** The token as `preprocess` passes it on: folded when it is a keyword in
      any case, unchanged otherwise. */
  function Normalize(t: string): (r: string) {
    if IsKeyword(Lower(t)) then Lower(t) else t
  }

  /** A token that `preprocess` would pass on as it is. */
  predicate Canonical(t: string) {
    Kept(t) && Normalize(t) == t
  }

  /** `AdaReader.preprocess` over a finite token stream, front to back. */
  function Preprocess(tokens: seq<string>): (r: seq<string>)
    ensures |r| <= |tokens|
    ensures forall i :: 0 <= i < |r| ==> Canonical(r[i])
    decreases |tokens|
  {
    if tokens == [] then []
    else
      var head := if Kept(tokens[0]) then [Normalize(tokens[0])] else [];
      NormalizeCanonical(tokens[0]);
      head + Preprocess(tokens[1..])
  }

  /** `AdaReader.get_comment_from_token`: a token is a comment when it begins
      with two dashes, and the comment is the whole token. */
  function CommentFromToken(t: string): (r: Option<string>)
    ensures r.Some? <==> |t| >= 2 && t[0] == '-' && t[1] == '-'
    ensures r.Some? ==> r.value == t
  {
    if "--" <= t then Some(t) else None
  }

  // ---------------------------------------------------------------------
  // Facts about case folding used by the lemmas below.

  /** A word of the letters a to z. */
  predicate LowerWord(k: string) {
    |k| > 0 && forall i :: 0 <= i < |k| ==> 'a' <= k[i] <= 'z'
  }

  lemma KeywordsAreLowerWordsAToC(k: string)
    requires k in KeywordsAToC
    ensures LowerWord(k)
  {
  }

  lemma KeywordsAreLowerWordsDToF(k: string)
    requires k in KeywordsDToF
    ensures LowerWord(k)
  {
  }

  lemma KeywordsAreLowerWordsGToO(k: string)
    requires k in KeywordsGToO
    ensures LowerWord(k)
  {
  }

  lemma KeywordsAreLowerWordsOToR(k: string)
    requires k in KeywordsOToR
    ensures LowerWord(k)
  {
  }

  lemma KeywordsAreLowerWordsRToT(k: string)
    requires k in KeywordsRToT
    ensures LowerWord(k)
  {
  }

  lemma KeywordsAreLowerWordsTToX(k: string)
    requires k in KeywordsTToX
    ensures LowerWord(k)
  {
  }

  /** Every keyword is spelled in the letters a to z. */
  lemma KeywordsAreLowerWords(k: string)
    requires IsKeyword(k)
    ensures LowerWord(k)
  {
    if k in KeywordsAToC {
      KeywordsAreLowerWordsAToC(k);
    } else if k in KeywordsDToF {
      KeywordsAreLowerWordsDToF(k);
    } else if k in KeywordsGToO {
      KeywordsAreLowerWordsGToO(k);
    } else if k in KeywordsOToR {
      KeywordsAreLowerWordsOToR(k);
    } else if k in KeywordsRToT {
      KeywordsAreLowerWordsRToT(k);
    } else {
      KeywordsAreLowerWordsTToX(k);
    }
  }

  lemma LowerIdempotent(t: string)
    ensures Lower(Lower(t)) == Lower(t)
  {
  }

  /** Folding leaves a word without capitals as it is. */
  lemma LowerUnchanged(w: string)
    requires forall i :: 0 <= i < |w| ==> !('A' <= w[i] <= 'Z') && w[i] != '\U{212A}'
    ensures Lower(w) == w
  {
  }

  lemma LowerOfKeyword(k: string)
    requires IsKeyword(k)
    ensures Lower(k) == k
  {
    KeywordsAreLowerWords(k);
    LowerUnchanged(k);
  }

  /** A normalized kept token is kept and is its own normal form. */
  lemma NormalizeCanonical(t: string)
    ensures Kept(t) ==> Canonical(Normalize(t))
  {
    LowerIdempotent(t);
    if IsKeyword(Lower(t)) {
      KeywordsAreLowerWords(Lower(t));
      assert !IsSpaceChar(Lower(t)[0]);
    }
  }

  // ---------------------------------------------------------------------
  // Properties of the preprocessor.

  /** A token is folded only when it is spelt with ASCII letters and the
      Kelvin sign alone, the characters on which `LowerChar` is Python's
      `str.lower`: the folded form is the one Python gives. */
  lemma FoldedTokenIsLetters(t: string)
    requires IsKeyword(Lower(t))
    ensures |t| > 0
    ensures forall i :: 0 <= i < |t| ==> 'a' <= t[i] <= 'z' || 'A' <= t[i] <= 'Z' || t[i] == '\U{212A}'
  {
    KeywordsAreLowerWords(Lower(t));
    forall i | 0 <= i < |t|
      ensures 'a' <= t[i] <= 'z' || 'A' <= t[i] <= 'Z' || t[i] == '\U{212A}'
    {
      assert 'a' <= Lower(t)[i] <= 'z';
    }
  }

  /** Only keywords are changed, a token comes out as a keyword exactly when
      it is a keyword in some mix of cases, and its spelling up to case is
      kept. */
  lemma NormalizeFoldsExactlyKeywords(t: string)
    ensures IsKeyword(Normalize(t)) <==> IsKeyword(Lower(t))
    ensures Normalize(t) != t ==> IsKeyword(Lower(t)) && Normalize(t) == Lower(t)
    ensures Lower(Normalize(t)) == Lower(t)
  {
    LowerIdempotent(t);
    if IsKeyword(Normalize(t)) && !IsKeyword(Lower(t)) {
      LowerOfKeyword(t);
    }
  }

  /** The preprocessor works token by token: it can be run on any split of
      the stream and the outputs concatenated. */
  lemma {:induction false} PreprocessAppend(a: seq<string>, b: seq<string>)
    ensures Preprocess(a + b) == Preprocess(a) + Preprocess(b)
    decreases |a|
  {
    if a == [] {
      assert a + b == b;
    } else {
      assert (a + b)[0] == a[0];
      assert (a + b)[1..] == a[1..] + b;
      PreprocessAppend(a[1..], b);
    }
  }

  /** A stream of canonical tokens goes through unchanged. */
  lemma {:induction false} PreprocessCanonicalStream(tokens: seq<string>)
    requires forall i :: 0 <= i < |tokens| ==> Canonical(tokens[i])
    ensures Preprocess(tokens) == tokens
    decreases |tokens|
  {
    if tokens != [] {
      PreprocessCanonicalStream(tokens[1..]);
    }
  }

  /** Applying the preprocessor twice is the same as applying it once. */
  lemma PreprocessIdempotent(tokens: seq<string>)
    ensures Preprocess(Preprocess(tokens)) == Preprocess(tokens)
  {
    PreprocessCanonicalStream(Preprocess(tokens));
  }

  /** The tokens the preprocessor keeps, in their order. */
  function KeptTokens(tokens: seq<string>): (r: seq<string>)
    decreases |tokens|
  {
    if tokens == [] then []
    else (if Kept(tokens[0]) then [tokens[0]] else []) + KeptTokens(tokens[1..])
  }

  /** Exactly the white-space tokens other than the newline are dropped:
      every other token occurs as often among the kept ones as in the input. */
  lemma {:induction false} KeptTokensCount(tokens: seq<string>, t: string)
    ensures multiset(KeptTokens(tokens))[t] == if Kept(t) then multiset(tokens)[t] else 0
    decreases |tokens|
  {
    if tokens != [] {
      KeptTokensCount(tokens[1..], t);
      assert tokens == [tokens[0]] + tokens[1..];
    }
  }

  /** The preprocessor is the keyword folding applied, in order, to the kept
      tokens. */
  lemma {:induction false} PreprocessIsFoldedKeptTokens(tokens: seq<string>)
    ensures |Preprocess(tokens)| == |KeptTokens(tokens)|
    ensures forall i :: 0 <= i < |Preprocess(tokens)| ==>
      Preprocess(tokens)[i] == Normalize(KeptTokens(tokens)[i])
    decreases |tokens|
  {
    if tokens != [] {
      var rest := tokens[1..];
      PreprocessIsFoldedKeptTokens(rest);
      if Kept(tokens[0]) {
        assert Preprocess(tokens) == [Normalize(tokens[0])] + Preprocess(rest);
        assert KeptTokens(tokens) == [tokens[0]] + KeptTokens(rest);
      } else {
        assert Preprocess(tokens) == Preprocess(rest);
        assert KeptTokens(tokens) == KeptTokens(rest);
      }
    }
  }

  /** Newline tokens survive, unchanged, for line counting. */
  lemma NewlinePassesThrough()
    ensures Preprocess(["\n"]) == ["\n"]
  {
    if IsKeyword("\n") {
      KeywordsAreLowerWords("\n");
    }
    assert Lower("\n") == "\n";
  }

  /** A comment token goes through the preprocessor unchanged. */
  lemma CommentPassesThrough(t: string)
    requires CommentFromToken(t).Some?
    ensures Preprocess([t]) == [t]
  {
    assert Lower(t)[0] == '-';
    if IsKeyword(Lower(t)) {
      KeywordsAreLowerWords(Lower(t));
    }
    assert !IsSpaceChar(t[0]);
    assert [t][1..] == [];
  }
}
