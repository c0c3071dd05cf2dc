/** Reading an SPF policy: which text is a policy, its blank-separated terms, and the terms that cost a lookup
    with the names they query. */
module SpfTerms {
  import opened Options
  import opened Labels

  datatype Mechanism = Include | Redirect | Other

  /** A term that costs a lookup; `query` is the normalized name after `include:` or `redirect=`, if any. */
  datatype Term = Term(mechanism: Mechanism, query: Option<string>)

  type Parser = string -> Option<Term>

  function Canonical(name: string): string {
    TrimDot(Lower(name))
  }

  function Target(mechanism: Mechanism, target: string): Term {
    Term(mechanism, if Canonical(target) == "" then None else Some(Canonical(target)))
  }

  const QUALIFIERS := "+-~?"
  const INCLUDE := "include:"
  const REDIRECT := "redirect="

  predicate Named(token: string, name: string) {
    token == name || HasPrefix(token, name + ":") || HasPrefix(token, name + "/")
  }

  /** The mechanisms that cost a lookup and open no policy. */
  predicate Plain(token: string) {
    || Named(token, "a") || Named(token, "mx")
    || token == "ptr" || HasPrefix(token, "ptr:")
    || HasPrefix(token, "exists:")
  }

  function Unqualified(text: string): string {
    if text != "" && text[0] in QUALIFIERS then text[1..] else text
  }

  function Reading(token: string): Option<Term> {
    if HasPrefix(token, INCLUDE) then Some(Target(Include, token[|INCLUDE|..]))
    else if HasPrefix(token, REDIRECT) then Some(Target(Redirect, token[|REDIRECT|..]))
    else if Plain(token) then Some(Term(Other, None))
    else None
  }

  function Token(raw: string): string {
    Unqualified(Lower(TrimSpace(raw)))
  }

  function LookupTerm(raw: string): Option<Term> {
    Reading(Token(raw))
  }

  const POLICY := "v=spf1"

  predicate IsPolicy(txt: string) {
    HasPrefix(Lower(TrimSpace(txt)), POLICY)
  }

  function FirstPolicy(txts: seq<string>): Option<string> {
    if txts == [] then None
    else if IsPolicy(txts[0]) then Some(txts[0])
    else FirstPolicy(txts[1..])
  }

  function Word(s: string): nat {
    if s == "" || Space(s[0]) then 0 else 1 + Word(s[1..])
  }

  /** The blank-separated words of a text. */
  function Fields(s: string): seq<string>
    decreases |s|
  {
    if s == "" then []
    else if Space(s[0]) then Fields(s[1..])
    else
      WordBounds(s);
      [s[..Word(s)]] + Fields(s[Word(s)..])
  }

  lemma {:induction false} WordBounds(s: string)
    ensures Word(s) <= |s| && (s != "" && !Space(s[0]) ==> Word(s) > 0)
    ensures forall i | 0 <= i < Word(s) :: !Space(s[i])
    ensures Word(s) < |s| ==> Space(s[Word(s)])
  {
    if s != "" && !Space(s[0]) {
      WordBounds(s[1..]);
    }
  }

  // ---------------------------------------------------------------- terms by their spelling

  /** `text` with one of the qualifiers, or none, in front. */
  predicate Qualified(lowered: string, text: string) {
    lowered == text || (lowered != "" && lowered[0] in QUALIFIERS && lowered[1..] == text)
  }

  /** `raw` spells `text`: with or without a qualifier, in any letter case. */
  predicate Spells(raw: string, text: string) {
    Qualified(Lower(TrimSpace(raw)), text)
  }

  /** The name a term with this target asks for. */
  function Asks(target: string): Option<string> {
    if TrimDot(target) == "" then None else Some(TrimDot(target))
  }

  lemma UnqualifiedIs(lowered: string, text: string)
    requires text != "" && text[0] !in QUALIFIERS
    ensures Unqualified(lowered) == text <==> Qualified(lowered, text)
  {
  }

  lemma LowerTwice(raw: string, lowered: string, target: string, i: nat)
    requires lowered == Lower(raw) && i <= |lowered| && target == lowered[i..]
    ensures Lower(target) == target
  {
    forall j | 0 <= j < |target| ensures LowerChar(target[j]) == target[j] {
      assert target[j] == LowerChar(raw[i + j]);
    }
  }

  /** What the reader tries a token against starts with a letter that tells it apart. */
  lemma Starts(token: string)
    ensures HasPrefix(token, INCLUDE) ==> token[0] == 'i'
    ensures HasPrefix(token, REDIRECT) ==> token[0] == 'r'
    ensures Plain(token) ==> token != "" && token[0] in "ampe"
  {
  }

  lemma Parts(token: string, word: string, rest: string)
    ensures token == word + rest <==> HasPrefix(token, word) && rest == token[|word|..]
  {
  }

  /** The target of a term that opens a policy, after either keyword. */
  lemma LinkReads(raw: string, word: string, target: string)
    requires word != "" && word[0] !in QUALIFIERS
    ensures Spells(raw, word + target) <==>
            var token := Token(raw); HasPrefix(token, word) && target == token[|word|..]
    ensures Spells(raw, word + target) ==> Lower(target) == target
  {
    var lowered := Lower(TrimSpace(raw));
    var token := Unqualified(lowered);
    UnqualifiedIs(lowered, word + target);
    Parts(token, word, target);
    if token == word + target {
      LowerTwice(TrimSpace(raw), lowered, target, |lowered| - |target|);
    }
  }

  /** A term reads as an include exactly when it spells `include:` with a target, and it asks for that target in
      lower case without its final dot. */
  lemma IncludeReads(raw: string, query: Option<string>)
    ensures LookupTerm(raw) == Some(Term(Include, query)) <==>
            exists target :: Spells(raw, INCLUDE + target) && query == Asks(target)
  {
    var token := Token(raw);
    if HasPrefix(token, INCLUDE) {
      LinkReads(raw, INCLUDE, token[|INCLUDE|..]);
    }
    if target :| Spells(raw, INCLUDE + target) {
      LinkReads(raw, INCLUDE, target);
    }
  }

  /** The same of `redirect=`. */
  lemma RedirectReads(raw: string, query: Option<string>)
    ensures LookupTerm(raw) == Some(Term(Redirect, query)) <==>
            exists target :: Spells(raw, REDIRECT + target) && query == Asks(target)
  {
    var token := Token(raw);
    Starts(token);
    if HasPrefix(token, REDIRECT) {
      LinkReads(raw, REDIRECT, token[|REDIRECT|..]);
    }
    if target :| Spells(raw, REDIRECT + target) {
      LinkReads(raw, REDIRECT, target);
    }
  }

  /** A mechanism that costs a lookup without opening a policy, and what may follow it. */
  predicate Follows(name: string, tail: string) {
    || ((name == "a" || name == "mx") && (tail == "" || tail[0] in ":/"))
    || (name == "ptr" && (tail == "" || tail[0] == ':'))
    || (name == "exists" && tail != "" && tail[0] == ':')
  }

  lemma NamedIs(token: string, name: string)
    ensures Named(token, name) <==> HasPrefix(token, name) && (token == name || token[|name|] in ":/")
  {
  }

  lemma NamedHas(token: string, name: string) returns (tail: string)
    requires Named(token, name)
    ensures token == name + tail && (tail == "" || tail[0] in ":/")
  {
    NamedIs(token, name);
    tail := token[|name|..];
  }

  lemma PlainHas(token: string) returns (name: string, tail: string)
    requires Plain(token)
    ensures token == name + tail && Follows(name, tail)
  {
    if Named(token, "a") {
      name := "a";
      tail := NamedHas(token, name);
    } else if Named(token, "mx") {
      name := "mx";
      tail := NamedHas(token, name);
    } else if token == "ptr" || HasPrefix(token, "ptr:") {
      name, tail := "ptr", token[3..];
    } else {
      name, tail := "exists", token[6..];
    }
  }

  lemma FollowsIsPlain(name: string, tail: string)
    requires Follows(name, tail)
    ensures Plain(name + tail)
  {
    if tail != "" {
      assert tail == [tail[0]] + tail[1..];
      assert name + tail == name + [tail[0]] + tail[1..];
    } else {
      assert name + tail == name;
    }
  }

  lemma ReadsPlain(token: string, query: Option<string>)
    ensures Reading(token) == Some(Term(Other, query)) <==> query == None && Plain(token)
  {
    Starts(token);
  }

  lemma PlainSpells(raw: string) returns (name: string, tail: string)
    requires Plain(Token(raw))
    ensures Follows(name, tail) && Spells(raw, name + tail)
  {
    name, tail := PlainHas(Token(raw));
    Starts(Token(raw));
    UnqualifiedIs(Lower(TrimSpace(raw)), Token(raw));
  }

  lemma SpelledIsPlain(raw: string, name: string, tail: string)
    requires Follows(name, tail) && Spells(raw, name + tail)
    ensures Plain(Token(raw))
  {
    FollowsIsPlain(name, tail);
    Starts(name + tail);
    UnqualifiedIs(Lower(TrimSpace(raw)), name + tail);
  }

  /** A term reads as a lookup that opens no policy exactly when it spells `a`, `mx` or `ptr`, alone or with what
      may follow them, or `exists:`; it never carries a query. */
  lemma PlainReads(raw: string, query: Option<string>)
    ensures LookupTerm(raw) == Some(Term(Other, query)) <==>
            query == None && exists name, tail :: Follows(name, tail) && Spells(raw, name + tail)
  {
    ReadsPlain(Token(raw), query);
    if Plain(Token(raw)) {
      var name, tail := PlainSpells(raw);
    } else if name, tail :| Follows(name, tail) && Spells(raw, name + tail) {
      SpelledIsPlain(raw, name, tail);
    }
  }

  /** Every other term costs nothing. */
  lemma NothingElseReads(raw: string)
    ensures LookupTerm(raw) == None <==>
              && (forall target :: !Spells(raw, INCLUDE + target) && !Spells(raw, REDIRECT + target))
              && (forall name, tail :: Follows(name, tail) ==> !Spells(raw, name + tail))
  {
    match LookupTerm(raw)
    case Some(Term(Include, query)) => IncludeReads(raw, query);
    case Some(Term(Redirect, query)) => RedirectReads(raw, query);
    case Some(Term(Other, query)) => PlainReads(raw, query);
    case None =>
      forall target ensures !Spells(raw, INCLUDE + target) && !Spells(raw, REDIRECT + target) {
        IncludeReads(raw, Asks(target));
        RedirectReads(raw, Asks(target));
      }
      PlainReads(raw, None);
  }

  lemma LowerConcat(a: string, b: string)
    ensures Lower(a + b) == Lower(a) + Lower(b)
  {
  }

  /** A written term is read back: for every qualifier, every letter case of the keyword and every target. */
  lemma WrittenReads(qualifier: string, keyword: string, target: string)
    requires qualifier == "" || (|qualifier| == 1 && qualifier[0] in QUALIFIERS)
    requires TrimSpace(qualifier + keyword + target) == qualifier + keyword + target
    ensures var raw := qualifier + keyword + target;
            && (Lower(keyword) == INCLUDE ==> LookupTerm(raw) == Some(Term(Include, Asks(Lower(target)))))
            && (Lower(keyword) == REDIRECT ==> LookupTerm(raw) == Some(Term(Redirect, Asks(Lower(target)))))
  {
    var raw := qualifier + keyword + target;
    var text := Lower(keyword) + Lower(target);
    LowerConcat(qualifier + keyword, target);
    LowerConcat(qualifier, keyword);
    assert Lower(raw) == Lower(qualifier) + text;
    assert Lower(qualifier) == qualifier;
    assert Spells(raw, text);
    IncludeReads(raw, Asks(Lower(target)));
    RedirectReads(raw, Asks(Lower(target)));
  }

  // ---------------------------------------------------------------- texts

  lemma {:induction false} TrimLeftIs(s: string)
    ensures TrimLeft(s) == "" || !Space(TrimLeft(s)[0])
    ensures Fields(TrimLeft(s)) == Fields(s)
  {
    if s != "" && Space(s[0]) {
      TrimLeftIs(s[1..]);
    }
  }

  lemma {:induction false} TrimRightIs(s: string)
    ensures TrimRight(s) <= s && Word(s) <= |TrimRight(s)|
    decreases |s|
  {
    WordBounds(s);
    if s != "" && Space(s[|s| - 1]) {
      var init := s[..|s| - 1];
      TrimRightIs(init);
      WordOfFront(s);
    }
  }

  lemma {:induction false} WordOfFront(s: string)
    requires s != "" && Space(s[|s| - 1])
    ensures Word(s[..|s| - 1]) == Word(s)
  {
    if |s| > 1 && !Space(s[0]) {
      WordOfFront(s[1..]);
      assert s[1..][..|s| - 2] == s[..|s| - 1][1..];
    }
  }

  /** A mark free of blanks opens the trimmed text exactly when it opens its first word. */
  lemma MarkedWord(text: string, trimmed: string, n: nat, mark: string)
    requires trimmed <= text && n <= |trimmed| && forall c | c in mark :: !Space(c)
    requires forall i | 0 <= i < n :: !Space(text[i])
    requires n < |text| ==> Space(text[n])
    ensures HasPrefix(Lower(trimmed), mark) <==> HasPrefix(Lower(text[..n]), mark)
  {
    if HasPrefix(Lower(trimmed), mark) {
      forall i | 0 <= i < |mark| ensures !Space(trimmed[i]) {
        assert mark[i] in mark && Lower(trimmed)[i] == mark[i];
      }
    }
  }

  /** A text is a policy exactly when its first word starts with `v=spf1`, in any letter case. */
  lemma PolicyReads(txt: string)
    ensures IsPolicy(txt) <==> Fields(txt) != [] && exists rest :: Lower(Fields(txt)[0]) == POLICY + rest
  {
    var text := TrimLeft(txt);
    TrimLeftIs(txt);
    TrimRightIs(text);
    WordBounds(text);
    MarkedWord(text, TrimRight(text), Word(text), POLICY);
    if text != "" {
      assert Fields(txt)[0] == text[..Word(text)];
      PrefixHas(Lower(Fields(txt)[0]), POLICY);
    }
  }

  lemma PrefixHas(s: string, prefix: string)
    ensures HasPrefix(s, prefix) <==> exists rest :: s == prefix + rest
  {
    if HasPrefix(s, prefix) {
      assert s == prefix + s[|prefix|..];
    }
  }

  /** The policy among the texts of a name is the first that is one. */
  lemma {:induction false} FirstPolicyIs(txts: seq<string>, text: string)
    ensures FirstPolicy(txts) == Some(text) <==>
            exists i | 0 <= i < |txts| :: txts[i] == text && IsPolicy(txts[i]) && forall j | 0 <= j < i :: !IsPolicy(txts[j])
    ensures FirstPolicy(txts) == None <==> forall i | 0 <= i < |txts| :: !IsPolicy(txts[i])
  {
    if txts != [] && !IsPolicy(txts[0]) {
      FirstPolicyIs(txts[1..], text);
      if i :| 0 <= i < |txts[1..]| && txts[1..][i] == text && IsPolicy(txts[1..][i]) && forall j | 0 <= j < i :: !IsPolicy(txts[1..][j]) {
        assert txts[i + 1] == text && forall j | 0 <= j < i + 1 :: !IsPolicy(txts[j]);
      }
      if i :| 0 <= i < |txts| && txts[i] == text && IsPolicy(txts[i]) && forall j | 0 <= j < i :: !IsPolicy(txts[j]) {
        assert txts[1..][i - 1] == text && forall j | 0 <= j < i - 1 :: txts[1..][j] == txts[j + 1];
      }
    }
  }

  predicate IsWord(word: string) {
    word != "" && forall c | c in word :: !Space(c)
  }

  lemma {:induction false} WordBefore(word: string, rest: string)
    requires (forall c | c in word :: !Space(c)) && (rest == "" || Space(rest[0]))
    ensures Word(word + rest) == |word|
  {
    if word != "" {
      assert (word + rest)[1..] == word[1..] + rest;
      assert word[0] in word;
      WordBefore(word[1..], rest);
    }
  }

  /** The terms of a written record are the words it was written from. */
  lemma {:induction false} FieldsOfJoined(words: seq<string>)
    requires forall i | 0 <= i < |words| :: IsWord(words[i])
    ensures Fields(Join(words, ' ')) == words
  {
    if words != [] {
      var word, more := words[0], words[1..];
      var rest := if more == [] then "" else [' '] + Join(more, ' ');
      assert Join(words, ' ') == word + rest;
      assert word[0] in word;
      WordBefore(word, rest);
      assert (word + rest)[|word|..] == rest && (word + rest)[..|word|] == word;
      FieldsOfJoined(more);
      if more != [] {
        assert rest[1..] == Join(more, ' ');
      }
      assert words == [word] + more;
    }
  }
}
