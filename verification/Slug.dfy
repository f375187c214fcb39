/** `uniqueTenantSlug`: the base made from a name, and the search for a free candidate. */
module Slug {

  const MAX_BASE := 32
  const FALLBACK := "tenant"

  predicate Plain(c: char) {
    'a' <= c <= 'z' || '0' <= c <= '9'
  }

  function Lower(s: string): (r: string)
    ensures |r| == |s|
  {
    seq(|s|, i requires 0 <= i < |s| => if 'A' <= s[i] <= 'Z' then s[i] - 'A' + 'a' else s[i])
  }

  predicate Blank(c: char) {
    c == ' ' || c == '\t' || c == '\n' || c == '\r'
  }

  function Trim(s: string): string {
    if s != "" && Blank(s[0]) then Trim(s[1..])
    else if s != "" && Blank(s[|s| - 1]) then Trim(s[..|s| - 1])
    else s
  }

  /** The length of the longest prefix whose characters are all plain, or all not plain. */
  function RunLength(s: string, plain: bool): (n: nat)
    ensures n <= |s|
    ensures forall i | 0 <= i < n :: Plain(s[i]) == plain
    ensures n < |s| ==> Plain(s[n]) != plain
  {
    if s == "" || Plain(s[0]) != plain then 0 else 1 + RunLength(s[1..], plain)
  }

  /** Each maximal run of other characters becomes one hyphen. */
  function Dashed(s: string): string
    decreases |s|
  {
    if s == "" then ""
    else if Plain(s[0]) then s[..RunLength(s, true)] + Dashed(s[RunLength(s, true)..])
    else "-" + Dashed(s[RunLength(s, false)..])
  }

  function StripLeft(s: string): string {
    if s != "" && s[0] == '-' then StripLeft(s[1..]) else s
  }

  function StripRight(s: string): string {
    if s != "" && s[|s| - 1] == '-' then StripRight(s[..|s| - 1]) else s
  }

  /** The name in slug form, before it is cut. */
  function Stripped(source: string): string {
    StripRight(StripLeft(Dashed(Trim(Lower(source)))))
  }

  function Base(source: string): string {
    var s := Stripped(source);
    var cut := if |s| > MAX_BASE then s[..MAX_BASE] else s;
    if cut == "" then FALLBACK else cut
  }

  // ---- The words of a name -----------------------------------------------------------------

  /** The maximal runs of plain characters, in order. */
  function Words(s: string): seq<string>
    decreases |s|
  {
    if s == "" then []
    else if Plain(s[0]) then [s[..RunLength(s, true)]] + Words(s[RunLength(s, true)..])
    else Words(s[1..])
  }

  function Join(words: seq<string>): string {
    if words == [] then "" else if |words| == 1 then words[0] else words[0] + "-" + Join(words[1..])
  }

  lemma {:induction false} SkipJunk(s: string)
    ensures Words(s) == Words(s[RunLength(s, false)..])
    decreases |s|
  {
    if s != "" && !Plain(s[0]) {
      SkipJunk(s[1..]);
      assert s[1..][RunLength(s[1..], false)..] == s[RunLength(s, false)..];
    }
  }

  /** From a plain character on, replacing runs is joining words, up to one hyphen at the end. */
  lemma {:induction false} DashedWords(s: string)
    requires s != "" && Plain(s[0])
    ensures Words(s) != [] && (Dashed(s) == Join(Words(s)) || Dashed(s) == Join(Words(s)) + "-")
    decreases |s|
  {
    var n := RunLength(s, true);
    var word, rest := s[..n], s[n..];
    assert Words(s) == [word] + Words(rest) && Dashed(s) == word + Dashed(rest);
    JoinCons(word, Words(rest));
    if rest != "" {
      var next := rest[RunLength(rest, false)..];
      SkipJunk(rest);
      assert Dashed(rest) == "-" + Dashed(next);
      if next != "" {
        DashedWords(next);
        hide Join, Words, Dashed, RunLength;
        Bracket(word, Join(Words(next)), Dashed(next));
      } else {
        assert Dashed(next) == "" && Words(next) == [];
        hide Join, Words, Dashed, RunLength;
      }
    }
  }

  lemma Bracket(word: string, joined: string, dashed: string)
    requires dashed == joined || dashed == joined + "-"
    ensures word + ("-" + dashed) == word + "-" + joined || word + ("-" + dashed) == word + "-" + joined + "-"
  {
  }

  lemma {:induction false} JoinCons(word: string, words: seq<string>)
    ensures Join([word] + words) == if words == [] then word else word + "-" + Join(words)
  {
    assert ([word] + words)[1..] == words;
  }

  ghost predicate AllPlain(words: seq<string>) {
    forall i | 0 <= i < |words| :: words[i] != "" && forall c | c in words[i] :: Plain(c)
  }

  lemma {:induction false} WordsPlain(s: string)
    ensures AllPlain(Words(s))
    decreases |s|
  {
    if s != "" {
      if Plain(s[0]) {
        WordsPlain(s[RunLength(s, true)..]);
      } else {
        WordsPlain(s[1..]);
      }
    }
  }

  /** Letters and digits, single hyphens between them, and none at either end. */
  ghost predicate Hyphenated(s: string) {
    && (forall i | 0 <= i < |s| :: Plain(s[i]) || s[i] == '-')
    && (forall i | 0 <= i < |s| - 1 :: Plain(s[i]) || Plain(s[i + 1]))
    && (s != "" ==> Plain(s[0]) && Plain(s[|s| - 1]))
  }

  lemma {:induction false} JoinShape(words: seq<string>)
    requires AllPlain(words)
    ensures Hyphenated(Join(words)) && (words != [] ==> Join(words) != "")
  {
    if words != [] {
      assert words[0] != "";
      JoinShape(words[1..]);
    }
  }

  lemma {:induction false} StripKeeps(s: string)
    requires Hyphenated(s)
    ensures StripLeft(s) == s && StripRight(s) == s
    ensures StripRight(s + "-") == s && StripLeft("-" + s) == s
    ensures s != "" ==> StripLeft(s + "-") == s + "-"
  {
    assert (s + "-")[..|s|] == s;
    assert ("-" + s)[1..] == s;
  }

  lemma {:induction false} TrimWords(s: string)
    ensures Words(Trim(s)) == Words(s)
    decreases |s|
  {
    if s != "" && Blank(s[0]) {
      TrimWords(s[1..]);
    } else if s != "" && Blank(s[|s| - 1]) {
      TrimWords(s[..|s| - 1]);
      LastJunk(s);
    }
  }

  lemma {:induction false} LastJunk(s: string)
    requires s != "" && !Plain(s[|s| - 1])
    ensures Words(s[..|s| - 1]) == Words(s)
    decreases |s|
  {
    var s' := s[..|s| - 1];
    if |s| > 1 && Plain(s[0]) {
      var n := RunLength(s, true);
      assert RunLength(s', true) == n by {
        SameRun(s, s');
      }
      LastJunk(s[n..]);
      assert s[n..][..|s| - n - 1] == s'[n..];
      assert s'[..n] == s[..n];
    } else if |s| > 1 {
      LastJunk(s[1..]);
      assert s[1..][..|s| - 2] == s'[1..];
    }
  }

  lemma {:induction false} SameRun(s: string, s': string)
    requires s != "" && s' == s[..|s| - 1] && !Plain(s[|s| - 1])
    ensures RunLength(s', true) == RunLength(s, true)
  {
    var n, n' := RunLength(s, true), RunLength(s', true);
    assert n < |s|;
    assert n' < |s'| ==> !Plain(s[n']);
  }

  /** The slug form of a name is its words, in lower case, joined by hyphens. */
  lemma StrippedIsJoin(source: string)
    ensures Stripped(source) == Join(Words(Lower(source)))
    ensures Hyphenated(Stripped(source))
  {
    var s := Trim(Lower(source));
    TrimWords(Lower(source));
    DashedStrips(s);
    WordsPlain(s);
    JoinShape(Words(s));
    hide Trim, Dashed, Words, Join, Hyphenated, StripLeft, StripRight;
  }

  lemma {:induction false} DashedStrips(s: string)
    ensures StripRight(StripLeft(Dashed(s))) == Join(Words(s))
  {
    if s == "" {
      assert Dashed(s) == "" && Words(s) == [];
    } else if Plain(s[0]) {
      PlainStrips(s);
    } else {
      JunkStrips(s);
    }
  }

  lemma {:induction false} PlainStrips(s: string)
    requires s != "" && Plain(s[0])
    ensures StripRight(StripLeft(Dashed(s))) == Join(Words(s))
  {
    DashedWords(s);
    WordsPlain(s);
    JoinShape(Words(s));
    StripKeeps(Join(Words(s)));
    hide Dashed, Words, Join, StripLeft, StripRight, Hyphenated;
  }

  lemma {:induction false} JunkStrips(s: string)
    requires s != "" && !Plain(s[0])
    ensures StripRight(StripLeft(Dashed(s))) == Join(Words(s))
  {
    var rest := s[RunLength(s, false)..];
    SkipJunk(s);
    assert Dashed(s) == "-" + Dashed(rest);
    StripOne(Dashed(rest));
    if rest == "" {
      assert Dashed(rest) == "" && Words(rest) == [];
      hide Dashed, Words, RunLength;
    } else {
      hide Dashed, Words, RunLength, Join, StripLeft, StripRight;
      PlainStrips(rest);
    }
  }

  lemma {:induction false} StripOne(s: string)
    ensures StripLeft("-" + s) == StripLeft(s)
  {
    assert ("-" + s)[1..] == s;
  }

  /** A base has one to thirty-two slug characters, starts with none of the hyphens and doubles none. */
  lemma BaseShape(source: string)
    ensures var b := Base(source);
            && 1 <= |b| <= MAX_BASE
            && (forall i | 0 <= i < |b| :: Plain(b[i]) || b[i] == '-')
            && Plain(b[0])
            && (forall i | 0 <= i < |b| - 1 :: Plain(b[i]) || Plain(b[i + 1]))
  {
    hide Stripped, Words, Join;
    StrippedIsJoin(source);
  }

  /** The cut comes after the hyphens are stripped, so a base ends with a hyphen exactly when the
      thirty-second character of a longer slug form is one. */
  lemma EndsWithHyphenIff(source: string)
    ensures Base(source) != "" && (Base(source)[|Base(source)| - 1] == '-' <==>
              |Stripped(source)| > MAX_BASE && Stripped(source)[MAX_BASE - 1] == '-')
  {
    StrippedIsJoin(source);
  }

  // ---- Letters in either case, and names without any ------------------------------------------------

  /** The same letter, once as a capital. */
  predicate Folds(a: char, b: char) {
    'A' <= a <= 'Z' && b as int == a as int + 32
  }

  predicate SameButCase(s: string, t: string) {
    |s| == |t| && forall i | 0 <= i < |s| :: s[i] == t[i] || Folds(s[i], t[i]) || Folds(t[i], s[i])
  }

  /** Names that differ in the case of letters alone have the same slug form. */
  lemma CaseDoesNotMatter(s: string, t: string)
    requires SameButCase(s, t)
    ensures Stripped(s) == Stripped(t) && Base(s) == Base(t)
  {
    forall i | 0 <= i < |s| ensures Lower(s)[i] == Lower(t)[i] {
    }
    assert Lower(s) == Lower(t);
  }

  predicate Alphanumeric(c: char) {
    'a' <= c <= 'z' || 'A' <= c <= 'Z' || '0' <= c <= '9'
  }

  lemma {:induction false} NoWordsIff(s: string)
    ensures Words(s) == [] <==> forall i | 0 <= i < |s| :: !Plain(s[i])
    decreases |s|
  {
    if s != "" && !Plain(s[0]) {
      NoWordsIff(s[1..]);
      assert forall i | 0 < i < |s| :: s[i] == s[1..][i - 1];
    }
  }

  /** A base is the first thirty-two characters of the slug form, or the fallback for a name without a
      letter or a digit. */
  lemma {:induction false} BaseMeaning(source: string)
    ensures (forall i | 0 <= i < |source| :: !Alphanumeric(source[i])) ==> Base(source) == "tenant"
    ensures (exists i :: 0 <= i < |source| && Alphanumeric(source[i])) ==>
              var form := Join(Words(Lower(source)));
              form != "" && Base(source) == if |form| <= 32 then form else form[..32]
  {
    StrippedIsJoin(source);
    NoWordsIff(Lower(source));
    assert forall i | 0 <= i < |source| :: Plain(Lower(source)[i]) <==> Alphanumeric(source[i]);
    JoinEmptyIff(Lower(source));
    hide Words, Join, Stripped, Plain, Lower;
  }

  lemma {:induction false} JoinEmptyIff(s: string)
    ensures Join(Words(s)) == "" <==> Words(s) == []
  {
    WordsPlain(s);
    hide Words;
  }

  // ---- Candidates ---------------------------------------------------------------------------

  function Digit(n: nat): char
    requires n < 10
  {
    '0' + n as char
  }

  function Decimal(n: nat): (s: string)
    ensures s != ""
  {
    if n < 10 then [Digit(n)] else Decimal(n / 10) + [Digit(n % 10)]
  }

  function ValueOf(s: string): int {
    if s == "" then 0 else 10 * ValueOf(s[..|s| - 1]) + (s[|s| - 1] as int - '0' as int)
  }

  lemma {:induction false} DecimalRoundTrip(n: nat)
    ensures ValueOf(Decimal(n)) == n
    ensures forall c | c in Decimal(n) :: Plain(c)
  {
    if n >= 10 {
      DecimalRoundTrip(n / 10);
      assert Decimal(n)[..|Decimal(n)| - 1] == Decimal(n / 10);
    } else {
      assert Decimal(n)[..0] == "";
    }
  }

  /** The base itself, then the base with -2, -3 and so on. */
  function Candidate(base: string, k: nat): string
    requires k >= 1
  {
    if k == 1 then base else base + "-" + Decimal(k)
  }

  lemma CandidatesDiffer(base: string, j: nat, k: nat)
    requires 1 <= j < k
    ensures Candidate(base, j) != Candidate(base, k)
  {
    var tail := |base| + 1;
    assert Candidate(base, k)[tail..] == Decimal(k);
    if j > 1 {
      assert Candidate(base, j)[tail..] == Decimal(j);
    }
    DecimalRoundTrip(j);
    DecimalRoundTrip(k);
  }

  /** The candidates that were taken are different slugs, so there are no more of them than slugs. */
  lemma {:induction false} NoMoreThanTaken(base: string, taken: set<string>, k: nat)
    requires forall j | 1 <= j <= k :: Candidate(base, j) in taken
    ensures k <= |taken|
    decreases k
  {
    if k >= 1 {
      var last := Candidate(base, k);
      forall j | 1 <= j < k ensures Candidate(base, j) in taken - {last} {
        CandidatesDiffer(base, j, k);
      }
      NoMoreThanTaken(base, taken - {last}, k - 1);
    }
  }

  /** The first free candidate; `n` is its number. The search ends within one try more than there are slugs. */
  method UniqueTenantSlug(taken: set<string>, source: string) returns (candidate: string, n: nat)
    ensures n >= 1 && candidate == Candidate(Base(source), n)
    ensures candidate !in taken
    ensures forall j | 1 <= j < n :: Candidate(Base(source), j) in taken
    ensures n <= |taken| + 1
  {
    var base := Base(source);
    candidate := base;
    n := 1;
    NoMoreThanTaken(base, taken, 0);
    while candidate in taken
      invariant n >= 1 && candidate == Candidate(base, n)
      invariant forall j | 1 <= j < n :: Candidate(base, j) in taken
      invariant n <= |taken| + 1
      decreases |taken| + 1 - n
    {
      NoMoreThanTaken(base, taken, n);
      n := n + 1;
      candidate := base + "-" + Decimal(n);
    }
  }

  /** A numbered candidate doubles a hyphen exactly when its base was cut behind one. */
  lemma DoubledIff(source: string, k: nat)
    requires k >= 1
    ensures Doubles(Candidate(Base(source), k)) <==>
              k > 1 && |Stripped(source)| > MAX_BASE && Stripped(source)[MAX_BASE - 1] == '-'
  {
    hide Base, Stripped, Decimal, Doubles;
    BaseShape(source);
    EndsWithHyphenIff(source);
    DecimalRoundTrip(k);
    SingleHyphens(Base(source));
    if k > 1 {
      NumberedDoubles(Base(source), Decimal(k));
    }
  }

  /** Two characters in a row that are neither letters nor digits. */
  ghost predicate Doubles(s: string) {
    exists i :: 0 <= i < |s| - 1 && !Plain(s[i]) && !Plain(s[i + 1])
  }

  lemma SingleHyphens(b: string)
    requires forall i | 0 <= i < |b| - 1 :: Plain(b[i]) || Plain(b[i + 1])
    ensures !Doubles(b)
  {
  }

  lemma NumberedDoubles(b: string, digits: string)
    requires b != "" && !Doubles(b) && (Plain(b[|b| - 1]) || b[|b| - 1] == '-') && forall c | c in digits :: Plain(c)
    ensures Doubles(b + "-" + digits) <==> b[|b| - 1] == '-'
  {
    var c := b + "-" + digits;
    assert c[|b| - 1] == b[|b| - 1] && c[|b|] == '-';
    assert forall i | 0 <= i < |b| :: c[i] == b[i];
    assert forall i | |b| < i < |c| :: c[i] == digits[i - |b| - 1];
  }

  // ---- A name that is cut behind a hyphen -----------------------------------------------------------

  lemma PlainIsLower(s: string)
    requires forall c | c in s :: Plain(c) || c == ' '
    ensures Lower(s) == s
  {
    forall i | 0 <= i < |s| ensures Lower(s)[i] == s[i] {
      assert s[i] in s;
    }
  }

  lemma {:induction false} TwoWords(w: string, v: string)
    requires w != "" && v != "" && (forall c | c in w :: Plain(c)) && (forall c | c in v :: Plain(c))
    ensures Words(w + " " + v) == [w, v] && Join([w, v]) == w + "-" + v
  {
    var s := w + " " + v;
    FirstWord(w, " " + v);
    assert s == w + (" " + v) && s != "" && Plain(s[0]);
    OneWord(v);
    assert (" " + v)[1..] == v && Words(" " + v) == Words(v);
    hide RunLength;
    assert [w] + [v] == [w, v] && [w, v][1..] == [v];
  }

  lemma {:induction false} FirstWord(w: string, rest: string)
    requires w != "" && (forall c | c in w :: Plain(c)) && (rest == "" || !Plain(rest[0]))
    ensures Words(w + rest) == [w] + Words(rest)
  {
    var s := w + rest;
    assert forall i | 0 <= i < |w| :: s[i] == w[i] && w[i] in w;
    assert rest != "" ==> s[|w|] == rest[0];
    assert RunLength(s, true) == |w|;
    assert s[..|w|] == w && s[|w|..] == rest;
    assert s[0] in w;
  }

  lemma {:induction false} OneWord(v: string)
    requires v != "" && forall c | c in v :: Plain(c)
    ensures Words(v) == [v]
  {
    FirstWord(v, "");
    assert v + "" == v && Words("") == [];
  }

  /** A word of thirty-one letters before another leaves a base that ends with a hyphen, and the second
      candidate doubles it. */
  lemma CutBehindHyphen(w: string, v: string)
    requires |w| == MAX_BASE - 1 && v != "" && (forall c | c in w :: Plain(c)) && (forall c | c in v :: Plain(c))
    ensures Base(w + " " + v) == w + "-"
    ensures Candidate(Base(w + " " + v), 2) == w + "--2"
  {
    hide Stripped, Words, Join, Lower;
    StrippedIsJoin(w + " " + v);
    PlainIsLower(w + " " + v);
    TwoWords(w, v);
    assert (w + "-" + v)[..MAX_BASE] == w + "-";
    assert Decimal(2) == "2";
  }

  /** For instance this name. */
  lemma CutName() returns (source: string)
    ensures |source| == 33 && Base(source) == "aaaaaaaaaaaaaaaaaaaaaaaaaaaaaaa-"
    ensures Candidate(Base(source), 2) == "aaaaaaaaaaaaaaaaaaaaaaaaaaaaaaa--2"
  {
    source := "aaaaaaaaaaaaaaaaaaaaaaaaaaaaaaa" + " " + "b";
    CutBehindHyphen("aaaaaaaaaaaaaaaaaaaaaaaaaaaaaaa", "b");
    hide Base, Candidate;
  }
}
