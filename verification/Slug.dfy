/**
 Names for game servers made from display names: labels in the sense of section 2.3.1 of RFC 1035, and
 unique ones by numbering.

 A display name is taken in lower case and decomposed (NFD); `mark` tells which of its characters are
 combining marks.
 */
module Slug {
  import opened Sets

  const MAX_SLUG_LEN := 50

  predicate Letter(c: char) {
    'a' <= c <= 'z'
  }

  predicate LetterOrDigit(c: char) {
    'a' <= c <= 'z' || '0' <= c <= '9'
  }

  predicate NoDoubleDash(s: string) {
    forall i :: 0 <= i < |s| - 1 ==> s[i] != '-' || s[i + 1] != '-'
  }

  predicate OnlyLabelCharacters(s: string) {
    forall i :: 0 <= i < |s| ==> LetterOrDigit(s[i]) || s[i] == '-'
  }

  // A label of at most n characters, and without two dashes in a row.
  predicate IsLabel(s: string, n: nat) {
    && 1 <= |s| <= n && Letter(s[0]) && LetterOrDigit(s[|s| - 1])
    && OnlyLabelCharacters(s) && NoDoubleDash(s)
  }

  // ---- slugify ---------------------------------------------------------------------------------

  // Marks are dropped, and every run of other characters that do not belong in a label becomes one dash.
  function Collapse(name: string, mark: char -> bool, lastDash: bool): string {
    if name == [] then []
    else if mark(name[0]) then Collapse(name[1..], mark, lastDash)
    else if LetterOrDigit(name[0]) then [name[0]] + Collapse(name[1..], mark, false)
    else if lastDash then Collapse(name[1..], mark, true)
    else ['-'] + Collapse(name[1..], mark, true)
  }

  function TrimRight(s: string): string {
    if s != [] && s[|s| - 1] == '-' then TrimRight(s[..|s| - 1]) else s
  }

  function TrimLeft(s: string): string {
    if s != [] && s[0] == '-' then TrimLeft(s[1..]) else s
  }

  function Cut(s: string): string {
    if |s| > MAX_SLUG_LEN then TrimRight(s[..MAX_SLUG_LEN]) else s
  }

  const SERVER: string := "server"
  const SERVER_DASH: string := "server-"

  function Finish(trimmed: string): string {
    if trimmed == [] then SERVER
    else
      Cut(if '0' <= trimmed[0] <= '9' then SERVER_DASH + trimmed else trimmed)
  }

  function Slugified(name: string, mark: char -> bool): string {
    Finish(TrimLeft(TrimRight(Collapse(name, mark, true))))
  }

  // What reading one more character writes.
  lemma OneMoreCharacter(b: string, name: string, mark: char -> bool, i: nat, lastDash: bool)
    requires i < |name|
    ensures
      var r := name[i];
      var word, dash := !mark(r) && LetterOrDigit(r), !mark(r) && !LetterOrDigit(r);
      b + Collapse(name[i..], mark, lastDash) ==
        (if word then b + [r] else if dash && !lastDash then b + ['-'] else b) +
        Collapse(name[i + 1..], mark, if word then false else if dash then true else lastDash)
  {
    assert name[i..][1..] == name[i + 1..] && name[i..][0] == name[i];
  }

  method Slugify(name: string, mark: char -> bool) returns (s: string)
    ensures s == Slugified(name, mark)
  {
    var b: string := [];
    var lastDash := true;
    for i := 0 to |name|
      invariant b + Collapse(name[i..], mark, lastDash) == Collapse(name, mark, true)
    {
      OneMoreCharacter(b, name, mark, i, lastDash);
      var r := name[i];
      if mark(r) {
        continue;
      }
      if LetterOrDigit(r) {
        b := b + [r];
        lastDash := false;
      } else if !lastDash {
        b := b + ['-'];
        lastDash := true;
      }
    }
    assert b == Collapse(name, mark, true);
    s := TrimLeft(TrimRight(b));
    if s == [] {
      return SERVER;
    }
    if '0' <= s[0] <= '9' {
      s := SERVER_DASH + s;
    }
    if |s| > MAX_SLUG_LEN {
      s := TrimRight(s[..MAX_SLUG_LEN]);
    }
  }

  lemma {:induction false} CollapseShape(name: string, mark: char -> bool, lastDash: bool)
    ensures
      var s := Collapse(name, mark, lastDash);
      OnlyLabelCharacters(s) && NoDoubleDash(s) && (lastDash && s != [] ==> s[0] != '-')
  {
    if name != [] {
      CollapseShape(name[1..], mark, lastDash);
      CollapseShape(name[1..], mark, false);
      CollapseShape(name[1..], mark, true);
    }
  }

  lemma {:induction false} TrimRightShape(s: string)
    ensures TrimRight(s) <= s && (TrimRight(s) == [] || TrimRight(s)[|TrimRight(s)| - 1] != '-')
    ensures forall c :: c in s && c != '-' ==> TrimRight(s) != []
  {
    if s != [] && s[|s| - 1] == '-' {
      TrimRightShape(s[..|s| - 1]);
      forall c | c in s && c != '-' ensures c in s[..|s| - 1] {
        var k :| 0 <= k < |s| && s[k] == c;
        assert s[..|s| - 1][k] == c;
      }
    }
  }

  lemma FinishIsLabel(s: string)
    requires s == [] || (LetterOrDigit(s[0]) && LetterOrDigit(s[|s| - 1]))
    requires OnlyLabelCharacters(s) && NoDoubleDash(s)
    ensures IsLabel(Finish(s), MAX_SLUG_LEN)
  {
    if s != [] {
      var t := if '0' <= s[0] <= '9' then SERVER_DASH + s else s;
      assert SERVER_DASH[0] == 's' && SERVER_DASH[|SERVER_DASH| - 1] == '-';
      assert OnlyLabelCharacters(t) && NoDoubleDash(t) && Letter(t[0]);
      if |t| > MAX_SLUG_LEN {
        var u := t[..MAX_SLUG_LEN];
        TrimRightShape(u);
        assert u[0] == t[0] && u[0] in u;
      }
    }
  }

  // Whatever the display name, the slug is a label of at most fifty characters.
  lemma SlugsAreLabels(name: string, mark: char -> bool)
    ensures IsLabel(Slugified(name, mark), MAX_SLUG_LEN)
  {
    var c := Collapse(name, mark, true);
    CollapseShape(name, mark, true);
    TrimRightShape(c);
    FinishIsLabel(TrimRight(c));
  }

  lemma {:induction false} LabelsCollapseToThemselves(s: string, mark: char -> bool, lastDash: bool)
    requires OnlyLabelCharacters(s) && NoDoubleDash(s) && (lastDash && s != [] ==> s[0] != '-')
    requires forall c :: LetterOrDigit(c) || c == '-' ==> !mark(c)
    ensures Collapse(s, mark, lastDash) == s
  {
    if s != [] {
      LabelsCollapseToThemselves(s[1..], mark, !LetterOrDigit(s[0]));
      assert s == [s[0]] + s[1..];
    }
  }

  // A label is its own slug, and so is every slug.
  lemma LabelsAreTheirOwnSlugs(s: string, mark: char -> bool)
    requires forall c :: LetterOrDigit(c) || c == '-' ==> !mark(c)
    ensures IsLabel(s, MAX_SLUG_LEN) ==> Slugified(s, mark) == s
    ensures Slugified(Slugified(s, mark), mark) == Slugified(s, mark)
  {
    SlugsAreLabels(s, mark);
    LabelsCollapseToThemselves(Slugified(s, mark), mark, true);
    if IsLabel(s, MAX_SLUG_LEN) {
      LabelsCollapseToThemselves(s, mark, true);
    }
  }

  // The letters and digits of s, in order.
  function Words(s: string, mark: char -> bool): string {
    if s == [] then []
    else (if LetterOrDigit(s[0]) && !mark(s[0]) then [s[0]] else []) + Words(s[1..], mark)
  }

  function NoMark(): char -> bool {
    c => false
  }

  lemma {:induction false} CollapseKeepsWords(name: string, mark: char -> bool, lastDash: bool)
    ensures Words(Collapse(name, mark, lastDash), NoMark()) == Words(name, mark)
  {
    if name != [] {
      var c, rest := name[0], name[1..];
      CollapseKeepsWords(rest, mark, lastDash);
      CollapseKeepsWords(rest, mark, false);
      CollapseKeepsWords(rest, mark, true);
      if !mark(c) && LetterOrDigit(c) {
        assert ([c] + Collapse(rest, mark, false))[1..] == Collapse(rest, mark, false);
      } else if !mark(c) && !lastDash {
        assert (['-'] + Collapse(rest, mark, true))[1..] == Collapse(rest, mark, true);
      }
    }
  }

  lemma {:induction false} WordsOfConcat(s: string, t: string, mark: char -> bool)
    ensures Words(s + t, mark) == Words(s, mark) + Words(t, mark)
  {
    if s == [] {
      assert s + t == t;
    } else {
      var first := if LetterOrDigit(s[0]) && !mark(s[0]) then [s[0]] else [];
      assert (s + t)[1..] == s[1..] + t && (s + t)[0] == s[0];
      assert Words(s + t, mark) == first + Words(s[1..] + t, mark);
      WordsOfConcat(s[1..], t, mark);
      assert Words(s, mark) == first + Words(s[1..], mark);
    }
  }

  lemma {:induction false} TrimRightKeepsWords(s: string)
    ensures Words(TrimRight(s), NoMark()) == Words(s, NoMark())
  {
    if s != [] && s[|s| - 1] == '-' {
      TrimRightKeepsWords(s[..|s| - 1]);
      WordsOfConcat(s[..|s| - 1], ['-'], NoMark());
      assert s[..|s| - 1] + ['-'] == s;
    }
  }

  // These are the first of all the words, and all of them if and only if they fit.
  predicate KeepsWords(words: string, all: string, fit: bool) {
    words <= all && (words == all <==> fit)
  }

  lemma MoreIsMore(a: string, b: string)
    requires b != []
    ensures KeepsWords(a, a + b, false)
  {
    assert |a + b| == |a| + |b|;
  }

  lemma CutDropsTheRest(s: string)
    requires |s| > MAX_SLUG_LEN
    ensures Words(Cut(s), NoMark()) + Words(s[MAX_SLUG_LEN..], NoMark()) == Words(s, NoMark())
  {
    assert s == s[..MAX_SLUG_LEN] + s[MAX_SLUG_LEN..];
    WordsOfConcat(s[..MAX_SLUG_LEN], s[MAX_SLUG_LEN..], NoMark());
    TrimRightKeepsWords(s[..MAX_SLUG_LEN]);
  }

  // Cutting takes words away exactly when it cuts: what ends with a letter or digit loses that one.
  lemma CutKeepsWords(s: string)
    requires s != [] && LetterOrDigit(s[|s| - 1])
    ensures KeepsWords(Words(Cut(s), NoMark()), Words(s, NoMark()), |s| <= MAX_SLUG_LEN)
  {
    if |s| > MAX_SLUG_LEN {
      var rest := s[MAX_SLUG_LEN..];
      CutDropsTheRest(s);
      LastOneCounts(rest);
      MoreIsMore(Words(Cut(s), NoMark()), Words(rest, NoMark()));
    }
  }

  lemma LastOneCounts(s: string)
    requires s != [] && LetterOrDigit(s[|s| - 1])
    ensures Words(s, NoMark()) != []
  {
    var last := s[|s| - 1..];
    assert s == s[..|s| - 1] + last && last == [s[|s| - 1]];
    WordsOfConcat(s[..|s| - 1], last, NoMark());
    assert Words(last, NoMark()) == [last[0]] + Words(last[1..], NoMark());
  }

  // The words that a slug is made of, if it need not be cut.
  function WordsWanted(words: string): string {
    if words == [] then SERVER else if '0' <= words[0] <= '9' then Words(SERVER_DASH, NoMark()) + words else words
  }

  // The slug before it is cut.
  function Uncut(trimmed: string): string {
    if trimmed == [] then SERVER else if '0' <= trimmed[0] <= '9' then SERVER_DASH + trimmed else trimmed
  }

  lemma WordsOfPrefixed(prefix: string, t: string)
    requires t != [] && LetterOrDigit(t[|t| - 1])
    ensures Words(prefix + t, NoMark()) == Words(prefix, NoMark()) + Words(t, NoMark())
    ensures LetterOrDigit((prefix + t)[|prefix + t| - 1])
  {
    WordsOfConcat(prefix, t, NoMark());
    assert (prefix + t)[|prefix + t| - 1] == t[|t| - 1];
  }

  lemma FirstWord(t: string)
    requires t != [] && LetterOrDigit(t[0])
    ensures Words(t, NoMark()) != [] && Words(t, NoMark())[0] == t[0]
  {
    assert Words(t, NoMark()) == [t[0]] + Words(t[1..], NoMark());
  }

  // A slug before it is cut: it has the words that are wanted, and ends with one of their letters.
  ghost predicate IsWhole(t: string, u: string) {
    && Words(u, NoMark()) == WordsWanted(Words(t, NoMark()))
    && u != [] && LetterOrDigit(u[|u| - 1]) && Finish(t) == Cut(u)
  }

  lemma NoWords()
    ensures IsWhole([], SERVER)
  {
    WordsOfServer();
    assert SERVER[5] == 'r';
  }

  lemma WordsAfterADigit(t: string)
    requires t != [] && '0' <= t[0] <= '9' && LetterOrDigit(t[|t| - 1])
    ensures IsWhole(t, SERVER_DASH + t)
  {
    FirstWord(t);
    WordsOfPrefixed(SERVER_DASH, t);
  }

  lemma WordsAsTheyAre(t: string)
    requires t != [] && LetterOrDigit(t[0]) && !('0' <= t[0] <= '9') && LetterOrDigit(t[|t| - 1])
    ensures IsWhole(t, t)
  {
    FirstWord(t);
  }

  lemma UncutIsWhole(t: string)
    requires t == [] || (LetterOrDigit(t[0]) && LetterOrDigit(t[|t| - 1]))
    ensures IsWhole(t, Uncut(t))
  {
    if t == [] {
      NoWords();
    } else if '0' <= t[0] <= '9' {
      WordsAfterADigit(t);
    } else {
      WordsAsTheyAre(t);
    }
  }

  lemma WholeKeepsWords(t: string, u: string)
    requires IsWhole(t, u)
    ensures KeepsWords(Words(Finish(t), NoMark()), WordsWanted(Words(t, NoMark())), |u| <= MAX_SLUG_LEN)
  {
    CutKeepsWords(u);
  }

  function Trimmed(name: string, mark: char -> bool): string {
    TrimLeft(TrimRight(Collapse(name, mark, true)))
  }

  // The slug is made of the name's letters and digits in order, after "server" when they start with a
  // digit, "server" alone when there are none. It has all of them if and only if it need not be cut.
  lemma SlugsKeepTheWords(name: string, mark: char -> bool)
    ensures
      KeepsWords(Words(Slugified(name, mark), NoMark()), WordsWanted(Words(name, mark)),
                 |Uncut(Trimmed(name, mark))| <= MAX_SLUG_LEN)
  {
    var c := Collapse(name, mark, true);
    CollapseShape(name, mark, true);
    CollapseKeepsWords(name, mark, true);
    TrimRightShape(c);
    TrimRightKeepsWords(c);
    assert TrimLeft(TrimRight(c)) == TrimRight(c);
    UncutIsWhole(TrimRight(c));
    WholeKeepsWords(TrimRight(c), Uncut(TrimRight(c)));
  }

  lemma WordsOfServer()
    ensures Words(SERVER, NoMark()) == SERVER
  {
    assert SERVER == ['s', 'e', 'r', 'v', 'e', 'r'];
    assert ['s', 'e', 'r', 'v', 'e', 'r'][1..] == ['e', 'r', 'v', 'e', 'r'];
    assert ['e', 'r', 'v', 'e', 'r'][1..] == ['r', 'v', 'e', 'r'];
    assert ['r', 'v', 'e', 'r'][1..] == ['v', 'e', 'r'];
    assert ['v', 'e', 'r'][1..] == ['e', 'r'];
    assert ['e', 'r'][1..] == ['r'];
    assert ['r'][1..] == [];
  }

  // ---- uniqueSlug ------------------------------------------------------------------------------

  function Decimal(n: nat): string {
    if n < 10 then ['0' + (n as char)] else Decimal(n / 10) + ['0' + ((n % 10) as char)]
  }

  lemma {:induction false} DecimalsDiffer(m: nat, n: nat)
    requires Decimal(m) == Decimal(n)
    ensures m == n
  {
    var s, t := Decimal(m), Decimal(n);
    assert s[|s| - 1] == t[|t| - 1];
    if m >= 10 && n >= 10 {
      assert s[..|s| - 1] == Decimal(m / 10) && t[..|t| - 1] == Decimal(n / 10);
      DecimalsDiffer(m / 10, n / 10);
    }
  }

  // base, base-2, base-3, ...
  function Candidate(base: string, i: nat): string {
    if i <= 1 then base else base + ['-'] + Decimal(i)
  }

  lemma CandidatesDiffer(base: string, i: nat, j: nat)
    requires 1 <= i < j
    ensures Candidate(base, i) != Candidate(base, j)
  {
    if Candidate(base, i) == Candidate(base, j) && i > 1 {
      assert Candidate(base, i)[|base| + 1..] == Decimal(i) && Candidate(base, j)[|base| + 1..] == Decimal(j);
      DecimalsDiffer(i, j);
    }
  }

  // The first candidate that is free. There is one among the first |taken| + 1.
  method UniqueSlug(base: string, taken: set<string>) returns (s: string, ghost i: nat)
    ensures s !in taken && s == Candidate(base, i) && 1 <= i <= |taken| + 1
    ensures forall j :: 1 <= j < i ==> Candidate(base, j) in taken
  {
    if base !in taken {
      return base, 1;
    }
    ghost var tried := {base};
    assert Candidate(base, 1) == base;
    var n := 2;
    while true
      invariant n >= 2 && tried <= taken && |tried| == n - 1
      invariant forall j :: 1 <= j < n ==> Candidate(base, j) in tried
      invariant forall s :: s in tried ==> exists j :: 1 <= j < n && s == Candidate(base, j)
      decreases |taken| + 1 - n
    {
      SubsetIsSmaller(tried, taken);
      var candidate := base + ['-'] + Decimal(n);
      assert candidate == Candidate(base, n);
      if candidate !in taken {
        return candidate, n;
      }
      forall j | 1 <= j < n ensures Candidate(base, j) != candidate {
        CandidatesDiffer(base, j, n);
      }
      tried := tried + {candidate};
      SubsetIsSmaller(tried, taken);
      n := n + 1;
    }
  }

  function PowerOfTen(n: nat): nat {
    if n == 0 then 1 else 10 * PowerOfTen(n - 1)
  }

  lemma {:induction false} DecimalsAreShort(n: nat, digits: nat)
    requires digits >= 1 && n < PowerOfTen(digits)
    ensures 1 <= |Decimal(n)| <= digits
    ensures forall k :: 0 <= k < |Decimal(n)| ==> '0' <= Decimal(n)[k] <= '9'
  {
    if n >= 10 {
      assert digits >= 2 by {
        assert PowerOfTen(1) == 10 * PowerOfTen(0);
      }
      DecimalsAreShort(n / 10, digits - 1);
    }
  }

  // The numbered slugs stay labels of at most 63 characters, up to twelve digits.
  lemma NumberedSlugsAreLabels(base: string, i: nat)
    requires IsLabel(base, MAX_SLUG_LEN) && i < PowerOfTen(12)
    ensures IsLabel(Candidate(base, i), 63)
  {
    DecimalsAreShort(i, 12);
  }
}
