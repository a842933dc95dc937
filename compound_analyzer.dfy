/**
 * The two scanners of `compound_analyzer`: `parse_smiles`, which picks element
 * symbols out of a SMILES-like string, and `get_valence_electrons`, which reads
 * the outermost-shell electron count from an electron-configuration string.
 *
 * Each is a method with the loop of the original, proved equal to a recursive
 * specification function about which the promised properties are lemmas. The
 * set of valid symbols (`element_symbols`, from mendeleev) is a parameter.
 */
module CompoundAnalyzer {
  import opened Basics

  /** `str.lower()` on one ASCII character. */
  function Lower(c: char): char {
    if 'A' <= c <= 'Z' then (c as int + 32) as char else c
  }

  /** `str.upper()` on one ASCII character. */
  function Upper(c: char): char {
    if 'a' <= c <= 'z' then (c as int - 32) as char else c
  }

  /** The index of the first `]` at or after `k`, or `|s|` when there is none. */
  function CloseFrom(s: string, k: nat): (r: nat)
    requires k <= |s|
    ensures k <= r <= |s|
    ensures r < |s| ==> s[r] == ']'
    ensures forall m :: k <= m < r ==> s[m] != ']'
    decreases |s| - k
  {
    if k == |s| || s[k] == ']' then k else CloseFrom(s, k + 1)
  }

  /**
   * Symbol `t` is spelled at position `p` of `s`: as bracketed text, as a
   * character followed by one whose lowercase completes it, or as one
   * character uppercased.
   */
  predicate SpelledAt(s: string, p: nat, t: string) {
    && p < |s|
    && (|| (s[p] == '[' && p + 1 + |t| < |s| && s[p + 1..p + 1 + |t|] == t && s[p + 1 + |t|] == ']')
        || (p + 1 < |s| && t == [s[p], Lower(s[p + 1])])
        || t == [Upper(s[p])])
  }

  /** One iteration of the scanner: the symbols it appends and where it resumes. */
  datatype Advance = Advance(found: seq<string>, next: nat)

  /**
   * One iteration of `parse_smiles` at index `i`: a `[` with a later `]`
   * contributes the enclosed text when it is a symbol and scanning resumes after
   * the `]`; an unmatched `[` is skipped; otherwise the two-character candidate
   * (this character and the next one lowercased) is tried before the
   * one-character candidate (this character uppercased).
   */
  function AdvanceAt(s: string, symbols: set<string>, i: nat): (r: Advance)
    requires i < |s|
    ensures i < r.next <= |s|
    ensures |r.found| <= 1
    ensures forall t :: t in r.found ==> t in symbols && SpelledAt(s, i, t)
  {
    if s[i] == '[' then
      var j := CloseFrom(s, i + 1);
      if j < |s| then
        assert i + 1 + |s[i + 1..j]| == j;
        Advance(if s[i + 1..j] in symbols then [s[i + 1..j]] else [], j + 1)
      else Advance([], i + 1)
    else if i + 1 < |s| && [s[i], Lower(s[i + 1])] in symbols then Advance([[s[i], Lower(s[i + 1])]], i + 2)
    else Advance(if [Upper(s[i])] in symbols then [[Upper(s[i])]] else [], i + 1)
  }

  /** What `parse_smiles` appends from index `i` on. */
  function Scan(s: string, symbols: set<string>, i: nat): seq<string>
    requires i <= |s|
    decreases |s| - i
  {
    if i == |s| then []
    else
      var a := AdvanceAt(s, symbols, i);
      a.found + Scan(s, symbols, a.next)
  }

  /** `parse_smiles(smiles)`, with `element_symbols` as `symbols`. */
  method ParseSmiles(smiles: string, symbols: set<string>) returns (elements: seq<string>)
    ensures elements == Scan(smiles, symbols, 0)
  {
    elements := [];
    var i := 0;
    var n := |smiles|;
    while i < n
      invariant 0 <= i <= n
      invariant elements + Scan(smiles, symbols, i) == Scan(smiles, symbols, 0)
      decreases n - i
    {
      var found: seq<string> := [];
      var next := i + 1;
      if smiles[i] == '[' {
        var j := i + 1;
        while j < n && smiles[j] != ']'
          invariant i + 1 <= j <= n
          invariant CloseFrom(smiles, j) == CloseFrom(smiles, i + 1)
        {
          j := j + 1;
        }
        if j < n {
          var symbol := smiles[i + 1..j];
          if symbol in symbols {
            found := [symbol];
          }
          next := j + 1;
        }
      } else {
        var matched := false;
        if i + 1 < n {
          var twoChar := [smiles[i], Lower(smiles[i + 1])];
          if twoChar in symbols {
            found := [twoChar];
            next := i + 2;
            matched := true;
          }
        }
        if !matched {
          var oneChar := [Upper(smiles[i])];
          if oneChar in symbols {
            found := [oneChar];
          }
        }
      }
      assert AdvanceAt(smiles, symbols, i) == Advance(found, next);
      AppendAssoc(elements, found, Scan(smiles, symbols, next));
      elements := elements + found;
      i := next;
    }
  }

  /** Every symbol found is a valid symbol. */
  lemma {:induction false} ScanFindsSymbols(s: string, symbols: set<string>, i: nat)
    requires i <= |s|
    ensures forall t :: t in Scan(s, symbols, i) ==> t in symbols
    decreases |s| - i
  {
    if i < |s| {
      ScanFindsSymbols(s, symbols, AdvanceAt(s, symbols, i).next);
    }
  }

  /** Every iteration consumes at least one character, so at most one symbol per character is found. */
  lemma {:induction false} ScanLength(s: string, symbols: set<string>, i: nat)
    requires i <= |s|
    ensures |Scan(s, symbols, i)| <= |s| - i
    decreases |s| - i
  {
    if i < |s| {
      ScanLength(s, symbols, AdvanceAt(s, symbols, i).next);
    }
  }

  /** The positions at which the symbols of `Scan(s, symbols, i)` are spelled. */
  ghost function Starts(s: string, symbols: set<string>, i: nat): seq<nat>
    requires i <= |s|
    decreases |s| - i
  {
    if i == |s| then []
    else
      var a := AdvanceAt(s, symbols, i);
      (if a.found != [] then [i] else []) + Starts(s, symbols, a.next)
  }

  /**
   * The symbols come in input order: the k-th symbol is spelled at a position
   * of `s` at or after `i`, and those positions strictly increase.
   */
  lemma {:induction false} ScanInInputOrder(s: string, symbols: set<string>, i: nat)
    requires i <= |s|
    ensures ListedInOrder(s, i, Scan(s, symbols, i), Starts(s, symbols, i))
    decreases |s| - i
  {
    if i < |s| {
      var a := AdvanceAt(s, symbols, i);
      ScanInInputOrder(s, symbols, a.next);
      if a.found != [] {
        assert a.found[0] in a.found;
      }
      ListedBefore(s, i, a.found, if a.found != [] then [i] else [],
                   a.next, Scan(s, symbols, a.next), Starts(s, symbols, a.next));
    }
  }

  /**
   * `r[k]` is spelled at position `ps[k]` of `s`, at or after `i`, and the
   * positions strictly increase.
   */
  ghost predicate ListedInOrder(s: string, i: nat, r: seq<string>, ps: seq<nat>) {
    && |ps| == |r|
    && (forall k :: 0 <= k < |ps| ==> i <= ps[k] < |s| && SpelledAt(s, ps[k], r[k]))
    && (forall k, l :: 0 <= k < l < |ps| ==> ps[k] < ps[l])
  }

  /** At most one symbol spelled at `i`, before symbols listed in order from a later position. */
  lemma ListedBefore(s: string, i: nat, t: seq<string>, p: seq<nat>, j: nat, r: seq<string>, ps: seq<nat>)
    requires i < j && i < |s|
    requires |t| == |p| <= 1
    requires t != [] ==> p == [i] && SpelledAt(s, i, t[0])
    requires ListedInOrder(s, j, r, ps)
    ensures ListedInOrder(s, i, t + r, p + ps)
  {
    if t == [] {
      assert p + ps == ps && t + r == r;
    } else {
      assert t == [t[0]];
      ListedCons(s, i, t[0], j, r, ps);
    }
  }

  /** One symbol spelled at `i`, before symbols listed in order from a later position. */
  lemma ListedCons(s: string, i: nat, x: string, j: nat, r: seq<string>, ps: seq<nat>)
    requires i < j && i < |s| && SpelledAt(s, i, x)
    requires ListedInOrder(s, j, r, ps)
    ensures ListedInOrder(s, i, [x] + r, [i] + ps)
  {
    var qs, u := [i] + ps, [x] + r;
    forall k | 0 <= k < |qs|
      ensures i <= qs[k] < |s| && SpelledAt(s, qs[k], u[k])
    {
      if k > 0 {
        assert qs[k] == ps[k - 1] && u[k] == r[k - 1];
      }
    }
    forall k, l | 0 <= k < l < |qs|
      ensures qs[k] < qs[l]
    {
      assert qs[l] == ps[l - 1];
      if k > 0 {
        assert qs[k] == ps[k - 1];
      }
    }
  }

  /** Scanning from `i` depends only on the text from `i` on. */
  lemma {:induction false} CloseFromSuffix(s: string, d: nat, k: nat)
    requires d <= k <= |s|
    ensures CloseFrom(s, k) == CloseFrom(s[d..], k - d) + d
    decreases |s| - k
  {
    if k < |s| && s[k] != ']' {
      CloseFromSuffix(s, d, k + 1);
    }
  }

  lemma AdvanceSuffix(s: string, symbols: set<string>, d: nat, i: nat)
    requires d <= i < |s|
    ensures var a := AdvanceAt(s, symbols, i);
            var b := AdvanceAt(s[d..], symbols, i - d);
            a.found == b.found && a.next == b.next + d
  {
    var u := s[d..];
    assert u[i - d] == s[i];
    if s[i] == '[' {
      CloseFromSuffix(s, d, i + 1);
      var j := CloseFrom(s, i + 1);
      if j < |s| {
        assert u[i - d + 1..j - d] == s[i + 1..j];
      }
    } else if i + 1 < |s| {
      assert u[i - d + 1] == s[i + 1];
    }
  }

  lemma {:induction false} ScanSuffix(s: string, symbols: set<string>, d: nat, i: nat)
    requires d <= i <= |s|
    ensures Scan(s, symbols, i) == Scan(s[d..], symbols, i - d)
    decreases |s| - i
  {
    if i < |s| {
      AdvanceSuffix(s, symbols, d, i);
      ScanSuffix(s, symbols, d, AdvanceAt(s, symbols, i).next);
    }
  }

  /** In `[w]rest` with no `]` in w, the first `]` after the `[` closes w, and rest follows it. */
  lemma BracketParts(w: string, rest: string)
    requires ']' !in w
    ensures var s := "[" + w + "]" + rest;
            s[0] == '[' && CloseFrom(s, 1) == 1 + |w| && s[1..1 + |w|] == w && s[2 + |w|..] == rest
  {
    var s := "[" + w + "]" + rest;
    assert forall m :: 1 <= m < 1 + |w| ==> s[m] == w[m - 1];
    assert s[1 + |w|] == ']';
    assert s[2 + |w|..] == rest;
  }

  /** A bracketed text contributes itself, verbatim, when it is a symbol, and scanning resumes after the `]`. */
  lemma BracketedText(w: string, rest: string, symbols: set<string>)
    requires ']' !in w
    ensures Scan("[" + w + "]" + rest, symbols, 0) == (if w in symbols then [w] else []) + Scan(rest, symbols, 0)
  {
    var s := "[" + w + "]" + rest;
    BracketParts(w, rest);
    var found := if w in symbols then [w] else [];
    assert AdvanceAt(s, symbols, 0) == Advance(found, 2 + |w|);
    assert Scan(s, symbols, 0) == found + Scan(s, symbols, 2 + |w|);
    ScanSuffix(s, symbols, 2 + |w|, 2 + |w|);
    var t := s[2 + |w|..];
    assert t == rest;
    assert Scan(s, symbols, 2 + |w|) == Scan(t, symbols, 0);
  }

  /** A `[` that is never closed is skipped by one character. */
  lemma UnclosedBracket(w: string, symbols: set<string>)
    requires ']' !in w
    ensures Scan("[" + w, symbols, 0) == Scan(w, symbols, 0)
  {
    var s := "[" + w;
    assert forall m :: 1 <= m < |s| ==> s[m] == w[m - 1];
    assert CloseFrom(s, 1) == |s|;
    ScanSuffix(s, symbols, 1, 1);
    assert s[1..] == w;
  }

  /** The two-character candidate wins: "CO" gives cobalt, not carbon and oxygen. */
  lemma TwoCharactersFirst(symbols: set<string>)
    requires "Co" in symbols
    ensures Scan("CO", symbols, 0) == ["Co"]
  {
    assert Lower('O') == 'o';
  }

  /** Outside brackets a lowercase letter alone is read uppercased: "c" gives carbon. */
  lemma LowercaseAlone(symbols: set<string>)
    requires "C" in symbols
    ensures Scan("c", symbols, 0) == ["C"]
  {
    assert Upper('c') == 'C';
  }

  // ---------------------------------------------------------------------------
  // get_valence_electrons
  // ---------------------------------------------------------------------------

  /** The characters `str.split()` splits on: those for which Python's `str.isspace` holds. */
  predicate IsSpace(c: char) {
    || '\U{9}' <= c <= '\U{D}' || '\U{1C}' <= c <= '\U{20}' || c == '\U{85}' || c == '\U{A0}'
    || c == '\U{1680}' || '\U{2000}' <= c <= '\U{200A}' || c == '\U{2028}' || c == '\U{2029}'
    || c == '\U{202F}' || c == '\U{205F}' || c == '\U{3000}'
  }

  /** The longest prefix of `s` without whitespace. */
  function LeadingWord(s: string): (w: string)
    ensures |w| <= |s| && w == s[..|w|]
    ensures forall c :: c in w ==> !IsSpace(c)
    ensures |w| < |s| ==> IsSpace(s[|w|])
  {
    if s == [] || IsSpace(s[0]) then [] else [s[0]] + LeadingWord(s[1..])
  }

  /** `str.split()`: the maximal runs of non-whitespace characters, in order. */
  function Words(s: string): (ws: seq<string>)
    ensures forall w :: w in ws ==> w != [] && forall c :: c in w ==> !IsSpace(c)
    decreases |s|
  {
    if s == [] then []
    else if IsSpace(s[0]) then Words(s[1..])
    else
      var w := LeadingWord(s);
      [w] + Words(s[|w|..])
  }

  predicate IsDigit(c: char) {
    '0' <= c <= '9'
  }

  /** `''.join([c for c in part if c.isdigit()])`. */
  function Digits(part: string): (d: string)
    ensures |d| <= |part|
    ensures forall c :: c in d ==> IsDigit(c)
  {
    if part == [] then []
    else (if IsDigit(part[0]) then [part[0]] else []) + Digits(part[1..])
  }

  /** `int(digits)` for a non-empty string of decimal digits. */
  function Decimal(digits: string): nat {
    if digits == [] then 0
    else 10 * Decimal(digits[..|digits| - 1]) + (digits[|digits| - 1] as int - '0' as int) % 10
  }

  /**
   * How the loop of `get_valence_electrons` reads one token: skipped when it
   * contains `[` or no digit; otherwise its shell is its first digit and its
   * electron count is the number formed by the digits at positions at or after
   * the number of all its digits. When there are none there, `int('')` raises.
   */
  datatype Reading = Skipped | Shell(n: nat, electrons: nat) | Unreadable

  function Read(part: string): (r: Reading)
    ensures r.Shell? ==> r.n <= 9
  {
    if '[' in part then Skipped
    else
      var d := Digits(part);
      if d == [] then Skipped
      else
        var e := Digits(part[|d|..]);
        assert d[0] in d;
        if e == [] then Unreadable else Shell(d[0] as int - '0' as int, Decimal(e))
  }

  /** The loop variables `max_n` and `valence_e`. */
  datatype Tally = Tally(maxShell: nat, valence: nat)

  /** One iteration: a larger shell restarts the count, an equal one adds to it, a smaller one is ignored. */
  function Absorb(t: Tally, r: Reading): Option<Tally> {
    match r
    case Skipped => Some(t)
    case Unreadable => None
    case Shell(n, e) =>
      if n > t.maxShell then Some(Tally(n, e))
      else if n == t.maxShell then Some(Tally(t.maxShell, t.valence + e))
      else Some(t)
  }

  /** The loop over the tokens `ws`; `None` once a token raised. */
  function Fold(ws: seq<string>): Option<Tally>
    decreases |ws|
  {
    if ws == [] then Some(Tally(0, 0))
    else
      match Fold(ws[..|ws| - 1])
      case None => None
      case Some(t) => Absorb(t, Read(ws[|ws| - 1]))
  }

  /** What `get_valence_electrons` returns: `None`, a count, or the `ValueError` it raises. */
  datatype Valence = NoConfiguration | Electrons(count: nat) | Malformed

  /** The meaning of `get_valence_electrons(ec)`; `None` stands for a falsy configuration. */
  function ValenceOf(ec: Option<string>): Valence {
    match ec
    case None => NoConfiguration
    case Some(text) =>
      match Fold(Words(text))
      case None => Malformed
      case Some(t) => Electrons(t.valence)
  }

  /** `get_valence_electrons(ec)`. */
  method ValenceElectrons(ec: Option<string>) returns (r: Valence)
    ensures r == ValenceOf(ec)
  {
    if ec.None? {
      return NoConfiguration;
    }
    var parts := Words(ec.value);
    var tally := TallyTokens(parts);
    if tally.None? {
      return Malformed;
    }
    return Electrons(tally.value.valence);
  }

  /** The `for` loop of `get_valence_electrons` over the tokens of `ec.split()`; `None` is the raise. */
  method TallyTokens(parts: seq<string>) returns (tally: Option<Tally>)
    ensures tally == Fold(parts)
  {
    var valence := 0;
    var maxShell := 0;
    for k := 0 to |parts|
      invariant Fold(parts[..k]) == Some(Tally(maxShell, valence))
    {
      FoldNext(parts, k);
      var reading := Read(parts[k]);
      match reading
      case Skipped =>
      case Unreadable =>
        assert Fold(parts[..k + 1]) == None;
        FoldStaysNone(parts, k + 1);
        return None;
      case Shell(n, electrons) =>
        if n > maxShell {
          maxShell := n;
          valence := electrons;
        } else if n == maxShell {
          valence := valence + electrons;
        }
    }
    assert parts[..|parts|] == parts;
    return Some(Tally(maxShell, valence));
  }

  /** The loop after k + 1 tokens is one more iteration after k tokens. */
  lemma FoldNext(ws: seq<string>, k: nat)
    requires k < |ws|
    ensures Fold(ws[..k + 1]) == match Fold(ws[..k]) case None => None case Some(t) => Absorb(t, Read(ws[k]))
  {
    assert ws[..k + 1][..k] == ws[..k];
  }

  /** Once a token raised, the rest of the loop does not run. */
  lemma {:induction false} FoldStaysNone(ws: seq<string>, k: nat)
    requires k <= |ws| && Fold(ws[..k]) == None
    ensures Fold(ws) == None
    decreases |ws| - k
  {
    if k < |ws| {
      assert ws[..k + 1][..k] == ws[..k];
      FoldStaysNone(ws, k + 1);
    } else {
      assert ws[..k] == ws;
    }
  }

  /** The largest shell among the readable tokens, 0 when there is none. */
  function MaxShell(ws: seq<string>): nat
    decreases |ws|
  {
    if ws == [] then 0
    else
      var r := Read(ws[|ws| - 1]);
      if r.Shell? then Max(MaxShell(ws[..|ws| - 1]), r.n) else MaxShell(ws[..|ws| - 1])
  }

  /** The electrons of the readable tokens whose shell is `n`. */
  function ShellSum(ws: seq<string>, n: nat): nat
    decreases |ws|
  {
    if ws == [] then 0
    else
      var r := Read(ws[|ws| - 1]);
      ShellSum(ws[..|ws| - 1], n) + (if r.Shell? && r.n == n then r.electrons else 0)
  }

  predicate Readable(ws: seq<string>) {
    forall w :: w in ws ==> !Read(w).Unreadable?
  }

  lemma {:induction false} ShellSumAboveMax(ws: seq<string>, n: nat)
    requires n > MaxShell(ws)
    ensures ShellSum(ws, n) == 0
    decreases |ws|
  {
    if ws != [] {
      ShellSumAboveMax(ws[..|ws| - 1], n);
    }
  }

  /**
   * The loop computes the outer-shell count: it fails exactly when some token
   * is unreadable, and otherwise ends with the largest shell and the sum of the
   * electrons of the tokens in that shell.
   */
  lemma {:induction false} FoldIsOuterShellSum(ws: seq<string>)
    ensures Fold(ws).Some? <==> Readable(ws)
    ensures Fold(ws).Some? ==> Fold(ws) == Some(Tally(MaxShell(ws), ShellSum(ws, MaxShell(ws))))
    decreases |ws|
  {
    if ws != [] {
      var init := ws[..|ws| - 1];
      FoldIsOuterShellSum(init);
      ReadableSplit(ws);
      var r := Read(ws[|ws| - 1]);
      if Readable(init) && r.Shell? && r.n > MaxShell(init) {
        ShellSumAboveMax(init, r.n);
      }
    }
  }

  /** A token list is readable when all but its last token are and the last one is. */
  lemma ReadableSplit(ws: seq<string>)
    requires ws != []
    ensures Readable(ws) <==> Readable(ws[..|ws| - 1]) && !Read(ws[|ws| - 1]).Unreadable?
  {
    assert ws == ws[..|ws| - 1] + [ws[|ws| - 1]];
  }

  /** `get_valence_electrons` in terms of the configuration's tokens. */
  lemma ValenceIsOuterShellSum(text: string)
    ensures ValenceOf(Some(text)) == Malformed <==> !Readable(Words(text))
    ensures Readable(Words(text)) ==> ValenceOf(Some(text)) == Electrons(ShellSum(Words(text), MaxShell(Words(text))))
  {
    FoldIsOuterShellSum(Words(text));
  }

  /** "4s2" is shell 4 with two electrons. */
  lemma OuterTokenReading()
    ensures Read("4s2") == Shell(4, 2)
  {
    assert Digits("4s2") == "42";
    assert "4s2"[2..] == "2";
    assert Digits("2") == "2";
    assert Decimal("2") == 2;
  }

  /** "3d10" reads as shell 3 with no electrons: the count is read after as many characters as there are digits. */
  lemma TenElectronTokenReading()
    ensures Read("3d10") == Shell(3, 0)
  {
    assert Digits("3d10") == "310";
    assert "3d10"[3..] == "0";
    assert Digits("0") == "0";
    assert Decimal("0") == 0;
  }

  /** A core such as "[Ar]" is skipped, and "4s" makes `int('')` raise. */
  lemma SkippedAndUnreadableTokens()
    ensures Read("[Ar]") == Skipped
    ensures Read("4s") == Unreadable
  {
    assert "[Ar]"[0] == '[';
    assert Digits("4s") == "4";
    assert "4s"[1..] == "s";
    assert Digits("s") == "";
  }

  /** A run without whitespace, ended by whitespace or by the end of the text, is the leading word. */
  lemma {:induction false} LeadingWordOf(w: string, rest: string)
    requires forall c :: c in w ==> !IsSpace(c)
    requires rest == [] || IsSpace(rest[0])
    ensures LeadingWord(w + rest) == w
    decreases |w|
  {
    if w == [] {
      assert w + rest == rest;
    } else {
      assert (w + rest)[0] == w[0] && (w + rest)[1..] == w[1..] + rest;
      LeadingWordOf(w[1..], rest);
    }
  }

  /** A non-empty run without whitespace followed by a whitespace character is one token, and splitting goes on after it. */
  lemma WordsSplit(w: string, c: char, rest: string)
    requires w != [] && forall d :: d in w ==> !IsSpace(d)
    requires IsSpace(c)
    ensures Words(w + [c] + rest) == [w] + Words(rest)
  {
    var s := w + [c] + rest;
    assert s == w + ([c] + rest);
    LeadingWordOf(w, [c] + rest);
    assert s[0] == w[0] && s[|w|..] == [c] + rest && ([c] + rest)[1..] == rest;
  }

  /** The information separator U+001C splits tokens, as every character `str.isspace` accepts does. */
  lemma SeparatorSplitsWords()
    ensures Words("4s2\U{1C}3d1") == ["4s2", "3d1"]
  {
    assert "4s2\U{1C}3d1" == "4s2" + ['\U{1C}'] + "3d1";
    WordsSplit("4s2", '\U{1C}', "3d1");
    LeadingWordOf("3d1", []);
    assert "3d1" + [] == "3d1" && "3d1"[|"3d1"|..] == [];
  }
}
