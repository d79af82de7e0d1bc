/** What the argument scanner means: it loses nothing, it splits exactly at the top-level commas, and quoted
    text passes through it whole. */
module DslScan {
  import opened Wrappers
  import opened DslText

  // ---- Lossless, and exact -----------------------------------------------------------------------

  function JoinComma(p: seq<string>): string {
    if p == [] then ""
    else if |p| == 1 then p[0]
    else JoinComma(p[..|p| - 1]) + "," + p[|p| - 1]
  }

  lemma JoinExtendLast(p: seq<string>, t: string)
    requires p != []
    ensures JoinComma(ExtendLast(p, t)) == JoinComma(p) + t
  {
    assert ExtendLast(p, t)[..|p| - 1] == p[..|p| - 1];
  }

  lemma JoinOpen(p: seq<string>)
    requires p != []
    ensures JoinComma(p + [""]) == JoinComma(p) + ","
  {
    assert (p + [""])[..|p|] == p;
  }

  /** What one character does to the pieces. */
  function Extended(p: seq<string>, c: char, separates: bool): seq<string>
    requires p != []
  {
    if separates then p + [""] else ExtendLast(p, [c])
  }

  lemma JoinExtended(p: seq<string>, c: char, separates: bool)
    requires p != [] && (separates ==> c == ',')
    ensures JoinComma(Extended(p, c, separates)) == JoinComma(p) + [c]
  {
    if separates {
      JoinOpen(p);
    } else {
      JoinExtendLast(p, [c]);
    }
  }

  /** Joined by commas again, the untrimmed pieces are the scanned text. */
  lemma {:induction false} PiecesLoseNothing(s: string)
    ensures JoinComma(Pieces(s)) == s
    decreases |s|
  {
    if s != "" {
      var t, c := s[..|s| - 1], s[|s| - 1];
      assert s == t + [c];
      PiecesLoseNothing(t);
      ScanChar(t, c);
      JoinExtended(Pieces(t), c, c == ',' && LexAt(t) == Top);
    }
  }

  /** Where the piece with number k is cut off from the one before it. */
  function CutBefore(p: seq<string>, k: nat): nat
    requires k <= |p|
  {
    |JoinComma(p[..k])|
  }

  /** Some piece but the first begins right after position i. */
  predicate CutAt(p: seq<string>, i: nat) { exists k | 0 < k < |p| :: CutBefore(p, k) == i }

  lemma CutsOfExtended(p: seq<string>, c: char, separates: bool, i: nat)
    requires p != [] && i <= |JoinComma(p)|
    ensures CutAt(Extended(p, c, separates), i) <==> CutAt(p, i) || (separates && i == |JoinComma(p)|)
  {
    var q := Extended(p, c, separates);
    assert forall k | 0 < k < |p| :: q[..k] == p[..k];
    assert forall k | 0 < k < |p| :: CutBefore(q, k) == CutBefore(p, k);
    if separates {
      assert q[..|p|] == p && CutBefore(q, |p|) == |JoinComma(p)|;
    }
    if k :| 0 < k < |p| && CutBefore(p, k) == i {
      assert CutBefore(q, k) == i;
    }
  }

  lemma NoCutAtEnd(p: seq<string>)
    requires p != []
    ensures !CutAt(p, |JoinComma(p)|)
  {
    forall k | 0 < k < |p| ensures CutBefore(p, k) != |JoinComma(p)| { CutInside(p, k); }
  }

  /** The cuts between pieces lie exactly at the separators. */
  lemma {:induction false} CutsAreSeparators(s: string, i: nat)
    requires i < |s|
    ensures SeparatorAt(s, i) <==> CutAt(Pieces(s), i)
    decreases |s|
  {
    var n := |s| - 1;
    var t := s[..n];
    PiecesLoseNothing(t);
    CutsOfExtended(Pieces(t), s[n], SeparatorAt(s, n), i);
    if i < n {
      CutsAreSeparators(t, i);
      assert t[..i] == s[..i];
    } else {
      NoCutAtEnd(Pieces(t));
    }
  }

  lemma {:induction false} CutInside(p: seq<string>, k: nat)
    requires 0 < k < |p|
    ensures CutBefore(p, k) < |JoinComma(p)|
    decreases |p|
  {
    if k < |p| - 1 {
      CutInside(p[..|p| - 1], k);
      assert p[..|p| - 1][..k] == p[..k];
    }
  }

  // ---- The flags, by counting --------------------------------------------------------------------

  /** How many backslashes the text ends in. */
  function Backslashes(s: string): nat {
    if s == "" || s[|s| - 1] != '\\' then 0 else 1 + Backslashes(s[..|s| - 1])
  }

  /** The character after the text is escaped: an odd number of backslashes precedes it. */
  predicate EscapesNext(s: string) { Backslashes(s) % 2 == 1 }

  /** The quotes that count: those not escaped. */
  function Quotes(s: string): nat {
    if s == "" then 0
    else
      var n := |s| - 1;
      Quotes(s[..n]) + if s[n] == '"' && !EscapesNext(s[..n]) then 1 else 0
  }

  predicate InsideQuotes(s: string) { Quotes(s) % 2 == 1 }

  /** Opening minus closing brackets among the characters that are neither escaped nor inside quotes. */
  function Nesting(s: string): int {
    if s == "" then 0
    else
      var n := |s| - 1;
      Nesting(s[..n]) +
        if EscapesNext(s[..n]) || InsideQuotes(s[..n]) then 0
        else if s[n] == '[' || s[n] == '(' then 1
        else if s[n] == ']' || s[n] == ')' then -1
        else 0
  }

  lemma {:induction false} FlagsCount(s: string)
    ensures LexAt(s) == Lex(Nesting(s), InsideQuotes(s), EscapesNext(s))
    decreases |s|
  {
    if s != "" {
      FlagsCount(s[..|s| - 1]);
    }
  }

  /** splitArgs by counting alone. It fails exactly on text that ends inside quotes or with unbalanced
      brackets. Otherwise its arguments are the trimmed pieces of the text, an empty last piece dropped;
      the pieces joined by commas are the text; and the cuts are exactly the commas that are not escaped,
      not inside quotes, and inside no bracket. */
  lemma SplitIsExact(s: string)
    ensures Split(s).Err? <==> InsideQuotes(s) || Nesting(s) != 0
    ensures var p := Pieces(s);
      && JoinComma(p) == s
      && (Split(s).Ok? ==> Split(s).value == TrimAll(if p[|p| - 1] == "" then p[..|p| - 1] else p))
      && forall i | 0 <= i < |s| ::
        CutAt(p, i) <==>
        s[i] == ',' && !EscapesNext(s[..i]) && !InsideQuotes(s[..i]) && Nesting(s[..i]) == 0
  {
    FlagsCount(s);
    PiecesLoseNothing(s);
    forall i | 0 <= i < |s|
      ensures CutAt(Pieces(s), i) <==>
        s[i] == ',' && !EscapesNext(s[..i]) && !InsideQuotes(s[..i]) && Nesting(s[..i]) == 0
    {
      FlagsCount(s[..i]);
      CutsAreSeparators(s, i);
    }
  }

  // ---- Quoted text passes whole ------------------------------------------------------------------

  /** Scanning `t` after `s` splits nowhere and ends with the flags `l`. */
  ghost predicate Scans(s: string, t: string, l: Lex) {
    LexAt(s + t) == l && Pieces(s + t) == ExtendLast(Pieces(s), t)
  }

  lemma ScansNothing(s: string)
    ensures Scans(s, "", LexAt(s))
  {
    var p := Pieces(s);
    assert s + "" == s && p[|p| - 1] + "" == p[|p| - 1];
  }

  lemma ScansOne(s: string, c: char)
    requires c != ',' || LexAt(s) != Top
    ensures Scans(s, [c], Step(LexAt(s), c))
  {
    ScanChar(s, c);
  }

  lemma ScansBoth(s: string, a: string, l: Lex, b: string, m: Lex)
    requires Scans(s, a, l) && Scans(s + a, b, m)
    ensures Scans(s, a + b, m)
  {
    var p := Pieces(s);
    assert s + a + b == s + (a + b);
    assert p[|p| - 1] + a + b == p[|p| - 1] + (a + b);
    assert ExtendLast(ExtendLast(p, a), b) == ExtendLast(p, a + b);
  }

  lemma ScanEscapedChar(s: string, c: char)
    requires LexAt(s).quoted && !LexAt(s).escaped
    ensures Scans(s, EscapeChar(c), LexAt(s))
  {
    if c == '\\' || c == '"' {
      ScansOne(s, '\\');
      ScansOne(s + ['\\'], c);
      ScansBoth(s, ['\\'], LexAt(s).(escaped := true), [c], LexAt(s));
      assert ['\\'] + [c] == EscapeChar(c);
    } else {
      ScansOne(s, c);
    }
  }

  /** Inside quotes, escaped text only adds to the open piece. */
  lemma {:induction false} ScanEscaped(s: string, v: string)
    requires LexAt(s).quoted && !LexAt(s).escaped
    ensures Scans(s, Escape(v), LexAt(s))
    decreases |v|
  {
    if v == "" {
      ScansNothing(s);
    } else {
      var u, c := v[..|v| - 1], v[|v| - 1];
      assert v == u + [c];
      EscapeSnoc(u, c);
      ScanEscaped(s, u);
      ScanEscapedChar(s + Escape(u), c);
      ScansBoth(s, Escape(u), LexAt(s), EscapeChar(c), LexAt(s));
    }
  }

  lemma ScanQuoted(s: string, v: string)
    requires !LexAt(s).quoted && !LexAt(s).escaped
    ensures Scans(s, Quote(v), LexAt(s))
  {
    var l := LexAt(s);
    ScansOne(s, '"');
    ScanEscaped(s + ['"'], v);
    ScansBoth(s, ['"'], l.(quoted := true), Escape(v), l.(quoted := true));
    ScansOne(s + (['"'] + Escape(v)), '"');
    ScansBoth(s, ['"'] + Escape(v), l.(quoted := true), ['"'], l);
  }

  function QuoteAll(vs: seq<string>): seq<string> {
    if vs == [] then [] else QuoteAll(vs[..|vs| - 1]) + [Quote(vs[|vs| - 1])]
  }

  lemma {:induction false} QuoteAllIs(vs: seq<string>)
    ensures |QuoteAll(vs)| == |vs| && forall i | 0 <= i < |vs| :: QuoteAll(vs)[i] == Quote(vs[i])
    decreases |vs|
  {
    if vs != [] {
      QuoteAllIs(vs[..|vs| - 1]);
    }
  }

  /** Quoted items joined by commas. */
  function QuotedList(vs: seq<string>): string {
    if vs == [] then ""
    else if |vs| == 1 then Quote(vs[0])
    else QuotedList(vs[..|vs| - 1]) + [','] + Quote(vs[|vs| - 1])
  }

  lemma ExtendOpen(p: seq<string>, t: string)
    ensures ExtendLast(p + [""], t) == p + [t]
  {
    assert "" + t == t && (p + [""])[..|p|] == p;
  }

  lemma ScanOneMore(t: string, v: string)
    requires LexAt(t) == Top
    ensures LexAt(t + [','] + Quote(v)) == Top && Pieces(t + [','] + Quote(v)) == Pieces(t) + [Quote(v)]
  {
    ScanChar(t, ',');
    ScanQuoted(t + [','], v);
    ExtendOpen(Pieces(t), Quote(v));
  }

  lemma ScanFirst(v: string)
    ensures LexAt(Quote(v)) == Top && Pieces(Quote(v)) == [Quote(v)]
  {
    ScanQuoted("", v);
    assert "" + Quote(v) == Quote(v);
    ExtendOpen([], Quote(v));
    assert [] + [""] == [""] && [] + [Quote(v)] == [Quote(v)];
  }

  /** At the top level, such a list scans to exactly its items. */
  lemma {:induction false} ScanList(vs: seq<string>)
    requires vs != []
    ensures LexAt(QuotedList(vs)) == Top && Pieces(QuotedList(vs)) == QuoteAll(vs)
    decreases |vs|
  {
    if |vs| == 1 {
      ScanFirst(vs[0]);
      assert vs[..0] == [];
    } else {
      ScanList(vs[..|vs| - 1]);
      ScanOneMore(QuotedList(vs[..|vs| - 1]), vs[|vs| - 1]);
    }
  }

  lemma ScanNestedItem(s: string, t: string, v: string)
    requires 0 < LexAt(s).depth && !LexAt(s).quoted && !LexAt(s).escaped && Scans(s, t, LexAt(s))
    ensures Scans(s, t + [','] + Quote(v), LexAt(s))
  {
    var l := LexAt(s);
    ScansOne(s + t, ',');
    ScansBoth(s, t, l, [','], l);
    assert s + t + [','] == s + (t + [',']);
    ScanQuoted(s + (t + [',']), v);
    ScansBoth(s, t + [','], l, Quote(v), l);
  }

  /** Inside brackets the same list splits nowhere. */
  lemma {:induction false} ScanNested(s: string, vs: seq<string>)
    requires 0 < LexAt(s).depth && !LexAt(s).quoted && !LexAt(s).escaped
    ensures Scans(s, QuotedList(vs), LexAt(s))
    decreases |vs|
  {
    if vs == [] {
      ScansNothing(s);
    } else if |vs| == 1 {
      ScanQuoted(s, vs[0]);
    } else {
      ScanNested(s, vs[..|vs| - 1]);
      ScanNestedItem(s, QuotedList(vs[..|vs| - 1]), vs[|vs| - 1]);
    }
  }
}
