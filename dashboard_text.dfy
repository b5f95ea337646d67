/**
 * The admin dashboard's string helpers: the category slug generator, the price-input
 * sanitiser and the thousands-separator formatter used to display a price being typed.
 */
module DashboardText {
  import opened Text
  import opened Lists

  // ---------------------------------------------------------------- generateSlug

  /**
   * The five accent replacements and the `ñ` one. Each replaces characters by a plain letter
   * that no later replacement matches, so the chain acts on each character independently.
   */
  function FoldAccent(c: char): (r: char)
    ensures c in "\U{00E1}\U{00E4}\U{00E0}\U{00E2}\U{00E3}" ==> r == 'a'
    ensures c in "\U{00E9}\U{00EB}\U{00E8}\U{00EA}" ==> r == 'e'
    ensures c in "\U{00ED}\U{00EF}\U{00EC}\U{00EE}" ==> r == 'i'
    ensures c in "\U{00F3}\U{00F6}\U{00F2}\U{00F4}\U{00F5}" ==> r == 'o'
    ensures c in "\U{00FA}\U{00FC}\U{00F9}\U{00FB}" ==> r == 'u'
    ensures c == '\U{00F1}' ==> r == 'n'
    ensures IsAsciiLower(c) || IsDigit(c) ==> r == c
  {
    if c in "\U{00E1}\U{00E4}\U{00E0}\U{00E2}\U{00E3}" then 'a'
    else if c in "\U{00E9}\U{00EB}\U{00E8}\U{00EA}" then 'e'
    else if c in "\U{00ED}\U{00EF}\U{00EC}\U{00EE}" then 'i'
    else if c in "\U{00F3}\U{00F6}\U{00F2}\U{00F4}\U{00F5}" then 'o'
    else if c in "\U{00FA}\U{00FC}\U{00F9}\U{00FB}" then 'u'
    else if c == '\U{00F1}' then 'n'
    else c
  }

  predicate IsSlugChar(c: char) { IsAsciiLower(c) || IsDigit(c) }

  /** Lower-casing, the accent replacements and `replace(/[^a-z0-9]/g, '-')`, per character. */
  function Normalize(s: string): (r: string)
    ensures |r| == |s|
    ensures forall i :: 0 <= i < |s| ==>
              r[i] == (if IsSlugChar(FoldAccent(LowerChar(s[i]))) then FoldAccent(LowerChar(s[i])) else '-')
  {
    seq(|s|, i requires 0 <= i < |s| =>
      var c := FoldAccent(LowerChar(s[i]));
      if IsSlugChar(c) then c else '-')
  }

  /** No two dashes in a row. */
  predicate NoDoubleDash(s: string) {
    forall i :: 0 <= i < |s| - 1 ==> !(s[i] == '-' && s[i + 1] == '-')
  }

  /** `replace(/-+/g, '-')`: every run of dashes becomes one dash. */
  function Collapse(s: string): (r: string)
    ensures |r| <= |s| && (r == [] <==> s == [])
    ensures r != [] ==> r[0] == s[0] && r[|r| - 1] == s[|s| - 1]
    ensures forall i :: 0 <= i < |r| ==> r[i] in s
    ensures NoDoubleDash(r)
  {
    if |s| <= 1 then s
    else if s[0] == '-' && s[1] == '-' then Collapse(s[1..])
    else
      var t := Collapse(s[1..]);
      assert forall i :: 0 <= i < |t| ==> t[i] in s;
      [s[0]] + t
  }

  /** Collapsing changes nothing where no two dashes are adjacent. */
  lemma {:induction false} CollapseKeeps(s: string)
    requires NoDoubleDash(s)
    ensures Collapse(s) == s
  {
    if |s| > 1 {
      assert NoDoubleDash(s[1..]) by {
        forall i | 0 <= i < |s| - 2 ensures !(s[1..][i] == '-' && s[1..][i + 1] == '-') {
          assert s[1..][i] == s[i + 1] && s[1..][i + 1] == s[i + 2];
        }
      }
      assert !(s[0] == '-' && s[1] == '-');
      CollapseKeeps(s[1..]);
      assert s == [s[0]] + s[1..];
    }
  }

  /** `replace(/^-|-$/g, '')`: one leading dash and one trailing dash are removed. */
  function StripDashes(s: string): (r: string)
    ensures |r| <= |s|
  {
    var t := if s != [] && s[0] == '-' then s[1..] else s;
    if t != [] && t[|t| - 1] == '-' then t[..|t| - 1] else t
  }

  /** The shape of every generated slug. */
  predicate IsSlug(s: string) {
    && (forall i :: 0 <= i < |s| ==> IsSlugChar(s[i]) || s[i] == '-')
    && (s != [] ==> s[0] != '-' && s[|s| - 1] != '-')
    && NoDoubleDash(s)
  }

  /** `generateSlug(name)`. */
  function GenerateSlug(name: string): string {
    StripDashes(Collapse(Normalize(name)))
  }

  /** Removing end dashes of a dash-run-free string keeps it dash-run-free and leaves no end dash. */
  lemma StripDashesShape(s: string)
    requires (forall i :: 0 <= i < |s| ==> IsSlugChar(s[i]) || s[i] == '-') && NoDoubleDash(s)
    ensures IsSlug(StripDashes(s))
  {
    var t := if s != [] && s[0] == '-' then s[1..] else s;
    var k := |s| - |t|;
    assert forall i :: 0 <= i < |t| ==> t[i] == s[k + i];
    assert NoDoubleDash(t) by {
      forall i | 0 <= i < |t| - 1 ensures !(t[i] == '-' && t[i + 1] == '-') {
        assert t[i] == s[k + i] && t[i + 1] == s[k + i + 1];
      }
    }
    assert t != [] ==> t[0] != '-';
    var r := StripDashes(s);
    assert forall i :: 0 <= i < |r| ==> r[i] == t[i];
    assert |t| >= 2 ==> !(t[|t| - 2] == '-' && t[|t| - 1] == '-');
  }

  /**
   * Every generated slug is made of `a`-`z`, `0`-`9` and `-`, neither starts nor ends with
   * `-`, and has no `--`.
   */
  lemma SlugShape(name: string)
    ensures IsSlug(GenerateSlug(name))
  {
    var n := Normalize(name);
    var c := Collapse(n);
    forall i | 0 <= i < |c| ensures IsSlugChar(c[i]) || c[i] == '-' {
      assert c[i] in n;
    }
    StripDashesShape(c);
  }

  /** Slug characters and dashes pass the per-character steps unchanged. */
  lemma NormalizeSlugChar(c: char)
    requires IsSlugChar(c) || c == '-'
    ensures (if IsSlugChar(FoldAccent(LowerChar(c))) then FoldAccent(LowerChar(c)) else '-') == c
  {
    assert LowerChar(c) == c;
    if c == '-' {
      assert FoldAccent(c) == c;
    }
  }

  /** A slug is its own slug. */
  lemma SlugFixesSlugs(s: string)
    requires IsSlug(s)
    ensures GenerateSlug(s) == s
  {
    forall i | 0 <= i < |s| ensures Normalize(s)[i] == s[i] {
      NormalizeSlugChar(s[i]);
    }
    assert Normalize(s) == s;
    CollapseKeeps(s);
  }

  /** `generateSlug` is idempotent. */
  lemma SlugIdempotent(name: string)
    ensures GenerateSlug(GenerateSlug(name)) == GenerateSlug(name)
  {
    SlugShape(name);
    SlugFixesSlugs(GenerateSlug(name));
  }

  // ---------------------------------------------------------------- splitting on '.'

  /** `s.split('.')`. */
  function SplitDots(s: string): (r: seq<string>)
    ensures |r| >= 1
    ensures forall i :: 0 <= i < |r| ==> '.' !in r[i]
  {
    if s == [] then [""]
    else
      var rest := SplitDots(s[1..]);
      if s[0] == '.' then [""] + rest else [[s[0]] + rest[0]] + rest[1..]
  }

  /** A string without a dot splits into itself. */
  lemma {:induction false} SplitNoDot(s: string)
    requires '.' !in s
    ensures SplitDots(s) == [s]
  {
    if s != [] {
      assert '.' !in s[1..] by {
        assert forall c :: c in s[1..] ==> c in s;
      }
      SplitNoDot(s[1..]);
      assert s == [s[0]] + s[1..];
    }
  }

  /** A dot after a dot-free prefix splits the prefix off. */
  lemma {:induction false} SplitAtDot(a: string, b: string)
    requires '.' !in a
    ensures SplitDots(a + "." + b) == [a] + SplitDots(b)
  {
    if a == [] {
      assert a + "." + b == "." + b;
      assert ("." + b)[1..] == b;
    } else {
      assert '.' !in a[1..] by {
        assert forall c :: c in a[1..] ==> c in a;
      }
      SplitAtDot(a[1..], b);
      assert (a + "." + b)[1..] == a[1..] + "." + b;
      assert [a[0]] + a[1..] == a;
    }
  }

  /** `parts.join('')`. */
  function Concat(parts: seq<string>): (r: string)
    ensures forall c :: c in r ==> exists i :: 0 <= i < |parts| && c in parts[i]
  {
    if parts == [] then "" else parts[0] + Concat(parts[1..])
  }

  /** `s.slice(0, n)`. */
  function Take(s: string, n: nat): (r: string)
    ensures |r| <= n && IsPrefix(r, s)
  {
    if |s| <= n then s else s[..n]
  }

  // ---------------------------------------------------------------- the price input

  predicate IsPriceChar(c: char) { IsDigit(c) || c == '.' }

  predicate AllDigits(s: string) { forall i :: 0 <= i < |s| ==> IsDigit(s[i]) }

  lemma {:induction false} ConcatDigits(parts: seq<string>)
    requires forall i :: 0 <= i < |parts| ==> AllDigits(parts[i])
    ensures AllDigits(Concat(parts))
  {
    if parts != [] {
      ConcatDigits(parts[1..]);
      assert Concat(parts) == parts[0] + Concat(parts[1..]);
    }
  }

  /** `replace(/[^0-9.]/g, '')`. */
  function KeepPriceChars(s: string): (r: string)
    ensures forall i :: 0 <= i < |r| ==> IsPriceChar(r[i])
    ensures forall i :: 0 <= i < |SplitDots(r)| ==> AllDigits(SplitDots(r)[i])
  {
    var r := Filter(s, IsPriceChar);
    PartsAreDigits(r);
    r
  }

  /** The pieces of a string of digits and dots hold digits only. */
  lemma {:induction false} PartsAreDigits(s: string)
    requires forall i :: 0 <= i < |s| ==> IsPriceChar(s[i])
    ensures forall i :: 0 <= i < |SplitDots(s)| ==> AllDigits(SplitDots(s)[i])
  {
    if s != [] {
      PartsAreDigits(s[1..]);
    }
  }

  /** Digits with at most one dot and at most two digits after it: a price as typed. */
  predicate IsPriceInput(v: string) {
    && (forall i :: 0 <= i < |v| ==> IsPriceChar(v[i]))
    && |SplitDots(v)| <= 2
    && (|SplitDots(v)| == 2 ==> |SplitDots(v)[1]| <= 2)
  }

  /** Digits, a dot and at most two digits make a price as typed. */
  lemma PriceFromParts(a: string, b: string)
    requires AllDigits(a) && AllDigits(b)
    ensures forall i :: 0 <= i < |a + "." + b| ==> IsPriceChar((a + "." + b)[i])
    ensures SplitDots(a + "." + b) == [a, b]
    ensures |b| <= 2 ==> IsPriceInput(a + "." + b)
  {
    SplitAtDot(a, b);
    SplitNoDot(b);
  }

  /** Digits alone make a price as typed. */
  lemma PriceFromDigits(a: string)
    requires AllDigits(a)
    ensures IsPriceInput(a) && SplitDots(a) == [a]
  {
    SplitNoDot(a);
  }

  /**
   * The price handler as written: keep digits and dots; with more than one dot, join the
   * pieces after the first; then, when the piece right after the first dot is longer than two,
   * cut it to two. The second rule looks only at that first piece, so a later piece can bring
   * more decimals back.
   */
  function SanitizePrice(value: string): (r: string)
    ensures forall i :: 0 <= i < |r| ==> IsPriceChar(r[i])
    ensures |SplitDots(r)| <= 2
  {
    var n := KeepPriceChars(value);
    var parts := SplitDots(n);
    var n1 := if |parts| > 2 then parts[0] + "." + Concat(parts[1..]) else n;
    if |parts| > 1 && |parts[1]| > 2 then
      PriceFromParts(parts[0], parts[1][..2]);
      parts[0] + "." + parts[1][..2]
    else if |parts| > 2 then
      ConcatDigits(parts[1..]);
      PriceFromParts(parts[0], Concat(parts[1..]));
      n1
    else
      JoinSplit(n);
      n1
  }

  /** With at most one dot in the kept characters, at most two digits follow the dot. */
  lemma SanitizeOneDot(value: string)
    requires |SplitDots(KeepPriceChars(value))| <= 2
    ensures IsPriceInput(SanitizePrice(value))
  {
    var n := KeepPriceChars(value);
    var parts := SplitDots(n);
    JoinSplit(n);
    if |parts| == 2 {
      if |parts[1]| > 2 {
        PriceFromParts(parts[0], parts[1][..2]);
      } else {
        PriceFromParts(parts[0], parts[1]);
      }
    }
  }

  /**
   * With a second dot the decimals are not limited: digits `a`, a dot, at most two digits `b`,
   * a dot and digits `c` come out as `a.bc`, with more than two decimals once `|b| + |c| > 2`.
   */
  lemma SanitizeJoinsExtraPieces(a: string, b: string, c: string)
    requires AllDigits(a) && AllDigits(b) && AllDigits(c) && |b| <= 2
    ensures SanitizePrice(a + "." + b + "." + c) == a + "." + (b + c)
    ensures |b + c| > 2 ==> !IsPriceInput(SanitizePrice(a + "." + b + "." + c))
  {
    var v := a + "." + b + "." + c;
    assert v == a + "." + (b + "." + c);
    FilterAll(v, IsPriceChar);
    SplitNoDot(c);
    SplitAtDot(b, c);
    SplitAtDot(a, b + "." + c);
    assert SplitDots(v) == [a, b, c];
    assert Concat([b, c]) == b + c by {
      assert Concat([c]) == c + Concat([]);
    }
    PriceFromParts(a, b + c);
  }

  /** The input "1.2.345" is sanitised to "1.2345", four decimals. */
  lemma SanitizeKeepsExtraDecimals()
    ensures SanitizePrice("1.2.345") == "1.2345"
    ensures !IsPriceInput(SanitizePrice("1.2.345"))
  {
    assert "1.2.345" == "1" + "." + "2" + "." + "345";
    assert "1.2345" == "1" + "." + ("2" + "345");
    SanitizeJoinsExtraPieces("1", "2", "345");
  }

  /**
   * The sanitiser as intended: keep digits and dots, keep the first dot only, and at most two
   * digits after it.
   */
  function SanitizePriceFixed(value: string): (r: string)
    ensures IsPriceInput(r)
  {
    var parts := SplitDots(KeepPriceChars(value));
    if |parts| == 1 then
      PriceFromDigits(parts[0]);
      parts[0]
    else
      ConcatDigits(parts[1..]);
      var decimals := Take(Concat(parts[1..]), 2);
      PriceFromParts(parts[0], decimals);
      parts[0] + "." + decimals
  }

  /** Rejoining the pieces with dots gives back the string. */
  lemma {:induction false} JoinSplit(s: string)
    ensures |SplitDots(s)| == 1 ==> SplitDots(s)[0] == s
    ensures |SplitDots(s)| == 2 ==> SplitDots(s)[0] + "." + SplitDots(s)[1] == s
  {
    if s != [] {
      JoinSplit(s[1..]);
      var rest := SplitDots(s[1..]);
      if s[0] != '.' {
        assert s == [s[0]] + s[1..];
      } else if |rest| == 1 {
        assert s == "." + rest[0];
      }
    }
  }

  /** A price as typed passes the intended sanitiser unchanged. */
  lemma FixedKeepsPrices(v: string)
    requires IsPriceInput(v)
    ensures SanitizePriceFixed(v) == v
  {
    FilterAll(v, IsPriceChar);
    var parts := SplitDots(v);
    JoinSplit(v);
    if |parts| == 2 {
      assert Concat(parts[1..]) == parts[1] + Concat([]);
    }
  }

  /** The intended sanitiser is idempotent. */
  lemma FixedIdempotent(value: string)
    ensures SanitizePriceFixed(SanitizePriceFixed(value)) == SanitizePriceFixed(value)
  {
    FixedKeepsPrices(SanitizePriceFixed(value));
  }

  /** Where the kept characters hold at most one dot, both sanitisers agree. */
  lemma FixedAgreesOnOneDot(value: string)
    requires |SplitDots(KeepPriceChars(value))| <= 2
    ensures SanitizePriceFixed(value) == SanitizePrice(value)
  {
    var n := KeepPriceChars(value);
    var parts := SplitDots(n);
    JoinSplit(n);
    if |parts| == 2 {
      assert Concat(parts[1..]) == parts[1] + Concat([]);
    }
  }

  // ---------------------------------------------------------------- formatPrice

  /** `replace(/\B(?=(\d{3})+(?!\d))/g, ',')` on a run of digits: a comma before every third digit from the right. */
  function Group(d: string): (r: string)
    ensures |d| > 0 ==> |r| == |d| + (|d| - 1) / 3
    ensures |d| == 0 ==> r == []
    decreases |d|
  {
    if |d| <= 3 then d else Group(d[..|d| - 3]) + "," + d[|d| - 3..]
  }

  /** In grouped digits the commas sit exactly where a positive multiple of four characters remains. */
  lemma {:induction false} GroupCommas(d: string)
    requires AllDigits(d)
    ensures forall i :: 0 <= i < |Group(d)| ==> (Group(d)[i] == ',' <==> 0 < i && (|Group(d)| - i) % 4 == 0)
    decreases |d|
  {
    if |d| > 3 {
      var h := d[..|d| - 3];
      var t := d[|d| - 3..];
      GroupCommas(h);
      var g := Group(h);
      var r := g + "," + t;
      forall i | 0 <= i < |r| ensures r[i] == ',' <==> 0 < i && (|r| - i) % 4 == 0 {
        if i < |g| {
          assert r[i] == g[i] && |r| - i == (|g| - i) + 4;
        } else if i > |g| {
          assert r[i] == t[i - |g| - 1];
        }
      }
    }
  }

  /** Removing the commas from grouped digits gives the digits back. */
  lemma {:induction false} GroupDigits(d: string)
    requires AllDigits(d)
    ensures Filter(Group(d), IsPriceChar) == d
    decreases |d|
  {
    if |d| <= 3 {
      FilterAll(d, IsPriceChar);
    } else {
      var h := d[..|d| - 3];
      var t := d[|d| - 3..];
      assert AllDigits(h) && AllDigits(t);
      calc {
        Filter(Group(d), IsPriceChar);
        { assert Group(d) == Group(h) + ("," + t); }
        Filter(Group(h) + ("," + t), IsPriceChar);
        { FilterAppend(Group(h), "," + t, IsPriceChar); }
        Filter(Group(h), IsPriceChar) + Filter("," + t, IsPriceChar);
        { GroupDigits(h); CommaDropped(t); }
        h + t;
        { assert d == h + t; }
        d;
      }
    }
  }

  /** A comma before digits is dropped by the price filter. */
  lemma CommaDropped(t: string)
    requires AllDigits(t)
    ensures Filter("," + t, IsPriceChar) == t
  {
    assert ("," + t)[0] == ',' && ("," + t)[1..] == t;
    FilterAll(t, IsPriceChar);
  }

  /**
   * `formatPrice(value)`: keep digits and dots, group the integer part, and append the
   * first piece after a dot cut to two decimals.
   */
  function FormatPrice(value: string): (r: string)
  {
    var parts := SplitDots(KeepPriceChars(value));
    var decimalPart := if |parts| > 1 then "." + Take(parts[1], 2) else "";
    Group(parts[0]) + decimalPart
  }

  /**
   * A formatted price is the grouped integer part, then a dot and at most two decimals when
   * the kept characters had a dot; removing its commas gives the integer part back.
   */
  lemma FormatShape(value: string)
    ensures var parts := SplitDots(KeepPriceChars(value));
            var g := Group(parts[0]);
            && IsPrefix(g, FormatPrice(value))
            && Filter(g, IsPriceChar) == parts[0]
            && (forall i :: 0 <= i < |g| ==> (g[i] == ',' <==> 0 < i && (|g| - i) % 4 == 0))
            && (|parts| == 1 ==> FormatPrice(value) == g)
            && (|parts| > 1 ==> FormatPrice(value) == g + "." + Take(parts[1], 2))
  {
    var parts := SplitDots(KeepPriceChars(value));
    GroupDigits(parts[0]);
    GroupCommas(parts[0]);
  }

  /** Keeping the price characters of a formatted price as typed drops exactly its commas. */
  lemma KeepFormatted(v: string)
    requires IsPriceInput(v)
    ensures KeepPriceChars(FormatPrice(v)) == v
  {
    assert KeepPriceChars(v) == v by {
      FilterAll(v, IsPriceChar);
    }
    var parts := SplitDots(v);
    assert AllDigits(parts[0]) by {
      PartsAreDigits(v);
    }
    var g := Group(parts[0]);
    assert Filter(g, IsPriceChar) == parts[0] by {
      GroupDigits(parts[0]);
    }
    if |parts| > 1 {
      assert parts[0] + ("." + parts[1]) == v by {
        JoinSplit(v);
      }
      assert AllDigits(parts[1]) by {
        PartsAreDigits(v);
      }
      calc {
        KeepPriceChars(FormatPrice(v));
        { assert Take(parts[1], 2) == parts[1]; }
        Filter(g + ("." + parts[1]), IsPriceChar);
        { FilterAppend(g, "." + parts[1], IsPriceChar); }
        Filter(g, IsPriceChar) + Filter("." + parts[1], IsPriceChar);
        { FilterAll("." + parts[1], IsPriceChar); }
        v;
      }
    } else {
      assert parts[0] == v by {
        JoinSplit(v);
      }
      assert FormatPrice(v) == g + "" == g;
    }
  }

  /**
   * The price field shows `formatPrice(v)` and sanitises what it reads back: for a price as
   * typed, the round trip gives `v` back.
   */
  lemma FormatThenSanitize(v: string)
    requires IsPriceInput(v)
    ensures SanitizePrice(FormatPrice(v)) == v
  {
    KeepFormatted(v);
  }
}
