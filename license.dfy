/** The offline Pro unlock: a license key is accepted when it matches the
    anchored pattern ^NSQ-(?:2025|2026)-[A-Z0-9]{6}$, with no other check.

    The pattern is written in a small regular-expression language whose
    meaning is the set of positions a match can end at; the key is accepted
    when a match starting at 0 can end at the key's length. Beside it,
    `IsLicenseKey` spells out the same format position by position, and
    `PatternMatchesIff` proves that the two agree on every string. */
module License {
  import opened InvoiceData

  datatype Regex =
    | Empty                          // matches the empty string
    | Char(c: char)
    | Range(lo: char, hi: char)      // [lo-hi]
    | Alt(left: Regex, right: Regex)
    | Cat(first: Regex, second: Regex)

  /** `re` matches the slice `s[i..j]`. */
  predicate Matches(re: Regex, s: string, i: nat, j: nat): (r: bool)
    // a match is a slice of `s`
    ensures r ==> i <= j <= |s|
    decreases re
  {
    match re
    case Empty => j == i && j <= |s|
    case Char(c) => j == i + 1 && i < |s| && s[i] == c
    case Range(lo, hi) => j == i + 1 && i < |s| && lo <= s[i] <= hi
    case Alt(a, b) => Matches(a, s, i, j) || Matches(b, s, i, j)
    case Cat(a, b) => exists m: nat | i <= m <= j :: Matches(a, s, i, m) && Matches(b, s, m, j)
  }

  /** The literal string `w`. */
  function Lit(w: string): Regex
    decreases |w|
  {
    if w == [] then Empty else Cat(Char(w[0]), Lit(w[1..]))
  }

  /** `re{n}`. */
  function Power(re: Regex, n: nat): Regex
  {
    if n == 0 then Empty else Cat(re, Power(re, n - 1))
  }

  const UpperAlnum: Regex := Alt(Range('A', 'Z'), Range('0', '9'))

  /** ^NSQ-(?:2025|2026)-[A-Z0-9]{6}$, anchored: a key is accepted when a
      match of it runs from 0 to the key's length. */
  const LicensePattern: Regex :=
    Cat(Lit("NSQ-"), Cat(Alt(Lit("2025"), Lit("2026")), Cat(Lit("-"), Power(UpperAlnum, 6))))

  predicate IsUpperAlnum(c: char)
  {
    'A' <= c <= 'Z' || '0' <= c <= '9'
  }

  /** The key format spelled out: 15 characters, "NSQ-", a year of 2025 or
      2026, "-", then six characters from A-Z and 0-9. */
  predicate IsLicenseKey(key: string)
  {
    && |key| == 15
    && key[..4] == "NSQ-"
    && (key[4..8] == "2025" || key[4..8] == "2026")
    && key[8] == '-'
    && forall k :: 9 <= k < 15 ==> IsUpperAlnum(key[k])
  }

  /** The split point of a concatenation match. */
  lemma {:induction false} CatSplit(a: Regex, b: Regex, s: string, i: nat, j: nat) returns (m: nat)
    requires Matches(Cat(a, b), s, i, j)
    ensures i <= m <= j && Matches(a, s, i, m) && Matches(b, s, m, j)
  {
    m :| i <= m <= j && Matches(a, s, i, m) && Matches(b, s, m, j);
  }

  lemma {:induction false} CatJoin(a: Regex, b: Regex, s: string, i: nat, m: nat, j: nat)
    requires i <= m <= j && Matches(a, s, i, m) && Matches(b, s, m, j)
    ensures Matches(Cat(a, b), s, i, j)
  {
  }

  /** A literal matches exactly the slice that spells it. */
  lemma {:induction false} LitMatches(w: string, s: string, i: nat, j: nat)
    ensures Matches(Lit(w), s, i, j) <==> j == i + |w| && j <= |s| && s[i..j] == w
    decreases |w|
  {
    if w != [] {
      var c, rest := w[0], w[1..];
      assert Lit(w) == Cat(Char(c), Lit(rest));
      if Matches(Lit(w), s, i, j) {
        var m := CatSplit(Char(c), Lit(rest), s, i, j);
        LitMatches(rest, s, m, j);
        assert s[i..j] == [s[i]] + s[m..j];
        assert w == [c] + rest;
      }
      if j == i + |w| && j <= |s| && s[i..j] == w {
        assert s[i] == s[i..j][0] == c;
        assert s[i + 1..j] == s[i..j][1..];
        LitMatches(rest, s, i + 1, j);
        assert Matches(Char(c), s, i, i + 1) && Matches(Lit(rest), s, i + 1, j);
      }
    }
  }

  /** `[A-Z0-9]{n}` matches exactly n characters of that class. */
  lemma {:induction false} PowerMatches(n: nat, s: string, i: nat, j: nat)
    ensures Matches(Power(UpperAlnum, n), s, i, j) <==>
      j == i + n && j <= |s| && forall k :: i <= k < j ==> IsUpperAlnum(s[k])
    decreases n
  {
    if n > 0 {
      assert Power(UpperAlnum, n) == Cat(UpperAlnum, Power(UpperAlnum, n - 1));
      if Matches(Power(UpperAlnum, n), s, i, j) {
        var m := CatSplit(UpperAlnum, Power(UpperAlnum, n - 1), s, i, j);
        PowerMatches(n - 1, s, m, j);
      }
      if j == i + n && j <= |s| && forall k :: i <= k < j ==> IsUpperAlnum(s[k]) {
        PowerMatches(n - 1, s, i + 1, j);
        assert Matches(UpperAlnum, s, i, i + 1);
      }
    }
  }

  /** A literal followed by `t`: the text at `i` spells the literal and
      `t` matches from there. */
  lemma {:induction false} CatLitMatches(w: string, t: Regex, s: string, i: nat, j: nat)
    ensures Matches(Cat(Lit(w), t), s, i, j) <==>
      i + |w| <= j && i + |w| <= |s| && s[i..i + |w|] == w && Matches(t, s, i + |w|, j)
  {
    if Matches(Cat(Lit(w), t), s, i, j) {
      var m := CatSplit(Lit(w), t, s, i, j);
      LitMatches(w, s, i, m);
    }
    if i + |w| <= j && i + |w| <= |s| && s[i..i + |w|] == w && Matches(t, s, i + |w|, j) {
      LitMatches(w, s, i, i + |w|);
      assert Matches(Lit(w), s, i, i + |w|);
    }
  }

  /** A choice followed by `t` is a choice of two sequences. */
  lemma {:induction false} CatAltMatches(a: Regex, b: Regex, t: Regex, s: string, i: nat, j: nat)
    ensures Matches(Cat(Alt(a, b), t), s, i, j) <==> Matches(Cat(a, t), s, i, j) || Matches(Cat(b, t), s, i, j)
  {
    if Matches(Cat(Alt(a, b), t), s, i, j) {
      var m := CatSplit(Alt(a, b), t, s, i, j);
      if Matches(a, s, i, m) {
        CatJoin(a, t, s, i, m, j);
      } else {
        CatJoin(b, t, s, i, m, j);
      }
    }
    if Matches(Cat(a, t), s, i, j) {
      var m := CatSplit(a, t, s, i, j);
      CatJoin(Alt(a, b), t, s, i, m, j);
    }
    if Matches(Cat(b, t), s, i, j) {
      var m := CatSplit(b, t, s, i, j);
      CatJoin(Alt(a, b), t, s, i, m, j);
    }
  }

  /** The part after the year: "-" and six class characters, ending the key. */
  predicate IsKeyTail(key: string)
  {
    |key| == 15 && key[8] == '-' && forall k :: 9 <= k < 15 ==> IsUpperAlnum(key[k])
  }

  lemma {:induction false} TailMatchesIff(key: string)
    ensures Matches(Cat(Lit("-"), Power(UpperAlnum, 6)), key, 8, |key|) <==> IsKeyTail(key)
  {
    CatLitMatches("-", Power(UpperAlnum, 6), key, 8, |key|);
    PowerMatches(6, key, 9, |key|);
    if 9 <= |key| {
      assert key[8..9] == [key[8]];
    }
  }

  lemma {:induction false} YearTailMatchesIff(key: string)
    ensures Matches(Cat(Alt(Lit("2025"), Lit("2026")), Cat(Lit("-"), Power(UpperAlnum, 6))), key, 4, |key|)
            <==> 8 <= |key| && (key[4..8] == "2025" || key[4..8] == "2026") && IsKeyTail(key)
  {
    var tail := Cat(Lit("-"), Power(UpperAlnum, 6));
    CatAltMatches(Lit("2025"), Lit("2026"), tail, key, 4, |key|);
    CatLitMatches("2025", tail, key, 4, |key|);
    CatLitMatches("2026", tail, key, 4, |key|);
    TailMatchesIff(key);
  }

  /** The pattern accepts exactly the keys of the spelled-out format. */
  lemma {:induction false} PatternMatchesIff(key: string)
    ensures Matches(LicensePattern, key, 0, |key|) <==> IsLicenseKey(key)
  {
    var rest := Cat(Alt(Lit("2025"), Lit("2026")), Cat(Lit("-"), Power(UpperAlnum, 6)));
    assert LicensePattern == Cat(Lit("NSQ-"), rest);
    CatLitMatches("NSQ-", rest, key, 0, |key|);
    YearTailMatchesIff(key);
  }

  /** `unlockPro(key)`: on a key the pattern accepts, unlock Pro and keep the
      key; otherwise (the app shows an alert) nothing changes. */
  function UnlockPro(d: AppData, key: string): (r: AppData)
    ensures IsLicenseKey(key) ==> r == d.(proUnlocked := true, licenseKey := key)
    ensures !IsLicenseKey(key) ==> r == d
  {
    PatternMatchesIff(key);
    if Matches(LicensePattern, key, 0, |key|) then d.(proUnlocked := true, licenseKey := key) else d
  }

  /** Unlocking is never undone by a later unlock attempt, and repeating an
      attempt changes nothing more. */
  lemma {:induction false} UnlockMonotone(d: AppData, key: string)
    ensures d.proUnlocked ==> UnlockPro(d, key).proUnlocked
    ensures UnlockPro(UnlockPro(d, key), key) == UnlockPro(d, key)
  {
  }

  lemma {:induction false} SampleKeys()
    ensures IsLicenseKey("NSQ-2025-ABC123")
    ensures IsLicenseKey("NSQ-2026-000000")
    ensures !IsLicenseKey("NSQ-2024-ABC123")
    ensures !IsLicenseKey("NSQ-2025-abc123")
    ensures !IsLicenseKey("NSQ-2025-ABC1234")
    ensures !IsLicenseKey("NSQ-2025ABC1234")
  {
    assert "NSQ-2024-ABC123"[7] == '4';
    assert "NSQ-2025-abc123"[9] == 'a';
    assert "NSQ-2025ABC1234"[8] == 'A';
  }
}
