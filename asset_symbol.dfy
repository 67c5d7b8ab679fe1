/** The `AssetSymbol` value object: a ticker or currency code, trimmed, upper-cased and
    checked against `^[A-Z]{2,10}$`. `TRY` is the only currency. */
module AssetSymbolValue {
  import opened Wrappers

  /** The symbols classified as currencies. */
  const CurrencySymbols: set<string> := {"TRY"}

  datatype AssetType = CURRENCY | STOCK

  /** The index of the first character at or after `st` that is above the space
      character (or `|s|`): the first loop of `String.trim`. */
  function SkipLeading(s: string, st: nat): (k: nat)
    requires st <= |s|
    ensures st <= k <= |s|
    ensures k < |s| ==> s[k] > ' '
    ensures forall i :: st <= i < k ==> s[i] <= ' '
    decreases |s| - st
  {
    if st < |s| && s[st] <= ' ' then SkipLeading(s, st + 1) else st
  }

  /** The end of `s[st..len]` once trailing characters at or below the space character
      are dropped: the second loop of `String.trim`. */
  function SkipTrailing(s: string, st: nat, len: nat): (k: nat)
    requires st <= len <= |s|
    ensures st <= k <= len
    ensures st < k ==> s[k - 1] > ' '
    ensures forall i :: k <= i < len ==> s[i] <= ' '
  {
    if st < len && s[len - 1] <= ' ' then SkipTrailing(s, st, len - 1) else len
  }

  /** `String.trim`: the middle of `s` left once both ends are stripped of characters
      at or below the space character. */
  function Trim(s: string): (r: string)
    ensures exists st, len :: && 0 <= st <= len <= |s| && r == s[st..len]
                              && (forall i :: 0 <= i < st ==> s[i] <= ' ')
                              && (forall i :: len <= i < |s| ==> s[i] <= ' ')
    ensures r != [] ==> r[0] > ' ' && r[|r| - 1] > ' '
    ensures s == [] || (s[0] > ' ' && s[|s| - 1] > ' ') ==> r == s
    ensures (forall i :: 0 <= i < |s| ==> s[i] <= ' ') <==> r == []
  {
    var st := SkipLeading(s, 0);
    var len := SkipTrailing(s, st, |s|);
    s[st..len]
  }

  /** Text made of the capitals A to Z only. */
  predicate Capitals(u: string) {
    forall j :: 0 <= j < |u| ==> 'A' <= u[j] <= 'Z'
  }

  /** The characters whose upper-case form (`Character`'s full case mapping, with the
      special cases of `String.toUpperCase`) is made of the letters A to Z only: the
      Latin letters, the dotless i, the long s, the sharp s and the Latin ligatures of
      f, l, i, s and t. */
  predicate UppersToLatin(c: char) {
    || 'A' <= c <= 'Z' || 'a' <= c <= 'z'
    || c == '\U{0131}' || c == '\U{017F}' || c == '\U{00DF}'
    || '\U{FB00}' <= c <= '\U{FB06}'
  }

  /** The upper-case forms of the ligatures U+FB00 to U+FB06: ff, fi, fl, ffi, ffl, long
      s t and s t. */
  const LigatureCapitals: seq<string> := ["FF", "FI", "FL", "FFI", "FFL", "ST", "ST"]

  /** `String.toUpperCase` of one character, in a locale without language-specific
      rules. Any other character is kept as it is: its Java upper-case form also holds a
      character outside A to Z, so the symbol pattern rejects both alike. */
  function UpperOf(c: char): (u: string)
    ensures 1 <= |u| <= 3
    ensures 'A' <= c <= 'Z' ==> u == [c]
    ensures 'a' <= c <= 'z' ==> u == [(c as int - 32) as char]
    ensures Capitals(u) <==> UppersToLatin(c)
    ensures |u| > 1 ==> c == '\U{00DF}' || '\U{FB00}' <= c <= '\U{FB06}'
  {
    if 'a' <= c <= 'z' then [(c as int - 32) as char]
    else if c == '\U{0131}' then "I"        // dotless i
    else if c == '\U{017F}' then "S"        // long s
    else if c == '\U{00DF}' then "SS"       // sharp s
    else if '\U{FB00}' <= c <= '\U{FB06}' then
      assert forall k :: 0 <= k < |LigatureCapitals| ==> Capitals(LigatureCapitals[k]);
      LigatureCapitals[c as int - 0xFB00]
    else
      assert Capitals([c]) <==> 'A' <= c <= 'Z' by {
        assert [c][0] == c;
      }
      [c]
  }

  /** `String.toUpperCase`: the upper-case forms of the characters, in order; never
      shorter than the text. */
  function ToUpper(s: string): (r: string)
    ensures |r| >= |s|
  {
    if s == [] then [] else UpperOf(s[0]) + ToUpper(s[1..])
  }

  /** The pattern `^[A-Z]{2,10}$`. */
  predicate IsValidSymbol(s: string) {
    2 <= |s| <= 10 && Capitals(s)
  }

  function Normalize(s: string): string {
    ToUpper(Trim(s))
  }

  datatype AssetSymbol = AssetSymbol(symbol: string) {

    predicate Valid() {
      IsValidSymbol(symbol)
    }

    /** `new AssetSymbol(symbol)` (and `AssetSymbol.of`): null or blank input is rejected
        first; otherwise the trimmed, upper-cased text must match the pattern. */
    static function Of(s: Option<string>): (r: Result<AssetSymbol>)
      ensures r.Ok? <==> s.Some? && IsValidSymbol(Normalize(s.value))
      ensures r.Ok? ==> r.value.Valid() && r.value.symbol == Normalize(s.value)
      ensures s.None? || Trim(s.value) == [] ==>
                r == Err(IllegalArgument("Asset symbol cannot be null or empty"))
      ensures s.Some? && Trim(s.value) != [] && !IsValidSymbol(Normalize(s.value)) ==>
                r == Err(IllegalArgument("Asset symbol must be 2-10 uppercase letters: " + s.value))
    {
      if s.None? || Trim(s.value) == [] then
        Err(IllegalArgument("Asset symbol cannot be null or empty"))
      else
        var normalized := ToUpper(Trim(s.value));
        if !IsValidSymbol(normalized) then
          Err(IllegalArgument("Asset symbol must be 2-10 uppercase letters: " + s.value))
        else
          Ok(AssetSymbol(normalized))
    }

    static function TrySymbol(): (a: AssetSymbol)
      ensures a.Valid() && a.symbol == "TRY"
    {
      NormalizeOfValid("TRY");
      Of(Some("TRY")).value
    }

    predicate IsCurrency() {
      symbol in CurrencySymbols
    }

    predicate IsStock() {
      !IsCurrency()
    }

    function GetType(): AssetType {
      if IsCurrency() then CURRENCY else STOCK
    }

    /** Only `TRY` is a currency, so every arm but the first of the inner choice is
        unreachable; they are kept as the source has them. */
    function GetDisplayName(): string {
      if IsCurrency() then
        if symbol == "TRY" then "Turkish Lira"
        else if symbol == "USD" then "US Dollar"
        else if symbol == "EUR" then "Euro"
        else if symbol == "GBP" then "British Pound"
        else if symbol == "JPY" then "Japanese Yen"
        else symbol
      else symbol
    }
  }

  /** Upper-casing text that is already upper-case changes nothing. */
  lemma {:induction false} ToUpperOfUpper(s: string)
    requires Capitals(s)
    ensures ToUpper(s) == s
  {
    if s != [] {
      ToUpperOfUpper(s[1..]);
      assert ToUpper(s) == UpperOf(s[0]) + ToUpper(s[1..]);
    }
  }

  /** Upper-cased text is all capitals exactly when every character upper-cases to
      capitals. */
  lemma {:induction false} ToUpperCapitals(s: string)
    ensures Capitals(ToUpper(s)) <==> forall i :: 0 <= i < |s| ==> UppersToLatin(s[i])
  {
    if s != [] {
      var u, t := UpperOf(s[0]), ToUpper(s[1..]);
      ToUpperCapitals(s[1..]);
      assert forall i :: 1 <= i < |s| ==> s[i] == s[1..][i - 1];
      assert forall j :: 0 <= j < |u| ==> (u + t)[j] == u[j];
      assert forall j :: 0 <= j < |t| ==> (u + t)[|u| + j] == t[j];
      assert Capitals(u + t) <==> Capitals(u) && Capitals(t);
    }
  }

  /** On text without special characters upper-casing keeps the length and maps each
      lower-case letter to its capital, and every other character to itself. */
  lemma {:induction false} ToUpperOfAscii(s: string)
    requires forall i :: 0 <= i < |s| ==> s[i] < '\U{0080}'
    ensures |ToUpper(s)| == |s|
    ensures forall i :: 0 <= i < |s| ==>
              ToUpper(s)[i] == if 'a' <= s[i] <= 'z' then (s[i] as int - 32) as char else s[i]
  {
    if s != [] {
      assert forall i :: 1 <= i < |s| ==> s[i] == s[1..][i - 1];
      ToUpperOfAscii(s[1..]);
      assert ToUpper(s) == UpperOf(s[0]) + ToUpper(s[1..]);
    }
  }

  /** A valid symbol is its own normal form. */
  lemma NormalizeOfValid(s: string)
    requires IsValidSymbol(s)
    ensures Trim(s) == s && Normalize(s) == s
  {
    ToUpperOfUpper(s);
  }

  /** Construction accepts a string unchanged exactly when it is already a valid
      symbol. */
  lemma OfKeepsExactlyValid(s: string)
    ensures AssetSymbol.Of(Some(s)) == Ok(AssetSymbol(s)) <==> IsValidSymbol(s)
  {
    if IsValidSymbol(s) {
      NormalizeOfValid(s);
    }
  }

  /** Any text whose normal form is a valid symbol makes that symbol. */
  lemma OfNormalForm(s: string, n: string)
    requires Normalize(s) == n && IsValidSymbol(n)
    ensures AssetSymbol.Of(Some(s)) == Ok(AssetSymbol(n))
  {
  }

  /** Normalisation is idempotent: rebuilding a symbol from its own text gives it back. */
  lemma OfIdempotent(s: string)
    requires AssetSymbol.Of(Some(s)).Ok?
    ensures AssetSymbol.Of(Some(AssetSymbol.Of(Some(s)).value.symbol)) == AssetSymbol.Of(Some(s))
  {
    NormalizeOfValid(AssetSymbol.Of(Some(s)).value.symbol);
  }

  /** `isCurrency` holds exactly for `TRY`; `isStock` and `getType` follow it; the display
      name is "Turkish Lira" exactly for `TRY` and the symbol itself otherwise. */
  lemma Classification(a: AssetSymbol)
    requires a.Valid()
    ensures a.IsCurrency() <==> a.symbol == "TRY"
    ensures a.IsStock() <==> !a.IsCurrency()
    ensures a.GetType() == CURRENCY <==> a.IsCurrency()
    ensures a.GetDisplayName() == "Turkish Lira" <==> a.symbol == "TRY"
    ensures a.symbol != "TRY" ==> a.GetDisplayName() == a.symbol
  {
  }

  /** Trimming drops the two blanks on either side. */
  lemma TrimPadded()
    ensures Trim("  googl  ") == "googl"
  {
    assert SkipLeading("  googl  ", 0) == 2;
    assert SkipTrailing("  googl  ", 2, 9) == 7;
  }

  /** Surrounding blanks are trimmed and letters upper-cased: "  googl  " is GOOGL. */
  lemma TrimExample()
    ensures AssetSymbol.Of(Some("  googl  ")) == Ok(AssetSymbol("GOOGL"))
  {
    assert IsValidSymbol("GOOGL");
    TrimPadded();
    assert ToUpper("googl") == "GOOGL" by {
      ToUpperOfAscii("googl");
    }
    OfNormalForm("  googl  ", "GOOGL");
  }

  /** "aapl" and "AAPL" make the same symbol. */
  lemma CaseExample()
    ensures AssetSymbol.Of(Some("aapl")) == AssetSymbol.Of(Some("AAPL")) == Ok(AssetSymbol("AAPL"))
  {
    assert Normalize("aapl") == "AAPL" by {
      assert Trim("aapl") == "aapl";
      ToUpperOfAscii("aapl");
    }
    assert IsValidSymbol("AAPL");
    NormalizeOfValid("AAPL");
    OfNormalForm("aapl", "AAPL");
    OfNormalForm("AAPL", "AAPL");
  }

  /** Upper-casing follows Java's special cases: the dotless i of "b\U{0131}st" becomes I,
      and the sharp s of "a\U{00DF}" becomes SS, so the symbol grows by one letter. */
  lemma SpecialCaseExample()
    ensures AssetSymbol.Of(Some("b\U{0131}st")) == Ok(AssetSymbol("BIST"))
    ensures AssetSymbol.Of(Some("a\U{00DF}")) == Ok(AssetSymbol("ASS"))
  {
    assert IsValidSymbol("BIST");
    assert IsValidSymbol("ASS");
    assert ToUpper("b\U{0131}st") == "BIST" by {
      assert ToUpper("t") == "T";
      assert ToUpper("st") == "S" + ToUpper("t");
      assert ToUpper("\U{0131}st") == "I" + ToUpper("st");
      assert ToUpper("b\U{0131}st") == "B" + ToUpper("\U{0131}st");
    }
    assert ToUpper("a\U{00DF}") == "ASS" by {
      assert ToUpper("\U{00DF}") == "SS";
      assert ToUpper("a\U{00DF}") == "A" + ToUpper("\U{00DF}");
    }
    OfNormalForm("b\U{0131}st", "BIST");
    OfNormalForm("a\U{00DF}", "ASS");
  }

  /** Blank input is rejected as empty. */
  lemma BlankExample()
    ensures AssetSymbol.Of(Some("   ")) == Err(IllegalArgument("Asset symbol cannot be null or empty"))
    ensures AssetSymbol.Of(Some("")) == Err(IllegalArgument("Asset symbol cannot be null or empty"))
  {
  }

  /** One letter and fourteen letters are outside the length bounds. */
  lemma LengthRejectedExample()
    ensures AssetSymbol.Of(Some("A")).Err?
    ensures AssetSymbol.Of(Some("VERYLONGSYMBOL")).Err?
  {
    assert |Normalize("A")| == 1 by {
      assert Trim("A") == "A";
      ToUpperOfAscii("A");
    }
    assert |Normalize("VERYLONGSYMBOL")| == 14 by {
      assert Trim("VERYLONGSYMBOL") == "VERYLONGSYMBOL";
      ToUpperOfAscii("VERYLONGSYMBOL");
    }
  }

  /** Two letters, the lower bound, are accepted. */
  lemma ShortestAcceptedExample()
    ensures AssetSymbol.Of(Some("AB")) == Ok(AssetSymbol("AB"))
  {
    NormalizeOfValid("AB");
  }

  /** Ten letters, the upper bound, are accepted. */
  lemma LongestAcceptedExample()
    ensures AssetSymbol.Of(Some("ABCDEFGHIJ")) == Ok(AssetSymbol("ABCDEFGHIJ"))
  {
    assert IsValidSymbol("ABCDEFGHIJ");
    NormalizeOfValid("ABCDEFGHIJ");
    OfNormalForm("ABCDEFGHIJ", "ABCDEFGHIJ");
  }

  /** Digits and punctuation are rejected. */
  lemma CharacterExample()
    ensures AssetSymbol.Of(Some("AAP1")).Err?
    ensures AssetSymbol.Of(Some("AA-PL")).Err?
  {
    assert !IsValidSymbol(Normalize("AAP1")) by {
      assert Trim("AAP1") == "AAP1" && !UppersToLatin("AAP1"[3]);
      ToUpperCapitals("AAP1");
    }
    assert !IsValidSymbol(Normalize("AA-PL")) by {
      assert Trim("AA-PL") == "AA-PL" && !UppersToLatin("AA-PL"[2]);
      ToUpperCapitals("AA-PL");
    }
  }
}
