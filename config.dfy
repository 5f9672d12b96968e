/**
 The one piece of logic in the settings object: `get_allowed_origins`, which
 turns the `ALLOWED_ORIGINS` string into the CORS allow-list. Loading the
 settings from the environment is not part of this model.

 `split` and `strip` are written as the index scans they are: a search for
 the next comma, and a search from each end for the first character that is
 not whitespace.
 */
module Config {

  /** Python's `str.isspace` on one character: the characters `str.strip()`
      removes when called without arguments. */
  predicate IsSpace(c: char) {
    || ('\t' <= c <= '\r')
    || ('\U{1C}' <= c <= '\U{20}')
    || c == '\U{85}' || c == '\U{A0}' || c == '\U{1680}'
    || ('\U{2000}' <= c <= '\U{200A}')
    || c == '\U{2028}' || c == '\U{2029}' || c == '\U{202F}' || c == '\U{205F}'
    || c == '\U{3000}'
  }

  /** No whitespace at either end. */
  predicate IsStripped(s: string) {
    s == [] || (!IsSpace(s[0]) && !IsSpace(s[|s| - 1]))
  }

  /** No character of `s` is a comma. */
  predicate CommaFree(s: string) {
    forall k :: 0 <= k < |s| ==> s[k] != ','
  }

  /** Index of the first comma at or after `i`, or `|s|` when there is
      none. */
  function NextComma(s: string, i: nat): (j: nat)
    requires i <= |s|
    ensures i <= j <= |s|
    ensures forall k :: i <= k < j ==> s[k] != ','
    ensures j < |s| ==> s[j] == ','
    decreases |s| - i
  {
    if i == |s| || s[i] == ',' then i else NextComma(s, i + 1)
  }

  /** `s.split(",")`: the pieces between commas, empty ones included. */
  function Split(s: string): (r: seq<string>)
    ensures |r| >= 1
    decreases |s|
  {
    var j := NextComma(s, 0);
    if j == |s| then [s] else [s[..j]] + Split(s[j + 1..])
  }

  /** No piece of a split contains a comma. */
  lemma {:induction false} SplitPieces(s: string)
    ensures forall k :: 0 <= k < |Split(s)| ==> CommaFree(Split(s)[k])
    decreases |s|
  {
    var j := NextComma(s, 0);
    if j < |s| {
      SplitPieces(s[j + 1..]);
      assert forall k :: 0 <= k < j ==> s[..j][k] == s[k];
      assert Split(s) == [s[..j]] + Split(s[j + 1..]);
    }
  }

  /** A split gives one more piece than there are commas. */
  lemma {:induction false} SplitCount(s: string)
    ensures |Split(s)| == multiset(s)[','] + 1
    decreases |s|
  {
    var j := NextComma(s, 0);
    if j < |s| {
      SplitCount(s[j + 1..]);
      assert forall k :: 0 <= k < j ==> s[..j][k] == s[k];
      assert ',' !in s[..j];
      assert s == s[..j] + [','] + s[j + 1..];
      assert multiset(s) == multiset(s[..j]) + multiset{','} + multiset(s[j + 1..]);
    } else {
      assert ',' !in s;
    }
  }

  /** `",".join(parts)`. */
  function Join(parts: seq<string>): string
    decreases |parts|
  {
    if |parts| == 0 then ""
    else if |parts| == 1 then parts[0]
    else parts[0] + "," + Join(parts[1..])
  }

  /** Joining a piece in front of at least one more adds one comma. */
  lemma JoinCons(a: string, rest: seq<string>)
    requires |rest| >= 1
    ensures Join([a] + rest) == a + "," + Join(rest)
  {
    assert ([a] + rest)[1..] == rest;
  }

  /** A string is the part before a comma, the comma and the part after. */
  lemma CommaSplice(s: string, i: nat)
    requires i < |s| && s[i] == ','
    ensures s[..i] + "," + s[i + 1..] == s
  {
    assert s == s[..i] + [s[i]] + s[i + 1..];
  }

  /** Joining the pieces of a split with commas gives the string back. */
  lemma {:induction false} JoinSplit(s: string)
    ensures Join(Split(s)) == s
    decreases |s|
  {
    var j := NextComma(s, 0);
    if j < |s| {
      var rest := Split(s[j + 1..]);
      JoinSplit(s[j + 1..]);
      JoinCons(s[..j], rest);
      CommaSplice(s, j);
    }
  }

  /** The first piece of a split is everything before the first comma. */
  lemma SplitAfterComma(a: string, t: string)
    requires CommaFree(a)
    ensures Split(a + "," + t) == [a] + Split(t)
  {
    var s := a + "," + t;
    assert s[|a|] == ',';
    assert forall k :: 0 <= k < |a| ==> s[k] == a[k];
    var j := NextComma(s, 0);
    assert j == |a|;
    assert s[..j] == a;
    assert s[j + 1..] == t;
  }

  /** Splitting a comma-join of comma-free pieces gives the pieces back. */
  lemma {:induction false} SplitJoin(parts: seq<string>)
    requires |parts| > 0
    requires forall k :: 0 <= k < |parts| ==> CommaFree(parts[k])
    ensures Split(Join(parts)) == parts
    decreases |parts|
  {
    if |parts| > 1 {
      var a, rest := parts[0], parts[1..];
      assert parts == [a] + rest;
      JoinCons(a, rest);
      SplitAfterComma(a, Join(rest));
      SplitJoin(rest);
    }
  }

  /** Index of the first character at or after `i` that is not
      whitespace, or `|s|`. */
  function FirstNonSpace(s: string, i: nat): (j: nat)
    requires i <= |s|
    ensures i <= j <= |s|
    ensures forall k :: i <= k < j ==> IsSpace(s[k])
    ensures j < |s| ==> !IsSpace(s[j])
    decreases |s| - i
  {
    if i == |s| || !IsSpace(s[i]) then i else FirstNonSpace(s, i + 1)
  }

  /** End of `s[lo..j]` once the whitespace at its end is dropped. */
  function EndNonSpace(s: string, lo: nat, j: nat): (e: nat)
    requires lo <= j <= |s|
    ensures lo <= e <= j
    ensures forall k :: e <= k < j ==> IsSpace(s[k])
    ensures e > lo ==> !IsSpace(s[e - 1])
    decreases j
  {
    if j == lo || !IsSpace(s[j - 1]) then j else EndNonSpace(s, lo, j - 1)
  }

  /** `r` is the slice of `s` starting at `i`, and everything of `s` outside
      it is whitespace. */
  ghost predicate TrimmedAt(s: string, r: string, i: int) {
    && 0 <= i <= |s| - |r|
    && r == s[i..i + |r|]
    && (forall k :: 0 <= k < i ==> IsSpace(s[k]))
    && (forall k :: i + |r| <= k < |s| ==> IsSpace(s[k]))
  }

  /** `s.strip()`. */
  function Strip(s: string): (r: string)
    ensures IsStripped(r)
  {
    var lo := FirstNonSpace(s, 0);
    var hi := EndNonSpace(s, lo, |s|);
    assert hi > lo ==> s[lo..hi][0] == s[lo] && s[lo..hi][hi - lo - 1] == s[hi - 1];
    s[lo..hi]
  }

  /** What `strip()` removes is whitespace, and only from the two ends: its
      result is a slice of the input with whitespace alone around it. */
  lemma StripSlice(s: string)
    ensures exists i :: TrimmedAt(s, Strip(s), i)
  {
    var lo := FirstNonSpace(s, 0);
    assert TrimmedAt(s, Strip(s), lo);
  }

  /** Stripping a comma-free string leaves a comma-free string. */
  lemma StripCommaFree(s: string)
    requires CommaFree(s)
    ensures CommaFree(Strip(s))
  {
    var lo := FirstNonSpace(s, 0);
    var r := Strip(s);
    assert forall k :: 0 <= k < |r| ==> r[k] == s[lo + k];
  }

  /** A string of whitespace alone strips to nothing. */
  lemma StripAllSpace(s: string)
    requires forall k :: 0 <= k < |s| ==> IsSpace(s[k])
    ensures Strip(s) == []
  {
    assert FirstNonSpace(s, 0) == |s|;
  }

  /** A string with no whitespace at either end is its own strip. */
  lemma StripFixed(s: string)
    requires IsStripped(s)
    ensures Strip(s) == s
  {
    if s != [] {
      assert FirstNonSpace(s, 0) == 0;
      assert EndNonSpace(s, 0, |s|) == |s|;
    }
    assert s[0..|s|] == s;
  }

  /** What the comprehension keeps of one piece: the piece stripped, if
      that leaves something. */
  function Kept(piece: string): (r: seq<string>)
    ensures |r| <= 1
    ensures r != [] ==> r == [Strip(piece)] && r[0] != ""
  {
    var t := Strip(piece);
    if t != "" then [t] else []
  }

  /** The list comprehension `[o.strip() for o in pieces if o.strip()]`. */
  function Clean(pieces: seq<string>): (r: seq<string>)
    ensures |r| <= |pieces|
    decreases |pieces|
  {
    if pieces == [] then [] else Kept(pieces[0]) + Clean(pieces[1..])
  }

  /** Every element the comprehension keeps is non-empty and stripped. */
  lemma {:induction false} CleanShape(pieces: seq<string>)
    ensures forall k :: 0 <= k < |Clean(pieces)| ==> Clean(pieces)[k] != "" && IsStripped(Clean(pieces)[k])
    decreases |pieces|
  {
    if pieces != [] {
      CleanShape(pieces[1..]);
    }
  }

  lemma CleanCons(piece: string, rest: seq<string>)
    ensures Clean([piece] + rest) == Kept(piece) + Clean(rest)
  {
    assert ([piece] + rest)[0] == piece;
    assert ([piece] + rest)[1..] == rest;
  }

  /** Stripping comma-free pieces leaves comma-free elements. */
  lemma {:induction false} CleanCommaFree(pieces: seq<string>)
    requires forall k :: 0 <= k < |pieces| ==> CommaFree(pieces[k])
    ensures forall k :: 0 <= k < |Clean(pieces)| ==> CommaFree(Clean(pieces)[k])
    decreases |pieces|
  {
    if pieces != [] {
      StripCommaFree(pieces[0]);
      CleanCommaFree(pieces[1..]);
    }
  }

  /** The comprehension keeps the order of its input: cleaning a
      concatenation cleans each part in turn. */
  lemma {:induction false} CleanAppend(a: seq<string>, b: seq<string>)
    ensures Clean(a + b) == Clean(a) + Clean(b)
    decreases |a|
  {
    if a != [] {
      var piece, rest := a[0], a[1..];
      assert a == [piece] + rest;
      assert a + b == [piece] + (rest + b);
      CleanCons(piece, rest + b);
      CleanCons(piece, rest);
      CleanAppend(rest, b);
      assert Kept(piece) + (Clean(rest) + Clean(b)) == (Kept(piece) + Clean(rest)) + Clean(b);
    } else {
      assert a + b == b;
    }
  }

  /** A piece survives the comprehension, stripped, exactly when stripping
      leaves something. */
  lemma CleanOne(piece: string)
    ensures Clean([piece]) == if Strip(piece) == "" then [] else [Strip(piece)]
  {
    assert [piece][1..] == [];
  }

  /** Pieces already stripped and non-empty pass through unchanged. */
  lemma {:induction false} CleanFixed(pieces: seq<string>)
    requires forall k :: 0 <= k < |pieces| ==> pieces[k] != "" && IsStripped(pieces[k])
    ensures Clean(pieces) == pieces
    decreases |pieces|
  {
    if pieces != [] {
      StripFixed(pieces[0]);
      CleanFixed(pieces[1..]);
    }
  }

  /** `Settings.get_allowed_origins`. */
  function GetAllowedOrigins(allowedOrigins: string): (r: seq<string>)
    ensures allowedOrigins == "*" ==> r == ["*"]
    ensures |r| <= multiset(allowedOrigins)[','] + 1
    ensures forall k :: 0 <= k < |r| ==> r[k] != "" && IsStripped(r[k]) && CommaFree(r[k])
  {
    if allowedOrigins == "*" then ["*"]
    else
      SplitCount(allowedOrigins);
      SplitPieces(allowedOrigins);
      CleanShape(Split(allowedOrigins));
      CleanCommaFree(Split(allowedOrigins));
      Clean(Split(allowedOrigins))
  }

  /** Every character is a comma or whitespace. */
  predicate OnlySeparators(s: string) {
    forall k :: 0 <= k < |s| ==> s[k] == ',' || IsSpace(s[k])
  }

  lemma SeparatorsSuffix(s: string, i: nat)
    requires OnlySeparators(s) && i <= |s|
    ensures OnlySeparators(s[i..])
  {
    assert forall k :: 0 <= k < |s| - i ==> s[i..][k] == s[i + k];
  }

  /** The piece before the first comma is whitespace alone. */
  lemma FirstPieceStripsAway(s: string)
    requires OnlySeparators(s)
    ensures Strip(s[..NextComma(s, 0)]) == []
  {
    var j := NextComma(s, 0);
    assert forall k :: 0 <= k < j ==> s[..j][k] == s[k];
    StripAllSpace(s[..j]);
  }

  /** Every piece of such a string strips to nothing. */
  lemma {:induction false} SeparatorsCleanToNothing(s: string)
    requires OnlySeparators(s)
    ensures Clean(Split(s)) == []
    decreases |s|
  {
    var j := NextComma(s, 0);
    FirstPieceStripsAway(s);
    if j < |s| {
      SeparatorsSuffix(s, j + 1);
      SeparatorsCleanToNothing(s[j + 1..]);
      CleanCons(s[..j], Split(s[j + 1..]));
    } else {
      assert s[..j] == s;
      CleanOne(s);
    }
  }

  /** Only commas and whitespace (the empty string among them) give an
      empty allow-list. */
  lemma OnlySeparatorsGiveNothing(s: string)
    requires OnlySeparators(s)
    ensures GetAllowedOrigins(s) == []
  {
    assert s != "*" by {
      assert |s| == 1 ==> s[0] == ',' || IsSpace(s[0]);
    }
    SeparatorsCleanToNothing(s);
  }

  /** Joining the allow-list with commas and parsing it again gives the same
      allow-list. */
  lemma Idempotent(s: string)
    ensures GetAllowedOrigins(Join(GetAllowedOrigins(s))) == GetAllowedOrigins(s)
  {
    var r := GetAllowedOrigins(s);
    var j := Join(r);
    if r == ["*"] {
      assert j == "*";
    } else if r == [] {
      assert j == "";
      assert Split(j) == [""];
      CleanOne("");
    } else {
      if |r| == 1 {
        assert j == r[0];
      } else {
        assert j == r[0] + "," + Join(r[1..]);
        assert |j| >= 2;
      }
      assert j != "*";
      SplitJoin(r);
      CleanFixed(r);
    }
  }
}
