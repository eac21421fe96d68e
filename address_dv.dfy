/** The address wrapper of the geo package. On construction the first
    address line is split into a street name and a house number, which are
    written back into the wrapped Android Address; the getters then fail
    when no address is wrapped. */
module AddressDV {
  import opened Wrappers

  /** InvalidAddressDVException, the NullPointerException of trimming a
      missing first address line, and the IllegalStateException of reading
      a coordinate the Address was never given. */
  datatype AddressError = InvalidAddress | NullPointer | IllegalState

  // ---------------------------------------------------------------------
  // String.trim

  /** String.trim drops leading and trailing characters up to ' '. */
  predicate IsTrimmable(c: char) {
    c <= ' '
  }

  function TrimLeft(s: string): (r: string)
    ensures |r| <= |s| && r == s[|s| - |r|..]
    ensures r == [] || !IsTrimmable(r[0])
    ensures forall i :: 0 <= i < |s| - |r| ==> IsTrimmable(s[i])
  {
    if |s| > 0 && IsTrimmable(s[0]) then
      var r := TrimLeft(s[1..]);
      assert s[1..][|s| - 1 - |r|..] == s[|s| - |r|..];
      assert forall i :: 1 <= i < |s| - |r| ==> s[i] == s[1..][i - 1];
      r
    else s
  }

  function TrimRight(s: string): (r: string)
    ensures |r| <= |s| && r == s[..|r|]
    ensures r == [] || !IsTrimmable(r[|r| - 1])
    ensures forall i :: |r| <= i < |s| ==> IsTrimmable(s[i])
  {
    if |s| > 0 && IsTrimmable(s[|s| - 1]) then
      var r := TrimRight(s[..|s| - 1]);
      assert s[..|s| - 1][..|r|] == s[..|r|];
      r
    else s
  }

  /** String.trim: the part of s between its leading and trailing runs of
      characters up to ' '. */
  function JavaTrim(s: string): (r: string)
    ensures |r| <= |s|
    ensures r == [] || (!IsTrimmable(r[0]) && !IsTrimmable(r[|r| - 1]))
  {
    TrimRight(TrimLeft(s))
  }

  /** A string whose ends are kept is its own trim. */
  lemma TrimKeeps(s: string)
    requires s != [] && !IsTrimmable(s[0]) && !IsTrimmable(s[|s| - 1])
    ensures JavaTrim(s) == s
  {
    assert TrimLeft(s) == s;
    assert TrimRight(s) == s;
  }

  /** Trimming twice is trimming once. */
  lemma TrimIdempotent(s: string)
    ensures JavaTrim(JavaTrim(s)) == JavaTrim(s)
  {
    var t := JavaTrim(s);
    assert TrimLeft(t) == t;
    assert TrimRight(t) == t;
  }

  // ---------------------------------------------------------------------
  // String.split(" ")

  predicate NoSpace(t: string) {
    forall i :: 0 <= i < |t| ==> t[i] != ' '
  }

  /** String.indexOf(' ') on a string that has a space. */
  function FirstSpace(s: string): (i: nat)
    requires !NoSpace(s)
    ensures i < |s| && s[i] == ' '
    ensures forall j :: 0 <= j < i ==> s[j] != ' '
  {
    if s[0] == ' ' then 0
    else
      var i := 1 + FirstSpace(s[1..]);
      assert forall j :: 1 <= j < i ==> s[j] == s[1..][j - 1];
      i
  }

  /** The pieces of s between its spaces, empty pieces included. */
  function RawSplit(s: string): (r: seq<string>)
    decreases |s|
    ensures |r| >= 1
    ensures forall k :: 0 <= k < |r| ==> NoSpace(r[k])
    ensures NoSpace(s) ==> r == [s]
    ensures r[|r| - 1] == [] ==> s == [] || s[|s| - 1] == ' '
  {
    if NoSpace(s) then [s]
    else
      var i := FirstSpace(s);
      assert NoSpace(s[..i]) by {
        assert forall j :: 0 <= j < i ==> s[..i][j] == s[j];
      }
      [s[..i]] + RawSplit(s[i + 1..])
  }

  /** The pieces joined back with single spaces. */
  function Join(parts: seq<string>): string
    requires |parts| >= 1
  {
    if |parts| == 1 then parts[0] else parts[0] + " " + Join(parts[1..])
  }

  /** Splitting on spaces and joining with spaces gives back the string. */
  lemma {:induction false} JoinRawSplit(s: string)
    decreases |s|
    ensures Join(RawSplit(s)) == s
  {
    if !NoSpace(s) {
      var i := FirstSpace(s);
      var r := RawSplit(s);
      assert r == [s[..i]] + RawSplit(s[i + 1..]);
      assert r[0] == s[..i] && r[1..] == RawSplit(s[i + 1..]);
      JoinRawSplit(s[i + 1..]);
      assert Join(r) == s[..i] + " " + s[i + 1..];
      SplitAround(s, i);
    }
  }

  /** A string is the part before a space, the space and the part after. */
  lemma SplitAround(s: string, i: nat)
    requires i < |s| && s[i] == ' '
    ensures s[..i] + " " + s[i + 1..] == s
  {
  }

  function DropTrailingEmpty(parts: seq<string>): (r: seq<string>)
    ensures |r| <= |parts| && r == parts[..|r|]
    ensures r == [] || r[|r| - 1] != ""
    ensures forall k :: |r| <= k < |parts| ==> parts[k] == ""
  {
    if |parts| > 0 && parts[|parts| - 1] == "" then
      var r := DropTrailingEmpty(parts[..|parts| - 1]);
      assert parts[..|parts| - 1][..|r|] == parts[..|r|];
      r
    else parts
  }

  /** String.split(" "): the whole string when it has no space; otherwise
      the pieces between spaces without the trailing empty ones. */
  function JavaSplit(s: string): (r: seq<string>)
    ensures forall k :: 0 <= k < |r| ==> NoSpace(r[k])
  {
    if NoSpace(s) then [s] else DropTrailingEmpty(RawSplit(s))
  }

  /** A string that does not end in a space splits into exactly its pieces,
      and they join back to it: nothing is lost from a trimmed line. */
  lemma SplitOfUnpadded(s: string)
    requires s == [] || s[|s| - 1] != ' '
    ensures JavaSplit(s) == RawSplit(s)
    ensures |JavaSplit(s)| >= 1 && Join(JavaSplit(s)) == s
  {
    JoinRawSplit(s);
  }

  /** The tokens of the first address line. */
  function Tokens(line: string): (r: seq<string>)
    ensures |r| >= 1 && Join(r) == JavaTrim(line)
    ensures forall k :: 0 <= k < |r| ==> NoSpace(r[k])
    ensures r == RawSplit(JavaTrim(line))
  {
    SplitOfUnpadded(JavaTrim(line));
    JavaSplit(JavaTrim(line))
  }

  // ---------------------------------------------------------------------
  // Street and house number

  predicate IsHouseNumberChar(c: char) {
    ('0' <= c <= '9') || c == '|' || c == '-'
  }

  /** A whole match of the pattern [0-9|-]*: inside a character class '|'
      is a literal bar, and the empty token matches. */
  predicate IsHouseNumberToken(t: string) {
    forall i :: 0 <= i < |t| ==> IsHouseNumberChar(t[i])
  }

  /** The last token that looks like a house number, if any. */
  function LastHouseNumber(tokens: seq<string>): (r: Option<string>)
    ensures r.None? <==> forall k :: 0 <= k < |tokens| ==> !IsHouseNumberToken(tokens[k])
  {
    if tokens == [] then None
    else if IsHouseNumberToken(tokens[|tokens| - 1]) then Some(tokens[|tokens| - 1])
    else
      var r := LastHouseNumber(tokens[..|tokens| - 1]);
      assert forall k :: 0 <= k < |tokens| - 1 ==> tokens[..|tokens| - 1][k] == tokens[k];
      r
  }

  /** The house number found is a number-like token and no later token is
      number-like. */
  lemma {:induction false} LastHouseNumberIsLast(tokens: seq<string>)
    requires LastHouseNumber(tokens).Some?
    ensures exists k :: (0 <= k < |tokens| && tokens[k] == LastHouseNumber(tokens).value
      && IsHouseNumberToken(tokens[k])
      && (forall j :: k < j < |tokens| ==> !IsHouseNumberToken(tokens[j])))
  {
    var n := |tokens| - 1;
    if !IsHouseNumberToken(tokens[n]) {
      var init := tokens[..n];
      LastHouseNumberIsLast(init);
      var k :| 0 <= k < |init| && init[k] == LastHouseNumber(init).value
        && IsHouseNumberToken(init[k])
        && (forall j :: k < j < |init| ==> !IsHouseNumberToken(init[j]));
      assert tokens[k] == init[k];
      assert forall j :: k < j < |tokens| ==> !IsHouseNumberToken(tokens[j]) by {
        forall j | k < j < |tokens|
          ensures !IsHouseNumberToken(tokens[j])
        {
          if j < n { assert tokens[j] == init[j]; }
        }
      }
    }
  }

  /** The house number written back: the last matching token, or "". */
  function HouseNumber(tokens: seq<string>): string {
    match LastHouseNumber(tokens)
    case Some(h) => h
    case None => ""
  }

  /** Extending the token list: a number-like new token becomes the house
      number, any other keeps the previous one, as the loop's write does. */
  lemma HouseNumberSnoc(tokens: seq<string>, t: string)
    ensures HouseNumber(tokens + [t]) == if IsHouseNumberToken(t) then t else HouseNumber(tokens)
  {
    assert (tokens + [t])[..|tokens|] == tokens;
  }

  /** One more token of the line: the street name grows by its piece and
      the house number is the token itself when it is number-like. */
  lemma TokenStep(tokens: seq<string>, i: nat)
    requires i < |tokens|
    ensures StreetName(tokens[..i + 1]) == StreetName(tokens[..i]) + StreetPiece(tokens[i])
    ensures HouseNumber(tokens[..i + 1])
      == if IsHouseNumberToken(tokens[i]) then tokens[i] else HouseNumber(tokens[..i])
  {
    assert tokens[..i + 1] == tokens[..i] + [tokens[i]];
    StreetNameSnoc(tokens[..i], tokens[i]);
    HouseNumberSnoc(tokens[..i], tokens[i]);
  }

  /** What a token adds to the street name: nothing for a house number,
      otherwise the token and one space. */
  function StreetPiece(t: string): string {
    if IsHouseNumberToken(t) then "" else t + " "
  }

  /** The street name written back. */
  function StreetName(tokens: seq<string>): string {
    if tokens == [] then "" else StreetPiece(tokens[0]) + StreetName(tokens[1..])
  }

  /** The tokens that are not house numbers, in their original order. */
  function NonNumberTokens(tokens: seq<string>): (r: seq<string>)
    ensures |r| <= |tokens|
    ensures forall k :: 0 <= k < |r| ==> !IsHouseNumberToken(r[k])
  {
    if tokens == [] then []
    else if IsHouseNumberToken(tokens[0]) then NonNumberTokens(tokens[1..])
    else [tokens[0]] + NonNumberTokens(tokens[1..])
  }

  /** Extending the token list extends the street name by the new token's
      piece, as the loop's StringBuilder does. */
  lemma {:induction false} StreetNameSnoc(tokens: seq<string>, t: string)
    ensures StreetName(tokens + [t]) == StreetName(tokens) + StreetPiece(t)
  {
    if tokens != [] {
      assert (tokens + [t])[1..] == tokens[1..] + [t];
      StreetNameSnoc(tokens[1..], t);
    } else {
      assert [t][1..] == [];
    }
  }

  /** A piece without spaces followed by a space splits off as one piece. */
  lemma RawSplitPiece(t: string, rest: string)
    requires NoSpace(t)
    ensures RawSplit(t + " " + rest) == [t] + RawSplit(rest)
  {
    var s := t + " " + rest;
    assert !NoSpace(s) by { assert s[|t|] == ' '; }
    var i := FirstSpace(s);
    assert forall j :: 0 <= j < |t| ==> s[j] == t[j];
    assert s[|t|] == ' ';
    assert i == |t|;
    assert s[..i] == t && s[i + 1..] == rest;
  }

  /** Concatenation is associative; stated over any element type so that
      the proof does not look inside the strings. */
  lemma AppendAssoc<T>(a: seq<T>, b: seq<T>, c: seq<T>)
    ensures a + (b + c) == (a + b) + c
  {
  }

  /** The first token's piece splits off the front of the street name. */
  lemma StreetNameFront(tokens: seq<string>)
    requires tokens != [] && NoSpace(tokens[0])
    ensures RawSplit(StreetName(tokens))
      == (if IsHouseNumberToken(tokens[0]) then [] else [tokens[0]]) + RawSplit(StreetName(tokens[1..]))
  {
    var t, rest := tokens[0], StreetName(tokens[1..]);
    assert StreetName(tokens) == StreetPiece(t) + rest;
    if IsHouseNumberToken(t) {
      assert StreetName(tokens) == rest;
      assert [] + RawSplit(rest) == RawSplit(rest);
    } else {
      assert StreetName(tokens) == t + " " + rest;
      RawSplitPiece(t, rest);
    }
  }

  /** The street name splits back into the non-number tokens, plus the
      empty piece after its final space: each token is followed by exactly
      one space, in order. */
  lemma {:induction false} StreetNameSplits(tokens: seq<string>)
    requires forall k :: 0 <= k < |tokens| ==> NoSpace(tokens[k])
    ensures RawSplit(StreetName(tokens)) == NonNumberTokens(tokens) + [""]
  {
    if tokens == [] {
      assert RawSplit("") == [""];
    } else {
      var rest := tokens[1..];
      assert forall k :: 0 <= k < |rest| ==> NoSpace(rest[k]) by {
        forall k | 0 <= k < |rest| ensures NoSpace(rest[k]) {
          assert rest[k] == tokens[k + 1];
        }
      }
      StreetNameSplits(rest);
      StreetNameFront(tokens);
      var front := if IsHouseNumberToken(tokens[0]) then [] else [tokens[0]];
      assert NonNumberTokens(tokens) == front + NonNumberTokens(rest);
      AppendAssoc(front, NonNumberTokens(rest), [""]);
    }
  }

  /** A line whose ends are kept splits into exactly its pieces. */
  lemma TokensOfKept(line: string)
    requires line != [] && !IsTrimmable(line[0]) && !IsTrimmable(line[|line| - 1])
    ensures Tokens(line) == RawSplit(line)
  {
    TrimKeeps(line);
  }

  /** Two words around a double space split into the words and the empty
      piece between the spaces. */
  lemma DoubleSpaceSplit(x: string, y: string)
    requires NoSpace(x) && NoSpace(y)
    ensures RawSplit(x + "  " + y) == [x, "", y]
  {
    var rest := " " + y;
    RawSplitPiece("", y);
    assert "" + " " + y == rest;
    assert RawSplit(rest) == ["", y];
    RawSplitPiece(x, rest);
    DoubleSeparator(x, ' ', y);
    assert x + "  " + y == x + " " + rest;
  }

  /** Two separators in a row are one separator followed by a piece that
      starts with the other. */
  lemma DoubleSeparator<T>(a: seq<T>, c: T, b: seq<T>)
    ensures a + [c, c] + b == a + [c] + ([c] + b)
  {
  }

  /** A double space between two words yields an empty token between
      them. */
  lemma DoubleSpaceTokens(x: string, y: string)
    requires x != [] && y != [] && NoSpace(x) && NoSpace(y)
    requires !IsTrimmable(x[0]) && !IsTrimmable(y[|y| - 1])
    ensures Tokens(x + "  " + y) == [x, "", y]
  {
    var s := x + "  " + y;
    DoubleSpaceSplit(x, y);
    assert s[0] == x[0] && s[|s| - 1] == y[|y| - 1];
    TokensOfKept(s);
  }

  /** The empty token matches the pattern, so a double space before a
      final word hides any house number before it. */
  lemma DoubleSpaceHidesNumber(x: string, y: string)
    requires x != [] && y != [] && NoSpace(x) && NoSpace(y)
    requires !IsTrimmable(x[0]) && !IsTrimmable(y[|y| - 1]) && !IsHouseNumberToken(y)
    ensures HouseNumber(Tokens(x + "  " + y)) == ""
  {
    DoubleSpaceTokens(x, y);
    HouseNumberSnoc([x, ""], y);
    assert [x, ""] + [y] == [x, "", y];
    HouseNumberSnoc([x], "");
    assert [x] + [""] == [x, ""];
  }

  /** A usual line, a street word then a number: the number becomes the
      house number and the street keeps one space after its word, so the
      full street has two spaces before the number. */
  lemma StreetThenNumber(w: string, n: string)
    requires w != [] && n != [] && NoSpace(w) && NoSpace(n)
    requires !IsTrimmable(w[0]) && !IsHouseNumberToken(w) && IsHouseNumberToken(n)
    ensures Tokens(w + " " + n) == [w, n]
    ensures HouseNumber(Tokens(w + " " + n)) == n
    ensures StreetName(Tokens(w + " " + n)) == w + " "
    ensures FullString(Some(StreetName(Tokens(w + " " + n))), Some(HouseNumber(Tokens(w + " " + n))))
      == w + "  " + n
  {
    WordThenNumberTokens(w, n);
    assert HouseNumber([w, n]) == n by {
      HouseNumberSnoc([w], n);
      assert [w] + [n] == [w, n];
    }
    assert StreetName([w, n]) == w + " " by {
      StreetNameSnoc([w], n);
      StreetNameSnoc([], w);
      assert [] + [w] == [w];
      assert [w] + [n] == [w, n];
    }
  }

  /** A word, one space and a number-like token are the two tokens. */
  lemma WordThenNumberTokens(w: string, n: string)
    requires w != [] && n != [] && NoSpace(w) && NoSpace(n)
    requires !IsTrimmable(w[0]) && IsHouseNumberToken(n)
    ensures Tokens(w + " " + n) == [w, n]
  {
    var s := w + " " + n;
    RawSplitPiece(w, n);
    assert RawSplit(n) == [n];
    assert [w] + [n] == [w, n];
    assert IsHouseNumberChar(n[|n| - 1]);
    assert s[0] == w[0] && s[|s| - 1] == n[|n| - 1];
    TokensOfKept(s);
  }

  /** Java string concatenation of a possibly null String. */
  function JavaString(s: Option<string>): string {
    match s
    case Some(v) => v
    case None => "null"
  }

  /** a + " " + b in Java. */
  function FullString(a: Option<string>, b: Option<string>): (r: string)
    ensures |r| == |JavaString(a)| + 1 + |JavaString(b)|
    ensures r[..|JavaString(a)|] == JavaString(a) && r[|JavaString(a)|] == ' '
    ensures r[|JavaString(a)| + 1..] == JavaString(b)
  {
    JavaString(a) + " " + JavaString(b)
  }

  // ---------------------------------------------------------------------
  // The wrapped Android Address and the wrapper

  /** The fields of android.location.Address that the wrapper reads or
      writes; a None string is a null String. */
  class Address {
    var addressLine0: Option<string>
    var featureName: Option<string>
    var thoroughfare: Option<string>
    var postalCode: Option<string>
    var locality: Option<string>
    /** A coordinate is readable only once it has been set. */
    var hasLatitude: bool
    var latitude: real
    var hasLongitude: bool
    var longitude: real

    constructor (line0: Option<string>, feature: Option<string>, street: Option<string>,
                 postal: Option<string>, city: Option<string>, lat: Option<real>, lon: Option<real>)
      ensures addressLine0 == line0 && featureName == feature && thoroughfare == street
      ensures postalCode == postal && locality == city
      ensures hasLatitude == lat.Some? && (lat.Some? ==> latitude == lat.value)
      ensures hasLongitude == lon.Some? && (lon.Some? ==> longitude == lon.value)
    {
      addressLine0, featureName, thoroughfare := line0, feature, street;
      postalCode, locality := postal, city;
      hasLatitude, latitude := lat.Some?, if lat.Some? then lat.value else 0.0;
      hasLongitude, longitude := lon.Some?, if lon.Some? then lon.value else 0.0;
    }

    /** getLatitude: throws while no latitude has been set. */
    function GetLatitude(): (r: Result<real, AddressError>)
      reads this
      ensures r.Success? <==> hasLatitude
      ensures r.Success? ==> r.value == latitude
      ensures r.Failure? ==> r.error == IllegalState
    {
      if hasLatitude then Success(latitude) else Failure(IllegalState)
    }

    /** getLongitude: throws while no longitude has been set. */
    function GetLongitude(): (r: Result<real, AddressError>)
      reads this
      ensures r.Success? <==> hasLongitude
      ensures r.Success? ==> r.value == longitude
      ensures r.Failure? ==> r.error == IllegalState
    {
      if hasLongitude then Success(longitude) else Failure(IllegalState)
    }
  }

  /** The fields editStreetNumberInAddress leaves in a, for the first
      address line `line` and the street the address had before. */
  predicate StreetNumberEdited(a: Address, line: string, streetBefore: Option<string>)
    reads a
  {
    var tokens := Tokens(line);
    && (|tokens| > 1 ==> a.featureName == Some(HouseNumber(tokens))
                         && a.thoroughfare == Some(StreetName(tokens)))
    && (|tokens| <= 1 ==> a.featureName == Some("") && a.thoroughfare == streetBefore)
  }

  class AddressDV {
    var address: Address?
    var latitudeE6: real
    var longitudeE6: real

    /** The private constructor: no address yet. */
    constructor ()
      ensures address == null && latitudeE6 == 0.0 && longitudeE6 == 0.0
    {
      address := null;
      latitudeE6, longitudeE6 := 0.0, 0.0;
    }

    predicate HasInvalidAddress()
      reads this
    {
      address == null
    }

    /** editStreetNumberInAddress: with several tokens the house number is
        the last number-like token ("" when none) and the street is the
        other tokens each followed by one space; with one token the house
        number is "" and the street is left as it was. */
    method EditStreetNumberInAddress()
      requires address != null && address.addressLine0.Some?
      modifies address`featureName, address`thoroughfare
      ensures StreetNumberEdited(address, address.addressLine0.value, old(address.thoroughfare))
    {
      var line := address.addressLine0.value;
      var streetWithNumber := Tokens(line);
      if |streetWithNumber| > 1 {
        address.featureName := Some("");
        address.thoroughfare := Some("");
        var streetName := ScanTokens(streetWithNumber);
        address.thoroughfare := Some(streetName);
      } else {
        address.featureName := Some("");
      }
      assert address.addressLine0.value == line;
    }

    /** The loop of editStreetNumberInAddress: every number-like token is
        written as the house number in turn, so the last one stays; every
        other token is appended to the street name with one space. */
    method ScanTokens(tokens: seq<string>) returns (streetName: string)
      requires address != null && address.featureName == Some("")
      modifies address`featureName
      ensures streetName == StreetName(tokens)
      ensures address.featureName == Some(HouseNumber(tokens))
    {
      streetName := "";
      for i := 0 to |tokens|
        invariant streetName == StreetName(tokens[..i])
        invariant address.featureName == Some(HouseNumber(tokens[..i]))
      {
        var s := tokens[i];
        TokenStep(tokens, i);
        if IsHouseNumberToken(s) {
          address.featureName := Some(s);
        } else {
          streetName := streetName + s + " ";
        }
      }
      assert tokens[..|tokens|] == tokens;
    }

    function GetLatitudeE6(): (r: Result<real, AddressError>)
      reads this
      ensures r.Failure? <==> HasInvalidAddress()
      ensures r.Success? ==> r.value == latitudeE6
    {
      if HasInvalidAddress() then Failure(InvalidAddress) else Success(latitudeE6)
    }

    function GetLongitudeE6(): (r: Result<real, AddressError>)
      reads this
      ensures r.Failure? <==> HasInvalidAddress()
      ensures r.Success? ==> r.value == longitudeE6
    {
      if HasInvalidAddress() then Failure(InvalidAddress) else Success(longitudeE6)
    }

    /** getLatitude: the wrapper's own check, then the Address's. */
    function GetLatitude(): (r: Result<real, AddressError>)
      reads this, address
      ensures HasInvalidAddress() ==> r == Failure(InvalidAddress)
      ensures !HasInvalidAddress() ==> (r.Success? <==> address.hasLatitude)
      ensures !HasInvalidAddress() && !address.hasLatitude ==> r == Failure(IllegalState)
      ensures r.Success? ==> r.value == address.latitude
    {
      if HasInvalidAddress() then Failure(InvalidAddress) else address.GetLatitude()
    }

    /** getLongitude: the wrapper's own check, then the Address's. */
    function GetLongitude(): (r: Result<real, AddressError>)
      reads this, address
      ensures HasInvalidAddress() ==> r == Failure(InvalidAddress)
      ensures !HasInvalidAddress() ==> (r.Success? <==> address.hasLongitude)
      ensures !HasInvalidAddress() && !address.hasLongitude ==> r == Failure(IllegalState)
      ensures r.Success? ==> r.value == address.longitude
    {
      if HasInvalidAddress() then Failure(InvalidAddress) else address.GetLongitude()
    }

    function GetStreet(): (r: Result<Option<string>, AddressError>)
      reads this, address
      ensures r.Failure? <==> HasInvalidAddress()
      ensures r.Success? ==> r.value == address.thoroughfare
    {
      if HasInvalidAddress() then Failure(InvalidAddress) else Success(address.thoroughfare)
    }

    function GetHouseNumber(): (r: Result<Option<string>, AddressError>)
      reads this, address
      ensures r.Failure? <==> HasInvalidAddress()
      ensures r.Success? ==> r.value == address.featureName
    {
      if HasInvalidAddress() then Failure(InvalidAddress) else Success(address.featureName)
    }

    function GetPostalCode(): (r: Result<Option<string>, AddressError>)
      reads this, address
      ensures r.Failure? <==> HasInvalidAddress()
      ensures r.Success? ==> r.value == address.postalCode
    {
      if HasInvalidAddress() then Failure(InvalidAddress) else Success(address.postalCode)
    }

    function GetCity(): (r: Result<Option<string>, AddressError>)
      reads this, address
      ensures r.Failure? <==> HasInvalidAddress()
      ensures r.Success? ==> r.value == address.locality
    {
      if HasInvalidAddress() then Failure(InvalidAddress) else Success(address.locality)
    }

    /** getFullStreet: the street, a space, the house number; a null part
        reads "null". */
    function GetFullStreet(): (r: Result<string, AddressError>)
      reads this, address
      ensures r.Failure? <==> HasInvalidAddress()
      ensures r.Success? ==>
        var street := JavaString(address.thoroughfare);
        |r.value| > |street| && r.value[..|street|] == street && r.value[|street|] == ' '
        && r.value[|street| + 1..] == JavaString(address.featureName)
    {
      var street := GetStreet();
      if street.Failure? then Failure(street.error)
      else Success(FullString(street.value, GetHouseNumber().value))
    }

    /** getFullCity: the city, a space, the postal code. */
    function GetFullCity(): (r: Result<string, AddressError>)
      reads this, address
      ensures r.Failure? <==> HasInvalidAddress()
      ensures r.Success? ==>
        var city := JavaString(address.locality);
        |r.value| > |city| && r.value[..|city|] == city && r.value[|city|] == ' '
        && r.value[|city| + 1..] == JavaString(address.postalCode)
    {
      var city := GetCity();
      if city.Failure? then Failure(city.error)
      else Success(FullString(city.value, GetPostalCode().value))
    }
  }

  /** valueOf(Address): a null address is rejected; a missing first line
      fails in trim; otherwise the Address is edited, and then a missing
      coordinate throws, the edit staying in place; with both coordinates
      the wrapper holds the same Address and the coordinates scaled by one
      million. */
  method ValueOf(address: Address?) returns (r: Result<AddressDV, AddressError>)
    modifies {address}`featureName, {address}`thoroughfare
    ensures address == null ==> r == Failure(InvalidAddress)
    ensures address != null && address.addressLine0.None? ==>
      r == Failure(NullPointer) && unchanged(address)
    ensures address != null && address.addressLine0.Some? ==>
      StreetNumberEdited(address, address.addressLine0.value, old(address.thoroughfare))
    ensures address != null && address.addressLine0.Some? && !(address.hasLatitude && address.hasLongitude) ==>
      r == Failure(IllegalState)
    ensures address != null && address.addressLine0.Some? && address.hasLatitude && address.hasLongitude ==>
      && r.Success? && fresh(r.value) && r.value.address == address
      && r.value.latitudeE6 == address.latitude * 1000000.0
      && r.value.longitudeE6 == address.longitude * 1000000.0
  {
    ghost var streetBefore := if address != null then address.thoroughfare else None;
    var ret := new AddressDV();
    ret.address := address;
    if !ret.HasInvalidAddress() {
      if address.addressLine0.None? {
        return Failure(NullPointer);
      }
      assert address.thoroughfare == streetBefore;
      ret.EditStreetNumberInAddress();
      var lat := ret.address.GetLatitude();
      if lat.Failure? {
        return Failure(lat.error);
      }
      ret.latitudeE6 := lat.value * 1000000.0;
      var lon := ret.address.GetLongitude();
      if lon.Failure? {
        return Failure(lon.error);
      }
      ret.longitudeE6 := lon.value * 1000000.0;
    } else {
      return Failure(InvalidAddress);
    }
    r := Success(ret);
  }

  /** Built from a line with several tokens and both coordinates, the
      wrapper's full street is the street name, a space and the last
      number-like token; without a coordinate, wrapping fails. */
  method FullStreetOfNewAddress(address: Address) returns (full: Result<string, AddressError>)
    requires address.addressLine0.Some? && |Tokens(address.addressLine0.value)| > 1
    modifies address`featureName, address`thoroughfare
    ensures var tokens := Tokens(address.addressLine0.value);
      address.hasLatitude && address.hasLongitude ==>
        full == Success(StreetName(tokens) + " " + HouseNumber(tokens))
    ensures !(address.hasLatitude && address.hasLongitude) ==> full == Failure(IllegalState)
  {
    var dv := ValueOf(address);
    if dv.Failure? {
      return Failure(dv.error);
    }
    full := dv.value.GetFullStreet();
  }
}
