/** Application settings: the default of every field, and the validator that
    turns a comma-separated `enabled_connectors` string into a list. Reading
    the environment and `.env` files is not part of this model. */
module Settings {
  import Text

  datatype CcxtSettings = CcxtSettings(
    exchange: string := "binance",
    apiKey: string := "",
    apiSecret: string := "",
    testnet: bool := true)

  datatype AlpacaSettings = AlpacaSettings(
    apiKey: string := "",
    apiSecret: string := "",
    paper: bool := true)

  datatype PolymarketSettings = PolymarketSettings(
    privateKey: string := "",
    chainId: int := 137,
    host: string := "https://clob.polymarket.com")

  datatype AppSettings = AppSettings(
    logLevel: string := "INFO",
    enabledConnectors: seq<string> := ["ccxt", "alpaca", "polymarket"],
    webHost: string := "127.0.0.1",
    webPort: int := 8000,
    dryRun: bool := true,
    ccxt: CcxtSettings := CcxtSettings(),
    alpaca: AlpacaSettings := AlpacaSettings(),
    polymarket: PolymarketSettings := PolymarketSettings())

  /** The raw value handed to the `enabled_connectors` validator: a string
      from the environment, or an already-built list. */
  datatype RawConnectors = Text(s: string) | Items(names: seq<string>)

  /** A connector name as the validator leaves it: not empty, free of
      commas, and with no whitespace at either end. */
  predicate CleanName(name: string) {
    name != [] && ',' !in name && Text.Trimmed(name)
  }

  /** The positions of the non-blank pieces of `parts` (`KeptIncreasing`
      shows they are in order, `KeptAll` that none is missed). */
  function Kept(parts: seq<string>): (idx: seq<nat>)
    ensures |idx| <= |parts|
    ensures forall k :: 0 <= k < |idx| ==> idx[k] < |parts| && !Text.Blank(parts[idx[k]])
  {
    if parts == [] then []
    else
      var n := |parts| - 1;
      var front := Kept(parts[..n]);
      assert forall k :: 0 <= k < |front| ==> parts[..n][front[k]] == parts[front[k]];
      front + (if Text.Blank(parts[n]) then [] else [n])
  }

  /** `Kept` lists positions in increasing order, so the names keep the
      order of the pieces. */
  lemma {:induction false} KeptIncreasing(parts: seq<string>)
    ensures forall k, l :: 0 <= k < l < |Kept(parts)| ==> Kept(parts)[k] < Kept(parts)[l]
  {
    if parts != [] {
      KeptIncreasing(parts[..|parts| - 1]);
    }
  }

  /** Every non-blank piece has its position in `Kept`. */
  lemma {:induction false} KeptAll(parts: seq<string>, j: nat)
    requires j < |parts| && !Text.Blank(parts[j])
    ensures j in Kept(parts)
  {
    var n := |parts| - 1;
    if j < n {
      assert parts[..n][j] == parts[j];
      KeptAll(parts[..n], j);
    }
  }

  /** When no piece is blank, every position is kept. */
  lemma {:induction false} KeptEvery(parts: seq<string>)
    requires forall j :: 0 <= j < |parts| ==> !Text.Blank(parts[j])
    ensures |Kept(parts)| == |parts|
    ensures forall k :: 0 <= k < |parts| ==> Kept(parts)[k] == k
  {
    if parts != [] {
      var n := |parts| - 1;
      assert forall j :: 0 <= j < n ==> parts[..n][j] == parts[j];
      KeptEvery(parts[..n]);
    }
  }

  /** Appending a piece appends its position exactly when it is not blank. */
  lemma KeptSnoc(front: seq<string>, p: string)
    ensures Kept(front + [p]) == Kept(front) + (if Text.Blank(p) then [] else [|front|])
  {
    assert (front + [p])[..|front|] == front;
  }

  /** The pieces of `parts`, stripped, with the blank ones dropped: the
      `k`-th name is the stripped form of the `k`-th non-blank piece. */
  function StripNonBlank(parts: seq<string>): (names: seq<string>)
    ensures |names| == |Kept(parts)| <= |parts|
    ensures forall k :: 0 <= k < |names| ==> names[k] != [] && Text.Trimmed(names[k])
  {
    var idx := Kept(parts);
    seq(|idx|, k requires 0 <= k < |idx| => Text.Strip(parts[idx[k]]))
  }

  /** No non-blank piece is lost: its stripped form is among the names. */
  lemma StripNonBlankComplete(parts: seq<string>, j: nat)
    requires j < |parts| && !Text.Blank(parts[j])
    ensures Text.Strip(parts[j]) in StripNonBlank(parts)
  {
    KeptAll(parts, j);
    var k :| 0 <= k < |Kept(parts)| && Kept(parts)[k] == j;
    assert StripNonBlank(parts)[k] == Text.Strip(parts[j]);
  }

  /** Appending a piece appends its stripped form exactly when it is not
      blank. */
  lemma StripNonBlankSnoc(front: seq<string>, p: string)
    ensures StripNonBlank(front + [p]) == StripNonBlank(front) + (if Text.Blank(p) then [] else [Text.Strip(p)])
  {
    var parts := front + [p];
    assert parts[..|front|] == front;
    assert Kept(parts) == Kept(front) + (if Text.Blank(p) then [] else [|front|]);
    assert forall k :: 0 <= k < |Kept(front)| ==> parts[Kept(front)[k]] == front[Kept(front)[k]];
  }

  /** The `parse_connectors` validator: a string is split on commas, each
      piece stripped and blank pieces dropped; anything else is passed
      through unchanged. */
  function ParseConnectors(v: RawConnectors): (r: RawConnectors)
    ensures v.Items? ==> r == v
    ensures v.Text? ==> r.Items? && forall k :: 0 <= k < |r.names| ==> CleanName(r.names[k])
    ensures v.Text? ==> var pieces := Text.Split(v.s, ',');
      |r.names| == |Kept(pieces)| &&
      forall k :: 0 <= k < |r.names| ==> r.names[k] == Text.Strip(pieces[Kept(pieces)[k]])
  {
    match v
    case Items(_) => v
    case Text(s) =>
      var parts := Text.Split(s, ',');
      StripNonBlankNoComma(parts);
      Items(StripNonBlank(parts))
  }

  /** A string built by joining comma-free pieces parses to those pieces,
      stripped, with the blank ones dropped. */
  lemma ParsePieces(pieces: seq<string>)
    requires |pieces| >= 1
    requires forall k :: 0 <= k < |pieces| ==> ',' !in pieces[k]
    ensures ParseConnectors(Text(Text.Join(pieces, ','))) == Items(StripNonBlank(pieces))
  {
    Text.SplitJoin(pieces, ',');
  }

  /** Each name with whitespace in front of it and after it. */
  function Padded(before: seq<string>, names: seq<string>, after: seq<string>): (pieces: seq<string>)
    requires |before| == |names| == |after|
    ensures |pieces| == |names|
    ensures forall k :: 0 <= k < |names| ==> pieces[k] == before[k] + names[k] + after[k]
  {
    seq(|names|, k requires 0 <= k < |names| => before[k] + names[k] + after[k])
  }

  /** Whitespace holds no comma. */
  lemma BlankHasNoComma(s: string)
    requires Text.Blank(s)
    ensures ',' !in s
  {
    assert !Text.IsSpace(',');
  }

  /** Stripping undoes the padding of clean names, and no padded name is
      blank, so nothing is dropped. */
  lemma StripPaddedNames(before: seq<string>, names: seq<string>, after: seq<string>)
    requires |before| == |names| == |after|
    requires forall k :: 0 <= k < |names| ==>
      CleanName(names[k]) && Text.Blank(before[k]) && Text.Blank(after[k])
    ensures StripNonBlank(Padded(before, names, after)) == names
  {
    var pieces := Padded(before, names, after);
    forall k | 0 <= k < |names| ensures Text.Strip(pieces[k]) == names[k] {
      Text.StripPadded(before[k], names[k], after[k]);
    }
    KeptEvery(pieces);
  }

  /** Clean names written with whitespace around them, as in
      `" ccxt , alpaca "`, parse back to the names. */
  lemma ParsePaddedNames(before: seq<string>, names: seq<string>, after: seq<string>)
    requires 1 <= |before| == |names| == |after|
    requires forall k :: 0 <= k < |names| ==>
      CleanName(names[k]) && Text.Blank(before[k]) && Text.Blank(after[k])
    ensures ParseConnectors(Text(Text.Join(Padded(before, names, after), ','))) == Items(names)
  {
    var pieces := Padded(before, names, after);
    forall k | 0 <= k < |pieces| ensures ',' !in pieces[k] {
      BlankHasNoComma(before[k]);
      BlankHasNoComma(after[k]);
    }
    ParsePieces(pieces);
    StripPaddedNames(before, names, after);
  }

  /** Padding and a blank piece between commas are both ignored: the
      shape of `" ccxt , ,alpaca "`. */
  lemma ParseBlankPieceIgnored(a: string, b: string, pad: string)
    requires CleanName(a) && CleanName(b) && Text.Blank(pad)
    ensures ParseConnectors(Text(pad + a + pad + [','] + pad + [','] + pad + b + pad)) == Items([a, b])
  {
    var pieces := [pad + a + pad, pad, pad + b + pad];
    BlankHasNoComma(pad);
    assert ',' !in pad + a + pad && ',' !in pad + b + pad;
    assert Text.Join(pieces, ',') == pad + a + pad + [','] + pad + [','] + pad + b + pad by {
      assert Text.Join(pieces[2..], ',') == pad + b + pad;
      assert Text.Join(pieces[1..], ',') == pad + [','] + (pad + b + pad);
    }
    ParsePieces(pieces);
    PaddedPiecesStripped(a, b, pad);
  }

  /** Two padded names around a blank piece strip to the two names. */
  lemma PaddedPiecesStripped(a: string, b: string, pad: string)
    requires CleanName(a) && CleanName(b) && Text.Blank(pad)
    ensures StripNonBlank([pad + a + pad, pad, pad + b + pad]) == [a, b]
  {
    PaddedNameStripped(pad, a, pad);
    PaddedNameStripped(pad, b, pad);
    StripNonBlankOuter(pad + a + pad, pad, pad + b + pad);
  }

  /** Of three pieces with a blank one in the middle, the outer two are the
      names. */
  lemma StripNonBlankOuter(x: string, pad: string, y: string)
    requires !Text.Blank(x) && Text.Blank(pad) && !Text.Blank(y)
    ensures StripNonBlank([x, pad, y]) == [Text.Strip(x), Text.Strip(y)]
  {
    var pieces := [x, pad, y];
    KeptBlankBetween(x, pad, y);
    var names := StripNonBlank(pieces);
    assert names[0] == Text.Strip(pieces[0]);
    assert names[1] == Text.Strip(pieces[2]);
    PairOf(names, Text.Strip(x), Text.Strip(y));
  }

  /** A sequence of length two is the display of its two elements. */
  lemma PairOf<T>(s: seq<T>, a: T, b: T)
    requires |s| == 2 && s[0] == a && s[1] == b
    ensures s == [a, b]
  {
  }

  /** Of three pieces with a blank one in the middle, the outer two are kept. */
  lemma KeptBlankBetween(x: string, pad: string, y: string)
    requires !Text.Blank(x) && Text.Blank(pad) && !Text.Blank(y)
    ensures Kept([x, pad, y]) == [0, 2]
  {
    KeptSnoc([], x);
    KeptSnoc([x], pad);
    KeptSnoc([x, pad], y);
    assert [] + [x] == [x] && [x] + [pad] == [x, pad] && [x, pad] + [y] == [x, pad, y];
  }

  /** A clean name with blank padding is not blank and strips back to itself. */
  lemma PaddedNameStripped(before: string, name: string, after: string)
    requires CleanName(name) && Text.Blank(before) && Text.Blank(after)
    ensures !Text.Blank(before + name + after) && Text.Strip(before + name + after) == name
  {
    Text.StripPadded(before, name, after);
    assert (before + name + after)[|before|] == name[0];
  }

  /** Stripping and dropping pieces that hold no comma leaves names that
      hold no comma. */
  lemma StripNonBlankNoComma(parts: seq<string>)
    requires forall j :: 0 <= j < |parts| ==> ',' !in parts[j]
    ensures forall k :: 0 <= k < |StripNonBlank(parts)| ==> ',' !in StripNonBlank(parts)[k]
  {
    forall k | 0 <= k < |StripNonBlank(parts)| ensures ',' !in StripNonBlank(parts)[k] {
      StripKeepsOut(parts[Kept(parts)[k]], ',');
    }
  }

  /** Stripping only removes characters, so a piece free of commas stays
      free of them. */
  lemma StripKeepsOut(s: string, c: char)
    requires c !in s
    ensures c !in Text.Strip(s)
  {
    var t := Text.TrimStart(s);
    assert c !in t by { assert t == s[|s| - |t|..]; }
    var r := Text.TrimEnd(t);
    assert r == t[..|r|];
  }

  /** Names that are already clean survive a round trip through the
      comma-separated form unchanged. */
  lemma {:induction false} ParseJoinedNames(names: seq<string>)
    requires forall k :: 0 <= k < |names| ==> CleanName(names[k])
    ensures ParseConnectors(Text(Text.Join(names, ','))) == Items(names)
  {
    if names == [] {
      assert Text.Split("", ',') == [""];
      assert Text.Strip("") == "";
    } else {
      Text.SplitJoin(names, ',');
      StripNonBlankClean(names);
    }
  }

  /** Clean names pass through stripping and dropping unchanged. */
  lemma StripNonBlankClean(names: seq<string>)
    requires forall k :: 0 <= k < |names| ==> CleanName(names[k])
    ensures StripNonBlank(names) == names
  {
    KeptEvery(names);
  }

  /** The defaults enable all three venues in dry-run mode at level INFO,
      with no credential configured for any of them. */
  lemma Defaults()
    ensures AppSettings().enabledConnectors == ["ccxt", "alpaca", "polymarket"]
    ensures AppSettings().dryRun && AppSettings().logLevel == "INFO"
    ensures AppSettings().ccxt == CcxtSettings("binance", "", "", true)
    ensures AppSettings().alpaca.paper && AppSettings().alpaca.apiKey == ""
    ensures AppSettings().polymarket.chainId == 137 && AppSettings().polymarket.privateKey == ""
    ensures AppSettings().polymarket.host == "https://clob.polymarket.com"
  {
  }

  /** The default list is what the validator makes of "ccxt,alpaca,polymarket". */
  lemma DefaultConnectorsFromText()
    ensures ParseConnectors(Text("ccxt,alpaca,polymarket")) == Items(AppSettings().enabledConnectors)
  {
    var names := AppSettings().enabledConnectors;
    DefaultNamesJoined();
    DefaultNamesClean();
    ParseJoinedNames(names);
  }

  lemma DefaultNamesJoined()
    ensures Text.Join(AppSettings().enabledConnectors, ',') == "ccxt,alpaca,polymarket"
  {
    var names := AppSettings().enabledConnectors;
    assert Text.Join(names[2..], ',') == "polymarket";
    assert Text.Join(names[1..], ',') == "alpaca" + [','] + "polymarket";
    assert Text.Join(names, ',') == "ccxt" + [','] + "alpaca,polymarket";
  }

  lemma DefaultNamesClean()
    ensures forall k :: 0 <= k < |AppSettings().enabledConnectors| ==>
      CleanName(AppSettings().enabledConnectors[k])
  {
    var names := AppSettings().enabledConnectors;
    forall k | 0 <= k < 3 ensures CleanName(names[k]) {
      assert !Text.IsSpace(names[k][0]) && !Text.IsSpace(names[k][|names[k]| - 1]);
    }
  }
}
