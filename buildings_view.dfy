/** The logic of the buildings page: which buildings are shown, the figures
    of a building card, the card's title, and the split of a building's
    address into a leading number and the rest by the regular expression
    `/^(\d+)\s*(.+)$/`. */
module BuildingsView {
  import opened Js
  import opened Hierarchy
  import Counts

  // ---------------------------------------------------------------------
  // The list of buildings

  /** The `buildings` prop: falsy, some other truthy non-array value, or an
      array. */
  datatype BuildingsProp = Falsy | NotArray | Array(items: seq<Node>)

  /** `memoizedBuildings`: anything but a non-empty array gives no buildings;
      a non-empty array is shown as it is. */
  function ShownBuildings(prop: BuildingsProp): (r: seq<Node>)
    ensures r != [] <==> prop.Array? && prop.items != []
    ensures r != [] ==> r == prop.items
  {
    if !prop.Array? || |prop.items| == 0 then [] else prop.items
  }

  // ---------------------------------------------------------------------
  // A building card

  /** The five figures of a card. */
  datatype Stats = Stats(floors: nat, spaces: nat, rooms: nat, devices: nat, online: nat)

  /** The five `useMemo` counts of `BuildingCard`. */
  method CardStats(building: Node) returns (stats: Stats)
    ensures stats == Stats(
      Counts.Count(building, Counts.Floors), Counts.Count(building, Counts.Spaces),
      Counts.Count(building, Counts.Rooms), Counts.Count(building, Counts.Devices),
      Counts.Count(building, Counts.OnlineDevices))
    ensures stats.online <= stats.devices
  {
    var floors := Counts.CountItems(Some(building), "floors");
    var spaces := Counts.CountItems(Some(building), "spaces");
    var rooms := Counts.CountItems(Some(building), "rooms");
    var devices := Counts.CountItems(Some(building), "devices");
    var online := Counts.CountOnlineDevices(Some(building));
    Counts.OnlineAtMostDevices(building);
    stats := Stats(floors, spaces, rooms, devices, online);
  }

  const UnnamedBuilding := "Unnamed Building"

  /** `building.name || 'Unnamed Building'`: never blank-titled. */
  function Title(building: Node): (r: string)
    ensures r != ""
    ensures Truthy(building.name) ==> r == building.name.value
    ensures !Truthy(building.name) ==> r == UnnamedBuilding
  {
    OrElse(building.name, UnnamedBuilding)
  }

  /** The address row is drawn for a truthy `address` only. */
  predicate ShowsAddressRow(building: Node)
    ensures ShowsAddressRow(building) <==> building.address.Some? && |building.address.value| > 0
  {
    Truthy(building.address)
  }

  // ---------------------------------------------------------------------
  // `/^(\d+)\s*(.+)$/`

  /** The two capture groups of a successful match. */
  datatype AddressMatch = AddressMatch(number: string, text: string)

  predicate AllDigits(s: string) {
    forall i :: 0 <= i < |s| ==> IsDigit(s[i])
  }

  /** `.+$` at the end of the input: one or more characters other than line
      terminators, up to the very end (no `m` or `s` flag). */
  predicate RestMatches(t: string) {
    |t| > 0 && forall i :: 0 <= i < |t| ==> !IsLineTerminator(t[i])
  }

  /** `.+$` accepts what follows `d` digits and `w` whitespace characters. */
  predicate RestAfter(s: string, d: nat, w: nat) {
    d + w <= |s| && RestMatches(s[d + w..])
  }

  /** The length of the longest run of digits at the start of `s`. */
  function LeadingDigits(s: string): (r: nat)
    ensures r <= |s|
  {
    if s == [] || !IsDigit(s[0]) then 0 else 1 + LeadingDigits(s[1..])
  }

  /** The length of the longest run of whitespace at the start of `s`. */
  function LeadingSpaces(s: string): (r: nat)
    ensures r <= |s|
  {
    if s == [] || !IsWhitespace(s[0]) then 0 else 1 + LeadingSpaces(s[1..])
  }

  /** The runs are maximal: digits (whitespace) up to the run's length, and
      none right after it. */
  lemma {:induction false} LeadingRuns(s: string)
    ensures forall i :: 0 <= i < LeadingDigits(s) ==> IsDigit(s[i])
    ensures LeadingDigits(s) < |s| ==> !IsDigit(s[LeadingDigits(s)])
    ensures forall i :: 0 <= i < LeadingSpaces(s) ==> IsWhitespace(s[i])
    ensures LeadingSpaces(s) < |s| ==> !IsWhitespace(s[LeadingSpaces(s)])
  {
    if s != [] {
      LeadingRuns(s[1..]);
    }
  }

  /** `s` splits as `d` digits, `w` whitespace characters and a rest that
      `.+$` accepts: the ways the expression can match `s`. */
  predicate Splits(s: string, d: int, w: int) {
    && 0 < d
    && 0 <= w
    && d + w <= |s|
    && AllDigits(s[..d])
    && (forall i :: d <= i < d + w ==> IsWhitespace(s[i]))
    && RestAfter(s, d, w)
  }

  /** The splits the backtracking visits: at most the leading digits, then
      at most the whitespace that follows them. */
  predicate WithinRuns(s: string, d: int, w: int) {
    && 0 < d <= LeadingDigits(s)
    && 0 <= w <= LeadingSpaces(s[d..])
    && RestAfter(s, d, w)
  }

  /** Backtracking of `\s*` for `d` digits: tries `w` whitespace characters,
      then fewer. The result is the longest acceptable whitespace run. */
  function TrySpaces(s: string, d: nat, w: nat): (r: Option<AddressMatch>)
    requires d + w <= |s|
    ensures r.Some? ==>
      && r.value.number == s[..d]
      && d + |r.value.text| <= |s|
      && var v := |s| - d - |r.value.text|;
         && v <= w
         && r.value.text == s[d + v..]
         && RestMatches(r.value.text)
         && forall u: nat :: v < u <= w ==> !RestAfter(s, d, u)
    ensures r.None? ==> forall u: nat :: u <= w ==> !RestAfter(s, d, u)
    decreases w
  {
    if RestMatches(s[d + w..]) then Some(AddressMatch(s[..d], s[d + w..]))
    else if w == 0 then None
    else TrySpaces(s, d, w - 1)
  }

  /** Backtracking of `\d+`: tries `d` digits, then fewer, down to one. */
  function TryDigits(s: string, d: nat): (r: Option<AddressMatch>)
    requires d <= LeadingDigits(s)
    ensures r.Some? ==>
      var e := |r.value.number|;
      && 0 < e <= d
      && r == TrySpaces(s, e, LeadingSpaces(s[e..]))
    decreases d
  {
    if d == 0 then None
    else
      var r := TrySpaces(s, d, LeadingSpaces(s[d..]));
      if r.Some? then r else TryDigits(s, d - 1)
  }

  /** `s.match(/^(\d+)\s*(.+)$/)`. */
  function MatchAddress(s: string): (r: Option<AddressMatch>)
    ensures r.Some? ==>
      var e, t := |r.value.number|, |r.value.text|;
      && 0 < e <= LeadingDigits(s)
      && e + t <= |s|
      && r.value.number == s[..e]
      && r.value.text == s[|s| - t..]
      && RestMatches(r.value.text)
  {
    TryDigits(s, LeadingDigits(s))
  }

  /** The backtracking misses no split: every split lies within the leading
      digit run and the whitespace run after it, and every such candidate
      is a split. */
  lemma SplitsAreWithinRuns(s: string, d: int, w: int)
    ensures Splits(s, d, w) <==> WithinRuns(s, d, w)
  {
    LeadingRuns(s);
    if 0 <= d <= |s| {
      LeadingRuns(s[d..]);
    }
    if WithinRuns(s, d, w) {
      forall i | d <= i < d + w
        ensures IsWhitespace(s[i])
      {
        assert s[i] == s[d..][i - d];
      }
    }
  }

  /** For a fixed number of digits, `\s*` backtracking finds the longest
      whitespace run that lets the rest match, if there is one. */
  lemma NoSpacesFit(s: string, d: nat, run: nat)
    requires 0 < d <= LeadingDigits(s) && run == LeadingSpaces(s[d..])
    requires TrySpaces(s, d, run).None?
    ensures forall w :: !WithinRuns(s, d, w)
  {
  }

  lemma LongestSpacesFit(s: string, d: nat, run: nat)
    requires 0 < d <= LeadingDigits(s) && run == LeadingSpaces(s[d..])
    requires TrySpaces(s, d, run).Some?
    ensures var v := |s| - d - |TrySpaces(s, d, run).value.text|;
      && WithinRuns(s, d, v)
      && forall w :: WithinRuns(s, d, w) ==> w <= v
  {
    var v := |s| - d - |TrySpaces(s, d, run).value.text|;
    assert RestAfter(s, d, v);
    forall w | WithinRuns(s, d, w)
      ensures w <= v
    {
      assert RestAfter(s, d, w);
    }
  }

  /** The result of backtracking from `d` digits: none when no split uses
      at most `d` digits, otherwise the split with the most digits and, for
      those, the most whitespace. */
  ghost predicate GreediestUpTo(s: string, d: nat, r: Option<AddressMatch>) {
    match r
    case None => forall e, w :: e <= d ==> !WithinRuns(s, e, w)
    case Some(m) =>
      var e, v := |m.number|, |s| - |m.number| - |m.text|;
      && WithinRuns(s, e, v)
      && m == AddressMatch(s[..e], s[e + v..])
      && forall f, w :: f <= d && WithinRuns(s, f, w) ==> f < e || (f == e && w <= v)
  }

  lemma {:induction false} TryDigitsIsGreedy(s: string, d: nat)
    requires d <= LeadingDigits(s)
    ensures GreediestUpTo(s, d, TryDigits(s, d))
    decreases d, 1
  {
    if d > 0 {
      var run := LeadingSpaces(s[d..]);
      if TrySpaces(s, d, run).None? {
        BacktrackPastDigit(s, d);
      } else {
        LongestSpacesFit(s, d, run);
      }
    }
  }

  /** When no whitespace count works for `d` digits, backtracking moves on
      to `d - 1` digits. */
  lemma BacktrackPastDigit(s: string, d: nat)
    requires 0 < d <= LeadingDigits(s)
    requires TrySpaces(s, d, LeadingSpaces(s[d..])).None?
    ensures GreediestUpTo(s, d, TryDigits(s, d))
    decreases d, 0
  {
    NoSpacesFit(s, d, LeadingSpaces(s[d..]));
    TryDigitsIsGreedy(s, d - 1);
    assert TryDigits(s, d) == TryDigits(s, d - 1);
    GreediestSkipsEmptyCount(s, d, TryDigits(s, d - 1));
  }

  /** A digit count that admits no whitespace run adds no split, so the
      greediest result up to `d - 1` digits is the greediest up to `d`. */
  lemma GreediestSkipsEmptyCount(s: string, d: nat, r: Option<AddressMatch>)
    requires 0 < d && GreediestUpTo(s, d - 1, r)
    requires forall w :: !WithinRuns(s, d, w)
    ensures GreediestUpTo(s, d, r)
  {
    match r
    case None =>
      forall e, w | e <= d
        ensures !WithinRuns(s, e, w)
      {
        if e < d {
          assert e <= d - 1;
        }
      }
    case Some(m) =>
      var e, v := |m.number|, |s| - |m.number| - |m.text|;
      forall f, w | f <= d && WithinRuns(s, f, w)
        ensures f < e || (f == e && w <= v)
      {
        assert f <= d - 1;
      }
  }

  /** The match is the greediest split: it exists exactly when some split
      does, it is a split, and no split has a longer number or, with the
      same number, a longer run of whitespace. */
  lemma MatchIsGreediestSplit(s: string)
    ensures MatchAddress(s).None? <==> forall d, w :: !Splits(s, d, w)
    ensures MatchAddress(s).Some? ==>
      var m := MatchAddress(s).value;
      var d, w := |m.number|, |s| - |m.number| - |m.text|;
      && Splits(s, d, w)
      && m == AddressMatch(s[..d], s[d + w..])
      && forall e, v :: Splits(s, e, v) ==> e < d || (e == d && v <= w)
  {
    forall d, w
      ensures Splits(s, d, w) <==> WithinRuns(s, d, w)
    {
      SplitsAreWithinRuns(s, d, w);
    }
    TryDigitsIsGreedy(s, LeadingDigits(s));
  }

  /** `addressNumber` and `addressText`: without a match there is no number
      and the whole address is the text. */
  function AddressParts(address: string): (r: (Option<string>, string))
    ensures r.0.None? ==> r.1 == address
    ensures r.0.Some? ==> r.0.value != [] && r.1 != [] && |r.0.value| + |r.1| <= |address|
  {
    match MatchAddress(address)
    case None => (None, address)
    case Some(m) => (Some(m.number), m.text)
  }

  /** The address row: the number (when there is one) is a non-empty run of
      digits, separated from the text by whitespace only, and the text is
      never empty; with no number the text is the whole address. */
  lemma AddressPartsRoundTrip(address: string)
    ensures var (number, text) := AddressParts(address);
      && (number.None? ==> text == address)
      && (number.Some? ==>
            && number.value != []
            && AllDigits(number.value)
            && text != []
            && |number.value| + |text| <= |address|
            && address == number.value + address[|number.value|..|address| - |text|] + text
            && forall i :: |number.value| <= i < |address| - |text| ==> IsWhitespace(address[i]))
  {
    MatchIsGreediestSplit(address);
  }

  /** A drawn address row always has text to show: a truthy address either
      does not match, and is shown whole, or leaves a non-empty rest. */
  lemma AddressRowHasText(building: Node)
    requires ShowsAddressRow(building)
    ensures AddressParts(building.address.value).1 != []
  {
    MatchIsGreediestSplit(building.address.value);
  }

  /** An address that does not start with a digit has no number. */
  lemma NoLeadingDigitNoNumber(address: string)
    requires address == [] || !IsDigit(address[0])
    ensures AddressParts(address) == (None, address)
  {
  }

  /** A number that takes the whole address gives up its last digit to the
      text: "123" is shown as number "12" and text "3". */
  lemma AllDigitsGiveUpOne()
    ensures AddressParts("123") == (Some("12"), "3")
  {
    var s := "123";
    assert LeadingDigits(s) == 3 by {
      assert s[1..] == "23" && s[1..][1..] == "3" && s[1..][1..][1..] == "";
    }
    assert s[3..] == [] && LeadingSpaces(s[3..]) == 0;
    assert TrySpaces(s, 3, 0) == None;
    assert s[2..] == "3" && LeadingSpaces(s[2..]) == 0;
    assert RestMatches(s[2..]);
    assert s[..2] == "12";
    assert TrySpaces(s, 2, 0) == Some(AddressMatch("12", "3"));
    assert TryDigits(s, 3) == TryDigits(s, 2);
  }

  /** "12 Main St" is shown as number "12" and text "Main St". */
  lemma NumberedStreet()
    ensures AddressParts("12 Main St") == (Some("12"), "Main St")
  {
    var s := "12 Main St";
    assert LeadingDigits(s) == 2 by {
      assert s[1..] == "2 Main St" && s[1..][1..] == " Main St";
    }
    assert LeadingSpaces(s[2..]) == 1 by {
      assert s[2..] == " Main St" && s[2..][1..] == "Main St";
    }
    assert s[3..] == "Main St";
    assert RestMatches("Main St");
    assert s[..2] == "12";
  }

  /** Whitespace that ends the address is given back to the text, which may
      not be empty: "7 " is shown as number "7" and text " ". */
  lemma TrailingSpaceIsText()
    ensures AddressParts("7 ") == (Some("7"), " ")
  {
    var s := "7 ";
    assert LeadingDigits(s) == 1 by {
      assert s[1..] == " ";
    }
    assert LeadingSpaces(s[1..]) == 1 by {
      assert s[1..] == " " && s[1..][1..] == "";
    }
    assert s[2..] == [] && !RestMatches(s[2..]);
    assert s[1..] == " " && RestMatches(s[1..]);
    assert s[..1] == "7";
    assert TrySpaces(s, 1, 1) == TrySpaces(s, 1, 0) == Some(AddressMatch("7", " "));
  }
}
