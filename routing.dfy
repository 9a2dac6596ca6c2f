/** The hash router of the page: classification of `location.hash` into a
    route, the lookup of the AR target, and the hash that `goToAR` writes. */
module Routing {
  import opened Values

  /** What `router` decides from the hash alone. */
  datatype Route = MapRoute | ArRoute(id: string) | NotFoundRoute

  /** The view that ends up rendered for a route. */
  datatype View = MapShown | ArView(loc: Location) | NotFoundView

  /** The literal part of the pattern `^#\/ar\/(\d+)$`. */
  const ArPrefix: string := "#/ar/"

  /** `\d`: the ASCII digits `0`-`9`. */
  predicate IsDigit(c: char) {
    '0' <= c <= '9'
  }

  /** The language of `\d+`: one or more ASCII digits. */
  predicate IsDigitString(s: string) {
    |s| > 0 && forall i :: 0 <= i < |s| ==> IsDigit(s[i])
  }

  /** The matcher's reading of `\d+$`: one character at a time, as the
      regular-expression engine consumes its input. `IsDigitString` is the
      specification it is proved against (`DigitRunIsDigitString`). */
  predicate DigitRun(s: string)
    decreases |s|
  {
    |s| > 0 && IsDigit(s[0]) && (|s| == 1 || DigitRun(s[1..]))
  }

  lemma {:induction false} DigitRunIsDigitString(s: string)
    ensures DigitRun(s) <==> IsDigitString(s)
    decreases |s|
  {
    if |s| > 1 {
      DigitRunIsDigitString(s[1..]);
      if IsDigitString(s) {
        assert forall i :: 0 <= i < |s[1..]| ==> s[1..][i] == s[i + 1];
      }
      if IsDigit(s[0]) && IsDigitString(s[1..]) {
        forall i | 0 <= i < |s| ensures IsDigit(s[i]) {
          if i > 0 { assert s[i] == s[1..][i - 1]; }
        }
      }
    }
  }

  /** Matches the literal `lit` at the front of `s`, giving what follows it. */
  function MatchLiteral(lit: string, s: string): (rest: Option<string>)
    ensures rest.Some? <==> lit <= s
    ensures rest.Some? ==> s == lit + rest.value
    decreases |lit|
  {
    if lit == [] then Some(s)
    else if s != [] && s[0] == lit[0] then
      var r := MatchLiteral(lit[1..], s[1..]);
      assert lit <= s <==> lit[1..] <= s[1..];
      if r.Some? then assert s == [s[0]] + s[1..] && lit == [lit[0]] + lit[1..]; r else r
    else None
  }

  /** `hash.match(/^#\/ar\/(\d+)$/)`: capture group 1 when the whole hash
      matches, nothing otherwise. */
  function MatchAr(hash: string): (m: Option<string>)
    ensures m.Some? <==> ArPrefix <= hash && IsDigitString(hash[|ArPrefix|..])
    ensures m.Some? ==> hash == ArPrefix + m.value
  {
    match MatchLiteral(ArPrefix, hash)
    case Some(rest) =>
      assert rest == hash[|ArPrefix|..];
      DigitRunIsDigitString(rest);
      if DigitRun(rest) then Some(rest) else None
    case None => None
  }

  /** `router`: an empty hash counts as `"#"`; `"#"` is the map, a match of
      the AR pattern is the AR view of the captured digits, anything else
      is not found. */
  function RouteOf(locationHash: string): (r: Route)
    ensures r == MapRoute ==> locationHash == "" || locationHash == "#"
    ensures r.ArRoute? ==> locationHash == ArPrefix + r.id && IsDigitString(r.id)
  {
    var hash := if locationHash == "" then "#" else locationHash;
    if hash == "#" then MapRoute
    else match MatchAr(hash)
      case Some(id) => ArRoute(id)
      case None => NotFoundRoute
  }

  lemma RouteOfMapIff(h: string)
    ensures RouteOf(h) == MapRoute <==> h == "" || h == "#"
  {
  }

  lemma RouteOfArIff(h: string, id: string)
    ensures RouteOf(h) == ArRoute(id) <==> h == ArPrefix + id && IsDigitString(id)
  {
    if h == ArPrefix + id {
      assert ArPrefix <= h;
      var rest := MatchLiteral(ArPrefix, h).value;
      assert rest == h[|ArPrefix|..] == id;
      DigitRunIsDigitString(id);
    }
    if RouteOf(h) == ArRoute(id) {
      var rest := MatchLiteral(ArPrefix, h).value;
      DigitRunIsDigitString(rest);
    }
  }

  lemma RouteOfNotFoundIff(h: string)
    ensures RouteOf(h) == NotFoundRoute <==>
      h != "" && h != "#" && !(ArPrefix <= h && IsDigitString(h[|ArPrefix|..]))
  {
    if ArPrefix <= h {
      var rest := h[|ArPrefix|..];
      assert h == ArPrefix + rest;
      RouteOfArIff(h, rest);
    } else {
      assert MatchLiteral(ArPrefix, h).None?;
    }
  }

  lemma NotFoundExamples()
    ensures RouteOf("#/ar/") == NotFoundRoute
    ensures RouteOf("#/ar/12x") == NotFoundRoute
    ensures RouteOf("#/ar/-1") == NotFoundRoute
    ensures RouteOf("#/foo") == NotFoundRoute
    ensures RouteOf("#/") == NotFoundRoute
  {
    RouteOfNotFoundIff("#/ar/");
    RouteOfNotFoundIff("#/ar/12x");
    assert "#/ar/12x"[|ArPrefix|..][2] == 'x';
    RouteOfNotFoundIff("#/ar/-1");
    assert "#/ar/-1"[|ArPrefix|..][0] == '-';
    RouteOfNotFoundIff("#/foo");
    assert "#/foo"[2] != ArPrefix[2];
    RouteOfNotFoundIff("#/");
  }

  /** The hash `goToAR` assigns: the template literal `#/ar/${id}`. */
  function ArHash(idText: string): (h: string)
    ensures ArPrefix <= h && h[|ArPrefix|..] == idText
    ensures h != "" && h != "#"
  {
    ArPrefix + idText
  }

  /** Routing the hash `goToAR` writes gives back the AR route of that very
      text exactly when it is a digit string; otherwise it is not found. */
  lemma ArHashRoundTrip(idText: string)
    ensures RouteOf(ArHash(idText)) ==
      if IsDigitString(idText) then ArRoute(idText) else NotFoundRoute
  {
    var h := ArHash(idText);
    assert h[|ArPrefix|..] == idText;
    RouteOfNotFoundIff(h);
    RouteOfArIff(h, idText);
  }

  function DigitChar(d: nat): (c: char)
    requires d < 10
    ensures IsDigit(c)
  {
    "0123456789"[d]
  }

  /** Decimal text of a non-negative integer. */
  function NatText(n: nat): string
    decreases n
  {
    if n < 10 then [DigitChar(n)] else NatText(n / 10) + [DigitChar(n % 10)]
  }

  lemma {:induction false} NatTextIsDigitString(n: nat)
    ensures IsDigitString(NatText(n))
    decreases n
  {
    if n >= 10 {
      NatTextIsDigitString(n / 10);
      var s := NatText(n / 10) + [DigitChar(n % 10)];
      assert forall i :: 0 <= i < |NatText(n / 10)| ==> s[i] == NatText(n / 10)[i];
    }
  }

  /** What the template literal `${id}` makes of a record id: a string as it
      is, an integral number as its decimal text. */
  function IdText(id: Id): (t: string)
    ensures id.StringId? ==> t == id.text
    ensures id.NumberId? && id.value >= 0 ==> IsDigitString(t)
    ensures id.NumberId? && id.value < 0 ==> |t| > 1 && t[0] == '-'
  {
    match id
    case StringId(s) => s
    case NumberId(n) =>
      if n < 0 then NatTextIsDigitString(-n); "-" + NatText(-n)
      else NatTextIsDigitString(n); NatText(n)
  }

  /** `l.id === id` with `id` the captured string: only a string id equal
      to it passes; a number never equals a string. */
  predicate StrictEqualsString(v: Id, s: string) {
    v.StringId? && v.text == s
  }

  /** Index of the first record `locations.find` returns. */
  function FindIndex(locs: seq<Location>, id: string): (r: Option<nat>)
    ensures r.Some? ==> r.value < |locs| && StrictEqualsString(locs[r.value].id, id)
    ensures r.Some? ==> forall j :: 0 <= j < r.value ==> !StrictEqualsString(locs[j].id, id)
    ensures r.None? ==> forall j :: 0 <= j < |locs| ==> !StrictEqualsString(locs[j].id, id)
  {
    if locs == [] then None
    else if StrictEqualsString(locs[0].id, id) then Some(0)
    else match FindIndex(locs[1..], id)
      case Some(i) => Some(i + 1)
      case None => None
  }

  /** `renderARView`: the first record whose id is strictly equal to the
      requested one, or the not-found view. */
  function ArViewFor(locs: seq<Location>, id: string): (v: View)
    ensures v.ArView? || v.NotFoundView?
    ensures v.ArView? ==> v.loc in locs && v.loc.id == StringId(id)
    ensures v.ArView? ==>
      (exists i :: 0 <= i < |locs| && v.loc == locs[i] && forall j :: 0 <= j < i ==> locs[j].id != StringId(id))
    ensures v.NotFoundView? <==> forall j :: 0 <= j < |locs| ==> locs[j].id != StringId(id)
  {
    match FindIndex(locs, id)
    case Some(i) => ArView(locs[i])
    case None => NotFoundView
  }

  /** The view a route leads to, given the loaded records. */
  function Resolve(r: Route, locs: seq<Location>): (v: View)
    ensures v == MapShown <==> r == MapRoute
    ensures v.ArView? ==> r.ArRoute? && v.loc in locs && v.loc.id == StringId(r.id)
    ensures r == NotFoundRoute ==> v == NotFoundView
  {
    match r
    case MapRoute => MapShown
    case ArRoute(id) => ArViewFor(locs, id)
    case NotFoundRoute => NotFoundView
  }

  predicate UniqueIds(locs: seq<Location>) {
    forall i, j :: 0 <= i < j < |locs| ==> locs[i].id != locs[j].id
  }

  /** Following the hash of a record whose id is a digit string opens the
      AR view of that record, when ids are unique keys. */
  lemma DigitIdOpensItsRecord(locs: seq<Location>, k: nat)
    requires k < |locs| && UniqueIds(locs)
    requires locs[k].id.StringId? && IsDigitString(locs[k].id.text)
    ensures Resolve(RouteOf(ArHash(IdText(locs[k].id))), locs) == ArView(locs[k])
  {
    var s := locs[k].id.text;
    ArHashRoundTrip(s);
  }

  /** A record whose id is a JSON number can never be opened through its
      own hash: the captured id is a string, and a negative number does not
      even route. */
  lemma NumberIdNeverOpens(locs: seq<Location>, k: nat)
    requires k < |locs| && locs[k].id.NumberId?
    ensures Resolve(RouteOf(ArHash(IdText(locs[k].id))), locs) != ArView(locs[k])
    ensures locs[k].id.value < 0 ==>
      Resolve(RouteOf(ArHash(IdText(locs[k].id))), locs) == NotFoundView
  {
    var t := IdText(locs[k].id);
    ArHashRoundTrip(t);
    if locs[k].id.value < 0 {
      assert t[0] == '-';
    }
  }
}
