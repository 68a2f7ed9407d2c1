/**
 * The cookie helpers of the API (api/src/utils/cookie.ts): a lenient reader
 * of the `Cookie` request header, and a writer of `Set-Cookie` values with
 * the attribute syntax of section 4.1.1 of RFC 6265 (Path, Domain, Max-Age,
 * HttpOnly, Secure, SameSite, always in that order).
 */
module Cookie {
  import opened Wrappers
  import opened Strings

  // ---------------------------------------------------------------------
  // Options
  // ---------------------------------------------------------------------

  datatype SameSite = Strict | Lax | NoneAllowed

  function SameSiteName(s: SameSite): string {
    match s
    case Strict => "Strict"
    case Lax => "Lax"
    case NoneAllowed => "None"
  }

  /** `CookieOptions`: every field may be left undefined. */
  datatype CookieOptions = CookieOptions(
    httpOnly: Option<bool>,
    secure: Option<bool>,
    sameSite: Option<SameSite>,
    maxAge: Option<int>,
    path: Option<string>,
    domain: Option<string>)

  const NO_OPTIONS: CookieOptions := CookieOptions(None, None, None, None, None, None)

  /** getSecureFlag: cookies are marked secure in every environment. */
  const SECURE_FLAG: bool := true

  /** Session tokens live for 24 hours. */
  const SESSION_COOKIE_OPTIONS: CookieOptions :=
    CookieOptions(Some(true), Some(SECURE_FLAG), Some(Lax), Some(86400), Some("/"), None)

  /** The temporary single-sign-on state lives for 5 minutes. */
  const STATE_COOKIE_OPTIONS: CookieOptions :=
    CookieOptions(Some(true), Some(SECURE_FLAG), Some(Lax), Some(300), Some("/"), None)

  // ---------------------------------------------------------------------
  // parseCookies
  // ---------------------------------------------------------------------

  /**
   * One `;`-separated piece of the header, trimmed and split on `=`: the
   * name is the text before the first `=`, the value the rest re-joined
   * with `=`. Pieces without `=` or with an empty name give nothing.
   */
  function Entry(piece: string): Option<(string, string)> {
    var parts := Split(Trim(piece), '=');
    if parts[0] != "" && |parts| > 1 then Some((parts[0], Join(parts[1..], '='))) else None
  }

  /** A piece gives an entry exactly when its trimmed text has an `=` after a non-empty name, and then it reads `name=value`. */
  lemma EntryMeaning(piece: string)
    ensures var t := Trim(piece);
      Entry(piece).None? <==> '=' !in t || t[0] == '='
    ensures Entry(piece).Some? ==>
      var (name, value) := Entry(piece).value;
      name != "" && '=' !in name && Trim(piece) == name + "=" + value
  {
    var t := Trim(piece);
    var parts := Split(t, '=');
    SplitFirst(t, '=');
    if |parts| > 1 {
      if parts[0] != "" {
        assert t[0] == parts[0][0];
        assert parts[0][0] in parts[0];
      }
    }
  }

  /** A piece whose trimmed text is `name=value`, with no `=` in the name, gives exactly that entry. */
  lemma EntryOfTrimmed(piece: string, name: string, value: string)
    requires name != "" && '=' !in name && Trim(piece) == name + "=" + value
    ensures Entry(piece) == Some((name, value))
  {
    var t := Trim(piece);
    assert t[|name|] == '=' && t[0] == name[0];
    assert name[0] in name;
    EntryMeaning(piece);
    var e := Entry(piece).value;
    FirstSeparatorUnique(name, value, e.0, e.1, '=');
  }

  /** A trimmed `name=value` piece, padded with spaces in front, gives exactly that entry. */
  lemma EntryOf(pad: nat, name: string, value: string)
    requires name != "" && '=' !in name && Trimmed(name + "=" + value)
    ensures Entry(seq(pad, _ => ' ') + name + "=" + value) == Some((name, value))
  {
    var piece := seq(pad, _ => ' ') + name + "=" + value;
    assert piece == seq(pad, _ => ' ') + (name + "=" + value);
    TrimSpaces(pad, name + "=" + value);
    EntryOfTrimmed(piece, name, value);
  }

  /** An unpadded `name=value` piece gives exactly that entry. */
  lemma EntryOfPair(name: string, value: string)
    requires name != "" && '=' !in name && Trimmed(name + "=" + value)
    ensures Entry(name + "=" + value) == Some((name, value))
  {
    var piece := name + "=" + value;
    TrimSpaces(0, piece);
    assert seq(0, _ => ' ') + piece == piece;
    EntryOfTrimmed(piece, name, value);
  }

  /** The cookies after one more piece: its entry, if any, overrides an earlier one of the same name. */
  function AddEntry(cookies: map<string, string>, piece: string): map<string, string> {
    match Entry(piece)
    case None => cookies
    case Some((name, value)) => cookies[name := value]
  }

  /** The cookies named by a sequence of pieces, one piece after another. */
  function CookiesOf(pieces: seq<string>): map<string, string>
    decreases |pieces|
  {
    if pieces == [] then map[] else AddEntry(CookiesOf(pieces[..|pieces| - 1]), pieces[|pieces| - 1])
  }

  lemma CookiesOfSnoc(pieces: seq<string>, piece: string)
    ensures CookiesOf(pieces + [piece]) == AddEntry(CookiesOf(pieces), piece)
  {
    assert (pieces + [piece])[..|pieces|] == pieces;
  }

  /** `parseCookies`: a missing or empty header has no cookies. */
  function ParseCookies(header: Option<string>): map<string, string> {
    if header.None? || header.value == "" then map[] else CookiesOf(Split(header.value, ';'))
  }

  /** The reading of a header, piece by piece, as the request handler does it. */
  method ParseCookieHeader(header: Option<string>) returns (cookies: map<string, string>)
    ensures cookies == ParseCookies(header)
  {
    if header.None? || header.value == "" {
      return map[];
    }
    cookies := map[];
    var pieces := Split(header.value, ';');
    for i := 0 to |pieces|
      invariant cookies == CookiesOf(pieces[..i])
    {
      ghost var before := cookies;
      var parts := Split(Trim(pieces[i]), '=');
      var name := parts[0];
      if name != "" && |parts| > 1 {
        cookies := cookies[name := Join(parts[1..], '=')];
      }
      assert cookies == AddEntry(before, pieces[i]);
      CookiesOfSnoc(pieces[..i], pieces[i]);
      assert pieces[..i + 1] == pieces[..i] + [pieces[i]];
    }
    assert pieces[..|pieces|] == pieces;
  }

  /** The value of the last piece that names `name`, if any. */
  function LastValue(pieces: seq<string>, name: string): Option<string>
    decreases |pieces|
  {
    if pieces == [] then None
    else
      var e := Entry(pieces[|pieces| - 1]);
      if e.Some? && e.value.0 == name then Some(e.value.1) else LastValue(pieces[..|pieces| - 1], name)
  }

  /** A cookie is present exactly when some piece names it, and its value is that of the last such piece. */
  lemma {:induction false} CookiesLastWins(pieces: seq<string>, name: string)
    ensures name in CookiesOf(pieces) <==> LastValue(pieces, name).Some?
    ensures name in CookiesOf(pieces) ==> CookiesOf(pieces)[name] == LastValue(pieces, name).value
    decreases |pieces|
  {
    if pieces != [] {
      CookiesLastWins(pieces[..|pieces| - 1], name);
    }
  }

  /** Pieces that do not name `name` do not change its last value. */
  lemma {:induction false} LastValueSkip(ps: seq<string>, qs: seq<string>, name: string)
    requires forall i :: 0 <= i < |qs| ==> Entry(qs[i]).None? || Entry(qs[i]).value.0 != name
    ensures LastValue(ps + qs, name) == LastValue(ps, name)
    decreases |qs|
  {
    if qs == [] {
      assert ps + qs == ps;
    } else {
      var init := qs[..|qs| - 1];
      assert (ps + qs)[..|ps + qs| - 1] == ps + init;
      LastValueSkip(ps, init, name);
    }
  }

  // ---------------------------------------------------------------------
  // serializeCookie, deleteCookie
  // ---------------------------------------------------------------------

  /**
   * The attributes written for the options, in the fixed order. An undefined
   * option takes its default (HttpOnly, Secure, SameSite=Lax, Path=/); an
   * empty path or domain is falsy and is left out; Max-Age is written
   * whenever it is defined, 0 included.
   */
  function Attributes(o: CookieOptions): seq<string> {
    PathAttribute(o) + DomainAttribute(o) + MaxAgeAttribute(o)
    + (if o.httpOnly.GetOr(true) then ["HttpOnly"] else [])
    + (if o.secure.GetOr(true) then ["Secure"] else [])
    + ["SameSite=" + SameSiteName(o.sameSite.GetOr(Lax))]
  }

  function PathAttribute(o: CookieOptions): seq<string> {
    var path := o.path.GetOr("/");
    if path != "" then ["Path=" + path] else []
  }

  function DomainAttribute(o: CookieOptions): seq<string> {
    if o.domain.Some? && o.domain.value != "" then ["Domain=" + o.domain.value] else []
  }

  function MaxAgeAttribute(o: CookieOptions): seq<string> {
    if o.maxAge.Some? then ["Max-Age=" + IntToString(o.maxAge.value, 10)] else []
  }

  /** Each attribute preceded by `; `. */
  function AttributeText(attrs: seq<string>): string
    decreases |attrs|
  {
    if attrs == [] then "" else "; " + attrs[0] + AttributeText(attrs[1..])
  }

  lemma {:induction false} AttributeTextAppend(attrs: seq<string>, a: string)
    ensures AttributeText(attrs + [a]) == AttributeText(attrs) + "; " + a
    decreases |attrs|
  {
    if attrs == [] {
      assert AttributeText([a]) == "; " + a + AttributeText([]);
    } else {
      assert (attrs + [a])[1..] == attrs[1..] + [a];
      AttributeTextAppend(attrs[1..], a);
    }
  }

  /** The `Set-Cookie` value: `name=value`, then the attributes. */
  function SetCookie(name: string, value: string, o: CookieOptions): string {
    name + "=" + value + AttributeText(Attributes(o))
  }

  /** Writing one more attribute after the text so far, when `write` holds. */
  method Attach(cookie: string, ghost head: string, ghost attrs: seq<string>, write: bool, a: string) returns (c: string)
    requires cookie == head + AttributeText(attrs)
    ensures c == (if write then cookie + "; " + a else cookie)
    ensures c == head + AttributeText(attrs + (if write then [a] else []))
  {
    c := cookie;
    if write {
      AttributeTextAppend(attrs, a);
      c := c + "; " + a;
    } else {
      assert attrs + [] == attrs;
    }
  }

  /** `serializeCookie`, which appends one attribute after another. */
  method SerializeCookie(name: string, value: string, options: CookieOptions) returns (cookie: string)
    ensures cookie == SetCookie(name, value, options)
  {
    var httpOnly := options.httpOnly.GetOr(true);
    var secure := options.secure.GetOr(true);
    var sameSite := options.sameSite.GetOr(Lax);
    var path := options.path.GetOr("/");
    var head := name + "=" + value;
    assert head == head + AttributeText([]);
    cookie := Attach(head, head, [], path != "", "Path=" + path);
    ghost var attrs := PathAttribute(options);
    var hasDomain := options.domain.Some? && options.domain.value != "";
    cookie := Attach(cookie, head, attrs, hasDomain, "Domain=" + options.domain.GetOr(""));
    attrs := attrs + DomainAttribute(options);
    var age := if options.maxAge.Some? then IntToString(options.maxAge.value, 10) else "";
    cookie := Attach(cookie, head, attrs, options.maxAge.Some?, "Max-Age=" + age);
    attrs := attrs + MaxAgeAttribute(options);
    cookie := Attach(cookie, head, attrs, httpOnly, "HttpOnly");
    attrs := attrs + (if httpOnly then ["HttpOnly"] else []);
    cookie := Attach(cookie, head, attrs, secure, "Secure");
    attrs := attrs + (if secure then ["Secure"] else []);
    cookie := Attach(cookie, head, attrs, true, "SameSite=" + SameSiteName(sameSite));
  }

  /** The options `deleteCookie` writes with. */
  function DeleteOptions(path: string): CookieOptions {
    CookieOptions(Some(true), Some(SECURE_FLAG), Some(Lax), Some(0), Some(path), None)
  }

  /** `deleteCookie`: an empty value that expires at once, with the usual flags; the path defaults to `/`. */
  function DeleteCookie(name: string, path: string := "/"): string {
    SetCookie(name, "", DeleteOptions(path))
  }

  /** The deleting cookie carries the path if any, `Max-Age=0`, and the flags. */
  lemma DeleteCookieAttributes(path: string)
    ensures Attributes(DeleteOptions(path))
      == (if path != "" then ["Path=" + path] else []) + ["Max-Age=0", "HttpOnly", "Secure", "SameSite=Lax"]
  {
    assert IntToString(0, 10) == "0";
    assert "Max-Age=" + "0" == "Max-Age=0" && "SameSite=" + "Lax" == "SameSite=Lax";
  }

  /** With no options the attributes are `Path=/`, `HttpOnly`, `Secure` and `SameSite=Lax`. */
  lemma DefaultCookie()
    ensures Attributes(NO_OPTIONS) == ["Path=/", "HttpOnly", "Secure", "SameSite=Lax"]
  {
    assert "Path=" + "/" == "Path=/" && "SameSite=" + "Lax" == "SameSite=Lax";
  }

  /** The text of four attributes. */
  lemma TextOfFour(a: string, b: string, c: string, d: string)
    ensures AttributeText([a, b, c, d]) == ("; " + a) + ("; " + b) + ("; " + c) + ("; " + d)
  {
    assert [a, b, c, d][1..] == [b, c, d];
    assert [b, c, d][1..] == [c, d];
    assert [c, d][1..] == [d];
    assert [d][1..] == [];
    var x, y, z, w := "; " + a, "; " + b, "; " + c, "; " + d;
    assert AttributeText([d]) == w;
    assert AttributeText([c, d]) == z + w;
    assert AttributeText([b, c, d]) == y + (z + w);
    assert AttributeText([a, b, c, d]) == x + (y + (z + w));
    assert x + (y + (z + w)) == x + y + z + w;
  }

  /** The text of five attributes. */
  lemma TextOfFive(a: string, b: string, c: string, d: string, e: string)
    ensures AttributeText([a, b, c, d, e]) == ("; " + a) + ("; " + b) + ("; " + c) + ("; " + d) + ("; " + e)
  {
    assert [a, b, c, d, e][1..] == [b, c, d, e];
    TextOfFour(b, c, d, e);
    var x, y, z, w, v := "; " + a, "; " + b, "; " + c, "; " + d, "; " + e;
    assert AttributeText([a, b, c, d, e]) == x + (y + z + w + v);
    assert x + (y + z + w + v) == x + y + z + w + v;
  }

  /** By default the deleting cookie reads `name=; Path=/; Max-Age=0; HttpOnly; Secure; SameSite=Lax`. */
  lemma DeleteCookieText(name: string)
    ensures DeleteCookie(name) == name + "=" + "; Path=/" + "; Max-Age=0" + "; HttpOnly" + "; Secure" + "; SameSite=Lax"
  {
    DeleteCookieAttributes("/");
    assert "Path=" + "/" == "Path=/";
    TextOfFive("Path=/", "Max-Age=0", "HttpOnly", "Secure", "SameSite=Lax");
    assert "; " + "Path=/" == "; Path=/";
    assert "; " + "Max-Age=0" == "; Max-Age=0";
    assert "; " + "HttpOnly" == "; HttpOnly";
    assert "; " + "Secure" == "; Secure";
    assert "; " + "SameSite=Lax" == "; SameSite=Lax";
  }

  /** With no options the value reads `name=value; Path=/; HttpOnly; Secure; SameSite=Lax`. */
  lemma DefaultCookieText(name: string, value: string)
    ensures SetCookie(name, value, NO_OPTIONS) == name + "=" + value + "; Path=/" + "; HttpOnly" + "; Secure" + "; SameSite=Lax"
  {
    DefaultCookie();
    TextOfFour("Path=/", "HttpOnly", "Secure", "SameSite=Lax");
    assert "; " + "Path=/" == "; Path=/";
    assert "; " + "HttpOnly" == "; HttpOnly";
    assert "; " + "Secure" == "; Secure";
    assert "; " + "SameSite=Lax" == "; SameSite=Lax";
  }

  /** Session cookies: `Path=/; Max-Age=86400; HttpOnly; Secure; SameSite=Lax`. */
  lemma SessionCookie()
    ensures Attributes(SESSION_COOKIE_OPTIONS) == ["Path=/", "Max-Age=86400", "HttpOnly", "Secure", "SameSite=Lax"]
  {
    assert NatToString(8, 10) == "8";
    assert NatToString(86, 10) == "86";
    assert NatToString(864, 10) == "864";
    assert NatToString(8640, 10) == "8640";
    assert IntToString(86400, 10) == "86400";
    assert "Path=" + "/" == "Path=/" && "SameSite=" + "Lax" == "SameSite=Lax";
    assert "Max-Age=" + "86400" == "Max-Age=86400";
  }

  /** State cookies: `Path=/; Max-Age=300; HttpOnly; Secure; SameSite=Lax`. */
  lemma StateCookie()
    ensures Attributes(STATE_COOKIE_OPTIONS) == ["Path=/", "Max-Age=300", "HttpOnly", "Secure", "SameSite=Lax"]
  {
    assert NatToString(3, 10) == "3";
    assert NatToString(30, 10) == "30";
    assert IntToString(300, 10) == "300";
    assert "Path=" + "/" == "Path=/" && "SameSite=" + "Lax" == "SameSite=Lax";
    assert "Max-Age=" + "300" == "Max-Age=300";
  }

  /** Max-Age is written exactly when it is defined, and Domain exactly when it is non-empty. */
  lemma OptionalAttributes(o: CookieOptions)
    ensures o.maxAge.Some? <==> exists a :: a in Attributes(o) && StartsWith(a, "Max-Age=")
    ensures o.maxAge.Some? ==> "Max-Age=" + IntToString(o.maxAge.value, 10) in Attributes(o)
    ensures (o.domain.Some? && o.domain.value != "") <==> exists a :: a in Attributes(o) && StartsWith(a, "Domain=")
  {
    forall a | a in Attributes(o)
      ensures StartsWith(a, "Max-Age=") ==> o.maxAge.Some? && a[0] == 'M'
      ensures StartsWith(a, "Domain=") ==> o.domain.Some? && o.domain.value != "" && a[0] == 'D'
    {
      if StartsWith(a, "Max-Age=") {
        assert a[0] == "Max-Age="[0];
      }
      if StartsWith(a, "Domain=") {
        assert a[0] == "Domain="[0];
      }
    }
    if o.maxAge.Some? {
      var a := "Max-Age=" + IntToString(o.maxAge.value, 10);
      assert a[..8] == "Max-Age=";
      assert a in Attributes(o);
    }
    if o.domain.Some? && o.domain.value != "" {
      var a := "Domain=" + o.domain.value;
      assert a[..7] == "Domain=";
      assert a in Attributes(o);
    }
  }

  /** The position of an attribute in the fixed order. */
  function Rank(a: string): int {
    if StartsWith(a, "Path=") then 0
    else if StartsWith(a, "Domain=") then 1
    else if StartsWith(a, "Max-Age=") then 2
    else if a == "HttpOnly" then 3
    else if a == "Secure" then 4
    else if StartsWith(a, "SameSite=") then 5
    else 6
  }

  /** Ranks strictly increase along the list. */
  predicate InOrder(attrs: seq<string>) {
    forall i, j :: 0 <= i < j < |attrs| ==> Rank(attrs[i]) < Rank(attrs[j])
  }

  /** Every rank along the list is below `k`. */
  predicate RanksBelow(attrs: seq<string>, k: int) {
    forall i :: 0 <= i < |attrs| ==> Rank(attrs[i]) < k
  }

  /** Appending at most one attribute of rank `k` after attributes ranked below `k` keeps the order. */
  lemma Grow(a: seq<string>, b: seq<string>, k: int)
    requires InOrder(a) && RanksBelow(a, k)
    requires |b| <= 1 && forall i :: 0 <= i < |b| ==> Rank(b[i]) == k
    ensures InOrder(a + b) && RanksBelow(a + b, k + 1)
  {
    forall i, j | 0 <= i < j < |a + b| ensures Rank((a + b)[i]) < Rank((a + b)[j]) {
      assert (a + b)[i] == a[i];
      if j < |a| {
        assert (a + b)[j] == a[j];
      } else {
        assert (a + b)[j] == b[0];
      }
    }
    forall i | 0 <= i < |a + b| ensures Rank((a + b)[i]) < k + 1 {
      if i < |a| {
        assert (a + b)[i] == a[i];
      } else {
        assert (a + b)[i] == b[0];
      }
    }
  }

  lemma PathRank(x: string)
    ensures Rank("Path=" + x) == 0
  {
    assert ("Path=" + x)[..5] == "Path=";
  }

  lemma DomainRank(x: string)
    ensures Rank("Domain=" + x) == 1
  {
    var a := "Domain=" + x;
    assert a[..7] == "Domain=";
    assert a[0] == 'D';
  }

  lemma MaxAgeRank(x: string)
    ensures Rank("Max-Age=" + x) == 2
  {
    var a := "Max-Age=" + x;
    assert a[..8] == "Max-Age=";
    assert a[0] == 'M';
  }

  lemma FlagRanks()
    ensures Rank("HttpOnly") == 3 && Rank("Secure") == 4
  {
    assert "HttpOnly"[0] == 'H' && "Secure"[0] == 'S' && "Secure"[1] == 'e';
    assert !StartsWith("HttpOnly", "Path=") && !StartsWith("HttpOnly", "Domain=") && !StartsWith("HttpOnly", "Max-Age=");
    assert !StartsWith("Secure", "Path=") && !StartsWith("Secure", "Domain=") && !StartsWith("Secure", "Max-Age=");
  }

  lemma OptionalRanks(o: CookieOptions)
    ensures forall i :: 0 <= i < |PathAttribute(o)| ==> Rank(PathAttribute(o)[i]) == 0
    ensures forall i :: 0 <= i < |DomainAttribute(o)| ==> Rank(DomainAttribute(o)[i]) == 1
    ensures forall i :: 0 <= i < |MaxAgeAttribute(o)| ==> Rank(MaxAgeAttribute(o)[i]) == 2
  {
    PathRank(o.path.GetOr("/"));
    if o.domain.Some? {
      DomainRank(o.domain.value);
    }
    if o.maxAge.Some? {
      MaxAgeRank(IntToString(o.maxAge.value, 10));
    }
  }

  lemma SameSiteRank(x: string)
    ensures Rank("SameSite=" + x) == 5
  {
    var a := "SameSite=" + x;
    assert a[..9] == "SameSite=";
    assert a[0] == 'S' && a[1] == 'a';
  }

  /** The attributes appear in the order Path, Domain, Max-Age, HttpOnly, Secure, SameSite, each at most once. */
  lemma AttributesInOrder(o: CookieOptions)
    ensures InOrder(Attributes(o))
  {
    var p := PathAttribute(o);
    var d := DomainAttribute(o);
    var m := MaxAgeAttribute(o);
    var h: seq<string> := if o.httpOnly.GetOr(true) then ["HttpOnly"] else [];
    var s: seq<string> := if o.secure.GetOr(true) then ["Secure"] else [];
    var ss := "SameSite=" + SameSiteName(o.sameSite.GetOr(Lax));
    OptionalRanks(o);
    FlagRanks();
    SameSiteRank(SameSiteName(o.sameSite.GetOr(Lax)));
    assert [] + p == p;
    Grow([], p, 0);
    Grow(p, d, 1);
    Grow(p + d, m, 2);
    Grow(p + d + m, h, 3);
    Grow(p + d + m + h, s, 4);
    Grow(p + d + m + h + s, [ss], 5);
  }

  // ---------------------------------------------------------------------
  // Reading back a written cookie
  // ---------------------------------------------------------------------

  /** The names the attributes carry before an `=`. */
  predicate IsAttributeName(k: string) {
    k == "Path" || k == "Domain" || k == "Max-Age" || k == "SameSite"
  }

  /** The pieces a header splits into: the first, then each attribute preceded by a space. */
  function Spaced(attrs: seq<string>): (r: seq<string>)
    ensures |r| == |attrs|
  {
    seq(|attrs|, i requires 0 <= i < |attrs| => " " + attrs[i])
  }

  /** Splitting a written cookie on `;` gives back its pieces. */
  lemma {:induction false} SplitSerialized(first: string, attrs: seq<string>)
    requires ';' !in first
    requires forall i :: 0 <= i < |attrs| ==> ';' !in attrs[i]
    ensures Split(first + AttributeText(attrs), ';') == [first] + Spaced(attrs)
    decreases |attrs|
  {
    if attrs == [] {
      assert first + AttributeText(attrs) == first;
    } else {
      var next := " " + attrs[0];
      assert ';' !in next;
      assert first + AttributeText(attrs) == first + [';'] + (next + AttributeText(attrs[1..]));
      SplitAfter(first, ';', next + AttributeText(attrs[1..]));
      SplitSerialized(next, attrs[1..]);
      assert Spaced(attrs) == [next] + Spaced(attrs[1..]);
    }
  }

  lemma NoSemicolonInNumber(n: int)
    ensures ';' !in IntToString(n, 10)
  {
    var digits := NatToString(if n < 0 then -n else n, 10);
    assert forall i :: 0 <= i < |digits| ==> digits[i] != ';';
    assert IntToString(n, 10) == if n < 0 then "-" + digits else digits;
  }

  /** Trimming ` key=text` removes the space and keeps at least `key=`. */
  lemma TrimKeyed(key: string, text: string)
    requires key != "" && !IsWhitespace(key[0])
    ensures var t := Trim(" " + (key + "=" + text));
      |t| > |key| && t == key + "=" + t[|key| + 1..]
  {
    var u := key + "=" + text;
    var piece := " " + u;
    assert piece[1..] == u;
    assert TrimStart(piece) == u;
    assert u[|key|] == '=';
    TrimEndKeeps(u, |key|);
    KeyedPrefix(key, text, TrimEnd(u));
  }

  /** A prefix of `key=text` longer than `key` is `key=` and more. */
  lemma KeyedPrefix(key: string, text: string, t: string)
    requires |key| < |t| <= |key| + 1 + |text| && t == (key + "=" + text)[..|t|]
    ensures t == key + "=" + t[|key| + 1..]
  {
    var u := key + "=" + text;
    assert t[..|key|] == key;
    assert t[|key|] == '=';
    assert t == t[..|key|] + [t[|key|]] + t[|key| + 1..];
  }

  /** A `key=text` attribute, after its leading space is trimmed, names `key`. */
  lemma KeyedEntry(key: string, text: string)
    requires key != "" && '=' !in key && !IsWhitespace(key[0])
    ensures Entry(" " + (key + "=" + text)).Some? && Entry(" " + (key + "=" + text)).value.0 == key
  {
    var piece := " " + (key + "=" + text);
    TrimKeyed(key, text);
    var t := Trim(piece);
    EntryOfTrimmed(piece, key, t[|key| + 1..]);
  }

  /** An attribute without `=`, such as a flag, gives no entry at all. */
  lemma FlagEntry(flag: string)
    requires '=' !in flag && Trimmed(flag)
    ensures Entry(" " + flag).None?
  {
    TrimSpaces(1, flag);
    assert seq(1, _ => ' ') + flag == " " + flag;
    EntryMeaning(" " + flag);
  }

  /** An attribute as written: `key=text`, or a bare flag. */
  datatype Attr = Keyed(key: string, text: string) | Flag(name: string)

  function Render(x: Attr): string {
    match x
    case Keyed(key, text) => key + "=" + text
    case Flag(name) => name
  }

  function RenderAll(xs: seq<Attr>): (r: seq<string>)
    ensures |r| == |xs| && forall i :: 0 <= i < |xs| ==> r[i] == Render(xs[i])
  {
    seq(|xs|, i requires 0 <= i < |xs| => Render(xs[i]))
  }

  /** The attributes of the options as keyed pairs and flags, in the order written. */
  function AttrList(o: CookieOptions): seq<Attr> {
    PathAttr(o) + DomainAttr(o) + MaxAgeAttr(o) + FlagAttrs(o)
    + [Keyed("SameSite", SameSiteName(o.sameSite.GetOr(Lax)))]
  }

  function PathAttr(o: CookieOptions): seq<Attr> {
    var path := o.path.GetOr("/");
    if path != "" then [Keyed("Path", path)] else []
  }

  function DomainAttr(o: CookieOptions): seq<Attr> {
    if o.domain.Some? && o.domain.value != "" then [Keyed("Domain", o.domain.value)] else []
  }

  function MaxAgeAttr(o: CookieOptions): seq<Attr> {
    if o.maxAge.Some? then [Keyed("Max-Age", IntToString(o.maxAge.value, 10))] else []
  }

  function FlagAttrs(o: CookieOptions): seq<Attr> {
    (if o.httpOnly.GetOr(true) then [Flag("HttpOnly")] else [])
    + (if o.secure.GetOr(true) then [Flag("Secure")] else [])
  }

  lemma RenderAllAppend(a: seq<Attr>, b: seq<Attr>)
    ensures RenderAll(a + b) == RenderAll(a) + RenderAll(b)
  {
  }

  /** Rendering a keyed attribute with a literal key, whatever its text. */
  lemma KeyedRendered(key: string, text: string, written: string)
    requires written == key + "=" + text
    ensures RenderAll([Keyed(key, text)]) == [written]
  {
  }

  lemma PathRendered(o: CookieOptions)
    ensures RenderAll(PathAttr(o)) == PathAttribute(o)
  {
    var path := o.path.GetOr("/");
    if path != "" {
      assert "Path=" + path == "Path" + "=" + path;
      KeyedRendered("Path", path, "Path=" + path);
    }
  }

  lemma DomainRendered(o: CookieOptions)
    ensures RenderAll(DomainAttr(o)) == DomainAttribute(o)
  {
    if o.domain.Some? && o.domain.value != "" {
      var domain := o.domain.value;
      assert "Domain=" + domain == "Domain" + "=" + domain;
      KeyedRendered("Domain", domain, "Domain=" + domain);
    }
  }

  lemma MaxAgeRendered(o: CookieOptions)
    ensures RenderAll(MaxAgeAttr(o)) == MaxAgeAttribute(o)
  {
    if o.maxAge.Some? {
      var age := IntToString(o.maxAge.value, 10);
      assert "Max-Age=" + age == "Max-Age" + "=" + age;
      KeyedRendered("Max-Age", age, "Max-Age=" + age);
    }
  }

  lemma FlagsRendered(o: CookieOptions)
    ensures RenderAll(FlagAttrs(o))
      == (if o.httpOnly.GetOr(true) then ["HttpOnly"] else []) + (if o.secure.GetOr(true) then ["Secure"] else [])
  {
    var h := if o.httpOnly.GetOr(true) then [Flag("HttpOnly")] else [];
    var s := if o.secure.GetOr(true) then [Flag("Secure")] else [];
    RenderAllAppend(h, s);
  }

  lemma SameSiteRendered(site: string)
    ensures RenderAll([Keyed("SameSite", site)]) == ["SameSite=" + site]
  {
    assert "SameSite=" + site == "SameSite" + "=" + site;
    KeyedRendered("SameSite", site, "SameSite=" + site);
  }

  /** The written attributes are the rendering of the attribute list. */
  lemma AttributesRendered(o: CookieOptions)
    ensures Attributes(o) == RenderAll(AttrList(o))
  {
    var p, d, m, f := PathAttr(o), DomainAttr(o), MaxAgeAttr(o), FlagAttrs(o);
    var ss := [Keyed("SameSite", SameSiteName(o.sameSite.GetOr(Lax)))];
    PathRendered(o);
    DomainRendered(o);
    MaxAgeRendered(o);
    FlagsRendered(o);
    SameSiteRendered(SameSiteName(o.sameSite.GetOr(Lax)));
    RenderAllAppend(p, d);
    RenderAllAppend(p + d, m);
    RenderAllAppend(p + d + m, f);
    RenderAllAppend(p + d + m + f, ss);
  }

  /** A keyed attribute has a non-empty key without `=` or leading space; a flag is trimmed text without `=`. */
  predicate Shaped(x: Attr) {
    match x
    case Keyed(key, _) => key != "" && '=' !in key && !IsWhitespace(key[0])
    case Flag(name) => '=' !in name && Trimmed(name)
  }

  /** A keyed attribute's key is an attribute name. */
  predicate Named(x: Attr) {
    x.Keyed? ==> IsAttributeName(x.key)
  }

  lemma KeyShapes(x: Attr)
    requires x.Keyed? && IsAttributeName(x.key)
    ensures Shaped(x)
  {
  }

  lemma FlagShapes()
    ensures Shaped(Flag("HttpOnly")) && Shaped(Flag("Secure"))
  {
    assert "HttpOnly"[0] == 'H' && "Secure"[0] == 'S';
  }

  /** Every attribute of every option set is shaped, and its key, if any, is an attribute name. */
  lemma AttrListShaped(o: CookieOptions)
    ensures forall i :: 0 <= i < |AttrList(o)| ==> Shaped(AttrList(o)[i]) && Named(AttrList(o)[i])
  {
    FlagShapes();
    var xs := AttrList(o);
    forall i | 0 <= i < |xs| ensures Shaped(xs[i]) && Named(xs[i]) {
      assert xs[i] in xs;
      if xs[i].Keyed? {
        KeyShapes(xs[i]);
      }
    }
  }

  /** The piece ` a` of a shaped, named attribute names no cookie but an attribute. */
  lemma AttrEntry(x: Attr, k: string)
    requires Shaped(x) && Named(x) && !IsAttributeName(k)
    ensures Entry(" " + Render(x)).None? || Entry(" " + Render(x)).value.0 != k
  {
    if x.Keyed? {
      KeyedEntry(x.key, x.text);
    } else {
      FlagEntry(x.name);
    }
  }

  lemma SpacedRendered(o: CookieOptions)
    ensures |Spaced(Attributes(o))| == |AttrList(o)|
    ensures forall i :: 0 <= i < |AttrList(o)| ==> Spaced(Attributes(o))[i] == " " + Render(AttrList(o)[i])
  {
    AttributesRendered(o);
  }

  /** Attribute pieces never name anything but an attribute. */
  lemma SkipAttributes(o: CookieOptions, k: string)
    requires !IsAttributeName(k)
    ensures forall i :: 0 <= i < |Spaced(Attributes(o))| ==>
      Entry(Spaced(Attributes(o))[i]).None? || Entry(Spaced(Attributes(o))[i]).value.0 != k
  {
    var xs := AttrList(o);
    var pieces := Spaced(Attributes(o));
    SpacedRendered(o);
    AttrListShaped(o);
    forall i | 0 <= i < |pieces|
      ensures Entry(pieces[i]).None? || Entry(pieces[i]).value.0 != k
    {
      AttrEntry(xs[i], k);
    }
  }

  /** No attribute holds a `;` unless the path or the domain does. */
  lemma PlainAttributes(o: CookieOptions)
    requires ';' !in o.path.GetOr("/")
    requires o.domain.Some? ==> ';' !in o.domain.value
    ensures forall a :: a in Attributes(o) ==> ';' !in a
  {
    if o.maxAge.Some? {
      NoSemicolonInNumber(o.maxAge.value);
    }
    var site := SameSiteName(o.sameSite.GetOr(Lax));
    assert ';' !in site;
  }

  /** The pieces of a written cookie, given that nothing in it holds a `;`. */
  lemma PiecesOf(name: string, value: string, o: CookieOptions)
    requires ';' !in name && ';' !in value
    requires ';' !in o.path.GetOr("/")
    requires o.domain.Some? ==> ';' !in o.domain.value
    ensures Split(SetCookie(name, value, o), ';') == [name + "=" + value] + Spaced(Attributes(o))
  {
    var attrs := Attributes(o);
    PlainAttributes(o);
    assert forall i :: 0 <= i < |attrs| ==> attrs[i] in attrs;
    SplitSerialized(name + "=" + value, attrs);
  }

  /** One piece naming a cookie gives that cookie alone. */
  lemma OnePiece(piece: string, name: string, value: string)
    requires Entry(piece) == Some((name, value))
    ensures CookiesOf([piece]) == map[name := value]
  {
    assert [piece][..0] == [];
  }

  /** After a first piece, pieces that do not name `k` leave `k` as the first piece has it. */
  lemma FirstPieceDecides(first: string, rest: seq<string>, k: string)
    requires forall i :: 0 <= i < |rest| ==> Entry(rest[i]).None? || Entry(rest[i]).value.0 != k
    ensures k in CookiesOf([first] + rest) <==> k in CookiesOf([first])
    ensures k in CookiesOf([first]) ==> CookiesOf([first] + rest)[k] == CookiesOf([first])[k]
  {
    LastValueSkip([first], rest, k);
    CookiesLastWins([first] + rest, k);
    CookiesLastWins([first], k);
  }

  /** A written cookie is read as the pieces it splits into. */
  lemma ParsedPieces(name: string, value: string, o: CookieOptions)
    requires ';' !in name && ';' !in value
    requires ';' !in o.path.GetOr("/")
    requires o.domain.Some? ==> ';' !in o.domain.value
    ensures ParseCookies(Some(SetCookie(name, value, o))) == CookiesOf([name + "=" + value] + Spaced(Attributes(o)))
  {
    PiecesOf(name, value, o);
    assert |SetCookie(name, value, o)| >= 1;
  }

  /** A written cookie names a key other than an attribute name exactly when it is the name written, with the value written. */
  lemma ReadBackKey(name: string, value: string, o: CookieOptions, k: string)
    requires name != "" && '=' !in name && ';' !in name && ';' !in value
    requires Trimmed(name + "=" + value) && !IsAttributeName(k)
    requires ';' !in o.path.GetOr("/")
    requires o.domain.Some? ==> ';' !in o.domain.value
    ensures var r := ParseCookies(Some(SetCookie(name, value, o)));
      (k in r <==> k == name) && (k in r ==> r[k] == value)
  {
    var first := name + "=" + value;
    ParsedPieces(name, value, o);
    EntryOfPair(name, value);
    OnePiece(first, name, value);
    SkipAttributes(o, k);
    FirstPieceDecides(first, Spaced(Attributes(o)), k);
  }

  /**
   * Reading a written cookie back recovers the pair written, provided the
   * name and value contain no `;`, the name no `=`, and the pair carries no
   * surrounding whitespace; the other entries read back are attributes with
   * an `=` (Path, Domain, Max-Age, SameSite), so the flags HttpOnly and
   * Secure are dropped.
   */
  lemma ReadBack(name: string, value: string, o: CookieOptions)
    requires name != "" && '=' !in name && ';' !in name && ';' !in value
    requires Trimmed(name + "=" + value) && !IsAttributeName(name)
    requires ';' !in o.path.GetOr("/")
    requires o.domain.Some? ==> ';' !in o.domain.value
    ensures var r := ParseCookies(Some(SetCookie(name, value, o)));
      name in r && r[name] == value && forall k :: k in r ==> k == name || IsAttributeName(k)
  {
    var r := ParseCookies(Some(SetCookie(name, value, o)));
    ReadBackKey(name, value, o, name);
    forall k | k in r && !IsAttributeName(k)
      ensures k == name
    {
      ReadBackKey(name, value, o, k);
    }
  }
}
