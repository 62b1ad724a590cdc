/**
 * The configuration manager's string utilities and its stored configuration.
 *
 * `urlEncode` is the form encoding of the authorization request
 * (application/x-www-form-urlencoded, with percent-encoding as in section 2.1
 * of RFC 3986: a space becomes `+`, letters and digits stay, every other byte
 * becomes `%` and two upper-case hexadecimal digits).  `parseJsonValue` is the
 * hand-written reader the manager uses on its own configuration file, and
 * `saveConfig` writes that file as a flat JSON object of four strings.
 *
 * The flash file system is one optional file, the web server's form is a set
 * of optional arguments, and whether a file can be opened is an input.
 */
module ConfigManagement {
  import opened Arduino

  // ---------------------------------------------------------------------------
  // urlEncode
  // ---------------------------------------------------------------------------

  /** `isalnum` in the C locale. */
  predicate IsAlnum(c: char)
  {
    ('0' <= c <= '9') || ('A' <= c <= 'Z') || ('a' <= c <= 'z')
  }

  /** The upper-case hexadecimal digit of `d`. */
  function HexDigit(d: nat): (c: char)
    requires d < 16
    ensures IsAlnum(c)
  {
    if d > 9 then (d - 10 + 'A' as int) as char else (d + '0' as int) as char
  }

  /** The value of a hexadecimal digit (either case); 0 for anything else. */
  function HexValue(c: char): (d: nat)
    ensures d < 16
  {
    if '0' <= c <= '9' then c as int - '0' as int
    else if 'A' <= c <= 'F' then c as int - 'A' as int + 10
    else if 'a' <= c <= 'f' then c as int - 'a' as int + 10
    else 0
  }

  lemma HexDigitValue(d: nat)
    requires d < 16
    ensures HexValue(HexDigit(d)) == d
  {
  }

  /** The encoding of one character: `+`, itself, or `%` with its two nibbles. */
  function EncodeChar(c: char): (e: string)
    ensures |e| == (if c == ' ' || IsAlnum(c) then 1 else 3)
    ensures forall i :: 0 <= i < |e| ==> IsAlnum(e[i]) || e[i] == '+' || e[i] == '%'
  {
    if c == ' ' then "+"
    else if IsAlnum(c) then [c]
    else ['%', HexDigit((c as int / 16) % 16), HexDigit(c as int % 16)]
  }

  /** The encoding of a whole string, character by character. */
  function UrlEncoded(s: string): string
  {
    if s == [] then "" else UrlEncoded(s[..|s| - 1]) + EncodeChar(s[|s| - 1])
  }

  /** `urlEncode`. */
  method UrlEncode(str: string) returns (encoded: string)
    ensures encoded == UrlEncoded(str)
  {
    encoded := "";
    var i := 0;
    while i < |str|
      invariant 0 <= i <= |str|
      invariant encoded == UrlEncoded(str[..i])
    {
      var c := str[i];
      if c == ' ' {
        encoded := encoded + "+";
      } else if IsAlnum(c) {
        encoded := encoded + [c];
      } else {
        var low := c as int % 16;
        var code1 := if low > 9 then (low - 10 + 'A' as int) as char else (low + '0' as int) as char;
        var high := (c as int / 16) % 16;
        var code0 := if high > 9 then (high - 10 + 'A' as int) as char else (high + '0' as int) as char;
        encoded := encoded + ['%', code0, code1];
      }
      assert str[..i + 1][..i] == str[..i];
      i := i + 1;
    }
    assert str[..i] == str;
  }

  lemma {:induction false} UrlEncodedAppend(a: string, b: string)
    ensures UrlEncoded(a + b) == UrlEncoded(a) + UrlEncoded(b)
    decreases |b|
  {
    if b == [] {
      assert a + b == a;
    } else {
      var b' := b[..|b| - 1];
      assert (a + b)[..|a + b| - 1] == a + b';
      UrlEncodedAppend(a, b');
    }
  }

  /** Characters that are neither letters, digits nor the space: those take three bytes. */
  function Escaped(s: string): nat
  {
    if s == [] then 0
    else Escaped(s[..|s| - 1]) + (if s[|s| - 1] == ' ' || IsAlnum(s[|s| - 1]) then 0 else 1)
  }

  /**
   * The encoding has one byte per letter, digit or space and three per other
   * character, and consists of letters, digits, `+` and `%` only.
   */
  lemma {:induction false} UrlEncodedShape(s: string)
    ensures |UrlEncoded(s)| == |s| + 2 * Escaped(s)
    ensures forall i :: 0 <= i < |UrlEncoded(s)| ==>
              IsAlnum(UrlEncoded(s)[i]) || UrlEncoded(s)[i] == '+' || UrlEncoded(s)[i] == '%'
  {
    if s != [] {
      UrlEncodedShape(s[..|s| - 1]);
      var e := UrlEncoded(s);
      var p := UrlEncoded(s[..|s| - 1]);
      var q := EncodeChar(s[|s| - 1]);
      assert e == p + q;
      forall i | 0 <= i < |e|
        ensures IsAlnum(e[i]) || e[i] == '+' || e[i] == '%'
      {
        if i < |p| {
          assert e[i] == p[i];
        } else {
          assert e[i] == q[i - |p|];
        }
      }
    }
  }

  /** A reference decoder: `+` is a space, `%XY` the byte `0xXY`, anything else itself. */
  function UrlDecode(e: string): string
  {
    if e == [] then ""
    else if e[0] == '+' then " " + UrlDecode(e[1..])
    else if e[0] == '%' && |e| >= 3 then [(HexValue(e[1]) * 16 + HexValue(e[2])) as char] + UrlDecode(e[3..])
    else [e[0]] + UrlDecode(e[1..])
  }

  lemma DecodeChar(c: char, rest: string)
    requires c as int < 256
    ensures UrlDecode(EncodeChar(c) + rest) == [c] + UrlDecode(rest)
  {
    var e := EncodeChar(c) + rest;
    if c == ' ' {
      assert e[1..] == rest;
    } else if IsAlnum(c) {
      assert e[1..] == rest;
    } else {
      var high := (c as int / 16) % 16;
      var low := c as int % 16;
      HexDigitValue(high);
      HexDigitValue(low);
      assert e[3..] == rest;
      assert high * 16 + low == c as int;
    }
  }

  /** Decoding undoes the encoding of any byte string. */
  lemma {:induction false} UrlRoundTrip(s: string)
    requires IsByteString(s)
    ensures UrlDecode(UrlEncoded(s)) == s
    decreases |s|
  {
    if s != [] {
      UrlEncodedAppend([s[0]], s[1..]);
      assert [s[0]] + s[1..] == s;
      assert UrlEncoded([s[0]]) == EncodeChar(s[0]) by {
        assert [s[0]][..0] == [];
      }
      DecodeChar(s[0], UrlEncoded(s[1..]));
      UrlRoundTrip(s[1..]);
    }
  }

  // ---------------------------------------------------------------------------
  // parseJsonValue
  // ---------------------------------------------------------------------------

  /** `"` + `k` + `"`: how a key is written in the file. */
  function Quoted(k: string): (q: string)
    ensures |q| == |k| + 2 && q[0] == '"' && q[|q| - 1] == '"'
  {
    "\"" + k + "\""
  }

  /**
   * `parseJsonValue`: find the first `"key"`, the first `:` after it, the
   * first `"` from the colon on and the next `"` after that; the value is what
   * lies between the two quotes, or "" when any of the searches fails.
   */
  function ParseJsonValue(key: string, json: string): (value: string)
    ensures Lacks(value, '"')
  {
    var searchKey := Quoted(key);
    var index := IndexOf(json, searchKey, 0);
    if index < 0 then ""
    else ValueAfterColon(json, IndexOf(json, ":", index + |searchKey|))
  }

  /** The second half of `parseJsonValue`, from the colon the search found (or -1). */
  function ValueAfterColon(json: string, colonIndex: int): (value: string)
    ensures Lacks(value, '"')
  {
    if colonIndex < 0 then ""
    else
      var startQuote := IndexOf(json, "\"", colonIndex);
      if startQuote < 0 then ""
      else
        var endQuote := IndexOf(json, "\"", startQuote + 1);
        if endQuote < 0 then ""
        else
          NoQuoteBetween(json, startQuote + 1, endQuote);
          json[startQuote + 1..endQuote]
  }

  /** A stretch in which the search for `"` finds nothing holds no quote. */
  lemma NoQuoteBetween(json: string, a: nat, b: nat)
    requires a <= b <= |json|
    requires forall p :: a <= p < b ==> !OccursAt(json, "\"", p)
    ensures Lacks(json[a..b], '"')
  {
    forall i | 0 <= i < b - a
      ensures json[a..b][i] != '"'
    {
      assert json[a + i..a + i + 1] == [json[a + i]];
      assert !OccursAt(json, "\"", a + i);
    }
  }

  /** Without `"key"` anywhere in the text, the value is empty. */
  lemma ParseMissingKey(key: string, json: string)
    requires forall p :: !OccursAt(json, Quoted(key), p)
    ensures ParseJsonValue(key, json) == ""
  {
  }

  /** A search from a position where the pattern occurs finds it there. */
  lemma FoundHere(s: string, pat: string, q: nat)
    requires q < |s| && OccursAt(s, pat, q)
    ensures IndexOf(s, pat, q) == q
  {
  }

  /** A search for `c` from `a` stops at the first `c`, at `b`. */
  lemma FoundChar(s: string, c: char, a: nat, b: nat)
    requires a <= b < |s| && s[b] == c
    requires Lacks(s[a..b], c)
    ensures IndexOf(s, [c], a) == b
  {
    assert s[b..b + 1] == [c];
    forall p | a <= p < b
      ensures !OccursAt(s, [c], p)
    {
      assert s[a..b][p - a] == s[p];
      assert s[p..p + 1] == [s[p]];
    }
    assert OccursAt(s, [c], b);
  }

  /** `"key":"v"`: how an entry is written in the file. */
  function Entry(key: string, v: string): (w: string)
    ensures |w| == |key| + 5 + |v|
  {
    Quoted(key) + ":\"" + v + "\""
  }

  /** The positions of the colon and the quotes in `"key":"v"`. */
  lemma EntryShape(key: string, v: string, w: string)
    requires w == Entry(key, v)
    ensures w[|key| + 2] == ':' && w[|key| + 3] == '"' && w[|key| + 4 + |v|] == '"'
    ensures w[|key| + 4..|key| + 4 + |v|] == v
  {
    assert w == (Quoted(key) + ":\"") + v + "\"";
  }

  /**
   * When the first `"key"` sits at `x` and is followed by `:"`, a quote-free
   * `v` and `"`, the value read is `v`.
   */
  lemma ParseAt(key: string, json: string, x: nat, v: string)
    requires IndexOf(json, Quoted(key), 0) == x
    requires x + |Entry(key, v)| < |json|
    requires json[x..x + |Entry(key, v)|] == Entry(key, v)
    requires Lacks(v, '"')
    ensures ParseJsonValue(key, json) == v
  {
    var w := json[x..x + |Entry(key, v)|];
    EntryShape(key, v, w);
    var c := x + |key| + 2;
    var e := c + 2 + |v|;
    assert json[c] == w[|key| + 2];
    assert json[c + 1] == w[|key| + 3];
    assert json[e] == w[|key| + 4 + |v|];
    SliceOfSlice(json, x, |Entry(key, v)|, |key| + 4, |key| + 4 + |v|);
    assert json[c + 2..e] == v;
    FoundChar(json, ':', c, c);
    FoundChar(json, '"', c, c + 1);
    FoundChar(json, '"', c + 2, e);
    ParseFound(key, json, x, c, e);
  }

  lemma SliceOfSlice(s: string, x: nat, n: nat, a: nat, b: nat)
    requires x + n <= |s| && a <= b <= n
    ensures s[x..x + n][a..b] == s[x + a..x + b]
  {
    var l, r := s[x..x + n][a..b], s[x + a..x + b];
    assert |l| == |r|;
    forall i | 0 <= i < |l|
      ensures l[i] == r[i]
    {
      assert l[i] == s[x..x + n][a + i] == s[x + a + i];
    }
  }

  // ---------------------------------------------------------------------------
  // The configuration and its file
  // ---------------------------------------------------------------------------

  /** `SpotifyConfig`. */
  datatype SpotifyConfig = SpotifyConfig(clientId: string, clientSecret: string,
                                         refreshToken: string, deviceName: string)
  {
    /** `isValid`: every field is set. */
    predicate IsValid()
    {
      clientId != "" && clientSecret != "" && refreshToken != "" && deviceName != ""
    }
  }

  /** The default-constructed configuration: four empty strings. */
  const EmptyConfig := SpotifyConfig("", "", "", "")

  /**
   * The JSON text `saveConfig` writes: `{`, the four entries in order,
   * separated by commas, and `}`, with the values written as they are.
   */
  function SerializeConfig(c: SpotifyConfig): string
  {
    "{" + Entry("clientId", c.clientId) + "," + Entry("clientSecret", c.clientSecret)
    + "," + Entry("refreshToken", c.refreshToken) + "," + Entry("deviceName", c.deviceName) + "}"
  }

  /** What `loadConfig` reads back from a file holding `json`. */
  function ParseConfig(json: string): (c: SpotifyConfig)
    ensures Lacks(c.clientId, '"') && Lacks(c.clientSecret, '"')
    ensures Lacks(c.refreshToken, '"') && Lacks(c.deviceName, '"')
  {
    SpotifyConfig(ParseJsonValue("clientId", json), ParseJsonValue("clientSecret", json),
                  ParseJsonValue("refreshToken", json), ParseJsonValue("deviceName", json))
  }

  /**
   * A configuration that survives a save and a load: no value holds a quote,
   * and no value is written before the key it spells (the reader takes the
   * first `"key"` in the text, wherever it is).
   */
  predicate Storable(c: SpotifyConfig)
  {
    && Lacks(c.clientId, '"') && Lacks(c.clientSecret, '"')
    && Lacks(c.refreshToken, '"') && Lacks(c.deviceName, '"')
    && c.clientId !in {"clientSecret", "refreshToken", "deviceName"}
    && c.clientSecret !in {"refreshToken", "deviceName"}
    && c.refreshToken != "deviceName"
  }

  /*
   * The file seen as a list of quote-delimited pieces: `Tail(ps)` is
   * `"ps[0]"ps[1]"…"ps[n-1]"}`, and the file is `{` followed by the tail of
   * key, `:`, value, `,`, key, … .
   */

  function Tail(ps: seq<string>): (t: string)
    ensures |t| >= 2 && t[0] == '"'
  {
    if ps == [] then "\"}" else "\"" + ps[0] + Tail(ps[1..])
  }

  /** Where piece `i`'s opening quote sits in `Tail(ps)`. */
  function Offset(ps: seq<string>, i: nat): nat
    requires i <= |ps|
  {
    if i == 0 then 0 else 1 + |ps[0]| + Offset(ps[1..], i - 1)
  }

  function Pieces(c: SpotifyConfig): seq<string>
  {
    ["clientId", ":", c.clientId, ",", "clientSecret", ":", c.clientSecret, ",",
     "refreshToken", ":", c.refreshToken, ",", "deviceName", ":", c.deviceName]
  }

  predicate QuoteFree(ps: seq<string>)
  {
    forall j :: 0 <= j < |ps| ==> Lacks(ps[j], '"')
  }

  lemma {:induction false} TailFrom(ps: seq<string>, i: nat)
    requires i <= |ps|
    ensures Offset(ps, i) <= |Tail(ps)|
    ensures Tail(ps)[Offset(ps, i)..] == Tail(ps[i..])
  {
    if i > 0 {
      TailFrom(ps[1..], i - 1);
      assert ps[1..][i - 1..] == ps[i..];
      var h := "\"" + ps[0];
      assert Tail(ps) == h + Tail(ps[1..]);
      assert (h + Tail(ps[1..]))[|h| + Offset(ps[1..], i - 1)..] == Tail(ps[1..])[Offset(ps[1..], i - 1)..];
    }
  }

  lemma OccursShift(a: string, b: string, pat: string, q: nat)
    ensures OccursAt(a + b, pat, |a| + q) <==> OccursAt(b, pat, q)
  {
    if q + |pat| <= |b| {
      assert (a + b)[|a| + q..|a| + q + |pat|] == b[q..q + |pat|];
    }
  }

  /** In `Tail(ps)`, `"k"` cannot start at piece 0's quote unless piece 0 is `k`, nor inside piece 0. */
  lemma NotInFirst(ps: seq<string>, k: string, p: nat)
    requires |ps| > 0 && Lacks(ps[0], '"') && Lacks(k, '"') && ps[0] != k
    requires p <= |ps[0]|
    ensures !OccursAt(Tail(ps), Quoted(k), p)
  {
    var t := Tail(ps);
    var rest := Tail(ps[1..]);
    assert t == "\"" + ps[0] + rest;
    assert rest[0] == '"';
    var q := Quoted(k);
    if p + |q| <= |t| {
      var w := t[p..p + |q|];
      if p > 0 {
        assert w[0] == t[p] == ps[0][p - 1] != q[0];
      } else if |k| < |ps[0]| {
        assert w[|k| + 1] == t[|k| + 1] == ps[0][|k|] != q[|k| + 1];
      } else if |k| > |ps[0]| {
        assert w[|ps[0]| + 1] == t[|ps[0]| + 1] == rest[0] != k[|ps[0]|] == q[|ps[0]| + 1];
      } else {
        assert w[1..|k| + 1] == t[1..|k| + 1] == ps[0] != k == q[1..|k| + 1];
      }
    }
  }

  /** `Tail(ps)` opens with `"ps[0]"`. */
  lemma KeyHere(ps: seq<string>)
    requires |ps| > 0
    ensures OccursAt(Tail(ps), Quoted(ps[0]), 0)
  {
    var rest := Tail(ps[1..]);
    assert rest[0] == '"';
    assert Tail(ps) == "\"" + ps[0] + rest;
    assert Tail(ps)[..|ps[0]| + 2] == Quoted(ps[0]);
  }

  /** No `"k"` starts in `Tail(ps)` before `m` past piece 0 when none starts before `m` in the rest. */
  lemma NoneBeforeStep(ps: seq<string>, k: string, m: nat)
    requires |ps| > 0 && Lacks(ps[0], '"') && Lacks(k, '"') && ps[0] != k
    requires forall q :: 0 <= q < m ==> !OccursAt(Tail(ps[1..]), Quoted(k), q)
    ensures forall p :: 0 <= p < 1 + |ps[0]| + m ==> !OccursAt(Tail(ps), Quoted(k), p)
  {
    var h := "\"" + ps[0];
    assert Tail(ps) == h + Tail(ps[1..]);
    forall p | 0 <= p < 1 + |ps[0]| + m
      ensures !OccursAt(Tail(ps), Quoted(k), p)
    {
      if p <= |ps[0]| {
        NotInFirst(ps, k, p);
      } else {
        OccursShift(h, Tail(ps[1..]), Quoted(k), p - |h|);
      }
    }
  }

  /**
   * The first `"k"` in `Tail(ps)` is at the first piece equal to `k`, when no
   * piece holds a quote.
   */
  lemma {:induction false} FirstKey(ps: seq<string>, k: string, i: nat)
    requires QuoteFree(ps) && Lacks(k, '"')
    requires i < |ps| && ps[i] == k
    requires forall j :: 0 <= j < i ==> ps[j] != k
    ensures OccursAt(Tail(ps), Quoted(k), Offset(ps, i))
    ensures forall p :: 0 <= p < Offset(ps, i) ==> !OccursAt(Tail(ps), Quoted(k), p)
  {
    if i == 0 {
      KeyHere(ps);
    } else {
      var h := "\"" + ps[0];
      assert Tail(ps) == h + Tail(ps[1..]);
      FirstKey(ps[1..], k, i - 1);
      OccursShift(h, Tail(ps[1..]), Quoted(k), Offset(ps[1..], i - 1));
      NoneBeforeStep(ps, k, Offset(ps[1..], i - 1));
    }
  }

  /** The search for `"k"` in the file finds the first piece equal to `k`, one past the brace. */
  lemma FindKey(ps: seq<string>, k: string, i: nat)
    requires QuoteFree(ps) && Lacks(k, '"')
    requires i < |ps| && ps[i] == k
    requires forall j :: 0 <= j < i ==> ps[j] != k
    ensures IndexOf("{" + Tail(ps), Quoted(k), 0) == 1 + Offset(ps, i)
  {
    var json := "{" + Tail(ps);
    FirstKey(ps, k, i);
    OccursShift("{", Tail(ps), Quoted(k), Offset(ps, i));
    forall p | 0 <= p < 1 + Offset(ps, i)
      ensures !OccursAt(json, Quoted(k), p)
    {
      if p > 0 {
        OccursShift("{", Tail(ps), Quoted(k), p - 1);
      } else {
        assert json[0] == '{';
      }
    }
  }

  /** `Tail` of a key, `:` and a value opens with `"key":"value"`. */
  lemma TailEntry(qs: seq<string>)
    requires |qs| >= 3 && qs[1] == ":"
    ensures |Tail(qs)| > |Entry(qs[0], qs[2])|
    ensures Tail(qs)[..|Entry(qs[0], qs[2])|] == Entry(qs[0], qs[2])
  {
    var rest := Tail(qs[3..]);
    assert rest[0] == '"';
    assert Tail(qs[2..]) == "\"" + qs[2] + rest;
    assert Tail(qs[1..]) == "\"" + ":" + Tail(qs[2..]);
    assert Tail(qs) == "\"" + qs[0] + Tail(qs[1..]);
    assert Tail(qs) == Entry(qs[0], qs[2]) + rest[1..];
  }

  /** A stretch `e` that opens `t[o..]` sits at `1 + o` in `json`, which is `{` and `t`. */
  lemma EntryAfterBrace(json: string, t: string, o: nat, u: string, e: string)
    requires json == "{" + t
    requires o <= |t| && t[o..] == u
    requires |e| < |u| && u[..|e|] == e
    ensures 1 + o + |e| < |json|
    ensures json[1 + o..1 + o + |e|] == e
  {
    assert json[1 + o..1 + o + |e|] == t[o..o + |e|];
  }

  /**
   * Reading key `ps[i]` back from `{` and `Tail(ps)` gives `ps[i + 2]`, when
   * the first `"ps[i]"` is piece `i`, `ps[i + 1]` is the colon and the value
   * holds no quote.
   */
  lemma ReadField(ps: seq<string>, i: nat)
    requires i + 2 < |ps| && ps[i + 1] == ":" && Lacks(ps[i + 2], '"')
    requires IndexOf("{" + Tail(ps), Quoted(ps[i]), 0) == 1 + Offset(ps, i)
    ensures ParseJsonValue(ps[i], "{" + Tail(ps)) == ps[i + 2]
  {
    var k := ps[i];
    var v := ps[i + 2];
    var o := Offset(ps, i);
    var qs := ps[i..];
    assert qs[0] == k && qs[1] == ":" && qs[2] == v;
    TailFrom(ps, i);
    TailEntry(qs);
    var json := "{" + Tail(ps);
    EntryAfterBrace(json, Tail(ps), o, Tail(qs), Entry(k, v));
    ParseAt(k, json, 1 + o, v);
  }

  lemma TailGroup(k: string, v: string, rest: seq<string>)
    ensures Tail([k, ":", v, ","] + rest) == Entry(k, v) + "," + Tail(rest)
  {
    var ps := [k, ":", v, ","] + rest;
    assert ps[1..][1..][1..][1..] == rest;
    var t3 := "\"," + Tail(rest);
    var t2 := "\"" + v + t3;
    var t1 := "\":" + t2;
    assert Tail(ps[1..][1..][1..]) == t3;
    assert Tail(ps[1..][1..]) == t2;
    assert Tail(ps[1..]) == t1;
    assert Tail(ps) == "\"" + k + t1;
  }

  lemma TailLast(k: string, v: string)
    ensures Tail([k, ":", v]) == Entry(k, v) + "}"
  {
    var ps := [k, ":", v];
    assert ps[1..][1..][1..] == [];
    var t2 := "\"" + v + "\"}";
    var t1 := "\":" + t2;
    assert Tail(ps[1..][1..]) == t2;
    assert Tail(ps[1..]) == t1;
    assert Tail(ps) == "\"" + k + t1;
  }

  lemma Regroup(a: string, b: string, c: string, d: string)
    ensures a + (b + c + d) == a + b + c + d
  {
  }

  lemma Regroup3(a: string, b: string, c: string)
    ensures a + (b + c) == a + b + c
  {
  }

  /** The file `saveConfig` writes is `{` and the tail of its pieces. */
  lemma SerializeAsPieces(c: SpotifyConfig)
    ensures SerializeConfig(c) == "{" + Tail(Pieces(c))
  {
    var e1, e2 := Entry("clientId", c.clientId), Entry("clientSecret", c.clientSecret);
    var e3, e4 := Entry("refreshToken", c.refreshToken), Entry("deviceName", c.deviceName);
    var g4 := ["deviceName", ":", c.deviceName];
    var g3 := ["refreshToken", ":", c.refreshToken, ","] + g4;
    var g2 := ["clientSecret", ":", c.clientSecret, ","] + g3;
    var g1 := ["clientId", ":", c.clientId, ","] + g2;
    assert g1 == Pieces(c);
    TailLast("deviceName", c.deviceName);
    TailGroup("refreshToken", c.refreshToken, g4);
    TailGroup("clientSecret", c.clientSecret, g3);
    TailGroup("clientId", c.clientId, g2);
    Regroup("{", e1, ",", Tail(g2));
    Regroup("{" + e1 + ",", e2, ",", Tail(g3));
    Regroup("{" + e1 + "," + e2 + ",", e3, ",", Tail(g4));
    Regroup3("{" + e1 + "," + e2 + "," + e3 + ",", e4, "}");
  }

  /** In a storable configuration's pieces, no piece before key piece `i` spells that key. */
  lemma KeyFirst(c: SpotifyConfig, i: nat)
    requires Storable(c) && i in {0, 4, 8, 12}
    ensures forall j :: 0 <= j < i ==> Pieces(c)[j] != Pieces(c)[i]
  {
    var ps := Pieces(c);
    assert ps[0] == "clientId" && ps[4] == "clientSecret";
    assert ps[8] == "refreshToken" && ps[12] == "deviceName";
    assert ps[2] == c.clientId && ps[6] == c.clientSecret && ps[10] == c.refreshToken;
    forall j | 0 <= j < i
      ensures ps[j] != ps[i]
    {
      if j % 4 == 1 {
        assert ps[j] == ":" && |ps[i]| > 1;
      } else if j % 4 == 3 {
        assert ps[j] == "," && |ps[i]| > 1;
      } else if j == 4 || j == 8 {
        assert ps[j][0] != ps[i][0];
      }
    }
  }

  lemma PiecesQuoteFree(c: SpotifyConfig)
    requires Storable(c)
    ensures QuoteFree(Pieces(c))
  {
    var ps := Pieces(c);
    forall j | 0 <= j < |ps|
      ensures Lacks(ps[j], '"')
    {
      if j % 2 == 0 && j % 4 != 2 {
        assert ps[j] in {"clientId", "clientSecret", "refreshToken", "deviceName"};
      }
    }
  }

  /** Key piece `i` of the file, read back. */
  lemma ReadPiece(c: SpotifyConfig, i: nat)
    requires Storable(c) && i in {0, 4, 8, 12}
    ensures ParseJsonValue(Pieces(c)[i], "{" + Tail(Pieces(c))) == Pieces(c)[i + 2]
  {
    var ps := Pieces(c);
    KeyFirst(c, i);
    PiecesQuoteFree(c);
    FindKey(ps, ps[i], i);
    ReadField(ps, i);
  }

  /**
   * `loadConfig` after `saveConfig` reads back every field as it was saved,
   * when the configuration is storable.
   */
  lemma LoadAfterSave(c: SpotifyConfig)
    requires Storable(c)
    ensures ParseConfig(SerializeConfig(c)) == c
  {
    var ps := Pieces(c);
    var json := "{" + Tail(ps);
    assert ps[0] == "clientId" && ps[2] == c.clientId;
    assert ps[4] == "clientSecret" && ps[6] == c.clientSecret;
    assert ps[8] == "refreshToken" && ps[10] == c.refreshToken;
    assert ps[12] == "deviceName" && ps[14] == c.deviceName;
    ReadPiece(c, 0);
    ReadPiece(c, 4);
    ReadPiece(c, 8);
    ReadPiece(c, 12);
    assert ParseConfig(json) == c;
    SerializeAsPieces(c);
  }

  /** A value holding a quote cannot survive a save and a load. */
  lemma QuotedValueLost(c: SpotifyConfig)
    requires !Lacks(c.clientId, '"') || !Lacks(c.clientSecret, '"')
          || !Lacks(c.refreshToken, '"') || !Lacks(c.deviceName, '"')
    ensures ParseConfig(SerializeConfig(c)) != c
  {
  }

  /**
   * When the first `"key"` sits at `x` and is followed by a stretch `g` and
   * then by another entry, neither holding a colon before the entry's own,
   * the value read is that other entry's value.
   */
  lemma ParseAtGap(key: string, json: string, x: nat, g: string, k2: string, v: string)
    requires IndexOf(json, Quoted(key), 0) == x
    requires x + |Quoted(key)| + |g| + |Entry(k2, v)| < |json|
    requires json[x + |Quoted(key)|..x + |Quoted(key)| + |g| + |Entry(k2, v)|] == g + Entry(k2, v)
    requires Lacks(g, ':') && Lacks(k2, ':') && Lacks(v, '"')
    ensures ParseJsonValue(key, json) == v
  {
    var c := x + |Quoted(key)|;
    var m := c + |g| + |k2| + 2;
    var e := m + 2 + |v|;
    GapShape(json, c, g, k2, v);
    FoundChar(json, ':', c, m);
    FoundChar(json, '"', m, m + 1);
    FoundChar(json, '"', m + 2, e);
    ParseFound(key, json, x, m, e);
  }

  /** What `g` and an entry after it put where the searches look. */
  lemma GapShape(json: string, c: nat, g: string, k2: string, v: string)
    requires c + |g| + |Entry(k2, v)| < |json|
    requires json[c..c + |g| + |Entry(k2, v)|] == g + Entry(k2, v)
    requires Lacks(g, ':') && Lacks(k2, ':')
    ensures var m := c + |g| + |k2| + 2;
            var e := m + 2 + |v|;
            json[m] == ':' && json[m + 1] == '"' && json[e] == '"' && json[m + 2..e] == v &&
            Lacks(json[c..m], ':')
  {
    var ge := g + Entry(k2, v);
    var y := c + |g|;
    var m := y + |k2| + 2;
    var e := m + 2 + |v|;
    EntryAt(json, y, k2, v) by {
      SliceOfSlice(json, c, |ge|, |g|, |ge|);
      assert ge[|g|..] == Entry(k2, v);
    }
    SliceOfSlice(json, c, |ge|, 0, |g| + |k2| + 2);
    assert ge[..|g| + |k2| + 2] == g + Quoted(k2);
    forall i | 0 <= i < m - c
      ensures json[c..m][i] != ':'
    {
      assert json[c..m][i] == (g + Quoted(k2))[i];
      if |g| < i < |g| + |k2| + 1 {
        assert (g + Quoted(k2))[i] == k2[i - |g| - 1];
      }
    }
  }

  /** An entry written at `y`: its colon, its quotes and its value. */
  lemma EntryAt(json: string, y: nat, k2: string, v: string)
    requires y + |Entry(k2, v)| <= |json|
    requires json[y..y + |Entry(k2, v)|] == Entry(k2, v)
    ensures var m := y + |k2| + 2;
            var e := m + 2 + |v|;
            json[m] == ':' && json[m + 1] == '"' && json[e] == '"' && json[m + 2..e] == v
  {
    var w := json[y..y + |Entry(k2, v)|];
    EntryShape(k2, v, w);
    var m := y + |k2| + 2;
    var e := m + 2 + |v|;
    assert json[m] == w[|k2| + 2];
    assert json[m + 1] == w[|k2| + 3];
    assert json[e] == w[|k2| + 4 + |v|];
    SliceOfSlice(json, y, |Entry(k2, v)|, |k2| + 4, |k2| + 4 + |v|);
  }

  /** The searches of `parseJsonValue` ending at `x`, `m`, `m + 1` and `e` read `json[m + 2..e]`. */
  lemma ParseFound(key: string, json: string, x: nat, m: nat, e: nat)
    requires m + 2 <= e < |json|
    requires IndexOf(json, Quoted(key), 0) == x
    requires IndexOf(json, ":", x + |Quoted(key)|) == m
    requires IndexOf(json, "\"", m) == m + 1 && IndexOf(json, "\"", m + 2) == e
    ensures ParseJsonValue(key, json) == json[m + 2..e]
  {
    KeyFound(key, json, x, m);
    ValueFound(json, m, e);
  }

  /** With the key at `x` and the next colon at `m`, the value is read from `m` on. */
  lemma KeyFound(key: string, json: string, x: nat, m: int)
    requires IndexOf(json, Quoted(key), 0) == x
    requires IndexOf(json, ":", x + |Quoted(key)|) == m
    ensures ParseJsonValue(key, json) == ValueAfterColon(json, m)
  {
    ParseUnfold(key, json);
    assert IndexOf(json, ":", IndexOf(json, Quoted(key), 0) + |Quoted(key)|) == m;
  }

  /** Once the key is found, the value is read from the next colon on. */
  lemma ParseUnfold(key: string, json: string)
    ensures IndexOf(json, Quoted(key), 0) >= 0 ==>
      ParseJsonValue(key, json) == ValueAfterColon(json, IndexOf(json, ":", IndexOf(json, Quoted(key), 0) + |Quoted(key)|))
  {
  }

  lemma ValueFound(json: string, m: nat, e: nat)
    requires m + 2 <= e < |json|
    requires IndexOf(json, "\"", m) == m + 1 && IndexOf(json, "\"", m + 2) == e
    ensures ValueAfterColon(json, m) == json[m + 2..e]
  {
  }

  /** The tail of a piece list that opens with a key and a comma. */
  lemma TailKeyComma(qs: seq<string>)
    requires |qs| >= 2 && qs[1] == ","
    ensures Tail(qs) == Quoted(qs[0]) + ("," + Tail(qs[2..]))
  {
    var q1 := qs[1..];
    assert q1[0] == "," && q1[1..] == qs[2..];
    assert Tail(q1) == "\"" + "," + Tail(qs[2..]);
    assert Tail(qs) == "\"" + qs[0] + Tail(q1);
  }

  /** With quote-free values, no piece of the file holds a quote. */
  lemma ValuesQuoteFree(c: SpotifyConfig)
    requires Lacks(c.clientId, '"') && Lacks(c.clientSecret, '"')
    requires Lacks(c.refreshToken, '"') && Lacks(c.deviceName, '"')
    ensures QuoteFree(Pieces(c))
  {
    var ps := Pieces(c);
    forall j | 0 <= j < |ps|
      ensures Lacks(ps[j], '"')
    {
      if j % 2 == 0 && j % 4 != 2 {
        assert ps[j] in {"clientId", "clientSecret", "refreshToken", "deviceName"};
      }
    }
  }

  /** From the client id's value on, the tail of the pieces opens with `"<value>","clientSecret":"<secret>"`. */
  lemma TailAtClientId(c: SpotifyConfig)
    ensures var qs := Pieces(c)[2..];
            var whole := Quoted(c.clientId) + ("," + Entry("clientSecret", c.clientSecret));
            |whole| < |Tail(qs)| && Tail(qs)[..|whole|] == whole
  {
    var qs := Pieces(c)[2..];
    var rs := qs[2..];
    assert qs[0] == c.clientId && qs[1] == ",";
    assert rs[0] == "clientSecret" && rs[1] == ":" && rs[2] == c.clientSecret;
    TailEntry(rs);
    TailKeyComma(qs);
    var e := Entry("clientSecret", c.clientSecret);
    var whole := Quoted(c.clientId) + ("," + e);
    assert "," + Tail(rs) == ("," + e) + Tail(rs)[|e|..];
    assert Tail(qs) == whole + Tail(rs)[|e|..];
  }

  /** After the client id's quoted value, the file reads `,"clientSecret":"<secret>"`. */
  lemma AfterClientId(c: SpotifyConfig)
    ensures var ps := Pieces(c);
            var x := 1 + Offset(ps, 2) + |Quoted(c.clientId)|;
            var rest := "," + Entry("clientSecret", c.clientSecret);
            x + |rest| < |"{" + Tail(ps)| && ("{" + Tail(ps))[x..x + |rest|] == rest
  {
    var ps := Pieces(c);
    var whole := Quoted(c.clientId) + ("," + Entry("clientSecret", c.clientSecret));
    TailAtClientId(c);
    TextAtPiece(ps, 2, |Quoted(c.clientId)|, whole);
  }

  /**
   * When the tail from piece `i` opens with `w`, the file holds `w` one past
   * the brace at piece `i`'s offset, and so its part from `a` on.
   */
  lemma TextAtPiece(ps: seq<string>, i: nat, a: nat, w: string)
    requires i <= |ps| && a <= |w|
    requires |w| < |Tail(ps[i..])| && Tail(ps[i..])[..|w|] == w
    ensures var x := 1 + Offset(ps, i) + a;
            x + |w| - a < |"{" + Tail(ps)| && ("{" + Tail(ps))[x..x + |w| - a] == w[a..]
  {
    var o := Offset(ps, i);
    TailFrom(ps, i);
    EntryAfterBrace("{" + Tail(ps), Tail(ps), o, Tail(ps[i..]), w);
    SliceOfSlice("{" + Tail(ps), 1 + o, |w|, a, |w|);
  }

  /**
   * A value that spells a later key is found in place of that key: with the
   * client id `refreshToken`, the search for `"refreshToken"` stops at the
   * client id's value, the first colon after it is the client secret's, and
   * the refresh token reads back as the client secret.
   */
  lemma KeyNameValueMisread(c: SpotifyConfig)
    requires c.clientId == "refreshToken"
    requires Lacks(c.clientSecret, '"') && Lacks(c.refreshToken, '"') && Lacks(c.deviceName, '"')
    ensures ParseConfig(SerializeConfig(c)).refreshToken == c.clientSecret
    ensures c.clientSecret != c.refreshToken ==> ParseConfig(SerializeConfig(c)) != c
  {
    SerializeAsPieces(c);
    MisreadRefreshToken(c);
  }

  lemma MisreadRefreshToken(c: SpotifyConfig)
    requires c.clientId == "refreshToken"
    requires Lacks(c.clientSecret, '"') && Lacks(c.refreshToken, '"') && Lacks(c.deviceName, '"')
    ensures ParseJsonValue("refreshToken", "{" + Tail(Pieces(c))) == c.clientSecret
  {
    var ps := Pieces(c);
    ValuesQuoteFree(c);
    assert ps[0] == "clientId" && ps[1] == ":" && ps[2] == "refreshToken";
    FindKey(ps, "refreshToken", 2);
    AfterClientId(c);
    ParseAtGap("refreshToken", "{" + Tail(ps), 1 + Offset(ps, 2), ",", "clientSecret", c.clientSecret);
  }

  // ---------------------------------------------------------------------------
  // The authorization request
  // ---------------------------------------------------------------------------

  const SPOTIFY_AUTHORIZE_ENDPOINT := "https://accounts.spotify.com/authorize"
  const SPOTIFY_SCOPES := "user-read-playback-state user-modify-playback-state user-read-currently-playing"

  /** `getAuthorizationUrl` for a client id and a redirect URI. */
  function AuthorizationUrl(clientId: string, redirectUri: string): string
  {
    SPOTIFY_AUTHORIZE_ENDPOINT
    + "?client_id=" + UrlEncoded(clientId)
    + "&response_type=code"
    + "&redirect_uri=" + UrlEncoded(redirectUri)
    + "&scope=" + UrlEncoded(SPOTIFY_SCOPES)
    + "&show_dialog=true"
  }

  /** A parameter value that cannot end its parameter early: letters, digits, `+` and `%`. */
  predicate QuerySafe(e: string)
  {
    forall i :: 0 <= i < |e| ==> IsAlnum(e[i]) || e[i] == '+' || e[i] == '%'
  }

  /**
   * The authorization request of section 4.1.1 of RFC 6749 carries the client
   * id, the redirect URI and the scope as parameter values that hold no `&`,
   * `=` or `#`, and the client id and the redirect URI decode back to what was
   * encoded.
   */
  lemma AuthorizationUrlParameters(clientId: string, redirectUri: string)
    requires IsByteString(clientId) && IsByteString(redirectUri)
    ensures QuerySafe(UrlEncoded(clientId)) && UrlDecode(UrlEncoded(clientId)) == clientId
    ensures QuerySafe(UrlEncoded(redirectUri)) && UrlDecode(UrlEncoded(redirectUri)) == redirectUri
    ensures QuerySafe(UrlEncoded(SPOTIFY_SCOPES))
  {
    UrlEncodedShape(clientId);
    UrlEncodedShape(redirectUri);
    UrlEncodedShape(SPOTIFY_SCOPES);
    UrlRoundTrip(clientId);
    UrlRoundTrip(redirectUri);
  }

  // ---------------------------------------------------------------------------
  // The manager
  // ---------------------------------------------------------------------------

  datatype Option<T> = None | Some(value: T)

  /** What the web server sends back for a form submitted to `/save`. */
  datatype SaveReply = MissingFields | Saved | RedirectToAuthorize(location: string)

  /** `server.arg(name)`: the submitted value, or "" when the form lacks it. */
  function Arg(args: map<string, string>, name: string): (v: string)
    ensures name !in args ==> v == ""
    ensures name in args ==> v == args[name]
  {
    if name in args then args[name] else ""
  }

  /**
   * The configuration a form submits: its client id, secret and device name,
   * and its refresh token when it carries a non-empty one, else the current one.
   */
  function Submitted(args: map<string, string>, current: SpotifyConfig): (c: SpotifyConfig)
    ensures c.clientId == Arg(args, "client_id") && c.clientSecret == Arg(args, "client_secret")
    ensures c.deviceName == Arg(args, "device_name")
    ensures Arg(args, "refresh_token") != "" ==> c.refreshToken == args["refresh_token"]
    ensures Arg(args, "refresh_token") == "" ==> c.refreshToken == current.refreshToken
  {
    SpotifyConfig(
      Arg(args, "client_id"),
      Arg(args, "client_secret"),
      if "refresh_token" in args && |args["refresh_token"]| > 0 then args["refresh_token"] else current.refreshToken,
      Arg(args, "device_name"))
  }

  /** `handleSave` accepts a form only with a client id, a secret and a device name. */
  predicate Acceptable(c: SpotifyConfig)
  {
    c.clientId != "" && c.clientSecret != "" && c.deviceName != ""
  }

  lemma IsValidMeansComplete(c: SpotifyConfig)
    ensures c.IsValid() <==> Acceptable(c) && c.refreshToken != ""
  {
  }

  /** `ConfigManager`: the configuration in memory, its file in flash and the redirect URI. */
  class ConfigManager {
    /** `config_`. */
    var config: SpotifyConfig
    /** The contents of `/spotify_config.json`, when the file exists. */
    var file: Option<string>
    /** `redirectUri_`. */
    var redirectUri: string
    /** `serverRunning_`. */
    var serverRunning: bool

    /** A new manager over a flash that may already hold a configuration file. */
    constructor(stored: Option<string>)
      ensures config == EmptyConfig && file == stored
      ensures redirectUri == "" && !serverRunning
    {
      config := EmptyConfig;
      file := stored;
      redirectUri := "";
      serverRunning := false;
    }

    /** `isConfigured`. */
    predicate IsConfigured()
      reads this
    {
      config.IsValid()
    }

    /** `startWebServer`'s effect on the redirect URI; the routes and the server are not modelled. */
    method StartWebServer(localIp: string)
      modifies this`redirectUri, this`serverRunning
      ensures old(serverRunning) ==> redirectUri == old(redirectUri)
      ensures !old(serverRunning) ==> redirectUri == "http://" + localIp + "/callback"
      ensures serverRunning
    {
      if serverRunning {
        return;
      }
      redirectUri := "http://" + localIp + "/callback";
      serverRunning := true;
    }

    /** `stopWebServer`. */
    method StopWebServer()
      modifies this`serverRunning
      ensures !serverRunning
    {
      serverRunning := false;
    }

    /** `saveConfig`: fails when the file cannot be opened; otherwise writes it and keeps `c`. */
    method SaveConfig(c: SpotifyConfig, openOk: bool) returns (ok: bool)
      modifies this`config, this`file
      ensures ok == openOk
      ensures ok ==> file == Some(SerializeConfig(c)) && config == c
      ensures !ok ==> file == old(file) && config == old(config)
    {
      if !openOk {
        return false;
      }
      var json := "{";
      json := json + Entry("clientId", c.clientId) + ",";
      json := json + Entry("clientSecret", c.clientSecret) + ",";
      json := json + Entry("refreshToken", c.refreshToken) + ",";
      json := json + Entry("deviceName", c.deviceName);
      json := json + "}";
      file := Some(json);
      config := c;
      return true;
    }

    /**
     * `loadConfig`: without a file, or when it cannot be opened, nothing
     * changes and the result is false; otherwise every field is read from the
     * file and the result is whether the configuration is complete.
     */
    method LoadConfig(openOk: bool) returns (ok: bool)
      modifies this`config
      ensures file.None? || !openOk ==> !ok && config == old(config)
      ensures file.Some? && openOk ==> config == ParseConfig(file.value) && ok == IsConfigured()
    {
      if file.None? {
        return false;
      }
      if !openOk {
        return false;
      }
      var json := file.value;
      config := config.(clientId := ParseJsonValue("clientId", json));
      config := config.(clientSecret := ParseJsonValue("clientSecret", json));
      config := config.(refreshToken := ParseJsonValue("refreshToken", json));
      config := config.(deviceName := ParseJsonValue("deviceName", json));
      return config.IsValid();
    }

    /** `clearConfig`: removes the file and forgets the configuration. */
    method ClearConfig() returns (ok: bool)
      modifies this`config, this`file
      ensures ok && file == None && config == EmptyConfig && !IsConfigured()
    {
      file := None;
      config := EmptyConfig;
      return true;
    }

    /** `getAuthorizationUrl`. */
    method GetAuthorizationUrl() returns (url: string)
      ensures url == AuthorizationUrl(config.clientId, redirectUri)
    {
      url := SPOTIFY_AUTHORIZE_ENDPOINT;
      var id := UrlEncode(config.clientId);
      url := url + "?client_id=" + id;
      url := url + "&response_type=code";
      var uri := UrlEncode(redirectUri);
      url := url + "&redirect_uri=" + uri;
      var scope := UrlEncode(SPOTIFY_SCOPES);
      url := url + "&scope=" + scope;
      url := url + "&show_dialog=true";
    }

    /**
     * `handleSave`: a form without a client id, secret or device name is
     * refused and changes nothing; otherwise its configuration (keeping the
     * current refresh token when the form carries none) becomes the current
     * one and is saved, and the browser is sent to authorize when there is
     * still no refresh token.
     */
    method HandleSave(args: map<string, string>, openOk: bool) returns (reply: SaveReply)
      modifies this`config, this`file
      ensures var n := Submitted(args, old(config));
        && (!Acceptable(n) ==> reply == MissingFields && config == old(config) && file == old(file))
        && (Acceptable(n) ==>
              && config == n
              && file == (if openOk then Some(SerializeConfig(n)) else old(file))
              && reply == (if n.refreshToken == "" then RedirectToAuthorize(AuthorizationUrl(n.clientId, redirectUri))
                           else Saved))
    {
      var newConfig := SpotifyConfig(Arg(args, "client_id"), Arg(args, "client_secret"), "", Arg(args, "device_name"));
      if "refresh_token" in args && |args["refresh_token"]| > 0 {
        newConfig := newConfig.(refreshToken := args["refresh_token"]);
      } else {
        newConfig := newConfig.(refreshToken := config.refreshToken);
      }
      if newConfig.clientId == "" || newConfig.clientSecret == "" || newConfig.deviceName == "" {
        return MissingFields;
      }
      config := newConfig;
      var _ := SaveConfig(config, openOk);
      if config.refreshToken == "" {
        var authUrl := GetAuthorizationUrl();
        reply := RedirectToAuthorize(authUrl);
      } else {
        reply := Saved;
      }
    }
  }
}
