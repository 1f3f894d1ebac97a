/**
 * The cookie hook (frontend/hooks/use-cookies.ts) on top of the browser's jar:
 * percent-encoded names and values written through document.cookie and read
 * back by splitting it.
 */
module Cookies {
  import opened Wrappers
  import opened JsText
  import opened PercentEncoding
  import opened CookieJar

  datatype SameSite = Lax | Strict | Anywhere | Unset

  // Options of setCookie; path is "/" and there is no domain or expiry date.
  datatype Options = Options(maxAge: Option<int>, sameSite: SameSite, secure: bool)

  function PrintInt(n: int): string {
    if n < 0 then "-" + Print(-n) else Print(n)
  }

  function SameSiteName(s: SameSite): string {
    match s
    case Lax => "Lax"
    case Strict => "Strict"
    case Anywhere => "None"
    case Unset => ""
  }

  function NameValue(name: string, value: string): string {
    Encode(name) + "=" + Encode(value)
  }

  function MaxAgePart(o: Options): seq<string> {
    match o.maxAge
    case None => []
    case Some(n) => ["Max-Age=" + PrintInt(n)]
  }

  function SameSitePart(o: Options): seq<string> {
    if o.sameSite == Unset then [] else ["SameSite=" + SameSiteName(o.sameSite)]
  }

  function SecurePart(o: Options): seq<string> {
    if o.secure then ["Secure"] else []
  }

  function Attributes(o: Options): seq<string> {
    ["Path=/"] + MaxAgePart(o) + SameSitePart(o) + SecurePart(o)
  }

  function Parts(name: string, value: string, o: Options): seq<string> {
    [NameValue(name, value)] + Attributes(o)
  }

  method BuildCookieString(name: string, value: string, options: Options) returns (s: string)
    ensures s == Join(Parts(name, value, options))
  {
    var parts := [NameValue(name, value)];
    parts := parts + ["Path=/"];
    if options.maxAge.Some? { parts := parts + ["Max-Age=" + PrintInt(options.maxAge.value)]; }
    if options.sameSite != Unset { parts := parts + ["SameSite=" + SameSiteName(options.sameSite)]; }
    if options.secure { parts := parts + ["Secure"]; }
    s := Join(parts);
    assert parts == Parts(name, value, options);
  }

  // The first position of "; " in s, or |s|.
  function FindSeparator(s: string): (i: nat)
    ensures i <= |s| && (i == |s| || i + 2 <= |s|)
  {
    if |s| < 2 then |s| else if s[0] == ';' && s[1] == ' ' then 0 else 1 + FindSeparator(s[1..])
  }

  // s.split("; ")
  function SplitPairs(s: string): seq<string>
    decreases |s|
  {
    var i := FindSeparator(s);
    if i == |s| then [s] else [s[..i]] + SplitPairs(s[i + 2..])
  }

  datatype Pair = Skipped | Malformed | Entry(key: string, value: string)

  function ParsePair(pair: string): Pair {
    if '=' !in pair then Skipped
    else match (Decode(Trim(Before(pair, '='))), Decode(Trim(After(pair, '='))))
      case (Some(key), Some(value)) => Entry(key, value)
      case (_, _) => Malformed
  }

  // The object the parser builds: later pairs win; None where decoding throws.
  function Object(pairs: seq<string>): Option<map<string, string>> {
    if pairs == [] then Some(map[])
    else match (ParsePair(pairs[0]), Object(pairs[1..]))
      case (Malformed, _) => None
      case (_, None) => None
      case (Skipped, rest) => rest
      case (Entry(k, v), Some(rest)) => Some(map[k := v] + rest)
  }

  function Parsed(s: string): Option<map<string, string>> {
    Object(SplitPairs(s))
  }

  // The pair has a key and a value, and one of them is no percent-encoding.
  predicate Undecodable(pair: string) {
    '=' in pair && (Decode(Trim(Before(pair, '='))).None? || Decode(Trim(After(pair, '='))).None?)
  }

  /** The parser throws exactly when some pair is not a percent-encoding; a pair without "=" is passed over. */
  lemma {:induction false} ObjectThrowsIff(pairs: seq<string>)
    ensures Object(pairs).None? <==> exists k :: 0 <= k < |pairs| && Undecodable(pairs[k])
  {
    if pairs != [] {
      ObjectThrowsIff(pairs[1..]);
      if k :| 0 <= k < |pairs[1..]| && Undecodable(pairs[1..][k]) { assert Undecodable(pairs[k + 1]); }
      if k :| 0 < k < |pairs| && Undecodable(pairs[k]) { assert Undecodable(pairs[1..][k - 1]); }
    }
  }

  /** White space around a key or a value does not belong to it. */
  lemma PairWithSpace(a: string, key: string, b: string, c: string, value: string, d: string)
    requires AllWhite(a) && AllWhite(b) && AllWhite(c) && AllWhite(d) && '=' !in key
    requires key != "" && !IsWhite(key[0]) && !IsWhite(key[|key| - 1])
    requires value != "" && !IsWhite(value[0]) && !IsWhite(value[|value| - 1])
    ensures ParsePair((a + key + b) + ['='] + (c + value + d)) == ParsePair(key + ['='] + value)
  {
    assert '=' !in a + key + b;
    PairOf(a + key + b, c + value + d);
    PairOf(key, value);
    TrimOf(a, key, b);
    TrimOf(c, value, d);
    TrimOf("", key, "");
    TrimOf("", value, "");
    assert "" + key + "" == key && "" + value + "" == value;
  }

  lemma PairOf(key: string, value: string)
    requires '=' !in key
    ensures ParsePair(key + ['='] + value) ==
            match (Decode(Trim(key)), Decode(Trim(value)))
            case (Some(k), Some(v)) => Entry(k, v)
            case (_, _) => Malformed
  {
    AroundFirst(key, '=', value);
  }

  ghost function Onto(acc: map<string, string>, rest: Option<map<string, string>>): Option<map<string, string>> {
    match rest
    case None => None
    case Some(m) => Some(acc + m)
  }

  lemma OntoStep(acc: map<string, string>, pairs: seq<string>, i: nat)
    requires i < |pairs|
    ensures Onto(acc, Object(pairs[i..])) ==
            match ParsePair(pairs[i])
            case Skipped => Onto(acc, Object(pairs[i + 1..]))
            case Malformed => None
            case Entry(k, v) => Onto(acc[k := v], Object(pairs[i + 1..]))
  {
    assert pairs[i..][1..] == pairs[i + 1..];
    var rest := Object(pairs[i + 1..]);
    if rest.Some? && ParsePair(pairs[i]).Entry? {
      var Entry(k, v) := ParsePair(pairs[i]);
      assert acc + (map[k := v] + rest.value) == acc[k := v] + rest.value;
    }
  }

  method ParseCookieString(s: string) returns (r: Option<map<string, string>>)
    ensures r == Parsed(s)
  {
    var pairs := SplitPairs(s);
    var acc: map<string, string> := map[];
    assert pairs[0..] == pairs && Onto(acc, Object(pairs)) == Object(pairs) by {
      if Object(pairs).Some? { assert acc + Object(pairs).value == Object(pairs).value; }
    }
    for i := 0 to |pairs|
      invariant Parsed(s) == Onto(acc, Object(pairs[i..]))
    {
      OntoStep(acc, pairs, i);
      match ParsePair(pairs[i]) {
        case Skipped =>
        case Malformed => return None;
        case Entry(key, value) => acc := acc[key := value];
      }
    }
    assert acc + map[] == acc;
    r := Some(acc);
  }

  // A jar written by the hook, as the plain entries behind it.
  function EncodeAll(entries: seq<Cookie>): (jar: seq<Cookie>)
    ensures |jar| == |entries|
  {
    if entries == [] then []
    else [Cookie(Encode(entries[0].name), Encode(entries[0].value))] + EncodeAll(entries[1..])
  }

  function MapOf(entries: seq<Cookie>): map<string, string> {
    if entries == [] then map[] else map[entries[0].name := entries[0].value] + MapOf(entries[1..])
  }

  ghost predicate DistinctNames(entries: seq<Cookie>) {
    entries == [] || (entries[0].name !in MapOf(entries[1..]) && DistinctNames(entries[1..]))
  }

  lemma PlainHas(s: string)
    requires Plain(s)
    ensures '=' !in s && ';' !in s && ' ' !in s && NoWsp(s) && Trim(s) == s
  {
    if s != "" {
      assert s[0] in s && s[|s| - 1] in s;
    }
  }

  lemma ParseOfNameValue(name: string, value: string)
    ensures ParsePair(NameValue(name, value)) == Entry(name, value)
    ensures ';' !in NameValue(name, value) && NameValue(name, value) != ""
  {
    EncodeIsPlain(name);
    EncodeIsPlain(value);
    PlainHas(Encode(name));
    PlainHas(Encode(value));
    AroundFirst(Encode(name), '=', Encode(value));
    DecodeOfEncode(name);
    DecodeOfEncode(value);
  }

  lemma {:induction false} FindSeparatorOf(a: string, b: string)
    requires ';' !in a
    ensures FindSeparator(a + "; " + b) == |a|
    ensures FindSeparator(a) == |a|
  {
    if a != "" {
      assert (a + "; " + b)[1..] == a[1..] + "; " + b;
      FindSeparatorOf(a[1..], b);
    }
  }

  lemma {:induction false} SplitPairsOfJoin(parts: seq<string>)
    requires parts != [] && forall p :: p in parts ==> ';' !in p
    ensures SplitPairs(Join(parts)) == parts
  {
    if |parts| == 1 {
      FindSeparatorOf(parts[0], "");
    } else {
      var s, tail := Join(parts), Join(parts[1..]);
      FindSeparatorOf(parts[0], tail);
      SplitPairsOfJoin(parts[1..]);
      assert s[..|parts[0]|] == parts[0] && s[|parts[0]| + 2..] == tail;
    }
  }

  lemma {:induction false} ObjectOfPairs(entries: seq<Cookie>)
    ensures Object(Pairs(EncodeAll(entries))) == Some(MapOf(entries))
    ensures forall p :: p in Pairs(EncodeAll(entries)) ==> ';' !in p
  {
    if entries != [] {
      ParseOfNameValue(entries[0].name, entries[0].value);
      ObjectOfPairs(entries[1..]);
      assert EncodeAll(entries)[1..] == EncodeAll(entries[1..]);
    }
  }

  /** Parsing document.cookie recovers every entry the hook wrote. */
  lemma ParsedJar(entries: seq<Cookie>)
    ensures Parsed(CookieString(EncodeAll(entries))) == Some(MapOf(entries))
  {
    if entries == [] {
      assert SplitPairs("") == [""];
      assert Object([""]) == Some(map[]);
    } else {
      ObjectOfPairs(entries);
      SplitPairsOfJoin(Pairs(EncodeAll(entries)));
    }
  }

  // The jar changes as the entries behind it do, because encoding is injective.
  lemma {:induction false} PutEncoded(entries: seq<Cookie>, name: string, value: string)
    ensures Put(EncodeAll(entries), Encode(name), Encode(value)) == EncodeAll(Put(entries, name, value))
  {
    if entries != [] {
      var first, rest := entries[0], entries[1..];
      assert EncodeAll(entries)[1..] == EncodeAll(rest);
      if Encode(first.name) == Encode(name) {
        EncodeIsInjective(first.name, name);
        assert Put(entries, name, value)[1..] == rest;
      } else {
        PutEncoded(rest, name, value);
        assert Put(entries, name, value)[1..] == Put(rest, name, value);
      }
    }
  }

  lemma {:induction false} RemoveEncoded(entries: seq<Cookie>, name: string)
    ensures Remove(EncodeAll(entries), Encode(name)) == EncodeAll(Remove(entries, name))
  {
    if entries != [] {
      var first, rest := entries[0], entries[1..];
      assert EncodeAll(entries)[1..] == EncodeAll(rest);
      RemoveEncoded(rest, name);
      if Encode(first.name) == Encode(name) {
        EncodeIsInjective(first.name, name);
      } else {
        assert Remove(entries, name)[1..] == Remove(rest, name);
      }
    }
  }

  lemma MapOfCons(first: Cookie, rest: seq<Cookie>)
    ensures MapOf([first] + rest) == map[first.name := first.value] + MapOf(rest)
    ensures DistinctNames([first] + rest) <==> first.name !in MapOf(rest) && DistinctNames(rest)
  {
  }

  lemma UpdateUnder(m: map<string, string>, k0: string, v0: string, k: string, v: string)
    requires k != k0
    ensures map[k0 := v0] + m[k := v] == (map[k0 := v0] + m)[k := v]
  {
  }

  // Distinct names make the list of entries a map, and keep doing so.
  lemma {:induction false} PutEntry(entries: seq<Cookie>, name: string, value: string)
    requires DistinctNames(entries)
    ensures DistinctNames(Put(entries, name, value))
    ensures MapOf(Put(entries, name, value)) == MapOf(entries)[name := value]
  {
    if entries == [] {
      MapOfCons(Cookie(name, value), []);
    } else {
      var first, rest := entries[0], entries[1..];
      if first.name == name {
        MapOfCons(Cookie(name, value), rest);
      } else {
        PutEntry(rest, name, value);
        MapOfCons(first, Put(rest, name, value));
        UpdateUnder(MapOf(rest), first.name, first.value, name, value);
      }
    }
  }

  lemma {:induction false} RemoveEntry(entries: seq<Cookie>, name: string)
    requires DistinctNames(entries)
    ensures DistinctNames(Remove(entries, name))
    ensures MapOf(Remove(entries, name)) == MapOf(entries) - {name}
  {
    if entries != [] {
      RemoveEntry(entries[1..], name);
      MapOfCons(entries[0], Remove(entries[1..], name));
    }
  }

  // What an attribute field means, given its name and value.
  lemma MaxAgeOfField(name: string, value: string, field: string)
    requires '=' !in name && NoWsp(name) && NoWsp(value)
    requires field == " " + name + "=" + value
    ensures MaxAgeOf(field) == if IsMaxAge(name) then DeltaSeconds(value) else None
  {
    AroundFirst(" " + name, '=', value);
    TrimOfNoWsp(name);
    TrimOfNoWsp(value);
  }

  lemma DigitsOfPrintInt(n: int)
    ensures NoWsp(PrintInt(n)) && ';' !in PrintInt(n)
  {
  }

  lemma DeltaOfDigits(digits: string, negative: string)
    requires digits != "" && AllDigits(digits) && negative == "-" + digits
    ensures DeltaSeconds(digits) == Some(Value(digits))
    ensures DeltaSeconds(negative) == Some(-(Value(digits) as int))
  {
    assert IsDigit(digits[0]);
    assert negative[0] == '-' && negative[1..] == digits;
  }

  lemma DeltaOfPrintInt(n: int)
    ensures DeltaSeconds(PrintInt(n)) == Some(n)
  {
    var digits := Print(if n < 0 then -n else n);
    ValueOfPrint(if n < 0 then -n else n);
    DeltaOfDigits(digits, "-" + digits);
  }

  lemma MaxAgeOfPath()
    ensures MaxAgeOf(" Path=/") == None
  {
    MaxAgeOfField("Path", "/", " Path=/");
  }

  lemma MaxAgeOfSameSite(v: string, field: string)
    requires NoWsp(v) && field == " SameSite=" + v
    ensures MaxAgeOf(field) == None
  {
    MaxAgeOfField("SameSite", v, field);
  }

  lemma MaxAgeOfMaxAge(n: int, field: string)
    requires field == " Max-Age=" + PrintInt(n)
    ensures MaxAgeOf(field) == Some(n)
  {
    DigitsOfPrintInt(n);
    DeltaOfPrintInt(n);
    MaxAgeOfField("Max-Age", PrintInt(n), field);
  }

  lemma {:induction false} LastMaxAgeOfConcat(a: seq<string>, b: seq<string>)
    ensures LastMaxAge(a + b) == if LastMaxAge(b).Some? then LastMaxAge(b) else LastMaxAge(a)
  {
    if a == [] {
      assert a + b == b;
    } else {
      assert (a + b)[1..] == a[1..] + b;
      LastMaxAgeOfConcat(a[1..], b);
    }
  }

  lemma {:induction false} SpacedConcat(a: seq<string>, b: seq<string>)
    ensures Spaced(a + b) == Spaced(a) + Spaced(b)
  {
    if a == [] {
      assert a + b == b;
    } else {
      assert (a + b)[1..] == a[1..] + b;
      SpacedConcat(a[1..], b);
    }
  }

  lemma LastMaxAgeOfOne(field: string)
    ensures LastMaxAge([field]) == MaxAgeOf(field)
  {
  }

  lemma LastMaxAgeOfSpacedConcat(a: seq<string>, b: seq<string>)
    ensures var later := LastMaxAge(Spaced(b));
            LastMaxAge(Spaced(a + b)) == if later.Some? then later else LastMaxAge(Spaced(a))
  {
    SpacedConcat(a, b);
    LastMaxAgeOfConcat(Spaced(a), Spaced(b));
  }

  lemma SpacedOne(p: string, field: string)
    requires field == " " + p
    ensures LastMaxAge(Spaced([p])) == MaxAgeOf(field)
  {
    LastMaxAgeOfOne(field);
  }

  lemma MaxAgeOfPathPart()
    ensures LastMaxAge(Spaced(["Path=/"])) == None
  {
    MaxAgeOfPath();
    SpacedOne("Path=/", " Path=/");
  }

  lemma MaxAgeOfPart(o: Options)
    ensures LastMaxAge(Spaced(MaxAgePart(o))) == o.maxAge
  {
    if o.maxAge.Some? {
      var n := o.maxAge.value;
      var part := "Max-Age=" + PrintInt(n);
      var field := " " + part;
      assert field == " Max-Age=" + PrintInt(n);
      MaxAgeOfMaxAge(n, field);
      SpacedOne(part, field);
    }
  }

  lemma MaxAgeOfSecurePart(o: Options)
    ensures LastMaxAge(Spaced(SecurePart(o))) == None
  {
  }

  lemma MaxAgeOfSameSitePart(o: Options)
    ensures LastMaxAge(Spaced(SameSitePart(o))) == None
  {
    if o.sameSite != Unset {
      var part := "SameSite=" + SameSiteName(o.sameSite);
      var field := " " + part;
      assert field == " SameSite=" + SameSiteName(o.sameSite);
      MaxAgeOfSameSite(SameSiteName(o.sameSite), field);
      SpacedOne(part, field);
    }
  }

  // ---- The other attributes --------------------------------------------------------------------

  lemma {:induction false} LastAttributeOfConcat(a: seq<string>, b: seq<string>, name: string)
    ensures LastAttribute(a + b, name) ==
            if LastAttribute(b, name).Some? then LastAttribute(b, name) else LastAttribute(a, name)
  {
    if a == [] {
      assert a + b == b;
    } else {
      assert (a + b)[1..] == a[1..] + b;
      LastAttributeOfConcat(a[1..], b, name);
    }
  }

  lemma LastOfSpacedConcat(a: seq<string>, b: seq<string>, name: string)
    ensures var later := LastAttribute(Spaced(b), name);
            LastAttribute(Spaced(a + b), name) == if later.Some? then later else LastAttribute(Spaced(a), name)
  {
    SpacedConcat(a, b);
    LastAttributeOfConcat(Spaced(a), Spaced(b), name);
  }

  // One attribute, written as "Name=value", read under a name.
  lemma AttributeRead(part: string, written: string, value: string, name: string)
    requires part == written + "=" + value && '=' !in written && NoWsp(written) && NoWsp(value)
    ensures LastAttribute(Spaced([part]), name) == if Lower(written) == name then Some(value) else None
  {
    var field := " " + part;
    assert field == (" " + written) + ['='] + value;
    AroundFirst(" " + written, '=', value);
    TrimOfNoWsp(written);
    TrimOfNoWsp(value);
    assert Spaced([part]) == [field];
  }

  lemma NamesInLowerCase()
    ensures Lower("Path") == "path" && Lower("Max-Age") == "max-age"
    ensures Lower("SameSite") == "samesite" && Lower("Secure") == "secure"
  {
  }

  lemma SecureRead(o: Options, name: string)
    ensures LastAttribute(Spaced(SecurePart(o)), name) == if o.secure && name == "secure" then Some("") else None
  {
    NamesInLowerCase();
    if o.secure {
      var field := " Secure";
      assert field == " " + "Secure";
      assert Spaced(["Secure"]) == [field];
      IndexOfNone(field, '=');
      assert field[..|field|] == field;
      TrimOfNoWsp("Secure");
    }
  }

  lemma MaxAgeRead(o: Options, name: string)
    ensures LastAttribute(Spaced(MaxAgePart(o)), name) ==
            if o.maxAge.Some? && name == "max-age" then Some(PrintInt(o.maxAge.value)) else None
  {
    NamesInLowerCase();
    if o.maxAge.Some? {
      DigitsOfPrintInt(o.maxAge.value);
      AttributeRead("Max-Age=" + PrintInt(o.maxAge.value), "Max-Age", PrintInt(o.maxAge.value), name);
    }
  }

  lemma SameSiteRead(o: Options, name: string)
    ensures LastAttribute(Spaced(SameSitePart(o)), name) ==
            if o.sameSite != Unset && name == "samesite" then Some(SameSiteName(o.sameSite)) else None
  {
    NamesInLowerCase();
    if o.sameSite != Unset {
      AttributeRead("SameSite=" + SameSiteName(o.sameSite), "SameSite", SameSiteName(o.sameSite), name);
    }
  }

  lemma PathRead(name: string)
    ensures LastAttribute(Spaced(["Path=/"]), name) == if name == "path" then Some("/") else None
  {
    NamesInLowerCase();
    AttributeRead("Path=/", "Path", "/", name);
  }

  lemma AttributesRead(o: Options, name: string)
    ensures LastAttribute(Spaced(Attributes(o)), name) ==
            if name == "path" then Some("/")
            else if o.maxAge.Some? && name == "max-age" then Some(PrintInt(o.maxAge.value))
            else if o.sameSite != Unset && name == "samesite" then Some(SameSiteName(o.sameSite))
            else if o.secure && name == "secure" then Some("")
            else None
  {
    PathRead(name);
    MaxAgeRead(o, name);
    SameSiteRead(o, name);
    SecureRead(o, name);
    LastOfSpacedConcat(["Path=/"], MaxAgePart(o), name);
    LastOfSpacedConcat(["Path=/"] + MaxAgePart(o), SameSitePart(o), name);
    LastOfSpacedConcat(["Path=/"] + MaxAgePart(o) + SameSitePart(o), SecurePart(o), name);
  }

  /** A browser reads the options back from the attributes: path, lifetime, same-site policy and secure flag. */
  lemma OptionsReadBack(o: Options)
    ensures var attributes := Spaced(Attributes(o));
            && LastAttribute(attributes, "path") == Some("/")
            && LastMaxAge(attributes) == o.maxAge
            && (LastAttribute(attributes, "secure") == Some("") <==> o.secure)
            && (LastAttribute(attributes, "samesite") == Some("Lax") <==> o.sameSite == Lax)
            && (LastAttribute(attributes, "samesite") == Some("Strict") <==> o.sameSite == Strict)
            && (LastAttribute(attributes, "samesite") == Some("None") <==> o.sameSite == Anywhere)
            && (LastAttribute(attributes, "samesite") == None <==> o.sameSite == Unset)
  {
    AttributesMean(o);
    AttributesRead(o, "path");
    AttributesRead(o, "secure");
    AttributesRead(o, "samesite");
  }

  // The attributes the hook writes mean its maxAge option and nothing else.
  lemma AttributesMean(o: Options)
    ensures LastMaxAge(Spaced(Attributes(o))) == o.maxAge
  {
    MaxAgeOfPathPart();
    MaxAgeOfPart(o);
    MaxAgeOfSameSitePart(o);
    MaxAgeOfSecurePart(o);
    LastMaxAgeOfSpacedConcat(["Path=/"], MaxAgePart(o));
    LastMaxAgeOfSpacedConcat(["Path=/"] + MaxAgePart(o), SameSitePart(o));
    LastMaxAgeOfSpacedConcat(["Path=/"] + MaxAgePart(o) + SameSitePart(o), SecurePart(o));
  }

  lemma AttributesHaveNoSemicolon(o: Options)
    ensures forall p :: p in Attributes(o) ==> ';' !in p
  {
    if o.maxAge.Some? { DigitsOfPrintInt(o.maxAge.value); }
  }

  lemma RequestOfNameValue(name: string, value: string)
    ensures '=' in NameValue(name, value)
    ensures TrimWsp(Before(NameValue(name, value), '=')) == Encode(name)
    ensures TrimWsp(After(NameValue(name, value), '=')) == Encode(value)
    ensures Encode(name) == "" <==> name == ""
  {
    EncodeIsPlain(name);
    EncodeIsPlain(value);
    PlainHas(Encode(name));
    PlainHas(Encode(value));
    AroundFirst(Encode(name), '=', Encode(value));
    TrimOfNoWsp(Encode(name));
    TrimOfNoWsp(Encode(value));
    if Encode(name) == "" { EncodeIsInjective(name, ""); }
  }

  /** The browser understands what the hook writes; it ignores an empty name. */
  lemma ParseOfBuilt(name: string, value: string, o: Options)
    ensures ParseSetCookie(Join(Parts(name, value, o))) ==
            if name == "" then None else Some(Request(Encode(name), Encode(value), o.maxAge))
  {
    var parts := Parts(name, value, o);
    RequestOfNameValue(name, value);
    ParseOfNameValue(name, value);
    AttributesHaveNoSemicolon(o);
    SplitOfJoin(parts, "");
    assert "" + Join(parts) == Join(parts) && "" + parts[0] == parts[0];
    assert parts[1..] == Attributes(o);
    AttributesMean(o);
  }

  // One assignment to document.cookie.
  datatype Op = Write(name: string, value: string, options: Options)

  // removeCookie(name) writes an empty value with Max-Age=0 and no SameSite.
  const REMOVAL: Options := Options(Some(0), Unset, false)

  function Removal(name: string): Op {
    Write(name, "", REMOVAL)
  }

  predicate Expires(o: Options) {
    o.maxAge.Some? && o.maxAge.value <= 0
  }

  function JarStep(jar: seq<Cookie>, op: Op): seq<Cookie> {
    Store(jar, Join(Parts(op.name, op.value, op.options)))
  }

  // The plain map the hook stands for.
  function MapStep(m: map<string, string>, op: Op): map<string, string> {
    if op.name == "" then m
    else if Expires(op.options) then m - {op.name}
    else m[op.name := op.value]
  }

  function EntriesStep(entries: seq<Cookie>, op: Op): seq<Cookie> {
    if op.name == "" then entries
    else if Expires(op.options) then Remove(entries, op.name)
    else Put(entries, op.name, op.value)
  }

  lemma JarStepIs(jar: seq<Cookie>, op: Op)
    ensures JarStep(jar, op) ==
            if op.name == "" then jar
            else if Expires(op.options) then Remove(jar, Encode(op.name))
            else Put(jar, Encode(op.name), Encode(op.value))
  {
    ParseOfBuilt(op.name, op.value, op.options);
  }

  lemma StepRefines(entries: seq<Cookie>, op: Op)
    requires DistinctNames(entries)
    ensures JarStep(EncodeAll(entries), op) == EncodeAll(EntriesStep(entries, op))
    ensures DistinctNames(EntriesStep(entries, op))
    ensures MapOf(EntriesStep(entries, op)) == MapStep(MapOf(entries), op)
  {
    JarStepIs(EncodeAll(entries), op);
    if Expires(op.options) {
      RemoveEncoded(entries, op.name);
      RemoveEntry(entries, op.name);
    } else {
      PutEncoded(entries, op.name, op.value);
      PutEntry(entries, op.name, op.value);
    }
  }

  function JarAfter(ops: seq<Op>): seq<Cookie> {
    if ops == [] then [] else JarStep(JarAfter(ops[..|ops| - 1]), ops[|ops| - 1])
  }

  function MapAfter(ops: seq<Op>): map<string, string> {
    if ops == [] then map[] else MapStep(MapAfter(ops[..|ops| - 1]), ops[|ops| - 1])
  }

  lemma {:induction false} EntriesAfter(ops: seq<Op>) returns (entries: seq<Cookie>)
    ensures DistinctNames(entries) && JarAfter(ops) == EncodeAll(entries) && MapAfter(ops) == MapOf(entries)
  {
    entries := [];
    if ops != [] {
      entries := EntriesAfter(ops[..|ops| - 1]);
      StepRefines(entries, ops[|ops| - 1]);
      entries := EntriesStep(entries, ops[|ops| - 1]);
    }
  }

  /**
   * After any run of writes and removals, parsing document.cookie gives the
   * plain map under the same updates.
   */
  lemma CookiesRefineMap(ops: seq<Op>)
    ensures Parsed(CookieString(JarAfter(ops))) == Some(MapAfter(ops))
  {
    var entries := EntriesAfter(ops);
    ParsedJar(entries);
  }

  // The page's document: assigning to document.cookie stores, reading serialises.
  class Document {
    var jar: seq<Cookie>

    constructor ()
      ensures jar == []
    {
      jar := [];
    }

    method WriteCookie(s: string)
      modifies this
      ensures jar == Store(old(jar), s)
    {
      jar := Store(jar, s);
    }
  }

  class UseCookies {
    const document: Document
    var cookies: map<string, string>
    // The plain entries behind the jar.
    ghost var entries: seq<Cookie>

    ghost predicate Valid()
      reads this, document
    {
      && DistinctNames(entries)
      && document.jar == EncodeAll(entries)
      && cookies == MapOf(entries)
    }

    constructor (document: Document)
      requires document.jar == []
      ensures Valid() && this.document == document && cookies == map[]
    {
      this.document := document;
      cookies := map[];
      entries := [];
    }

    method RefreshCookies()
      requires DistinctNames(entries) && document.jar == EncodeAll(entries)
      modifies this`cookies
      ensures Valid()
    {
      ParsedJar(entries);
      var parsed := ParseCookieString(CookieString(document.jar));
      cookies := parsed.value;
    }

    function GetCookie(name: string): Option<string>
      reads this
    {
      if name in cookies then Some(cookies[name]) else None
    }

    method SetCookie(name: string, value: string, options: Options)
      requires Valid()
      modifies this, document
      ensures Valid() && cookies == MapStep(old(cookies), Write(name, value, options))
      ensures name != "" && !Expires(options) ==> GetCookie(name) == Some(value)
    {
      var s := BuildCookieString(name, value, options);
      StepRefines(entries, Write(name, value, options));
      document.WriteCookie(s);
      entries := EntriesStep(entries, Write(name, value, options));
      RefreshCookies();
    }

    method RemoveCookie(name: string)
      requires Valid()
      modifies this, document
      ensures Valid() && cookies == old(cookies) - (if name == "" then {} else {name})
    {
      RemovalStep(document.jar, entries, name);
      document.WriteCookie(Encode(name) + "=; Path=/; Max-Age=0");
      entries := EntriesStep(entries, Removal(name));
      RefreshCookies();
    }
  }

  lemma RemovalStep(jar: seq<Cookie>, entries: seq<Cookie>, name: string)
    requires DistinctNames(entries) && jar == EncodeAll(entries)
    ensures var entries' := EntriesStep(entries, Removal(name));
            && Store(jar, Encode(name) + "=; Path=/; Max-Age=0") == EncodeAll(entries') && DistinctNames(entries')
            && MapOf(entries') == MapOf(entries) - (if name == "" then {} else {name})
  {
    RemovalText(name);
    StepRefines(entries, Removal(name));
  }

  lemma RemovalAttributes(o: Options)
    requires o.maxAge == Some(0) && o.sameSite == Unset && !o.secure
    ensures Attributes(o) == ["Path=/", "Max-Age=0"]
  {
    assert SecurePart(o) == [];
    assert SameSitePart(o) == [];
    assert PrintInt(0) == "0";
    assert "Max-Age=" + PrintInt(0) == "Max-Age=0";
  }

  // The text removeCookie writes is a removal.
  lemma RemovalText(name: string)
    ensures Encode(name) + "=; Path=/; Max-Age=0" == Join(Parts(name, "", REMOVAL))
  {
    RemovalAttributes(REMOVAL);
    JoinOfThree(NameValue(name, ""), "Path=/", "Max-Age=0");
    RemovalSpelling(Encode(name), NameValue(name, ""));
  }

  lemma RemovalSpelling(e: string, pair: string)
    requires pair == e + "=" + ""
    ensures e + "=; Path=/; Max-Age=0" == pair + "; " + "Path=/" + "; " + "Max-Age=0"
  {
  }

  lemma JoinOfThree(a: string, b: string, c: string)
    ensures Join([a] + [b, c]) == a + "; " + b + "; " + c
  {
    assert [b, c][1..] == [c];
    assert Join([b, c]) == b + "; " + c;
    assert ([a] + [b, c])[1..] == [b, c];
    assert a + "; " + (b + "; " + c) == a + "; " + b + "; " + c;
  }
}
