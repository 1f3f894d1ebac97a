/**
 * The browser's side of document.cookie: parsing a set-cookie-string
 * (section 5.2 of RFC 6265), storing it (section 5.3) and serialising the jar
 * (section 5.4), for one host and the path "/".
 */
module CookieJar {
  import opened Wrappers
  import opened JsText

  datatype Cookie = Cookie(name: string, value: string)

  // What a set-cookie-string asks for; other attributes do not matter for one host and path.
  datatype Request = Request(name: string, value: string, maxAge: Option<int>)

  predicate IsWsp(c: char) {
    c == ' ' || c == '\t'
  }

  function TrimWspStart(s: string): string {
    if s != "" && IsWsp(s[0]) then TrimWspStart(s[1..]) else s
  }

  function TrimWspEnd(s: string): string {
    if s != "" && IsWsp(s[|s| - 1]) then TrimWspEnd(s[..|s| - 1]) else s
  }

  function TrimWsp(s: string): string {
    TrimWspEnd(TrimWspStart(s))
  }

  predicate AllWsp(s: string) {
    forall c :: c in s ==> IsWsp(c)
  }

  lemma {:induction false} TrimWspStartOf(before: string, s: string)
    requires AllWsp(before) && (s == "" || !IsWsp(s[0]))
    ensures TrimWspStart(before + s) == s
  {
    if before == "" {
      assert before + s == s;
    } else {
      assert (before + s)[1..] == before[1..] + s && before[0] in before;
      TrimWspStartOf(before[1..], s);
    }
  }

  lemma {:induction false} TrimWspEndOf(s: string, after: string)
    requires AllWsp(after) && (s == "" || !IsWsp(s[|s| - 1]))
    ensures TrimWspEnd(s + after) == s
  {
    if after == "" {
      assert s + after == s;
    } else {
      var n := |after| - 1;
      assert (s + after)[..|s + after| - 1] == s + after[..n] && after[n] in after;
      TrimWspEndOf(s, after[..n]);
    }
  }

  /** Spaces and tabs around a field's name or value are dropped, and nothing else. */
  lemma TrimWspOf(before: string, s: string, after: string)
    requires forall c :: c in before || c in after ==> c as int == 0x20 || c as int == 0x9
    requires s != "" && s[0] as int != 0x20 && s[0] as int != 0x9
    requires s[|s| - 1] as int != 0x20 && s[|s| - 1] as int != 0x9
    ensures TrimWsp(before + s + after) == s
  {
    assert before + s + after == before + (s + after);
    TrimWspStartOf(before, s + after);
    TrimWspEndOf(s, after);
  }

  // The first position of c in s, or |s|.
  function IndexOf(s: string, c: char): (i: nat)
    ensures i <= |s| && c !in s[..i] && (i < |s| ==> s[i] == c)
  {
    if s == "" || s[0] == c then 0 else 1 + IndexOf(s[1..], c)
  }

  function SplitOn(s: string, c: char): (parts: seq<string>)
    ensures parts != []
    decreases |s|
  {
    var i := IndexOf(s, c);
    if i == |s| then [s] else [s[..i]] + SplitOn(s[i + 1..], c)
  }

  function Before(s: string, c: char): string {
    s[..IndexOf(s, c)]
  }

  function After(s: string, c: char): string {
    var i := IndexOf(s, c);
    if i == |s| then "" else s[i + 1..]
  }

  function LowerCase(c: char): char {
    if 'A' <= c <= 'Z' then (c as int + 32) as char else c
  }

  predicate IsMaxAge(name: string) {
    |name| == 7 && forall i :: 0 <= i < 7 ==> LowerCase(name[i]) == "max-age"[i]
  }

  /** The name of the Max-Age attribute counts in any case. */
  lemma MaxAgeInAnyCase(name: string)
    ensures IsMaxAge(name) <==>
            |name| == 7 && forall i :: 0 <= i < 7 ==> name[i] == "max-age"[i] || name[i] == "MAX-AGE"[i]
  {
    assert "max-age"[3] == "MAX-AGE"[3] == '-';
  }

  // Section 5.2.2 of RFC 6265.
  function DeltaSeconds(value: string): Option<int> {
    if value == "" || !(IsDigit(value[0]) || value[0] == '-') || !AllDigits(value[1..]) then None
    else if value[0] == '-' then Some(-(Value(value[1..]) as int))
    else
      assert forall c :: c in value ==> c == value[0] || c in value[1..];
      Some(Value(value))
  }

  function MaxAgeOf(attribute: string): Option<int> {
    if IsMaxAge(TrimWsp(Before(attribute, '='))) then DeltaSeconds(TrimWsp(After(attribute, '='))) else None
  }

  // The last valid Max-Age attribute counts.
  function LastMaxAge(attributes: seq<string>): Option<int> {
    if attributes == [] then None
    else
      var later := LastMaxAge(attributes[1..]);
      if later.Some? then later else MaxAgeOf(attributes[0])
  }

  function Lower(s: string): string {
    seq(|s|, i requires 0 <= i < |s| => LowerCase(s[i]))
  }

  // The value of an attribute of this name, whatever its case.
  function AttributeOf(attribute: string, name: string): Option<string> {
    if Lower(TrimWsp(Before(attribute, '='))) == name then Some(TrimWsp(After(attribute, '='))) else None
  }

  // The last attribute of a name counts.
  function LastAttribute(attributes: seq<string>, name: string): Option<string> {
    if attributes == [] then None
    else
      var later := LastAttribute(attributes[1..], name);
      if later.Some? then later else AttributeOf(attributes[0], name)
  }

  // Section 5.2 of RFC 6265; None where the string is ignored.
  function ParseSetCookie(s: string): Option<Request> {
    var fields := SplitOn(s, ';');
    var name := TrimWsp(Before(fields[0], '='));
    if '=' !in fields[0] || name == "" then None
    else Some(Request(name, TrimWsp(After(fields[0], '=')), LastMaxAge(fields[1..])))
  }

  // A cookie that replaces another keeps its place, which is its creation time.
  function Put(jar: seq<Cookie>, name: string, value: string): seq<Cookie> {
    if jar == [] then [Cookie(name, value)]
    else if jar[0].name == name then [Cookie(name, value)] + jar[1..]
    else [jar[0]] + Put(jar[1..], name, value)
  }

  function Remove(jar: seq<Cookie>, name: string): seq<Cookie> {
    if jar == [] then []
    else if jar[0].name == name then Remove(jar[1..], name)
    else [jar[0]] + Remove(jar[1..], name)
  }

  // Section 5.3 of RFC 6265: a non-positive Max-Age expires the cookie at once.
  function Store(jar: seq<Cookie>, s: string): seq<Cookie> {
    match ParseSetCookie(s)
    case None => jar
    case Some(r) =>
      if r.maxAge.Some? && r.maxAge.value <= 0 then Remove(jar, r.name) else Put(jar, r.name, r.value)
  }

  function Join(parts: seq<string>): string {
    if parts == [] then "" else if |parts| == 1 then parts[0] else parts[0] + "; " + Join(parts[1..])
  }

  function Pairs(jar: seq<Cookie>): (pairs: seq<string>)
    ensures |pairs| == |jar|
  {
    if jar == [] then [] else [jar[0].name + "=" + jar[0].value] + Pairs(jar[1..])
  }

  // The cookie-string of section 5.4 of RFC 6265: earlier cookies first.
  function CookieString(jar: seq<Cookie>): string {
    Join(Pairs(jar))
  }

  lemma {:induction false} IndexOfFirst(a: string, c: char, b: string)
    requires c !in a
    ensures IndexOf(a + [c] + b, c) == |a|
  {
    var s := a + [c] + b;
    if a != "" {
      assert s[1..] == a[1..] + [c] + b;
      IndexOfFirst(a[1..], c, b);
    }
  }

  lemma {:induction false} IndexOfNone(s: string, c: char)
    requires c !in s
    ensures IndexOf(s, c) == |s|
  {
  }

  /** What stands before and after the first occurrence of a character. */
  lemma AroundFirst(a: string, c: char, b: string)
    requires c !in a
    ensures Before(a + [c] + b, c) == a && After(a + [c] + b, c) == b
  {
    IndexOfFirst(a, c, b);
  }

  ghost predicate NoWsp(s: string) {
    forall c :: c in s ==> !IsWsp(c)
  }

  lemma TrimOfNoWsp(s: string)
    requires NoWsp(s)
    ensures TrimWsp(s) == s && TrimWsp(" " + s) == s
  {
  }

  lemma SplitFirst(a: string, c: char, b: string)
    requires c !in a
    ensures SplitOn(a + [c] + b, c) == [a] + SplitOn(b, c)
  {
    var s := a + [c] + b;
    IndexOfFirst(a, c, b);
    assert s[..|a|] == a && s[|a| + 1..] == b;
  }

  // The fields of a "; "-joined list, split at semicolons, keep the joining space.
  ghost function Spaced(parts: seq<string>): seq<string> {
    if parts == [] then [] else [" " + parts[0]] + Spaced(parts[1..])
  }

  lemma {:induction false} SplitOfJoin(parts: seq<string>, lead: string)
    requires parts != [] && ';' !in lead && forall p :: p in parts ==> ';' !in p
    ensures SplitOn(lead + Join(parts), ';') == [lead + parts[0]] + Spaced(parts[1..])
    decreases |parts|
  {
    if |parts| == 1 {
      IndexOfNone(lead + Join(parts), ';');
    } else {
      var tail := " " + Join(parts[1..]);
      assert lead + Join(parts) == (lead + parts[0]) + [';'] + tail;
      SplitFirst(lead + parts[0], ';', tail);
      SplitOfJoin(parts[1..], " ");
    }
  }
}
