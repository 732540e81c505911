/** The first message of a connection, "name,token" or "name,token;id,id,...": how the client prints
    it and how the server takes it apart. */
module Hello {
  import opened ByteSeqs
  import opened Numbers
  import opened SessionModel

  datatype Greeting = Greeting(name: string, token: string, ids: seq<Sid>)

  // ----- Splitting and joining -----

  /** The parts before and after the first separator. */
  function SplitOnce(s: string, c: char): (r: Option<(string, string)>)
    ensures r.None? <==> c !in s
    ensures r.Some? ==> s == r.value.0 + [c] + r.value.1 && c !in r.value.0
  {
    if s == [] then None
    else if s[0] == c then
      assert s == [] + [c] + s[1..];
      Some(([], s[1..]))
    else
      var rest := SplitOnce(s[1..], c);
      if rest.None? then None
      else
        assert s == [s[0]] + rest.value.0 + [c] + rest.value.1;
        Some(([s[0]] + rest.value.0, rest.value.1))
  }

  /** All parts between separators. */
  function Split(s: string, c: char): (r: seq<string>)
    ensures r != []
  {
    if s == [] then [[]]
    else if s[0] == c then [[]] + Split(s[1..], c)
    else
      var rest := Split(s[1..], c);
      [[s[0]] + rest[0]] + rest[1..]
  }

  function Join(parts: seq<string>, c: char): string {
    if parts == [] then []
    else if |parts| == 1 then parts[0]
    else parts[0] + [c] + Join(parts[1..], c)
  }

  /** The first separator decides. */
  lemma {:induction false} SplitOnceAt(a: string, c: char, b: string)
    requires c !in a
    ensures SplitOnce(a + [c] + b, c) == Some((a, b))
  {
    var s := a + [c] + b;
    if a == [] {
      assert s[0] == c && s[1..] == b;
    } else {
      assert s[0] == a[0] && s[1..] == a[1..] + [c] + b;
      SplitOnceAt(a[1..], c, b);
      assert SplitOnce(s[1..], c) == Some((a[1..], b));
      assert [a[0]] + a[1..] == a && a[0] != c;
    }
  }

  lemma {:induction false} SplitPart(a: string, c: char)
    requires c !in a
    ensures Split(a, c) == [a]
  {
    if a != [] {
      SplitPart(a[1..], c);
      assert [a[0]] + a[1..] == a && a[0] != c;
    }
  }

  lemma {:induction false} SplitFirst(a: string, c: char, b: string)
    requires c !in a
    ensures Split(a + [c] + b, c) == [a] + Split(b, c)
  {
    var s := a + [c] + b;
    if a == [] {
      assert s[0] == c && s[1..] == b;
    } else {
      assert s[0] == a[0] && s[1..] == a[1..] + [c] + b;
      SplitFirst(a[1..], c, b);
      assert Split(s[1..], c) == [a[1..]] + Split(b, c);
      assert [a[0]] + a[1..] == a && a[0] != c;
    }
  }

  lemma {:induction false} SplitJoin(parts: seq<string>, c: char)
    requires parts != [] && forall i :: 0 <= i < |parts| ==> c !in parts[i]
    ensures Split(Join(parts, c), c) == parts
  {
    if |parts| == 1 {
      SplitPart(parts[0], c);
    } else {
      SplitJoin(parts[1..], c);
      SplitFirst(parts[0], c, Join(parts[1..], c));
    }
  }

  // ----- The message -----

  function Decimals(ids: seq<Sid>): (r: seq<string>)
    ensures |r| == |ids|
  {
    if ids == [] then [] else [Decimal(ids[0])] + Decimals(ids[1..])
  }

  function PrintHello(name: string, token: string, ids: seq<Sid>): string {
    name + "," + token + (if ids == [] then "" else ";" + Join(Decimals(ids), ','))
  }

  /** The ids among the parts; what is no 32-bit number is ignored. */
  function ParseIds(parts: seq<string>): seq<Sid> {
    if parts == [] then []
    else
      var id := ParseU32(parts[0]);
      (if id.Some? then [id.value] else []) + ParseIds(parts[1..])
  }

  function ParseHello(hello: string): Option<Greeting> {
    var halves := SplitOnce(hello, ';');
    var creds := if halves.Some? then halves.value.0 else hello;
    var idsStr := if halves.Some? then halves.value.1 else "";
    var pair := SplitOnce(creds, ',');
    if pair.None? then None
    else Some(Greeting(pair.value.0, pair.value.1, if idsStr == "" then [] else ParseIds(Split(idsStr, ','))))
  }

  /** A greeting is read exactly when there is a comma before the first semicolon: the name is what comes
      before the first comma, the token what is left up to the semicolon. */
  lemma ParseHelloIff(hello: string, name: string, token: string, ids: seq<Sid>)
    ensures ParseHello(hello) == Some(Greeting(name, token, ids))
       <==> ',' !in name && ';' !in name && ';' !in token
            && ((hello == name + "," + token && ids == [])
                || exists rest: string :: hello == name + "," + token + ";" + rest && ids == ParsedIds(rest))
  {
    hide ParsedIds;
    if ParseHello(hello) == Some(Greeting(name, token, ids)) {
      GreetingParts(hello);
    }
    if ',' !in name && ';' !in name && ';' !in token {
      if hello == name + "," + token && ids == [] {
        NoSemicolon(name, token);
      }
      forall rest: string | hello == name + "," + token + ";" + rest && ids == ParsedIds(rest)
        ensures ParseHello(hello) == Some(Greeting(name, token, ids))
      {
        WithSemicolon(name, token, rest);
      }
    }
  }

  function ParsedIds(rest: string): seq<Sid> {
    if rest == "" then [] else ParseIds(Split(rest, ','))
  }

  lemma GreetingParts(hello: string)
    requires ParseHello(hello).Some?
    ensures var g := ParseHello(hello).value;
            && ',' !in g.name && ';' !in g.name && ';' !in g.token
            && ((hello == g.name + "," + g.token && g.ids == [])
                || exists rest: string :: hello == g.name + "," + g.token + ";" + rest && g.ids == ParsedIds(rest))
  {
    hide Split, ParseIds, SplitOnce;
    var g, halves := ParseHello(hello).value, SplitOnce(hello, ';');
    var creds := if halves.Some? then halves.value.0 else hello;
    assert creds == g.name + [','] + g.token;
    if halves.Some? {
      assert hello == g.name + "," + g.token + ";" + halves.value.1 && g.ids == ParsedIds(halves.value.1);
    }
  }

  lemma NoSemicolon(name: string, token: string)
    requires ',' !in name && ';' !in name && ';' !in token
    ensures ParseHello(name + "," + token) == Some(Greeting(name, token, []))
  {
    var hello := name + "," + token;
    assert ';' !in hello;
    CredsRoundTrip(name, token);
    hide Split, ParseIds, SplitOnce;
  }

  lemma WithSemicolon(name: string, token: string, rest: string)
    requires ',' !in name && ';' !in name && ';' !in token
    ensures ParseHello(name + "," + token + ";" + rest) == Some(Greeting(name, token, ParsedIds(rest)))
  {
    var creds := name + "," + token;
    assert ';' !in creds;
    CredsRoundTrip(name, token);
    SplitOnceAt(creds, ';', rest);
    hide Split, ParseIds, SplitOnce;
  }

  lemma {:induction false} ParseIdsAppend(a: seq<string>, b: seq<string>)
    ensures ParseIds(a + b) == ParseIds(a) + ParseIds(b)
    decreases |a|
  {
    hide ParseU32;
    if a == [] {
      assert a + b == b;
    } else {
      assert (a + b)[0] == a[0] && (a + b)[1..] == a[1..] + b;
      ParseIdsAppend(a[1..], b);
      var first := if ParseU32(a[0]).Some? then [ParseU32(a[0]).value] else [];
      AppendThree(first, ParseIds(a[1..]), ParseIds(b));
    }
  }

  /** A part that is a number gives that number and any other part gives nothing. */
  lemma ParseIdsOne(part: string)
    ensures ParseIds([part]) == if ParseU32(part).Some? then [ParseU32(part).value] else []
  {
    hide ParseU32;
    assert [part][1..] == [];
  }

  lemma {:induction false} ParseDecimals(ids: seq<Sid>)
    ensures ParseIds(Decimals(ids)) == ids
    ensures forall i :: 0 <= i < |ids| ==> ',' !in Decimals(ids)[i] && Decimals(ids)[i] != ""
  {
    if ids != [] {
      ParseDecimal(ids[0]);
      ParseDecimals(ids[1..]);
      assert Decimals(ids)[1..] == Decimals(ids[1..]);
    }
  }

  /** What is printed for the ids is read back as the same ids, in the same order. */
  lemma IdsRoundTrip(ids: seq<Sid>)
    requires ids != []
    ensures Join(Decimals(ids), ',') != "" && ParseIds(Split(Join(Decimals(ids), ','), ',')) == ids
  {
    ParseDecimals(ids);
    SplitJoin(Decimals(ids), ',');
  }

  lemma CredsRoundTrip(name: string, token: string)
    requires ',' !in name
    ensures SplitOnce(name + "," + token, ',') == Some((name, token))
  {
    SplitOnceAt(name, ',', token);
  }

  lemma HelloRoundTrip(name: string, token: string, ids: seq<Sid>)
    requires ',' !in name && ';' !in name && ';' !in token
    ensures ParseHello(PrintHello(name, token, ids)) == Some(Greeting(name, token, ids))
  {
    var creds := name + "," + token;
    assert ';' !in creds;
    CredsRoundTrip(name, token);
    if ids == [] {
      assert PrintHello(name, token, ids) == creds;
    } else {
      var joined := Join(Decimals(ids), ',');
      assert PrintHello(name, token, ids) == creds + [';'] + joined;
      SplitOnceAt(creds, ';', joined);
      IdsRoundTrip(ids);
    }
  }

  /** The server reads back the same name, token and ids exactly when the name has neither separator
      and the token has no semicolon, whatever the ids. */
  lemma HelloRoundTripIff(name: string, token: string, ids: seq<Sid>)
    ensures ParseHello(PrintHello(name, token, ids)) == Some(Greeting(name, token, ids))
       <==> ',' !in name && ';' !in name && ';' !in token
  {
    if ',' !in name && ';' !in name && ';' !in token {
      HelloRoundTrip(name, token, ids);
    } else {
      var creds := name + "," + token;
      var hello := PrintHello(name, token, ids);
      if ';' in creds {
        SemicolonCutsShort(creds, hello[|creds|..]);
        assert hello == creds + hello[|creds|..];
      } else if ParseHello(hello) == Some(Greeting(name, token, ids)) {
        assert ',' in name;
        CommaCutsShort(name, token, ids);
      }
    }
  }

  /** A semicolon among the credentials leaves fewer characters for name and token. */
  lemma SemicolonCutsShort(creds: string, rest: string)
    requires ';' in creds
    ensures ';' in creds + rest
    ensures |SplitOnce(creds + rest, ';').value.0| < |creds|
  {
    var halves := SplitOnce(creds, ';').value;
    hide SplitOnce;
    Regroup(halves.0, [';'], halves.1, rest);
    SplitOnceAt(halves.0, ';', halves.1 + rest);
  }

  lemma Regroup<T>(a: seq<T>, b: seq<T>, c: seq<T>, d: seq<T>)
    ensures a + b + c + d == a + b + (c + d)
  {
  }

  /** A comma in the name ends the name early. */
  lemma CommaCutsShort(name: string, token: string, ids: seq<Sid>)
    requires ',' in name && ';' !in name + "," + token
    ensures ParseHello(PrintHello(name, token, ids)).Some?
    ensures |ParseHello(PrintHello(name, token, ids)).value.name| < |name|
  {
    var creds := name + "," + token;
    var a, b := SplitOnce(name, ',').value.0, SplitOnce(name, ',').value.1;
    assert creds == a + [','] + (b + "," + token);
    SplitOnceAt(a, ',', b + "," + token);
    if ids != [] {
      var joined := Join(Decimals(ids), ',');
      assert PrintHello(name, token, ids) == creds + [';'] + joined;
      SplitOnceAt(creds, ';', joined);
    } else {
      assert PrintHello(name, token, ids) == creds;
    }
  }
}
