/** MySQL instance keys, listed as host:port with commas between and read back. */
module InstanceKeys {
  import opened Text

  const DEFAULT_PORT := 3306

  datatype InstanceKey = InstanceKey(host: string, port: int64)

  function StringCode(key: InstanceKey): string {
    key.host + ":" + Format(key.port)
  }

  /** NewRawInstanceKey: the host ends at the first colon. */
  function ParseKey(hostPort: string): Result<InstanceKey> {
    var tokens := Cut(hostPort, ':');
    if |tokens| != 2 then Err
    else
      match ParseInt(tokens[1])
      case Err => Err
      case Ok(port) => Ok(InstanceKey(tokens[0], port))
  }

  /** ParseRawInstanceKeyLoose: the port is optional. */
  function ParseKeyLoose(hostPort: string): Result<InstanceKey> {
    if ':' !in hostPort then Ok(InstanceKey(hostPort, DEFAULT_PORT)) else ParseKey(hostPort)
  }

  /** The keys of the tokens, added to those already there. */
  function ReadTokens(keys: set<InstanceKey>, tokens: seq<string>): Result<set<InstanceKey>>
    decreases |tokens|
  {
    if tokens == [] then Ok(keys)
    else
      match ParseKeyLoose(tokens[0])
      case Err => Err
      case Ok(key) => ReadTokens(keys + {key}, tokens[1..])
  }

  function Read(keys: set<InstanceKey>, list: string): Result<set<InstanceKey>> {
    if list == "" then Ok(keys) else ReadTokens(keys, Split(list, ','))
  }

  /** The keys up to the first token that does not parse. */
  function ReadUntil(keys: set<InstanceKey>, tokens: seq<string>): set<InstanceKey>
    decreases |tokens|
  {
    if tokens == [] then keys
    else
      match ParseKeyLoose(tokens[0])
      case Err => keys
      case Ok(key) => ReadUntil(keys + {key}, tokens[1..])
  }

  /** The map of keys, filled in place. */
  class InstanceKeyMap {
    var keys: set<InstanceKey>

    constructor ()
      ensures keys == {}
    {
      keys := {};
    }

    /** On an error the keys read before it stay. */
    method ReadCommaDelimitedList(list: string) returns (ok: bool)
      modifies this
      ensures ok == Read(old(keys), list).Ok?
      ensures ok ==> keys == Read(old(keys), list).value
      ensures !ok ==> keys == ReadUntil(old(keys), Split(list, ','))
    {
      hide Split, ParseKeyLoose;
      if list == "" {
        return true;
      }
      var tokens := Split(list, ',');
      for i := 0 to |tokens|
        invariant ReadUntil(old(keys), tokens) == ReadUntil(keys, tokens[i..])
        invariant ReadTokens(old(keys), tokens) == ReadTokens(keys, tokens[i..])
      {
        assert tokens[i..][1..] == tokens[i + 1..];
        var key := ParseKeyLoose(tokens[i]);
        if key.Err? {
          return false;
        }
        keys := keys + {key.value};
      }
      return true;
    }

    /** The display strings in whatever order the map yields the keys. Reading the list into a
        fresh map gives the keys back exactly when the hosts allow it. */
    method ToCommaDelimitedList() returns (list: string)
      ensures exists order :: Lists(keys, order) && list == Join(Codes(order), ',')
      ensures Read({}, list) == Ok(keys) <==> GoodHosts(keys)
    {
      hide Read, Join, GoodHosts;
      var displays: seq<string> := [];
      ghost var order: seq<InstanceKey> := [];
      var rest := keys;
      while rest != {}
        invariant rest <= keys && Lists(keys - rest, order) && displays == Codes(order)
        decreases |rest|
      {
        var key :| key in rest;
        displays := displays + [StringCode(key)];
        order := order + [key];
        rest := rest - {key};
      }
      assert keys - rest == keys;
      list := Join(displays, ',');
      RoundTripIffGoodHosts(keys, order);
    }
  }

  /** The keys, each once. */
  ghost predicate Lists(keys: set<InstanceKey>, order: seq<InstanceKey>) {
    && (forall key :: key in order <==> key in keys)
    && (forall i, j :: 0 <= i < j < |order| ==> order[i] != order[j])
  }

  function Codes(order: seq<InstanceKey>): seq<string> {
    seq(|order|, i requires 0 <= i < |order| => StringCode(order[i]))
  }

  // ---- the round trip --------------------------------------------------------------

  predicate GoodHost(host: string) {
    ':' !in host && ',' !in host
  }

  predicate GoodHosts(keys: set<InstanceKey>) {
    forall key :: key in keys ==> GoodHost(key.host)
  }

  /** One key: parsing undoes printing exactly when the host holds no colon. */
  lemma KeyRoundTrip(key: InstanceKey)
    ensures ParseKeyLoose(StringCode(key)) == Ok(key) <==> ':' !in key.host
    ensures StringCode(key) != ""
    ensures ',' !in key.host ==> ',' !in StringCode(key)
  {
    ParseFormat(key.port);
    var s := StringCode(key);
    assert s == key.host + [':'] + Format(key.port);
    assert s[|key.host|] == ':';
    if ':' !in key.host {
      CutFirst(key.host, ':', Format(key.port));
    }
    hide ParseInt, Format;
  }

  lemma DefaultPortText()
    ensures Format(3306) == "3306"
  {
    assert Digits(3) == "3";
    assert Digits(33) == "33";
    assert Digits(330) == "330";
    assert Digits(3306) == "3306";
  }

  /** A host alone reads as the host with the default port; otherwise the host ends at the first colon
      and what follows must be a number. */
  lemma KeyExactly(host: string, rest: string)
    requires ':' !in host
    ensures ParseKeyLoose(host) == ParseKeyLoose(host + ":3306") == Ok(InstanceKey(host, 3306))
    ensures ParseKeyLoose(host + ":" + rest) ==
            match ParseInt(rest) case Err => Err case Ok(port) => Ok(InstanceKey(host, port))
  {
    ParseFormat(3306);
    DefaultPortText();
    CutFirst(host, ':', "3306");
    CutFirst(host, ':', rest);
    hide ParseInt, Cut, Format;
    assert host + ":3306" == host + [':'] + "3306" && host + ":" + rest == host + [':'] + rest;
    assert (host + ":3306")[|host|] == ':' && (host + ":" + rest)[|host|] == ':';
  }

  lemma {:induction false} ReadCodes(keys: set<InstanceKey>, order: seq<InstanceKey>)
    requires forall i :: 0 <= i < |order| ==> GoodHost(order[i].host)
    ensures ReadTokens(keys, Codes(order)) == Ok(keys + (set key | key in order))
    decreases |order|
  {
    hide ParseKeyLoose, StringCode;
    if order != [] {
      KeyRoundTrip(order[0]);
      assert Codes(order)[1..] == Codes(order[1..]);
      ReadCodes(keys + {order[0]}, order[1..]);
      assert keys + {order[0]} + (set key | key in order[1..]) == keys + (set key | key in order);
    } else {
      assert keys + (set key | key in order) == keys;
    }
  }

  /** Whatever is read has good hosts. */
  lemma {:induction false} ReadHostsGood(keys: set<InstanceKey>, tokens: seq<string>)
    requires GoodHosts(keys) && forall i :: 0 <= i < |tokens| ==> ',' !in tokens[i]
    ensures ReadTokens(keys, tokens).Ok? ==> GoodHosts(ReadTokens(keys, tokens).value)
    decreases |tokens|
  {
    if tokens != [] {
      var key := ParseKeyLoose(tokens[0]);
      ParsedHostGood(tokens[0]);
      if key.Ok? {
        ReadHostsGood(keys + {key.value}, tokens[1..]);
      }
    }
  }

  lemma ParsedHostGood(token: string)
    requires ',' !in token
    ensures ParseKeyLoose(token).Ok? ==> GoodHost(ParseKeyLoose(token).value.host)
  {
    CutChars(token, ':');
    hide Cut, ParseInt;
  }

  lemma {:induction false} CutChars(s: string, sep: char)
    ensures forall c :: c in Cut(s, sep)[0] ==> c in s
    decreases |s|
  {
    if s != "" && s[0] != sep {
      CutChars(s[1..], sep);
    }
  }

  /** Reading a printed list into a fresh map gives the keys back exactly when no host holds a
      separator, whatever the order of printing. */
  lemma RoundTripIffGoodHosts(keys: set<InstanceKey>, order: seq<InstanceKey>)
    requires Lists(keys, order)
    ensures Read({}, Join(Codes(order), ',')) == Ok(keys) <==> GoodHosts(keys)
  {
    if GoodHosts(keys) {
      GoodRoundTrip(keys, order);
    } else {
      SplitParts(Join(Codes(order), ','), ',');
      ReadHostsGood({}, Split(Join(Codes(order), ','), ','));
    }
  }

  lemma GoodRoundTrip(keys: set<InstanceKey>, order: seq<InstanceKey>)
    requires Lists(keys, order) && GoodHosts(keys)
    ensures Read({}, Join(Codes(order), ',')) == Ok(keys)
  {
    hide StringCode, Split, ReadTokens;
    if order == [] {
      assert keys == {} && Codes(order) == [];
    } else {
      var codes := Codes(order);
      forall i | 0 <= i < |codes|
        ensures ',' !in codes[i] && codes[i] != ""
      {
        KeyRoundTrip(order[i]);
      }
      SplitJoin(codes, ',');
      assert Join(codes, ',') != "";
      ReadCodes({}, order);
      assert {} + (set key | key in order) == keys;
    }
  }
}
