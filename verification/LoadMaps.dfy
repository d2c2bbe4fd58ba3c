/** Thresholds of status variables, printed as key=value tokens in sorted order and parsed
    back. */
module LoadMaps {
  import opened Text

  type LoadMap = map<string, int64>

  function Token(key: string, val: int64): string {
    key + "=" + Format(val)
  }

  // ---- parsing ---------------------------------------------------------------------

  /** One condition: the key and the number, or an error. */
  function Condition(s: string): Result<(string, int64)> {
    var tokens := Split(s, '=');
    if |tokens| != 2 || tokens[0] == "" then Err
    else
      match ParseInt(tokens[1])
      case Err => Err
      case Ok(n) => Ok((tokens[0], n))
  }

  /** The conditions one after the other, a later one over an earlier one. */
  function Conditions(tokens: seq<string>): Result<LoadMap> {
    if tokens == [] then Ok(map[])
    else
      match Conditions(tokens[..|tokens| - 1])
      case Err => Err
      case Ok(m) =>
        match Condition(tokens[|tokens| - 1])
        case Err => Err
        case Ok(kv) => Ok(m[kv.0 := kv.1])
  }

  function Parse(s: string): Result<LoadMap> {
    if s == "" then Ok(map[]) else Conditions(Split(s, ','))
  }

  /** What was parsed before the first bad condition; the source returns it with the error. */
  function Parsed(tokens: seq<string>): LoadMap {
    if tokens == [] then map[]
    else
      var m := Parsed(tokens[..|tokens| - 1]);
      if Conditions(tokens).Err? then m else m[Condition(tokens[|tokens| - 1]).value.0 := Condition(tokens[|tokens| - 1]).value.1]
  }

  lemma {:induction false} ParsedAll(tokens: seq<string>)
    requires Conditions(tokens).Ok?
    ensures Parsed(tokens) == Conditions(tokens).value
    decreases |tokens|
  {
    hide Condition;
    if tokens != [] {
      ParsedAll(tokens[..|tokens| - 1]);
    }
  }

  lemma {:induction false} ParsedStays(tokens: seq<string>, i: nat)
    requires i <= |tokens| && Conditions(tokens[..i]).Err?
    ensures Parsed(tokens) == Parsed(tokens[..i])
    decreases |tokens|
  {
    hide Condition;
    ErrorStays(tokens, i);
    if i == |tokens| {
      assert tokens[..i] == tokens;
    } else {
      assert tokens[..|tokens| - 1][..i] == tokens[..i];
      ParsedStays(tokens[..|tokens| - 1], i);
    }
  }

  lemma ParsedStops(tokens: seq<string>, i: nat, m: LoadMap)
    requires i < |tokens| && Conditions(tokens[..i]) == Ok(m) && Condition(tokens[i]).Err?
    ensures Parsed(tokens) == m
  {
    hide Condition;
    assert tokens[..i + 1][..i] == tokens[..i];
    ParsedAll(tokens[..i]);
    ParsedStays(tokens, i + 1);
  }

  /** The map, with an error or without; with one, it is what came before the bad condition. */
  method ParseLoadMap(loadList: string) returns (result: LoadMap, ok: bool)
    ensures ok == Parse(loadList).Ok?
    ensures ok ==> Parse(loadList) == Ok(result)
    ensures !ok ==> result == Parsed(Split(loadList, ','))
  {
    hide Split, ParseInt;
    result, ok := map[], true;
    if loadList == "" {
      return;
    }
    var conditions := Split(loadList, ',');
    for i := 0 to |conditions|
      invariant Conditions(conditions[..i]) == Ok(result)
    {
      var tokens := Split(conditions[i], '=');
      ConditionsNext(conditions, i, result);
      if |tokens| != 2 {
        ParsedStops(conditions, i, result);
        return result, false;
      }
      if tokens[0] == "" {
        ParsedStops(conditions, i, result);
        return result, false;
      }
      var n := ParseInt(tokens[1]);
      if n.Err? {
        ParsedStops(conditions, i, result);
        return result, false;
      }
      result := result[tokens[0] := n.value];
    }
    assert conditions[..|conditions|] == conditions;
  }

  lemma ConditionsNext(tokens: seq<string>, i: nat, m: LoadMap)
    requires i < |tokens| && Conditions(tokens[..i]) == Ok(m)
    ensures match Condition(tokens[i])
            case Err => Conditions(tokens).Err?
            case Ok(kv) => Conditions(tokens[..i + 1]) == Ok(m[kv.0 := kv.1])
  {
    hide Condition;
    assert tokens[..i + 1][..i] == tokens[..i];
    if Condition(tokens[i]).Err? {
      ErrorStays(tokens, i + 1);
    }
  }

  /** One bad condition spoils the list. */
  lemma {:induction false} ErrorStays(tokens: seq<string>, i: nat)
    requires i <= |tokens| && Conditions(tokens[..i]).Err?
    ensures Conditions(tokens).Err?
    decreases |tokens|
  {
    hide Condition;
    if i == |tokens| {
      assert tokens[..i] == tokens;
    } else {
      assert tokens[..|tokens| - 1][..i] == tokens[..i];
      ErrorStays(tokens[..|tokens| - 1], i);
    }
  }

  // ---- what parses -----------------------------------------------------------------

  /** The condition is this key, one '=' and this number. */
  ghost predicate Reads(s: string, key: string, n: int64) {
    exists digits :: s == key + "=" + digits && key != "" && '=' !in key && '=' !in digits && ParseInt(digits) == Ok(n)
  }

  /** A condition parses exactly when it is a non-empty key, exactly one '=' and a 64-bit number. */
  lemma ConditionExactly(s: string, key: string, n: int64)
    ensures Condition(s) == Ok((key, n)) <==> Reads(s, key, n)
  {
    hide ParseInt;
    if Condition(s) == Ok((key, n)) {
      var t := Split(s, '=');
      JoinSplit(s, '=');
      SplitParts(s, '=');
      assert t[1..] == [t[1]] && s == t[0] + ['='] + t[1];
      assert s == key + "=" + t[1];
    }
    if digits :| s == key + "=" + digits && key != "" && '=' !in key && '=' !in digits && ParseInt(digits) == Ok(n) {
      SplitFirst(key, '=', digits);
      SplitOne(digits, '=');
      assert s == key + ['='] + digits;
      hide Split;
    }
  }

  /** Condition i gives this key this number, and no later condition gives the key again. */
  ghost predicate LastSays(tokens: seq<string>, i: nat, key: string, n: int64) {
    && i < |tokens| && Condition(tokens[i]) == Ok((key, n))
    && forall j :: i < j < |tokens| ==> Condition(tokens[j]).Ok? && Condition(tokens[j]).value.0 != key
  }

  lemma LastSaysPrefix(tokens: seq<string>, i: nat, key: string, n: int64)
    requires tokens != [] && Condition(tokens[|tokens| - 1]).Ok?
    ensures var last := |tokens| - 1;
            var kv := Condition(tokens[last]).value;
            LastSays(tokens, i, key, n) <==>
              if kv.0 == key then i == last && kv.1 == n else LastSays(tokens[..last], i, key, n)
  {
    hide Condition;
    var pre := tokens[..|tokens| - 1];
    assert forall j :: 0 <= j < |pre| ==> pre[j] == tokens[j];
  }

  /** The list parses exactly when every condition does, and a key reads as its last condition says. */
  lemma {:induction false} ConditionsExactly(tokens: seq<string>, key: string, n: int64)
    ensures Conditions(tokens).Ok? <==> forall i :: 0 <= i < |tokens| ==> Condition(tokens[i]).Ok?
    ensures Conditions(tokens).Ok? ==>
            ((key in Conditions(tokens).value && Conditions(tokens).value[key] == n) <==>
             exists i :: LastSays(tokens, i, key, n))
    decreases |tokens|
  {
    hide Condition, LastSays;
    if tokens == [] {
      NothingLast(key, n);
    } else {
      var last := |tokens| - 1;
      var pre := tokens[..last];
      ConditionsExactly(pre, key, n);
      assert forall i :: 0 <= i < last ==> pre[i] == tokens[i];
      if Conditions(tokens).Ok? {
        LastSaysPrefix(tokens, last, key, n);
        if i :| LastSays(tokens, i, key, n) {
          LastSaysPrefix(tokens, i, key, n);
        }
        if i :| LastSays(pre, i, key, n) {
          LastSaysPrefix(tokens, i, key, n);
        }
      }
    }
  }

  lemma NothingLast(key: string, n: int64)
    ensures forall i :: !LastSays([], i, key, n)
  {
  }

  // ---- printing --------------------------------------------------------------------

  /** Dictionary order of strings. */
  predicate LessOrEqual(s: string, t: string) {
    s == "" || (t != "" && (s[0] < t[0] || (s[0] == t[0] && LessOrEqual(s[1..], t[1..]))))
  }

  /** The strings agree before k, and at k the first is smaller. */
  ghost predicate SmallerAt(s: string, t: string, k: nat) {
    k < |s| && k < |t| && s[..k] == t[..k] && s[k] < t[k]
  }

  lemma SmallerTail(s: string, t: string, k: nat)
    requires s != "" && t != "" && s[0] == t[0]
    ensures SmallerAt(s, t, k + 1) <==> SmallerAt(s[1..], t[1..], k)
  {
    if k < |s| - 1 && k < |t| - 1 {
      assert s[..k + 1] == [s[0]] + s[1..][..k] && t[..k + 1] == [t[0]] + t[1..][..k];
      assert s[1..][..k] == s[..k + 1][1..] && t[1..][..k] == t[..k + 1][1..];
    }
  }

  lemma SmallerHead(s: string, t: string, k: nat)
    requires SmallerAt(s, t, k)
    ensures s != "" && t != "" && s[0] <= t[0] && (s[0] < t[0] <==> k == 0)
  {
    if k > 0 {
      assert s[..k][0] == s[0] && t[..k][0] == t[0];
    }
  }

  /** The order is that of the first difference, a prefix coming first. */
  lemma {:induction false} OrderMeans(s: string, t: string)
    ensures LessOrEqual(s, t) <==> s <= t || exists k: nat :: SmallerAt(s, t, k)
    decreases |s|
  {
    hide SmallerAt;
    if s != "" && t != "" {
      if s[0] == t[0] {
        OrderMeans(s[1..], t[1..]);
        assert s == [s[0]] + s[1..] && t == [t[0]] + t[1..];
        if k: nat :| SmallerAt(s[1..], t[1..], k) {
          SmallerTail(s, t, k);
        }
        if k: nat :| SmallerAt(s, t, k) {
          SmallerHead(s, t, k);
          SmallerTail(s, t, k - 1);
        }
      } else {
        SmallerFirst(s, t);
        if k: nat :| SmallerAt(s, t, k) {
          SmallerHead(s, t, k);
        }
      }
    } else if k: nat :| SmallerAt(s, t, k) {
      SmallerHead(s, t, k);
    }
  }

  lemma SmallerFirst(s: string, t: string)
    requires s != "" && t != ""
    ensures SmallerAt(s, t, 0) <==> s[0] < t[0]
  {
    assert s[..0] == t[..0];
  }

  lemma {:induction false} OrderTotal(s: string, t: string)
    ensures LessOrEqual(s, t) || LessOrEqual(t, s)
    ensures LessOrEqual(s, t) && LessOrEqual(t, s) ==> s == t
    decreases |s|
  {
    if s != "" && t != "" && s[0] == t[0] {
      OrderTotal(s[1..], t[1..]);
      assert s == [s[0]] + s[1..] && t == [t[0]] + t[1..];
    }
  }

  lemma {:induction false} OrderTransitive(s: string, t: string, u: string)
    requires LessOrEqual(s, t) && LessOrEqual(t, u)
    ensures LessOrEqual(s, u)
    decreases |s|
  {
    if s != "" && s[0] == t[0] && t[0] == u[0] {
      OrderTransitive(s[1..], t[1..], u[1..]);
    }
  }

  ghost predicate Sorted(tokens: seq<string>) {
    forall i, j :: 0 <= i < j < |tokens| ==> LessOrEqual(tokens[i], tokens[j])
  }

  lemma SortedFirst(tokens: seq<string>, t: string)
    requires Sorted(tokens) && t in tokens
    ensures LessOrEqual(tokens[0], t)
  {
    OrderTotal(t, t);
    hide LessOrEqual;
  }

  lemma SortedTail(tokens: seq<string>)
    requires Sorted(tokens) && tokens != []
    ensures Sorted(tokens[1..])
  {
    hide LessOrEqual;
  }

  /** Sorting leaves no choice: two sorted lists of the same tokens are equal. */
  lemma {:induction false} SortedUnique(a: seq<string>, b: seq<string>)
    requires Sorted(a) && Sorted(b) && multiset(a) == multiset(b)
    ensures a == b
    decreases |a|
  {
    hide LessOrEqual, Sorted;
    assert |a| == |multiset(a)| == |b|;
    if a != [] {
      assert a[0] in multiset(b) && b[0] in multiset(a);
      SortedFirst(a, b[0]);
      SortedFirst(b, a[0]);
      OrderTotal(a[0], b[0]);
      assert a == [a[0]] + a[1..] && b == [b[0]] + b[1..];
      assert multiset(a[1..]) == multiset(a) - multiset{a[0]};
      assert multiset(b[1..]) == multiset(b) - multiset{b[0]};
      SortedTail(a);
      SortedTail(b);
      SortedUnique(a[1..], b[1..]);
    }
  }

  /** sort.Strings, by insertion. */
  method SortStrings(tokens: seq<string>) returns (r: seq<string>)
    ensures Sorted(r) && multiset(r) == multiset(tokens)
  {
    r := [];
    for i := 0 to |tokens|
      invariant Sorted(r) && multiset(r) == multiset(tokens[..i])
    {
      assert tokens[..i + 1] == tokens[..i] + [tokens[i]];
      r := Insert(r, tokens[i]);
    }
    assert tokens[..|tokens|] == tokens;
  }

  method Insert(s: seq<string>, t: string) returns (r: seq<string>)
    requires Sorted(s)
    ensures Sorted(r) && multiset(r) == multiset(s) + multiset{t}
  {
    hide LessOrEqual;
    var k: nat := |s|;
    while k > 0 && !LessOrEqual(s[k - 1], t)
      invariant k <= |s|
      invariant forall i :: k <= i < |s| ==> LessOrEqual(t, s[i])
    {
      OrderTotal(s[k - 1], t);
      k := k - 1;
    }
    r := s[..k] + [t] + s[k..];
    assert s == s[..k] + s[k..];
    forall i | 0 <= i < k
      ensures LessOrEqual(s[i], t)
    {
      if i < k - 1 {
        OrderTransitive(s[i], s[k - 1], t);
      }
    }
  }

  // ---- which tokens are printed ----------------------------------------------------

  ghost predicate IsToken(m: LoadMap, keys: set<string>, t: string) {
    exists k :: k in keys && k in m && t == Token(k, m[k])
  }

  /** Each token of the given keys once, and nothing else. */
  ghost predicate PrintsOnce(m: LoadMap, keys: set<string>, tokens: seq<string>) {
    forall t {:trigger multiset(tokens)[t]} :: multiset(tokens)[t] == if IsToken(m, keys, t) then 1 else 0
  }

  /** The last '=' ends the key. */
  lemma KeyNotShorter(k1: string, v1: int64, k2: string, v2: int64)
    requires Token(k1, v1) == Token(k2, v2)
    ensures |k1| >= |k2|
  {
    ParseFormat(v1);
    var s := Token(k1, v1);
    assert s == k1 + "=" + Format(v1) && Token(k2, v2)[|k2|] == '=';
  }

  lemma TokenInjective(k1: string, v1: int64, k2: string, v2: int64)
    requires Token(k1, v1) == Token(k2, v2)
    ensures k1 == k2
  {
    KeyNotShorter(k1, v1, k2, v2);
    KeyNotShorter(k2, v2, k1, v1);
    assert Token(k1, v1)[..|k1|] == k1 && Token(k2, v2)[..|k2|] == k2;
  }

  lemma PrintOne(m: LoadMap, keys: set<string>, tokens: seq<string>, key: string)
    requires PrintsOnce(m, keys, tokens) && key in m && key !in keys
    ensures PrintsOnce(m, keys + {key}, tokens + [Token(key, m[key])])
  {
    hide Token;
    var tokens' := tokens + [Token(key, m[key])];
    forall t {:trigger multiset(tokens')[t]}
      ensures multiset(tokens')[t] == if IsToken(m, keys + {key}, t) then 1 else 0
    {
      assert multiset(tokens')[t] == multiset(tokens)[t] + if t == Token(key, m[key]) then 1 else 0;
      TokenOfOne(m, keys, key, t);
    }
  }

  lemma TokenOfOne(m: LoadMap, keys: set<string>, key: string, t: string)
    requires key in m && key !in keys
    ensures IsToken(m, keys + {key}, t) <==> IsToken(m, keys, t) || t == Token(key, m[key])
    ensures !(IsToken(m, keys, t) && t == Token(key, m[key]))
  {
    hide Token;
    if IsToken(m, keys, t) {
      var k :| k in keys && k in m && t == Token(k, m[k]);
      assert k in keys + {key};
      if t == Token(key, m[key]) {
        TokenInjective(k, m[k], key, m[key]);
      }
    }
    if t == Token(key, m[key]) {
      assert key in keys + {key};
    }
  }

  /** LoadMap.String: the sorted tokens of the map, joined by commas. Parsing the result gives
      the map back exactly when the keys allow it. */
  method String(m: LoadMap) returns (s: string)
    ensures exists tokens :: PrintsOnce(m, m.Keys, tokens) && Sorted(tokens) && s == Join(tokens, ',')
    ensures Parse(s) == Ok(m) <==> GoodKeys(m)
  {
    hide Token, LessOrEqual, Parse, GoodKeys, Join;
    var list: seq<string> := [];
    var rest := m.Keys;
    while rest != {}
      invariant rest <= m.Keys && PrintsOnce(m, m.Keys - rest, list)
      decreases |rest|
    {
      var key :| key in rest;
      PrintOne(m, m.Keys - rest, list, key);
      assert m.Keys - rest + {key} == m.Keys - (rest - {key});
      list := list + [Token(key, m[key])];
      rest := rest - {key};
    }
    assert m.Keys - rest == m.Keys;
    var sorted := SortStrings(list);
    s := Join(sorted, ',');
    assert PrintsOnce(m, m.Keys, sorted);
    RoundTripIffGoodKeys(m, sorted);
  }

  /** The printed form does not depend on the iteration order. */
  lemma PrintedIsCanonical(m: LoadMap, a: seq<string>, b: seq<string>)
    requires PrintsOnce(m, m.Keys, a) && Sorted(a) && PrintsOnce(m, m.Keys, b) && Sorted(b)
    ensures a == b
  {
    hide Sorted, IsToken;
    forall t
      ensures multiset(a)[t] == multiset(b)[t]
    {
    }
    SortedUnique(a, b);
  }

  // ---- the round trip --------------------------------------------------------------

  predicate GoodKey(k: string) {
    k != "" && ',' !in k && '=' !in k
  }

  predicate GoodKeys(m: LoadMap) {
    forall k :: k in m ==> GoodKey(k)
  }

  lemma ConditionOfToken(k: string, v: int64)
    requires GoodKey(k)
    ensures Condition(Token(k, v)) == Ok((k, v)) && ',' !in Token(k, v)
  {
    ParseFormat(v);
    assert Token(k, v) == k + ['='] + Format(v);
    SplitFirst(k, '=', Format(v));
    SplitOne(Format(v), '=');
    hide Split, ParseInt, Format;
  }

  /** Parsing tokens of a map gives the part of the map they came from. */
  lemma {:induction false} ConditionsOfTokens(m: LoadMap, tokens: seq<string>)
    requires GoodKeys(m) && forall i :: 0 <= i < |tokens| ==> IsToken(m, m.Keys, tokens[i])
    ensures Conditions(tokens).Ok?
    ensures forall k :: k in Conditions(tokens).value ==> k in m && Conditions(tokens).value[k] == m[k]
    ensures forall k :: k in m && Token(k, m[k]) in tokens ==> k in Conditions(tokens).value
    decreases |tokens|
  {
    hide Token, Condition;
    if tokens != [] {
      var n := |tokens| - 1;
      ConditionsOfTokens(m, tokens[..n]);
      assert IsToken(m, m.Keys, tokens[n]);
      var key :| key in m.Keys && tokens[n] == Token(key, m[key]);
      ConditionOfToken(key, m[key]);
      forall k | k in m && Token(k, m[k]) in tokens
        ensures k in Conditions(tokens).value
      {
        if Token(k, m[k]) == tokens[n] {
          TokenInjective(k, m[k], key, m[key]);
        } else {
          assert Token(k, m[k]) in tokens[..n];
        }
      }
    }
  }

  /** Whatever is parsed has good keys. */
  lemma {:induction false} ParsedKeysGood(tokens: seq<string>)
    requires forall i :: 0 <= i < |tokens| ==> ',' !in tokens[i]
    ensures Conditions(tokens).Ok? ==> GoodKeys(Conditions(tokens).value)
    decreases |tokens|
  {
    if tokens != [] {
      var n := |tokens| - 1;
      ParsedKeysGood(tokens[..n]);
      ParsedKeyGood(tokens[n]);
      hide Condition, GoodKey;
    }
  }

  lemma ParsedKeyGood(token: string)
    requires ',' !in token
    ensures Condition(token).Ok? ==> GoodKey(Condition(token).value.0)
  {
    SplitParts(token, '=');
    if ',' in Split(token, '=')[0] {
      SplitChars(token, '=', 0, ',');
    }
  }

  lemma TokensGood(m: LoadMap, tokens: seq<string>)
    requires PrintsOnce(m, m.Keys, tokens)
    ensures forall i :: 0 <= i < |tokens| ==> IsToken(m, m.Keys, tokens[i])
    ensures forall k :: k in m ==> Token(k, m[k]) in tokens
  {
    hide Token;
    forall i | 0 <= i < |tokens|
      ensures IsToken(m, m.Keys, tokens[i])
    {
      assert multiset(tokens)[tokens[i]] > 0;
    }
    forall k | k in m
      ensures Token(k, m[k]) in tokens
    {
      assert IsToken(m, m.Keys, Token(k, m[k]));
      assert multiset(tokens)[Token(k, m[k])] == 1;
    }
  }

  /** Parsing gives the printed map back exactly when its keys are not empty and hold neither
      of the two separators. */
  lemma RoundTripIffGoodKeys(m: LoadMap, tokens: seq<string>)
    requires PrintsOnce(m, m.Keys, tokens)
    ensures Parse(Join(tokens, ',')) == Ok(m) <==> GoodKeys(m)
  {
    TokensGood(m, tokens);
    if GoodKeys(m) {
      GoodRoundTrip(m, tokens);
    } else {
      SplitParts(Join(tokens, ','), ',');
      ParsedKeysGood(Split(Join(tokens, ','), ','));
    }
  }

  lemma TokenShape(m: LoadMap, t: string)
    requires GoodKeys(m) && IsToken(m, m.Keys, t)
    ensures ',' !in t && t != ""
  {
    var k :| k in m.Keys && t == Token(k, m[k]);
    ConditionOfToken(k, m[k]);
    assert '=' in Token(k, m[k]);
    hide Condition, Split, ParseInt;
  }

  lemma ListsMap(m: LoadMap, r: LoadMap)
    requires forall k :: k in r ==> k in m && r[k] == m[k]
    requires forall k :: k in m ==> k in r
    ensures r == m
  {
  }

  lemma GoodRoundTrip(m: LoadMap, tokens: seq<string>)
    requires GoodKeys(m) && forall i :: 0 <= i < |tokens| ==> IsToken(m, m.Keys, tokens[i])
    requires forall k :: k in m ==> Token(k, m[k]) in tokens
    ensures Parse(Join(tokens, ',')) == Ok(m)
  {
    hide GoodKeys, IsToken, Token, Split, Conditions;
    if tokens == [] {
      assert m == map[];
    } else {
      forall i | 0 <= i < |tokens|
        ensures ',' !in tokens[i] && tokens[i] != ""
      {
        TokenShape(m, tokens[i]);
      }
      SplitJoin(tokens, ',');
      assert Join(tokens, ',') != "";
      ConditionsOfTokens(m, tokens);
      ListsMap(m, Conditions(tokens).value);
    }
  }
}
