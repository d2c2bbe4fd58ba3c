/** Splitting and joining strings, and decimal integers, as Go's strings and strconv do. */
module Text {

  datatype Result<T> = Ok(value: T) | Err

  // ---- split and join --------------------------------------------------------------

  function Join(tokens: seq<string>, sep: char): string {
    if |tokens| == 0 then ""
    else if |tokens| == 1 then tokens[0]
    else tokens[0] + [sep] + Join(tokens[1..], sep)
  }

  function Split(s: string, sep: char): (r: seq<string>)
    ensures |r| > 0
  {
    if s == "" then [""]
    else
      var r := Split(s[1..], sep);
      if s[0] == sep then [""] + r else [[s[0]] + r[0]] + r[1..]
  }

  /** strings.SplitN with a limit of two. */
  function Cut(s: string, sep: char): (r: seq<string>)
    ensures 1 <= |r| <= 2 && sep !in r[0]
    ensures |r| == 2 <==> sep in s
    ensures |r| == 1 ==> r[0] == s
  {
    if s == "" then [""]
    else if s[0] == sep then ["", s[1..]]
    else
      var r := Cut(s[1..], sep);
      [[s[0]] + r[0]] + r[1..]
  }

  lemma {:induction false} CutFirst(t: string, sep: char, rest: string)
    requires sep !in t
    ensures Cut(t + [sep] + rest, sep) == [t, rest]
    decreases |t|
  {
    var s := t + [sep] + rest;
    if t == "" {
      assert s[1..] == rest;
    } else {
      assert s[1..] == t[1..] + [sep] + rest;
      CutFirst(t[1..], sep, rest);
      assert [t[0]] + t[1..] == t;
    }
  }

  lemma {:induction false} SplitOne(t: string, sep: char)
    requires sep !in t
    ensures Split(t, sep) == [t]
    decreases |t|
  {
    if t != "" {
      SplitOne(t[1..], sep);
      assert [t[0]] + t[1..] == t;
    }
  }

  lemma {:induction false} SplitFirst(t: string, sep: char, rest: string)
    requires sep !in t
    ensures Split(t + [sep] + rest, sep) == [t] + Split(rest, sep)
    decreases |t|
  {
    var s := t + [sep] + rest;
    if t == "" {
      assert s[1..] == rest;
    } else {
      assert s[1..] == t[1..] + [sep] + rest;
      SplitFirst(t[1..], sep, rest);
      assert [t[0]] + t[1..] == t;
    }
  }

  /** Splitting undoes joining. */
  lemma {:induction false} SplitJoin(tokens: seq<string>, sep: char)
    requires |tokens| > 0 && forall i :: 0 <= i < |tokens| ==> sep !in tokens[i]
    ensures Split(Join(tokens, sep), sep) == tokens
    decreases |tokens|
  {
    if |tokens| == 1 {
      SplitOne(tokens[0], sep);
    } else {
      SplitFirst(tokens[0], sep, Join(tokens[1..], sep));
      SplitJoin(tokens[1..], sep);
    }
  }

  lemma JoinFirst(c: char, tokens: seq<string>, sep: char)
    requires |tokens| > 0
    ensures Join([[c] + tokens[0]] + tokens[1..], sep) == [c] + Join(tokens, sep)
  {
    var t := [[c] + tokens[0]] + tokens[1..];
    assert t[1..] == tokens[1..];
    if |tokens| > 1 {
      assert [c] + tokens[0] + [sep] + Join(tokens[1..], sep) == [c] + (tokens[0] + [sep] + Join(tokens[1..], sep));
    }
  }

  /** Joining undoes splitting, of any string. */
  lemma {:induction false} JoinSplit(s: string, sep: char)
    ensures Join(Split(s, sep), sep) == s
    decreases |s|
  {
    if s != "" {
      JoinSplit(s[1..], sep);
      var r := Split(s[1..], sep);
      assert [s[0]] + s[1..] == s;
      if s[0] == sep {
        assert ([""] + r)[1..] == r;
      } else {
        JoinFirst(s[0], r, sep);
      }
    }
  }

  /** No part holds the separator. */
  lemma {:induction false} SplitParts(s: string, sep: char)
    ensures forall i :: 0 <= i < |Split(s, sep)| ==> sep !in Split(s, sep)[i]
    decreases |s|
  {
    if s != "" {
      SplitParts(s[1..], sep);
    }
  }

  /** The parts hold nothing but characters of the whole. */
  lemma {:induction false} SplitChars(s: string, sep: char, i: nat, c: char)
    requires i < |Split(s, sep)| && c in Split(s, sep)[i]
    ensures c in s
    decreases |s|
  {
    if s != "" {
      var r := Split(s[1..], sep);
      if s[0] == sep {
        SplitChars(s[1..], sep, i - 1, c);
      } else if i > 0 || c in r[0] {
        SplitChars(s[1..], sep, i, c);
      }
    }
  }

  // ---- decimal integers ------------------------------------------------------------

  const MIN_INT64 := -0x8000_0000_0000_0000
  const MAX_INT64 := 0x7FFF_FFFF_FFFF_FFFF

  type int64 = x: int | MIN_INT64 <= x <= MAX_INT64

  predicate IsDigit(c: char) { '0' <= c <= '9' }

  predicate AllDigits(s: string) { forall i :: 0 <= i < |s| ==> IsDigit(s[i]) }

  function Digit(n: nat): (c: char)
    requires n < 10
    ensures IsDigit(c)
  {
    (n + '0' as int) as char
  }

  function Digits(n: nat): string {
    if n < 10 then [Digit(n)] else Digits(n / 10) + [Digit(n % 10)]
  }

  function Value(s: string): nat
    requires AllDigits(s)
  {
    if s == "" then 0 else Value(s[..|s| - 1]) * 10 + (s[|s| - 1] as int - '0' as int)
  }

  lemma {:induction false} ValueOfDigits(n: nat)
    ensures Digits(n) != "" && AllDigits(Digits(n)) && Value(Digits(n)) == n
  {
    var s := Digits(n);
    if n >= 10 {
      ValueOfDigits(n / 10);
      assert s[..|s| - 1] == Digits(n / 10);
    } else {
      assert s[..|s| - 1] == "";
    }
  }

  /** The %d verb. */
  function Format(n: int): string {
    if n < 0 then "-" + Digits(-n) else Digits(n)
  }

  function Body(s: string): string {
    if s != "" && (s[0] == '+' || s[0] == '-') then s[1..] else s
  }

  /** strconv.ParseInt in base 10 and strconv.Atoi, with a 64-bit int. */
  function ParseInt(s: string): Result<int64> {
    var body := Body(s);
    if body == "" || !AllDigits(body) then Err
    else
      var v: int := Value(body);
      var n := if s[0] == '-' then -v else v;
      if MIN_INT64 <= n <= MAX_INT64 then Ok(n) else Err
  }

  /** Parsing undoes formatting, and a formatted number is made of digits and a sign. */
  lemma ParseFormat(n: int64)
    ensures ParseInt(Format(n)) == Ok(n)
    ensures forall c :: c in Format(n) ==> IsDigit(c) || c == '-'
  {
    hide Digits, Value;
    var k: int := n;
    if k < 0 {
      ValueOfDigits(-k);
      assert Body(Format(k)) == Digits(-k);
    } else {
      ValueOfDigits(n);
      assert IsDigit(Digits(n)[0]);
      assert Body(Format(n)) == Digits(n);
    }
  }

  /** Of digits alone the value is the number they print: leading zeros do not count, and without them
      printing the value gives the digits back. */
  lemma {:induction false} DigitsOfValue(s: string)
    requires AllDigits(s) && s != ""
    ensures s[0] == '0' && |s| > 1 ==> AllDigits(s[1..]) && Value(s) == Value(s[1..])
    ensures s[0] != '0' || |s| == 1 ==> Digits(Value(s)) == s
    ensures s[0] != '0' ==> Value(s) > 0
    decreases |s|
  {
    var n := |s| - 1;
    var d := s[n] as int - '0' as int;
    assert IsDigit(s[n]) && 0 <= d < 10;
    if n == 0 {
      assert s[..0] == "";
      assert [Digit(d)] == s;
    } else {
      DigitsOfValue(s[..n]);
      assert s[..n][0] == s[0];
      var v := Value(s[..n]);
      assert Value(s) == v * 10 + d;
      if s[0] == '0' {
        ValueTail(s);
      } else {
        assert (v * 10 + d) / 10 == v && (v * 10 + d) % 10 == d;
        assert s == s[..n] + [Digit(d)];
      }
    }
  }

  lemma {:induction false} ValueTail(s: string)
    requires AllDigits(s) && |s| > 1 && s[0] == '0'
    ensures AllDigits(s[1..]) && Value(s) == Value(s[1..])
    decreases |s|
  {
    var n := |s| - 1;
    assert s[1..][..n - 1] == s[..n][1..] && s[1..][n - 1] == s[n];
    if n > 1 {
      ValueTail(s[..n]);
    } else {
      assert s[..1] == "0" && s[..1][..0] == "" && s[1..][..0] == "";
    }
  }

  /** A number parses exactly when it is an optional sign and at least one digit, within 64 bits; the
      sign decides its sign. */
  lemma ParseIntExactly(s: string)
    ensures var body := if s != "" && (s[0] == '+' || s[0] == '-') then s[1..] else s;
            && (ParseInt(s).Ok? ==> body != "" && forall i :: 0 <= i < |body| ==> '0' <= body[i] <= '9')
            && (body != "" && (forall i :: 0 <= i < |body| ==> '0' <= body[i] <= '9') ==>
                  var n: int := if s[0] == '-' then -(Value(body) as int) else Value(body);
                  if -0x8000_0000_0000_0000 <= n <= 0x7FFF_FFFF_FFFF_FFFF then ParseInt(s) == Ok(n) else ParseInt(s).Err?)
  {
  }
}
