/** Decoded JSON values, as json.loads hands them to the client, and the
    text Python's str() gives them when the client formats them into a
    header. */
module JsonValues {

  datatype Option<+T> = None | Some(value: T)

  /** A decoded JSON value. An object keeps its members in document order,
      one member per key, as the decoder leaves them; numbers are integers. */
  datatype Json =
    | JNull
    | JBool(b: bool)
    | JNum(n: int)
    | JStr(s: string)
    | JArr(items: seq<Json>)
    | JObj(members: seq<(string, Json)>)

  /** Keyword arguments of an endpoint call: names to JSON-serialisable values. */
  type Params = map<string, Json>

  /** The value stored under `key` in an object's members (`d[key]`), or
      None when `key in d` is false. */
  function Get(members: seq<(string, Json)>, key: string): (r: Option<Json>)
    ensures r.Some? ==> (key, r.value) in members
  {
    if members == [] then None
    else if members[0].0 == key then Some(members[0].1)
    else Get(members[1..], key)
  }

  /** Get finds a member exactly when one carries the key, and then the
      first such member. */
  lemma {:induction false} GetFindsFirst(members: seq<(string, Json)>, key: string)
    ensures Get(members, key).None? <==> forall i :: 0 <= i < |members| ==> members[i].0 != key
    ensures Get(members, key).Some? ==>
      exists i :: 0 <= i < |members| && members[i] == (key, Get(members, key).value)
                  && forall j :: 0 <= j < i ==> members[j].0 != key
  {
    if members != [] && members[0].0 != key {
      GetFindsFirst(members[1..], key);
      assert forall i :: 1 <= i < |members| ==> members[i] == members[1..][i - 1];
      if Get(members, key).Some? {
        var i :| 0 <= i < |members[1..]| && members[1..][i] == (key, Get(members, key).value)
                 && forall j :: 0 <= j < i ==> members[1..][j].0 != key;
        assert members[i + 1] == (key, Get(members, key).value);
      }
    }
  }

  /** The keys of an object in order: what iterating over a dict yields. */
  function Keys(members: seq<(string, Json)>): (r: seq<Json>)
    ensures |r| == |members|
    ensures forall i :: 0 <= i < |r| ==> r[i] == JStr(members[i].0)
  {
    seq(|members|, i requires 0 <= i < |members| => JStr(members[i].0))
  }

  /** Every key present in an object is among its keys, and nothing else is. */
  lemma KeysAreMemberKeys(members: seq<(string, Json)>, key: string)
    ensures JStr(key) in Keys(members) <==> Get(members, key).Some?
  {
    GetFindsFirst(members, key);
    if Get(members, key).None? {
      forall i | 0 <= i < |members| ensures Keys(members)[i] != JStr(key) {
      }
    } else {
      var i :| 0 <= i < |members| && members[i] == (key, Get(members, key).value)
               && forall j :: 0 <= j < i ==> members[j].0 != key;
      assert Keys(members)[i] == JStr(key);
    }
  }

  /** Decimal text of an integer, as str() of a Python int. */
  function Decimal(n: int): (r: string)
    ensures |r| > 0
    decreases if n < 0 then 1 - n else n
  {
    if n < 0 then "-" + Decimal(-n)
    else if n < 10 then [(n + '0' as int) as char]
    else Decimal(n / 10) + [((n % 10) + '0' as int) as char]
  }

  /** The integer a decimal text denotes: the reading int() gives it. */
  function DigitsValue(s: string): int
  {
    if s == [] then 0 else 10 * DigitsValue(s[..|s| - 1]) + (s[|s| - 1] as int - '0' as int)
  }

  function ParseInt(s: string): int
  {
    if s != [] && s[0] == '-' then -DigitsValue(s[1..]) else DigitsValue(s)
  }

  predicate IsDecimalDigits(s: string)
  {
    s != [] && forall i :: 0 <= i < |s| ==> '0' <= s[i] <= '9'
  }

  /** The decimal text of n is a string of digits, after a '-' for a
      negative n, and reads back as n. */
  lemma {:induction false} DecimalRoundTrip(n: int)
    ensures ParseInt(Decimal(n)) == n
    ensures n >= 0 ==> IsDecimalDigits(Decimal(n))
    ensures n < 0 ==> Decimal(n)[0] == '-' && IsDecimalDigits(Decimal(n)[1..])
    ensures n > 0 ==> Decimal(n)[0] != '0'
    ensures n < 0 ==> Decimal(n)[1] != '0'
    decreases if n < 0 then 1 - n else n
  {
    if n < 0 {
      DecimalRoundTrip(-n);
      assert Decimal(n) == "-" + Decimal(-n);
      assert Decimal(n)[1..] == Decimal(-n);
    } else if n >= 10 {
      DecimalRoundTrip(n / 10);
      var s := Decimal(n);
      assert s == Decimal(n / 10) + [((n % 10) + '0' as int) as char];
      assert s[..|s| - 1] == Decimal(n / 10);
      assert DigitsValue(s) == 10 * (n / 10) + n % 10;
      assert s[0] == Decimal(n / 10)[0];
      assert '0' <= s[0] <= '9';
      assert ParseInt(s) == DigitsValue(s);
    }
  }

  /** Joins strings with a separator, as sep.join(parts). */
  function Join(parts: seq<string>, sep: string): string
  {
    if parts == [] then ""
    else if |parts| == 1 then parts[0]
    else parts[0] + sep + Join(parts[1..], sep)
  }

  /** str(v): a string is its own text, every other value its repr. */
  function Str(v: Json): (r: string)
    ensures v.JStr? ==> r == v.s
    ensures v.JNull? ==> r == "None"
    ensures v.JNum? ==> ParseInt(r) == v.n && (v.n >= 0 ==> IsDecimalDigits(r))
    ensures v.JNum? && v.n >= 0 && |r| > 1 ==> r[0] != '0'
  {
    if v.JStr? then v.s
    else if v.JNum? then DecimalRoundTrip(v.n); Repr(v)
    else Repr(v)
  }

  /** repr(v) for the values json.loads produces (string escapes not modelled). */
  function Repr(v: Json): string
    decreases v
  {
    match v
    case JNull => "None"
    case JBool(b) => if b then "True" else "False"
    case JNum(n) => Decimal(n)
    case JStr(s) => "'" + s + "'"
    case JArr(items) =>
      "[" + Join(seq(|items|, i requires 0 <= i < |items| => Repr(items[i])), ", ") + "]"
    case JObj(members) =>
      "{" + Join(seq(|members|, i requires 0 <= i < |members| =>
                     "'" + members[i].0 + "': " + Repr(members[i].1)), ", ") + "}"
  }
}
