/**
 * PHP values and the handful of built-ins the library leans on:
 * ordered arrays (`$a[$k]`, `$a[$k] = $v`, `unset($a[$k])`), `empty`,
 * `isset`, string interpolation, `explode`/`implode`, the PHP 8
 * comparison `$x < 10`, `sprintf` with `%s` and `urlencode`.
 */
module Php {
  import opened Wrappers

  /** A PHP value. Arrays keep their insertion order; integer keys are
      written as their decimal strings. */
  datatype Value = Null | Bool(b: bool) | Int(i: int) | Str(s: string) | Arr(entries: PhpArray)
  datatype Entry = Entry(key: string, val: Value)
  type PhpArray = seq<Entry>

  /** `array_keys($a)`. */
  function Keys(a: PhpArray): seq<string>
  {
    if |a| == 0 then [] else [a[0].key] + Keys(a[1..])
  }

  /** The value stored under `k`, if the key is present. */
  function Lookup(a: PhpArray, k: string): (r: Option<Value>)
    ensures r.Some? <==> k in Keys(a)
  {
    if |a| == 0 then None
    else if a[0].key == k then Some(a[0].val)
    else Lookup(a[1..], k)
  }

  /** `$a[$k] ?? null`: reading a missing key gives null. */
  function Get(a: PhpArray, k: string): Value
  {
    match Lookup(a, k)
    case Some(v) => v
    case None => Null
  }

  /** `$v[$k]` for a value that may not be an array; anything but an
      array reads as null. */
  function At(v: Value, k: string): Value
  {
    if v.Arr? then Get(v.entries, k) else Null
  }

  /** `isset($a[$k])`. */
  predicate IsSet(a: PhpArray, k: string)
  {
    Get(a, k) != Null
  }

  /** `$a[$k] = $v`: an existing key keeps its place, a new key goes last. */
  function Set(a: PhpArray, k: string, v: Value): (r: PhpArray)
    ensures Lookup(r, k) == Some(v)
    ensures forall j :: j != k ==> Lookup(r, j) == Lookup(a, j)
    ensures Keys(r) == if k in Keys(a) then Keys(a) else Keys(a) + [k]
  {
    if |a| == 0 then [Entry(k, v)]
    else if a[0].key == k then [Entry(k, v)] + a[1..]
    else [a[0]] + Set(a[1..], k, v)
  }

  /** `unset($a[$k])`: the key disappears, every other key keeps its value. */
  function Unset(a: PhpArray, k: string): (r: PhpArray)
    ensures Lookup(r, k) == None
    ensures forall j :: j != k ==> Lookup(r, j) == Lookup(a, j)
    ensures |r| <= |a|
  {
    if |a| == 0 then []
    else if a[0].key == k then Unset(a[1..], k)
    else [a[0]] + Unset(a[1..], k)
  }

  /** PHP's `empty($v)`. */
  predicate Empty(v: Value)
  {
    match v
    case Null => true
    case Bool(b) => !b
    case Int(i) => i == 0
    case Str(s) => s == "" || s == "0"
    case Arr(a) => |a| == 0
  }

  /** PHP truthiness, as in `if ($v)`. */
  predicate Truthy(v: Value)
  {
    !Empty(v)
  }

  predicate IsDigit(c: char)
  {
    '0' <= c <= '9'
  }

  /** A non-empty run of decimal digits, the strings PHP reads as integers. */
  predicate IsDigits(s: string)
  {
    |s| > 0 && forall i :: 0 <= i < |s| ==> IsDigit(s[i])
  }

  /** The integer a string of decimal digits denotes. */
  function DigitsValue(s: string): nat
    requires forall i :: 0 <= i < |s| ==> IsDigit(s[i])
  {
    if |s| == 0 then 0
    else
      assert IsDigit(s[|s| - 1]);
      DigitsValue(s[..|s| - 1]) * 10 + (s[|s| - 1] as int - '0' as int)
  }

  function DigitChar(d: int): (c: char)
    requires 0 <= d < 10
    ensures IsDigit(c) && c as int - '0' as int == d
  {
    (d + '0' as int) as char
  }

  /** The decimal form PHP prints for a natural number. */
  function NatToString(n: nat): (s: string)
    ensures IsDigits(s)
  {
    if n < 10 then [DigitChar(n)] else NatToString(n / 10) + [DigitChar(n % 10)]
  }

  /** Reading back the decimal form gives the number again. */
  lemma {:induction false} DigitsValueOfNatToString(n: nat)
    ensures DigitsValue(NatToString(n)) == n
  {
    var s := NatToString(n);
    if n >= 10 {
      DigitsValueOfNatToString(n / 10);
      assert s[..|s| - 1] == NatToString(n / 10);
    }
  }

  function IntToString(i: int): string
  {
    if i < 0 then "-" + NatToString(-i) else NatToString(i)
  }

  /** What `"$v"` interpolation produces. */
  function ToStr(v: Value): string
  {
    match v
    case Null => ""
    case Bool(b) => if b then "1" else ""
    case Int(i) => IntToString(i)
    case Str(s) => s
    case Arr(_) => "Array"
  }

  /** Byte-wise string order, as `strcmp` gives it. */
  predicate StrLess(a: string, b: string)
  {
    if |b| == 0 then false
    else if |a| == 0 then true
    else if a[0] != b[0] then a[0] < b[0]
    else StrLess(a[1..], b[1..])
  }

  /** PHP 8's `$v < 10`. A numeric string compares as a number; any other
      string compares with "10" as a string; null and false are below 10. */
  predicate LessThanTen(v: Value)
  {
    match v
    case Null => true
    case Bool(b) => !b
    case Int(i) => i < 10
    case Str(s) => if IsDigits(s) then DigitsValue(s) < 10 else StrLess(s, "10")
    case Arr(_) => false
  }

  /** `explode($sep, $s)` for a one-character separator. */
  function Explode(sep: char, s: string): (parts: seq<string>)
    ensures |parts| >= 1
    ensures forall i :: 0 <= i < |parts| ==> sep !in parts[i]
  {
    if |s| == 0 then [""]
    else if s[0] == sep then [""] + Explode(sep, s[1..])
    else
      var rest := Explode(sep, s[1..]);
      [[s[0]] + rest[0]] + rest[1..]
  }

  /** `implode($sep, $parts)`. */
  function Implode(sep: string, parts: seq<string>): string
  {
    if |parts| == 0 then ""
    else if |parts| == 1 then parts[0]
    else parts[0] + sep + Implode(sep, parts[1..])
  }

  /** Joining the pieces of `explode` with the separator gives the string back. */
  lemma {:induction false} ImplodeExplode(sep: char, s: string)
    ensures Implode([sep], Explode(sep, s)) == s
  {
    if |s| > 0 {
      ImplodeExplode(sep, s[1..]);
      var rest := Explode(sep, s[1..]);
      if s[0] == sep {
        assert Explode(sep, s) == [""] + rest;
      } else {
        var parts := Explode(sep, s);
        assert parts == [[s[0]] + rest[0]] + rest[1..];
        if |rest| == 1 {
          assert Implode([sep], parts) == [s[0]] + rest[0];
        } else {
          assert parts[1..] == rest[1..];
          assert Implode([sep], rest) == rest[0] + [sep] + Implode([sep], rest[1..]);
        }
      }
    }
  }

  /** `list($a, $b, ...) = $parts` reads element `i`, or null when the
      list is shorter. */
  function ListAt(parts: seq<string>, i: nat): (v: Value)
    ensures v.Null? <==> i >= |parts|
  {
    if i < |parts| then Str(parts[i]) else Null
  }

  datatype FormatError = TooFewArguments

  /** `sprintf`/`vsprintf` for formats made of `%s` and `%%`; any other
      character is copied. Too few arguments raise, as in PHP 8. */
  function Format(fmt: string, args: seq<string>): (r: Result<string, FormatError>)
    decreases |fmt|
  {
    if |fmt| == 0 then Ok("")
    else if fmt[0] == '%' && |fmt| >= 2 && fmt[1] == 's' then
      if |args| == 0 then Err(TooFewArguments)
      else
        match Format(fmt[2..], args[1..])
        case Ok(rest) => Ok(args[0] + rest)
        case Err(e) => Err(e)
    else if fmt[0] == '%' && |fmt| >= 2 && fmt[1] == '%' then
      match Format(fmt[2..], args)
      case Ok(rest) => Ok("%" + rest)
      case Err(e) => Err(e)
    else
      match Format(fmt[1..], args)
      case Ok(rest) => Ok([fmt[0]] + rest)
      case Err(e) => Err(e)
  }

  /** A format without any `%` is printed unchanged. */
  lemma {:induction false} FormatPlain(fmt: string, args: seq<string>)
    requires '%' !in fmt
    ensures Format(fmt, args) == Ok(fmt)
  {
    if |fmt| > 0 {
      assert fmt[0] != '%' && '%' !in fmt[1..];
      FormatPlain(fmt[1..], args);
      assert [fmt[0]] + fmt[1..] == fmt;
    }
  }

  /** A `%`-free prefix of a format is copied in front of the rest. */
  lemma {:induction false} FormatPlainPrefix(p: string, rest: string, args: seq<string>)
    requires '%' !in p
    ensures Format(p + rest, args) == match Format(rest, args)
      case Ok(s) => Ok(p + s)
      case Err(e) => Err(e)
  {
    if |p| == 0 {
      assert p + rest == rest;
      match Format(rest, args)
      case Ok(s) =>
        assert p + s == s;
      case Err(_) =>
    } else {
      assert (p + rest)[0] == p[0] && (p + rest)[1..] == p[1..] + rest;
      FormatPlainPrefix(p[1..], rest, args);
      match Format(rest, args)
      case Ok(s) =>
        assert [p[0]] + (p[1..] + s) == p + s;
      case Err(_) =>
    }
  }

  /** A `%s` takes the next argument. */
  lemma FormatTakesArgument(rest: string, a: string, args: seq<string>)
    ensures Format("%s" + rest, [a] + args) == match Format(rest, args)
      case Ok(s) => Ok(a + s)
      case Err(e) => Err(e)
  {
    var f := "%s" + rest;
    assert f[0] == '%' && f[1] == 's' && f[2..] == rest;
    assert ([a] + args)[1..] == args;
  }

  /** Concatenation regroups. */
  lemma Regroup<T>(p: seq<T>, q: seq<T>, r: seq<T>)
    ensures p + (q + r) == p + q + r
  {
  }

  /** Three concatenations regroup to the left. */
  lemma Regroup4<T>(p: seq<T>, q: seq<T>, r: seq<T>, t: seq<T>)
    ensures p + (q + (r + t)) == p + q + r + t
  {
    Regroup(q, r, t);
    Regroup(p, q + r, t);
    Regroup(p, q, r);
  }

  /** Four concatenations regroup to the left. */
  lemma Regroup5<T>(p: seq<T>, q: seq<T>, r: seq<T>, t: seq<T>, u: seq<T>)
    ensures p + (q + (r + (t + u))) == p + q + r + t + u
  {
    Regroup4(q, r, t, u);
    Regroup(p, q + r + t, u);
    Regroup4(p, q, r, t);
  }

  /** One `%s` between `%`-free text takes the one argument. */
  lemma FormatOneArgument(pre: string, post: string, a: string)
    requires '%' !in pre && '%' !in post
    ensures Format(pre + "%s" + post, [a]) == Ok(pre + a + post)
  {
    FormatPlain(post, []);
    FormatTakesArgument(post, a, []);
    assert [a] + [] == [a];
    FormatPlainPrefix(pre, "%s" + post, [a]);
    Regroup(pre, "%s", post);
    Regroup(pre, a, post);
  }

  /** Two `%s` between `%`-free text take the two arguments in order. */
  lemma FormatTwoArgumentsAround(pre: string, mid: string, post: string, a: string, b: string)
    requires '%' !in pre && '%' !in mid && '%' !in post
    ensures Format(pre + "%s" + mid + "%s" + post, [a, b]) == Ok(pre + a + mid + b + post)
  {
    var rest := mid + ("%s" + post);
    FormatOneArgument(mid, post, b);
    Regroup(mid, "%s", post);
    FormatTakesArgument(rest, a, [b]);
    assert [a] + [b] == [a, b];
    FormatPlainPrefix(pre, "%s" + rest, [a, b]);
    Regroup5(pre, "%s", mid, "%s", post);
    Regroup4(pre, a, mid + b, post);
    Regroup(pre + a, mid, b);
  }

  /** Two `%s` placeholders between `%`-free text take the two arguments in order. */
  lemma FormatTwoArguments(pre: string, mid: string, a: string, b: string)
    requires '%' !in pre && '%' !in mid
    ensures Format(pre + "%s" + mid + "%s", [a, b]) == Ok(pre + a + mid + b)
  {
    FormatTwoArgumentsAround(pre, mid, "", a, b);
    assert pre + "%s" + mid + "%s" + "" == pre + "%s" + mid + "%s";
    assert pre + a + mid + b + "" == pre + a + mid + b;
  }

  /** The UTF-8 bytes of one character. */
  function Utf8(c: char): (bytes: seq<int>)
    ensures 1 <= |bytes| <= 4
    ensures forall i :: 0 <= i < |bytes| ==> 0 <= bytes[i] < 256
  {
    var n := c as int;
    if n < 0x80 then [n]
    else if n < 0x800 then [0xC0 + n / 0x40, 0x80 + n % 0x40]
    else if n < 0x10000 then [0xE0 + n / 0x1000, 0x80 + (n / 0x40) % 0x40, 0x80 + n % 0x40]
    else [0xF0 + n / 0x40000, 0x80 + (n / 0x1000) % 0x40, 0x80 + (n / 0x40) % 0x40, 0x80 + n % 0x40]
  }

  /** The characters `urlencode` can emit: letters, digits, `-_.`, `+` and `%`. */
  predicate UrlSafe(c: char)
  {
    'a' <= c <= 'z' || 'A' <= c <= 'Z' || IsDigit(c) || c == '-' || c == '_' || c == '.' || c == '+' || c == '%'
  }

  function HexDigit(d: int): (c: char)
    requires 0 <= d < 16
    ensures UrlSafe(c)
  {
    if d < 10 then DigitChar(d) else (d - 10 + 'A' as int) as char
  }

  /** `urlencode` of one byte. */
  function EncodeByte(b: int): (r: string)
    requires 0 <= b < 256
    ensures forall i :: 0 <= i < |r| ==> UrlSafe(r[i])
  {
    if ('a' as int <= b <= 'z' as int) || ('A' as int <= b <= 'Z' as int)
      || ('0' as int <= b <= '9' as int) || b == '-' as int || b == '_' as int || b == '.' as int
    then [b as char]
    else if b == ' ' as int then "+"
    else ['%', HexDigit(b / 16), HexDigit(b % 16)]
  }

  function EncodeBytes(bytes: seq<int>): (r: string)
    requires forall i :: 0 <= i < |bytes| ==> 0 <= bytes[i] < 256
    ensures forall i :: 0 <= i < |r| ==> UrlSafe(r[i])
  {
    if |bytes| == 0 then "" else EncodeByte(bytes[0]) + EncodeBytes(bytes[1..])
  }

  /** PHP's `urlencode`: the output never holds `&`, `=`, `?` or `#`, so it
      can sit inside a query string. */
  function Urlencode(s: string): (r: string)
    ensures forall i :: 0 <= i < |r| ==> UrlSafe(r[i])
    ensures forall c :: c in r ==> UrlSafe(c)
  {
    if |s| == 0 then "" else EncodeBytes(Utf8(s[0])) + Urlencode(s[1..])
  }

  /** Each key appears once, as in every PHP array. */
  predicate KeysDistinct(a: PhpArray)
  {
    |a| == 0 || (a[0].key !in Keys(a[1..]) && KeysDistinct(a[1..]))
  }

  /** The key of every entry is among the array's keys. */
  lemma {:induction false} KeyAt(a: PhpArray, m: nat)
    requires m < |a|
    ensures a[m].key in Keys(a)
  {
    if m > 0 {
      KeyAt(a[1..], m - 1);
    }
  }

  /** In an array whose keys are distinct, two entries have different keys. */
  lemma {:induction false} DistinctKeysAt(a: PhpArray, i: nat, m: nat)
    requires KeysDistinct(a) && i < |a| && m < |a| && i != m
    ensures a[i].key != a[m].key
  {
    if i == 0 {
      KeyAt(a[1..], m - 1);
    } else if m == 0 {
      KeyAt(a[1..], i - 1);
    } else {
      DistinctKeysAt(a[1..], i - 1, m - 1);
    }
  }

  /** The entry a lookup reads. */
  lemma {:induction false} LookupIndex(a: PhpArray, k: string) returns (i: nat)
    requires Lookup(a, k).Some?
    ensures i < |a| && a[i] == Entry(k, Lookup(a, k).value)
  {
    if a[0].key == k {
      i := 0;
    } else {
      var j := LookupIndex(a[1..], k);
      i := j + 1;
    }
  }

  // Integer keys, `$a[] = $v`, array_merge and array_merge_recursive

  /** A key PHP stores as an integer: the decimal form of a natural number
      without leading zeros ("0", "17", but not "017"). */
  predicate IsIntKey(k: string)
  {
    IsDigits(k) && (k[0] != '0' || |k| == 1)
  }

  /** The least next free index once key `k` is present. */
  function KeyNext(k: string): nat
  {
    if IsIntKey(k) then DigitsValue(k) + 1 else 0
  }

  /** The next free index: one past the largest integer key, or 0. */
  function NextIndex(a: PhpArray): nat
  {
    if |a| == 0 then 0
    else if KeyNext(a[0].key) > NextIndex(a[1..]) then KeyNext(a[0].key)
    else NextIndex(a[1..])
  }

  /** `$a[] = $v`: the value goes last, under the next free index, which no
      key of the array holds; the next free index moves one on. */
  function Push(a: PhpArray, v: Value): (r: PhpArray)
    ensures |r| == |a| + 1 && r[..|a|] == a && r[|a|] == Entry(NatToString(NextIndex(a)), v)
    ensures NatToString(NextIndex(a)) !in Keys(a)
    ensures NextIndex(r) == NextIndex(a) + 1
  {
    NextIndexIsFree(a);
    NatToStringIsIntKey(NextIndex(a));
    NextIndexSnoc(a, Entry(NatToString(NextIndex(a)), v));
    a + [Entry(NatToString(NextIndex(a)), v)]
  }

  /** The decimal form of a number is an integer key denoting it. */
  lemma {:induction false} NatToStringIsIntKey(n: nat)
    ensures IsIntKey(NatToString(n)) && KeyNext(NatToString(n)) == n + 1
  {
    DigitsValueOfNatToString(n);
    NatToStringLeads(n);
  }

  lemma {:induction false} NatToStringLeads(n: nat)
    ensures NatToString(n)[0] != '0' || n == 0
    ensures |NatToString(n)| == 1 ==> n < 10
  {
    if n >= 10 {
      NatToStringLeads(n / 10);
    }
  }

  /** Every key present is below the next free index. */
  lemma {:induction false} KeyBelowNextIndex(a: PhpArray, k: string)
    requires k in Keys(a)
    ensures KeyNext(k) <= NextIndex(a)
  {
    if a[0].key != k {
      KeyBelowNextIndex(a[1..], k);
    }
  }

  lemma NextIndexIsFree(a: PhpArray)
    ensures NatToString(NextIndex(a)) !in Keys(a)
  {
    NatToStringIsIntKey(NextIndex(a));
    if NatToString(NextIndex(a)) in Keys(a) {
      KeyBelowNextIndex(a, NatToString(NextIndex(a)));
    }
  }

  lemma {:induction false} NextIndexSnoc(a: PhpArray, e: Entry)
    ensures NextIndex(a + [e]) == if KeyNext(e.key) > NextIndex(a) then KeyNext(e.key) else NextIndex(a)
  {
    if |a| > 0 {
      assert (a + [e])[1..] == a[1..] + [e];
      NextIndexSnoc(a[1..], e);
    }
  }

  /** A lookup after an entry is appended. */
  lemma {:induction false} LookupSnoc(a: PhpArray, e: Entry, k: string)
    ensures Lookup(a + [e], k) == if k in Keys(a) then Lookup(a, k) else if k == e.key then Some(e.val) else None
  {
    if |a| > 0 {
      assert (a + [e])[1..] == a[1..] + [e];
      LookupSnoc(a[1..], e, k);
    }
  }

  /** Writing a string key leaves the integer keys and the next free index alone. */
  lemma {:induction false} SetStringKey(a: PhpArray, k: string, v: Value)
    requires !IsIntKey(k)
    ensures IntEntries(Set(a, k, v)) == IntEntries(a) && NextIndex(Set(a, k, v)) == NextIndex(a)
  {
    if |a| > 0 && a[0].key != k {
      SetStringKey(a[1..], k, v);
      assert Set(a, k, v)[1..] == Set(a[1..], k, v);
    }
  }

  /** The integer-keyed entries, in order. */
  function IntEntries(a: PhpArray): PhpArray
  {
    if |a| == 0 then []
    else (if IsIntKey(a[0].key) then [a[0]] else []) + IntEntries(a[1..])
  }

  /** The values under integer keys, in order. */
  function IntValues(a: PhpArray): seq<Value>
  {
    if |a| == 0 then [] else EntryInts(a[0]) + IntValues(a[1..])
  }

  /** The entry's value when its key is an integer key. */
  function EntryInts(e: Entry): seq<Value>
  {
    if IsIntKey(e.key) then [e.val] else []
  }

  /** A list: the values under the indices n, n + 1, ... */
  function Numbered(vs: seq<Value>, n: nat): (r: PhpArray)
    ensures |r| == |vs|
  {
    if |vs| == 0 then [] else [Entry(NatToString(n), vs[0])] + Numbered(vs[1..], n + 1)
  }

  lemma {:induction false} IntEntriesSnoc(a: PhpArray, e: Entry)
    ensures IntEntries(a + [e]) == IntEntries(a) + (if IsIntKey(e.key) then [e] else [])
  {
    if |a| > 0 {
      assert (a + [e])[1..] == a[1..] + [e];
      IntEntriesSnoc(a[1..], e);
    }
  }

  lemma {:induction false} NumberedSnoc(vs: seq<Value>, n: nat, v: Value)
    ensures Numbered(vs + [v], n) == Numbered(vs, n) + [Entry(NatToString(n + |vs|), v)]
  {
    if |vs| > 0 {
      assert (vs + [v])[1..] == vs[1..] + [v];
      NumberedSnoc(vs[1..], n + 1, v);
    }
  }

  /** array_merge's copy of one argument into the result: a string key is
      written in place, or last when new; an integer key is appended under
      the next free index. */
  function MergeEntries(dest: PhpArray, src: PhpArray): PhpArray
    decreases src
  {
    if |src| == 0 then dest else MergeEntries(CopyEntry(dest, src[0]), src[1..])
  }

  /** One entry copied by array_merge. */
  function CopyEntry(dest: PhpArray, e: Entry): PhpArray
  {
    if IsIntKey(e.key) then Push(dest, e.val) else Set(dest, e.key, e.val)
  }

  /** Appending one value to a list numbered from 0 extends the numbering. */
  lemma PushInts(dest: PhpArray, v: Value, vs: seq<Value>)
    requires IntEntries(dest) == Numbered(vs, 0) && NextIndex(dest) == |vs|
    ensures IntEntries(Push(dest, v)) == Numbered(vs + [v], 0) && NextIndex(Push(dest, v)) == |vs + [v]|
  {
    IntEntriesSnoc(dest, Entry(NatToString(NextIndex(dest)), v));
    NatToStringIsIntKey(NextIndex(dest));
    NumberedSnoc(vs, 0, v);
  }

  /** `array_merge($a, $b)`: both arrays copied, in order, into a new one,
      so `b` wins on shared string keys and every integer-keyed value is
      renumbered from 0. */
  function ArrayMerge(a: PhpArray, b: PhpArray): PhpArray
  {
    MergeEntries(MergeEntries([], a), b)
  }

  lemma {:induction false} MergeEntriesLookup(dest: PhpArray, src: PhpArray, k: string)
    requires KeysDistinct(src) && !IsIntKey(k)
    ensures Lookup(MergeEntries(dest, src), k) == if k in Keys(src) then Lookup(src, k) else Lookup(dest, k)
    decreases src
  {
    if |src| > 0 {
      var e := src[0];
      assert Keys(src) == [e.key] + Keys(src[1..]);
      MergeEntriesLookup(CopyEntry(dest, e), src[1..], k);
      if IsIntKey(e.key) {
        NatToStringIsIntKey(NextIndex(dest));
        LookupSnoc(dest, Entry(NatToString(NextIndex(dest)), e.val), k);
      }
    }
  }

  /** One copied entry keeps the integer keys numbered from 0. */
  lemma CopyEntryInts(dest: PhpArray, e: Entry, vs: seq<Value>)
    requires IntEntries(dest) == Numbered(vs, 0) && NextIndex(dest) == |vs|
    ensures IntEntries(CopyEntry(dest, e)) == Numbered(vs + EntryInts(e), 0)
    ensures NextIndex(CopyEntry(dest, e)) == |vs + EntryInts(e)|
  {
    if IsIntKey(e.key) {
      PushInts(dest, e.val, vs);
    } else {
      SetStringKey(dest, e.key, e.val);
      assert vs + EntryInts(e) == vs;
    }
  }

  lemma {:induction false} MergeEntriesInts(dest: PhpArray, src: PhpArray, vs: seq<Value>)
    requires IntEntries(dest) == Numbered(vs, 0) && NextIndex(dest) == |vs|
    ensures IntEntries(MergeEntries(dest, src)) == Numbered(vs + IntValues(src), 0)
    ensures NextIndex(MergeEntries(dest, src)) == |vs + IntValues(src)|
    decreases src
  {
    if |src| == 0 {
      assert vs + IntValues(src) == vs;
    } else {
      var ws := vs + EntryInts(src[0]);
      CopyEntryInts(dest, src[0], vs);
      MergeEntriesInts(CopyEntry(dest, src[0]), src[1..], ws);
      assert IntValues(src) == EntryInts(src[0]) + IntValues(src[1..]);
      Regroup(vs, EntryInts(src[0]), IntValues(src[1..]));
    }
  }

  /** Appending a key the array lacks keeps its keys distinct. */
  lemma {:induction false} DistinctSnoc(a: PhpArray, e: Entry)
    requires KeysDistinct(a) && e.key !in Keys(a)
    ensures KeysDistinct(a + [e])
  {
    if |a| > 0 {
      assert (a + [e])[1..] == a[1..] + [e];
      assert Keys(a) == [a[0].key] + Keys(a[1..]);
      DistinctSnoc(a[1..], e);
      KeysSnoc(a[1..], e);
    }
  }

  lemma {:induction false} KeysSnoc(a: PhpArray, e: Entry)
    ensures Keys(a + [e]) == Keys(a) + [e.key]
  {
    if |a| > 0 {
      assert (a + [e])[1..] == a[1..] + [e];
      KeysSnoc(a[1..], e);
    }
  }

  /** Writing a key keeps the keys distinct. */
  lemma {:induction false} SetDistinct(a: PhpArray, k: string, v: Value)
    requires KeysDistinct(a)
    ensures KeysDistinct(Set(a, k, v))
  {
    if |a| > 0 && a[0].key != k {
      SetDistinct(a[1..], k, v);
      assert Set(a, k, v)[1..] == Set(a[1..], k, v);
    }
  }

  lemma {:induction false} MergeEntriesDistinct(dest: PhpArray, src: PhpArray)
    requires KeysDistinct(dest)
    ensures KeysDistinct(MergeEntries(dest, src))
    decreases src
  {
    if |src| > 0 {
      if IsIntKey(src[0].key) {
        NextIndexIsFree(dest);
        DistinctSnoc(dest, Entry(NatToString(NextIndex(dest)), src[0].val));
      } else {
        SetDistinct(dest, src[0].key, src[0].val);
      }
      MergeEntriesDistinct(CopyEntry(dest, src[0]), src[1..]);
    }
  }

  /** array_merge always yields an array whose keys are distinct. */
  lemma ArrayMergeDistinct(a: PhpArray, b: PhpArray)
    ensures KeysDistinct(ArrayMerge(a, b))
  {
    MergeEntriesDistinct([], a);
    MergeEntriesDistinct(MergeEntries([], a), b);
  }

  /** After array_merge, a string key of the second array reads its value
      there, and any other string key its value in the first. */
  lemma ArrayMergeLookup(a: PhpArray, b: PhpArray, k: string)
    requires KeysDistinct(a) && KeysDistinct(b) && !IsIntKey(k)
    ensures Lookup(ArrayMerge(a, b), k) == if k in Keys(b) then Lookup(b, k) else Lookup(a, k)
  {
    MergeEntriesLookup([], a, k);
    MergeEntriesLookup(MergeEntries([], a), b, k);
  }

  /** After array_merge, the integer-keyed values are those of the first
      array and then those of the second, renumbered 0, 1, 2, ...: an
      integer key of the second array is appended, never overwritten. */
  lemma ArrayMergeInts(a: PhpArray, b: PhpArray)
    ensures IntEntries(ArrayMerge(a, b)) == Numbered(IntValues(a) + IntValues(b), 0)
  {
    MergeEntriesInts([], a, []);
    assert [] + IntValues(a) == IntValues(a);
    MergeEntriesInts(MergeEntries([], a), b, IntValues(a));
  }

  /** Merging a list into a list: `[0 => a, 1 => b, 2 => c]` merged with
      `[1 => x]` holds a, b, c and x under 0 to 3. */
  lemma IntegerKeysAppend(a: Value, b: Value, c: Value, x: Value)
    ensures ArrayMerge([Entry("0", a), Entry("1", b), Entry("2", c)], [Entry("1", x)])
      == [Entry("0", a), Entry("1", b), Entry("2", c), Entry("3", x)]
  {
    assert NatToString(0) == "0" && NatToString(1) == "1" && NatToString(2) == "2" && NatToString(3) == "3";
    NatToStringIsIntKey(0);
    NatToStringIsIntKey(1);
    NatToStringIsIntKey(2);
    var l1 := Push([], a);
    var l2 := Push(l1, b);
    var l3 := Push(l2, c);
    assert l3 == [Entry("0", a), Entry("1", b), Entry("2", c)] && NextIndex(l3) == 3;
    var first := [Entry("0", a), Entry("1", b), Entry("2", c)];
    assert MergeEntries([], first) == MergeEntries(l1, first[1..]);
    assert MergeEntries(l1, first[1..]) == MergeEntries(l2, first[2..]);
    assert MergeEntries(l2, first[2..]) == l3;
    assert MergeEntries(l3, [Entry("1", x)]) == Push(l3, x);
  }

  /** The merge of `src` into `dest` at the heart of array_merge_recursive:
      an integer key is appended under the next free index and a new string
      key is appended; a string key `dest` already holds becomes an array
      (a value that is not one is wrapped as `[0 => value]`), into which an
      array value is merged and any other value appended. */
  function MergeInto(dest: PhpArray, src: PhpArray): PhpArray
    decreases src
  {
    if |src| == 0 then dest
    else
      var e := src[0];
      var next :=
        if IsIntKey(e.key) then Push(dest, e.val)
        else Set(dest, e.key, MergedAt(dest, e.key, e.val, if e.val.Arr? then MergeInto(Wrapped(dest, e.key), e.val.entries) else []));
      MergeInto(next, src[1..])
  }

  /** What an existing key turns into before the merge: its array, or the
      one-element list `[0 => value]`; nothing for a missing key. */
  function Wrapped(dest: PhpArray, k: string): PhpArray
  {
    match Lookup(dest, k)
    case Some(Arr(x)) => x
    case Some(prev) => [Entry("0", prev)]
    case None => []
  }

  /** The entries of an array value; nothing for any other value. */
  function ValueEntries(v: Value): PhpArray
  {
    if v.Arr? then v.entries else []
  }

  /** `array_merge_recursive($a, $b)`: a copy of `a` with its integer keys
      renumbered, then `b` merged into it. */
  function MergeRecursive(a: PhpArray, b: PhpArray): PhpArray
  {
    MergeInto(MergeEntries([], a), b)
  }

  /** The value MergeInto writes under string key `k` for the new value
      `v`, given `merged`, the recursive merge of `v` into the wrapped old
      value: `v` itself for a new key, otherwise the wrapped old value with
      `v` merged in when `v` is an array and appended when it is not. */
  function MergedAt(dest: PhpArray, k: string, v: Value, merged: PhpArray): Value
  {
    if Lookup(dest, k).None? then v
    else Arr(if v.Arr? then merged else Push(Wrapped(dest, k), v))
  }

  /** The value left under a string key that the new array holds once. */
  function MergedValueAt(dest: PhpArray, k: string, v: Value): Value
  {
    MergedAt(dest, k, v, MergeInto(Wrapped(dest, k), ValueEntries(v)))
  }

  lemma {:induction false} MergeIntoLookup(dest: PhpArray, src: PhpArray, k: string)
    requires KeysDistinct(src) && !IsIntKey(k)
    ensures Lookup(MergeInto(dest, src), k) ==
      if k in Keys(src) then Some(MergedValueAt(dest, k, Lookup(src, k).value)) else Lookup(dest, k)
    decreases src
  {
    if |src| > 0 {
      var e := src[0];
      assert Keys(src) == [e.key] + Keys(src[1..]);
      var next := IntoEntry(dest, e);
      assert MergeInto(dest, src) == MergeInto(next, src[1..]);
      MergeIntoLookup(next, src[1..], k);
      IntoEntryLookup(dest, e, k);
      if k in Keys(src[1..]) {
        assert k != e.key;
        WrappedSame(dest, next, k);
      }
    }
  }

  /** One step of MergeInto leaves every other string key alone. */
  lemma IntoEntryLookup(dest: PhpArray, e: Entry, k: string)
    requires !IsIntKey(k)
    ensures Lookup(IntoEntry(dest, e), k) ==
      if k == e.key then Some(MergedValueAt(dest, k, e.val)) else Lookup(dest, k)
  {
    if IsIntKey(e.key) {
      NatToStringIsIntKey(NextIndex(dest));
      LookupSnoc(dest, Entry(NatToString(NextIndex(dest)), e.val), k);
    }
  }

  /** The merged value under a key depends only on what the key holds. */
  lemma WrappedSame(dest: PhpArray, dest': PhpArray, k: string)
    requires Lookup(dest, k) == Lookup(dest', k)
    ensures forall v :: MergedValueAt(dest, k, v) == MergedValueAt(dest', k, v)
  {
    assert Wrapped(dest, k) == Wrapped(dest', k);
  }


  /** Keys the new array does not mention keep their old values. */
  lemma MergeKeepsOtherKeys(a: PhpArray, b: PhpArray, k: string)
    requires KeysDistinct(a) && KeysDistinct(b) && !IsIntKey(k) && k !in Keys(b)
    ensures Lookup(MergeRecursive(a, b), k) == Lookup(a, k)
  {
    MergeEntriesLookup([], a, k);
    MergeIntoLookup(MergeEntries([], a), b, k);
  }

  /** A string key only the new array holds takes its value there. */
  lemma MergeNewKeyWins(a: PhpArray, b: PhpArray, k: string)
    requires KeysDistinct(a) && KeysDistinct(b) && !IsIntKey(k) && k !in Keys(a) && k in Keys(b)
    ensures Lookup(MergeRecursive(a, b), k) == Lookup(b, k)
  {
    MergeEntriesLookup([], a, k);
    MergeIntoLookup(MergeEntries([], a), b, k);
  }

  /** Two values under the same string key that are not arrays are
      collected into a list: `['k' => x]` and `['k' => y]` give
      `['k' => [x, y]]`. */
  lemma MergeScalarsCollect(a: PhpArray, b: PhpArray, k: string, x: Value, y: Value)
    requires KeysDistinct(a) && KeysDistinct(b) && !IsIntKey(k)
    requires Lookup(a, k) == Some(x) && Lookup(b, k) == Some(y) && !x.Arr? && !y.Arr?
    ensures Lookup(MergeRecursive(a, b), k) == Some(Arr([Entry("0", x), Entry("1", y)]))
  {
    MergeEntriesLookup([], a, k);
    MergeIntoLookup(MergeEntries([], a), b, k);
    PushOntoSingle(x, y);
  }

  lemma PushOntoSingle(x: Value, y: Value)
    ensures Push([Entry("0", x)], y) == [Entry("0", x), Entry("1", y)]
  {
    NatToStringIsIntKey(0);
    assert NextIndex([Entry("0", x)]) == 1;
    assert NatToString(1) == "1";
  }

  /** A list merged into an array is appended after its largest index. */
  lemma {:induction false} MergeIntoList(dest: PhpArray, src: PhpArray)
    requires |IntValues(src)| == |src|
    ensures MergeInto(dest, src) == dest + Numbered(IntValues(src), NextIndex(dest))
    decreases src
  {
    if |src| > 0 {
      var e := src[0];
      if !IsIntKey(e.key) {
        IntValuesBound(src[1..]);
        assert false;
      }
      var d := Push(dest, e.val);
      MergeIntoList(d, src[1..]);
      assert IntValues(src) == [e.val] + IntValues(src[1..]);
      assert Numbered(IntValues(src), NextIndex(dest))
        == [Entry(NatToString(NextIndex(dest)), e.val)] + Numbered(IntValues(src[1..]), NextIndex(d));
    }
  }

  lemma {:induction false} IntValuesBound(a: PhpArray)
    ensures |IntValues(a)| <= |a|
  {
    if |a| > 0 {
      IntValuesBound(a[1..]);
    }
  }

  /** Two lists under the same string key are concatenated: the new
      list's values follow the old list's under the next indices. */
  lemma MergeListsAppend(a: PhpArray, b: PhpArray, k: string, xs: PhpArray, ys: PhpArray)
    requires KeysDistinct(a) && KeysDistinct(b) && !IsIntKey(k)
    requires Lookup(a, k) == Some(Arr(xs)) && Lookup(b, k) == Some(Arr(ys)) && |IntValues(ys)| == |ys|
    ensures Lookup(MergeRecursive(a, b), k) == Some(Arr(xs + Numbered(IntValues(ys), NextIndex(xs))))
  {
    MergeEntriesLookup([], a, k);
    MergeIntoLookup(MergeEntries([], a), b, k);
    MergeIntoList(xs, ys);
  }

  /** After array_merge_recursive, the top-level integer-keyed values are
      those of the first array and then those of the second, renumbered. */
  lemma MergeRecursiveInts(a: PhpArray, b: PhpArray)
    ensures IntEntries(MergeRecursive(a, b)) == Numbered(IntValues(a) + IntValues(b), 0)
  {
    MergeEntriesInts([], a, []);
    assert [] + IntValues(a) == IntValues(a);
    MergeIntoInts(MergeEntries([], a), b, IntValues(a));
  }

  lemma {:induction false} MergeIntoInts(dest: PhpArray, src: PhpArray, vs: seq<Value>)
    requires IntEntries(dest) == Numbered(vs, 0) && NextIndex(dest) == |vs|
    ensures IntEntries(MergeInto(dest, src)) == Numbered(vs + IntValues(src), 0)
    decreases src
  {
    if |src| == 0 {
      assert vs + IntValues(src) == vs;
    } else {
      var e := src[0];
      var next := IntoEntry(dest, e);
      assert MergeInto(dest, src) == MergeInto(next, src[1..]);
      IntoEntryInts(dest, e, vs);
      MergeIntoInts(next, src[1..], vs + EntryInts(e));
      assert IntValues(src) == EntryInts(e) + IntValues(src[1..]);
      Regroup(vs, EntryInts(e), IntValues(src[1..]));
    }
  }

  /** One step of MergeInto, for a single entry. */
  function IntoEntry(dest: PhpArray, e: Entry): PhpArray
  {
    if IsIntKey(e.key) then Push(dest, e.val) else Set(dest, e.key, MergedValueAt(dest, e.key, e.val))
  }

  lemma IntoEntryInts(dest: PhpArray, e: Entry, vs: seq<Value>)
    requires IntEntries(dest) == Numbered(vs, 0) && NextIndex(dest) == |vs|
    ensures IntEntries(IntoEntry(dest, e)) == Numbered(vs + EntryInts(e), 0)
    ensures NextIndex(IntoEntry(dest, e)) == |vs + EntryInts(e)|
  {
    if IsIntKey(e.key) {
      PushInts(dest, e.val, vs);
    } else {
      SetStringKey(dest, e.key, MergedValueAt(dest, e.key, e.val));
      assert vs + EntryInts(e) == vs;
    }
  }


  /** Two arrays whose entries have the same keys, position by position,
      have the same key list, and one has distinct keys when the other does. */
  lemma {:induction false} SameKeys(a: PhpArray, b: PhpArray)
    requires |a| == |b| && forall i :: 0 <= i < |a| ==> a[i].key == b[i].key
    ensures Keys(a) == Keys(b)
    ensures KeysDistinct(a) <==> KeysDistinct(b)
  {
    if |a| > 0 {
      SameKeys(a[1..], b[1..]);
    }
  }

  /** In an array with distinct keys, the lookup of an entry's key reads
      that entry's value. */
  lemma {:induction false} LookupAt(a: PhpArray, i: nat)
    requires KeysDistinct(a) && i < |a|
    ensures Lookup(a, a[i].key) == Some(a[i].val)
  {
    if i > 0 {
      KeyAt(a[1..], i - 1);
      LookupAt(a[1..], i - 1);
    }
  }

  /** Explode of a separator-free prefix followed by more text: the prefix
      joins the first piece of the rest. */
  lemma {:induction false} ExplodePrefix(sep: char, p: string, s: string)
    requires sep !in p
    ensures Explode(sep, p + s) == [p + Explode(sep, s)[0]] + Explode(sep, s)[1..]
  {
    if |p| > 0 {
      assert (p + s)[0] == p[0] && (p + s)[1..] == p[1..] + s;
      ExplodePrefix(sep, p[1..], s);
      assert [p[0]] + (p[1..] + Explode(sep, s)[0]) == p + Explode(sep, s)[0];
    } else {
      assert p + s == s;
      assert p + Explode(sep, s)[0] == Explode(sep, s)[0];
      assert Explode(sep, s) == [Explode(sep, s)[0]] + Explode(sep, s)[1..];
    }
  }

  /** Splitting pieces that do not hold the separator, once joined with
      it, gives the pieces back. */
  lemma {:induction false} ExplodeImplode(sep: char, parts: seq<string>)
    requires |parts| >= 1 && forall i :: 0 <= i < |parts| ==> sep !in parts[i]
    ensures Explode(sep, Implode([sep], parts)) == parts
  {
    if |parts| == 1 {
      ExplodePrefix(sep, parts[0], "");
      assert parts[0] + "" == parts[0];
    } else {
      var rest := Implode([sep], parts[1..]);
      ExplodeImplode(sep, parts[1..]);
      assert ([sep] + rest)[0] == sep && ([sep] + rest)[1..] == rest;
      assert Explode(sep, [sep] + rest) == [""] + parts[1..];
      assert parts[0] + [sep] + rest == parts[0] + ([sep] + rest);
      ExplodePrefix(sep, parts[0], [sep] + rest);
      assert parts[0] + "" == parts[0];
    }
  }

  /** Implode of one more piece appends the separator and the piece. */
  lemma {:induction false} ImplodeSnoc(sep: string, parts: seq<string>, p: string)
    requires |parts| >= 1
    ensures Implode(sep, parts + [p]) == Implode(sep, parts) + sep + p
  {
    if |parts| == 1 {
      assert (parts + [p])[1..] == [p];
    } else {
      assert (parts + [p])[1..] == parts[1..] + [p];
      ImplodeSnoc(sep, parts[1..], p);
    }
  }
}
