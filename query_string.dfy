/** A reference reading of URL query strings, `k1=v1&k2=v2&...`, used to state
    what the URL built by the API caller carries. It mirrors Python's
    `str.split` and `str.join`; nothing is percent-decoded, since the caller
    percent-encodes nothing. */
module QueryString {

  /** `s.split(sep)`: the pieces between separators, in order; never empty. */
  function Split(s: string, sep: char): (parts: seq<string>)
    ensures |parts| >= 1
    decreases |s|
  {
    if s == [] then [""]
    else
      var rest := Split(s[1..], sep);
      if s[0] == sep then [""] + rest
      else [[s[0]] + rest[0]] + rest[1..]
  }

  /** `sep.join(parts)`. */
  function Join(parts: seq<string>, sep: char): string
  {
    if parts == [] then ""
    else if |parts| == 1 then parts[0]
    else parts[0] + [sep] + Join(parts[1..], sep)
  }

  /** A piece free of the separator is not split at all. */
  lemma {:induction false} SplitWithoutSep(a: string, sep: char)
    requires sep !in a
    ensures Split(a, sep) == [a]
    decreases |a|
  {
    if a != [] {
      SplitWithoutSep(a[1..], sep);
      assert [a[0]] + a[1..] == a;
    }
  }

  /** Splitting at the first separator peels off the piece before it. */
  lemma {:induction false} SplitAtFirstSep(a: string, b: string, sep: char)
    requires sep !in a
    ensures Split(a + [sep] + b, sep) == [a] + Split(b, sep)
    decreases |a|
  {
    var s := a + [sep] + b;
    if a == [] {
      assert s[1..] == b;
    } else {
      assert s[1..] == a[1..] + [sep] + b;
      SplitAtFirstSep(a[1..], b, sep);
      assert [a[0]] + a[1..] == a;
    }
  }

  /** `split` undoes `join` when no piece contains the separator. */
  lemma {:induction false} SplitJoin(parts: seq<string>, sep: char)
    requires |parts| >= 1
    requires forall i :: 0 <= i < |parts| ==> sep !in parts[i]
    ensures Split(Join(parts, sep), sep) == parts
    decreases |parts|
  {
    if |parts| == 1 {
      SplitWithoutSep(parts[0], sep);
    } else {
      SplitJoin(parts[1..], sep);
      SplitAtFirstSep(parts[0], Join(parts[1..], sep), sep);
      assert [parts[0]] + parts[1..] == parts;
    }
  }

  /** One `key=value` field: the key ends at the first `=`; a field without
      `=` is a key with an empty value. */
  function Field(f: string): (kv: (string, string))
    decreases |f|
  {
    if f == [] then ("", "")
    else if f[0] == '=' then ("", f[1..])
    else
      var kv := Field(f[1..]);
      ([f[0]] + kv.0, kv.1)
  }

  /** The text of one parameter as a URL carries it. */
  function Param(kv: (string, string)): string
  {
    kv.0 + "=" + kv.1
  }

  lemma {:induction false} FieldOfParam(key: string, value: string)
    requires '=' !in key
    ensures Field(Param((key, value))) == (key, value)
    decreases |key|
  {
    if key != [] {
      assert Param((key, value))[1..] == Param((key[1..], value));
      FieldOfParam(key[1..], value);
      assert [key[0]] + key[1..] == key;
    }
  }

  /** A query string `k1=v1&...&kn=vn` built from its pairs. */
  function Encode(pairs: seq<(string, string)>): string
  {
    Join(seq(|pairs|, i requires 0 <= i < |pairs| => Param(pairs[i])), '&')
  }

  /** The `(key, value)` pairs of a query string, in order. */
  function Parse(query: string): (pairs: seq<(string, string)>)
    ensures |pairs| >= 1
  {
    var fields := Split(query, '&');
    seq(|fields|, i requires 0 <= i < |fields| => Field(fields[i]))
  }

  /** Keys free of `=` and `&`, values free of `&`: what makes a query string
      readable back into the pairs it was built from. */
  predicate Unambiguous(pairs: seq<(string, string)>)
  {
    forall i :: 0 <= i < |pairs| ==> '=' !in pairs[i].0 && '&' !in pairs[i].0 && '&' !in pairs[i].1
  }

  /** Reading a query string back yields exactly the pairs, in their order. */
  lemma ParseEncode(pairs: seq<(string, string)>)
    requires |pairs| >= 1
    requires Unambiguous(pairs)
    ensures Parse(Encode(pairs)) == pairs
  {
    var fields := seq(|pairs|, i requires 0 <= i < |pairs| => Param(pairs[i]));
    forall i | 0 <= i < |fields|
      ensures '&' !in fields[i]
    {
      assert fields[i] == pairs[i].0 + "=" + pairs[i].1;
    }
    SplitJoin(fields, '&');
    forall i | 0 <= i < |pairs|
      ensures Field(fields[i]) == pairs[i]
    {
      FieldOfParam(pairs[i].0, pairs[i].1);
    }
  }
}
