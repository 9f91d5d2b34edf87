/**
 * Reading a query parameter back out of a URL, so that the links the bot and the
 * Yandex client compose can be checked against the values put into them.
 */
module Url {
  import opened Wrappers
  import opened Text

  /** Text that holds none of the characters the links use as separators. */
  predicate Plain(s: string)
  {
    '?' !in s && '&' !in s && ',' !in s && '~' !in s
  }

  /** The value of the first `key=value` pair among `pairs`. */
  function ParamValue(pairs: seq<string>, key: string): Option<string>
  {
    if pairs == [] then None
    else if StartsWith(pairs[0], key + "=") then Some(pairs[0][|key| + 1..])
    else ParamValue(pairs[1..], key)
  }

  /** The value of `key` in the query of `url`, the text after its first '?'. */
  function QueryParam(url: string, key: string): Option<string>
  {
    var parts := SplitOn(url, '?');
    if |parts| < 2 then None else ParamValue(SplitOn(parts[1], '&'), key)
  }

  lemma {:induction false} JoinAvoids(parts: seq<string>, sep: char, c: char)
    requires c != sep
    requires forall j :: 0 <= j < |parts| ==> c !in parts[j]
    ensures c !in Join(parts, sep)
    decreases |parts|
  {
    if |parts| > 1 {
      JoinAvoids(parts[1..], sep, c);
    }
  }

  lemma {:induction false} ParamValueAt(pairs: seq<string>, k: nat, key: string)
    requires k < |pairs|
    requires StartsWith(pairs[k], key + "=")
    requires forall j :: 0 <= j < k ==> !StartsWith(pairs[j], key + "=")
    ensures ParamValue(pairs, key) == Some(pairs[k][|key| + 1..])
    decreases k
  {
    if k > 0 {
      ParamValueAt(pairs[1..], k - 1, key);
    }
  }

  /** In `base?p0&p1&...`, the value of `key` is read from the first pair that names it. */
  lemma QueryParamOf(base: string, pairs: seq<string>, k: nat, key: string)
    requires '?' !in base
    requires k < |pairs|
    requires forall j :: 0 <= j < |pairs| ==> '?' !in pairs[j] && '&' !in pairs[j]
    requires StartsWith(pairs[k], key + "=")
    requires forall j :: 0 <= j < k ==> !StartsWith(pairs[j], key + "=")
    ensures QueryParam(base + "?" + Join(pairs, '&'), key) == Some(pairs[k][|key| + 1..])
  {
    var query := Join(pairs, '&');
    JoinAvoids(pairs, '&', '?');
    assert base + "?" + query == base + ['?'] + query;
    SplitPrefix(base, '?', query);
    SplitNoSep(query, '?');
    SplitJoin(pairs, '&');
    ParamValueAt(pairs, k, key);
  }

  lemma Join2(a: string, b: string, sep: char)
    ensures Join([a, b], sep) == a + [sep] + b
  {
  }

  lemma Join4(a: string, b: string, c: string, d: string, sep: char)
    ensures Join([a, b, c, d], sep) == a + [sep] + (b + [sep] + (c + [sep] + d))
  {
    assert [a, b, c, d][1..] == [b, c, d];
    assert [b, c, d][1..] == [c, d];
    Join2(c, d, sep);
    assert Join([b, c, d], sep) == b + [sep] + Join([c, d], sep);
  }

  lemma Join5(a: string, b: string, c: string, d: string, e: string, sep: char)
    ensures Join([a, b, c, d, e], sep) == a + [sep] + (b + [sep] + (c + [sep] + (d + [sep] + e)))
  {
    assert [a, b, c, d, e][1..] == [b, c, d, e];
    Join4(b, c, d, e, sep);
  }

  /** A `key=value` pair names its key and gives its value back. */
  lemma KeyValue(key: string, value: string)
    ensures StartsWith(key + "=" + value, key + "=")
    ensures (key + "=" + value)[|key| + 1..] == value
  {
  }

  /** A pair `a,b` of plain texts splits back into `a` and `b`. */
  lemma PairSplits(a: string, b: string, sep: char)
    requires sep !in a && sep !in b
    ensures SplitOn(a + [sep] + b, sep) == [a, b]
  {
    SplitPrefix(a, sep, b);
    SplitNoSep(b, sep);
  }
}
