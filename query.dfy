/**
 A reference reading of a raw query string, used to state what the relay's
 authorization redirect says: a query is split at every '&' into pieces, and
 each piece is cut at its first '=' into a key and a value (a piece without
 '=' is a key with an empty value). Looking a key up gives the value of the
 first piece with that key. There is no percent-decoding: the relay builds
 its query by plain concatenation, so the model reads it back the same way.
 */
module QueryString {
  import opened Options

  /** The pieces of `s` between occurrences of `sep`; never empty. */
  function Split(s: string, sep: char): (parts: seq<string>)
    ensures |parts| >= 1
    ensures forall i :: 0 <= i < |parts| ==> sep !in parts[i]
    decreases |s|
  {
    if |s| == 0 then [""]
    else
      var rest := Split(s[1..], sep);
      if s[0] == sep then [""] + rest
      else [[s[0]] + rest[0]] + rest[1..]
  }

  /** The pieces `parts` glued together with `sep` between neighbours. */
  function Join(parts: seq<string>, sep: char): string
  {
    if |parts| == 0 then ""
    else if |parts| == 1 then parts[0]
    else parts[0] + [sep] + Join(parts[1..], sep)
  }

  /** `s` cut at its first `sep`: the part before it and the part after it. */
  function Cut(s: string, sep: char): (kv: (string, string))
    ensures sep !in kv.0
    ensures sep !in s ==> kv == (s, "")
    decreases |s|
  {
    if |s| == 0 then ("", "")
    else if s[0] == sep then ("", s[1..])
    else
      var rest := Cut(s[1..], sep);
      assert [s[0]] + s[1..] == s;
      ([s[0]] + rest.0, rest.1)
  }

  /** One `key=value` piece of a query. */
  function Pair(key: string, value: string): string
  {
    key + "=" + value
  }

  /** The keys and values a query string carries, in order. */
  function Parse(q: string): seq<(string, string)>
  {
    CutAll(Split(q, '&'))
  }

  function CutAll(pieces: seq<string>): (pairs: seq<(string, string)>)
    ensures |pairs| == |pieces|
    ensures forall i :: 0 <= i < |pieces| ==> pairs[i] == Cut(pieces[i], '=')
  {
    if |pieces| == 0 then [] else [Cut(pieces[0], '=')] + CutAll(pieces[1..])
  }

  /** The value of the first pair whose key is `key`, if there is one. */
  function Lookup(pairs: seq<(string, string)>, key: string): (r: Option<string>)
    ensures r.None? <==> forall i :: 0 <= i < |pairs| ==> pairs[i].0 != key
    ensures r.Some? ==> exists i :: 0 <= i < |pairs| && pairs[i] == (key, r.value)
                                    && forall j :: 0 <= j < i ==> pairs[j].0 != key
  {
    if |pairs| == 0 then None
    else if pairs[0].0 == key then Some(pairs[0].1)
    else Lookup(pairs[1..], key)
  }

  /** Joining four pieces places one separator between each neighbour. */
  lemma JoinFour(a: string, b: string, c: string, d: string, sep: char)
    ensures Join([a, b, c, d], sep) == a + [sep] + b + [sep] + c + [sep] + d
  {
    var ps := [a, b, c, d];
    assert ps[1..] == [b, c, d] && ps[1..][1..] == [c, d] && ps[1..][1..][1..] == [d];
    assert Join([c, d], sep) == c + [sep] + d;
    assert Join([b, c, d], sep) == b + [sep] + (c + [sep] + d);
    assert Join(ps, sep) == a + [sep] + (b + [sep] + (c + [sep] + d));
  }

  /** Regrouping six concatenated strings into four separated pieces. */
  lemma Regroup(x: string, cid: string, y: string, r: string, z: string, st: string,
                p1: string, p2: string, p3: string, p4: string, sep: char)
    requires x + cid == p1 && y + r == [sep] + p2 && z + st == [sep] + p3 + [sep] + p4
    ensures x + cid + y + r + z + st == p1 + [sep] + p2 + [sep] + p3 + [sep] + p4
  {
    calc {
      x + cid + y + r + z + st;
      (x + cid) + (y + r) + (z + st);
      p1 + ([sep] + p2) + ([sep] + p3 + [sep] + p4);
    }
  }

  /**
   A query that starts with two `key=value` pieces free of '&' reads back with
   those two pairs first, whatever follows them.
   */
  lemma {:induction false} ParseTwoFront(k1: string, v1: string, k2: string, v2: string, rest: string)
    requires '=' !in k1 && '=' !in k2
    requires '&' !in Pair(k1, v1) && '&' !in Pair(k2, v2)
    ensures var pairs := Parse(Pair(k1, v1) + "&" + Pair(k2, v2) + "&" + rest);
      |pairs| >= 3 && pairs[0] == (k1, v1) && pairs[1] == (k2, v2)
  {
    var p1, p2 := Pair(k1, v1), Pair(k2, v2);
    assert p1 + "&" + p2 + "&" + rest == p1 + ['&'] + (p2 + ['&'] + rest);
    SplitFront(p1, p2 + ['&'] + rest, '&');
    SplitFront(p2, rest, '&');
    var pieces := Split(p1 + "&" + p2 + "&" + rest, '&');
    assert pieces == [p1, p2] + Split(rest, '&');
    CutPair(k1, v1);
    CutPair(k2, v2);
  }

  /** A `key=value` piece holds a character other than '=' only if its key or value does. */
  lemma PairFree(key: string, value: string, c: char)
    requires c != '=' && c !in key && c !in value
    ensures c !in Pair(key, value)
  {
    var s := Pair(key, value);
    forall i | 0 <= i < |s| ensures s[i] != c {
      if i < |key| {
        assert s[i] == key[i];
      } else if i > |key| {
        assert s[i] == value[i - |key| - 1];
      }
    }
  }

  /** Cutting four `key=value` pieces gives back their four pairs. */
  lemma CutAllFour(k1: string, v1: string, k2: string, v2: string,
                   k3: string, v3: string, k4: string, v4: string)
    requires '=' !in k1 && '=' !in k2 && '=' !in k3 && '=' !in k4
    ensures CutAll([Pair(k1, v1), Pair(k2, v2), Pair(k3, v3), Pair(k4, v4)])
         == [(k1, v1), (k2, v2), (k3, v3), (k4, v4)]
  {
    CutPair(k1, v1);
    CutPair(k2, v2);
    CutPair(k3, v3);
    CutPair(k4, v4);
  }

  /** A query that starts with a `key=value` piece free of '&' gives that value for that key. */
  lemma {:induction false} LookupFront(key: string, value: string, rest: string)
    requires '=' !in key && '&' !in Pair(key, value)
    ensures Lookup(Parse(Pair(key, value) + "&" + rest), key) == Some(value)
  {
    var p := Pair(key, value);
    assert p + "&" + rest == p + ['&'] + rest;
    SplitFront(p, rest, '&');
    CutPair(key, value);
  }

  /** A piece free of the separator splits to itself. */
  lemma {:induction false} SplitWhole(a: string, sep: char)
    requires sep !in a
    ensures Split(a, sep) == [a]
  {
    if |a| > 0 {
      SplitWhole(a[1..], sep);
      assert [a[0]] + a[1..] == a;
    }
  }

  /** Splitting peels off a leading piece that is free of the separator. */
  lemma {:induction false} SplitFront(a: string, b: string, sep: char)
    requires sep !in a
    ensures Split(a + [sep] + b, sep) == [a] + Split(b, sep)
  {
    var s := a + [sep] + b;
    if |a| == 0 {
      assert s == [sep] + b;
      assert s[1..] == b;
    } else {
      assert s[0] == a[0];
      assert s[1..] == a[1..] + [sep] + b;
      SplitFront(a[1..], b, sep);
      assert [a[0]] + a[1..] == a;
    }
  }

  /** Splitting undoes joining when no piece holds the separator. */
  lemma {:induction false} SplitJoin(parts: seq<string>, sep: char)
    requires |parts| >= 1
    requires forall i :: 0 <= i < |parts| ==> sep !in parts[i]
    ensures Split(Join(parts, sep), sep) == parts
  {
    if |parts| == 1 {
      SplitWhole(parts[0], sep);
    } else {
      SplitJoin(parts[1..], sep);
      SplitFront(parts[0], Join(parts[1..], sep), sep);
      assert [parts[0]] + parts[1..] == parts;
    }
  }

  /** Cutting a `key=value` piece gives back the key and the value. */
  lemma {:induction false} CutPair(key: string, value: string)
    requires '=' !in key
    ensures Cut(Pair(key, value), '=') == (key, value)
  {
    var s := Pair(key, value);
    if |key| == 0 {
      assert s == "=" + value;
      assert s[1..] == value;
    } else {
      assert s[0] == key[0];
      assert s[1..] == Pair(key[1..], value);
      CutPair(key[1..], value);
      assert [key[0]] + key[1..] == key;
    }
  }
}
