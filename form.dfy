/**
 * The `key=value&key=value` shape of a form-encoded POST body, and how a
 * receiving backend reads it back: split at every '&', then split each piece
 * at its first '='.
 */
module Form {

  type Field = (string, string)

  /** The pieces of s between the separators (one more piece than separators). */
  function Split(s: string, sep: char): (r: seq<string>)
    ensures |r| >= 1
    decreases |s|
  {
    if s == [] then [""]
    else
      var rest := Split(s[1..], sep);
      if s[0] == sep then [""] + rest else [[s[0]] + rest[0]] + rest[1..]
  }

  /** A piece read as a field: the key before the first '=', the value after it. */
  function KeyValue(piece: string): Field
    decreases |piece|
  {
    if piece == [] then ("", "")
    else if piece[0] == '=' then ("", piece[1..])
    else
      var (k, v) := KeyValue(piece[1..]);
      ([piece[0]] + k, v)
  }

  function KeyValues(pieces: seq<string>): (r: seq<Field>)
    ensures |r| == |pieces|
  {
    if pieces == [] then [] else [KeyValue(pieces[0])] + KeyValues(pieces[1..])
  }

  /** The fields a backend reads out of a body. */
  function Decode(body: string): seq<Field> {
    KeyValues(Split(body, '&'))
  }

  /** The fields after a separator: none when nothing follows. */
  function DecodeTail(rest: string): seq<Field> {
    if rest == [] then [] else Decode(rest[1..])
  }

  function Keys(fields: seq<Field>): (r: seq<string>)
    ensures |r| == |fields|
    ensures forall i :: 0 <= i < |fields| ==> r[i] == fields[i].0
  {
    if fields == [] then [] else [fields[0].0] + Keys(fields[1..])
  }

  lemma {:induction false} SplitWithout(a: string, sep: char)
    requires sep !in a
    ensures Split(a, sep) == [a]
    decreases |a|
  {
    if a != [] {
      SplitWithout(a[1..], sep);
      assert [a[0]] + a[1..] == a;
    }
  }

  lemma {:induction false} SplitAt(a: string, sep: char, b: string)
    requires sep !in a
    ensures Split(a + [sep] + b, sep) == [a] + Split(b, sep)
    decreases |a|
  {
    var s := a + [sep] + b;
    if a == [] {
      assert s[1..] == b;
    } else {
      assert s[1..] == a[1..] + [sep] + b;
      SplitAt(a[1..], sep, b);
      assert [a[0]] + a[1..] == a;
    }
  }

  lemma {:induction false} KeyValueAt(k: string, v: string)
    requires '=' !in k
    ensures KeyValue(k + "=" + v) == (k, v)
    decreases |k|
  {
    var p := k + "=" + v;
    if k == [] {
      assert p[1..] == v;
    } else {
      assert p[1..] == k[1..] + "=" + v;
      KeyValueAt(k[1..], v);
      assert [k[0]] + k[1..] == k;
    }
  }

  /**
   * A body that starts with one plain "key=value" field decodes to that field
   * followed by whatever comes after the next separator.
   */
  lemma DecodeField(key: string, value: string, rest: string)
    requires '&' !in key && '=' !in key && '&' !in value
    requires rest == [] || rest[0] == '&'
    ensures Decode(key + "=" + value + rest) == [(key, value)] + DecodeTail(rest)
  {
    var first := key + "=" + value;
    assert '&' !in first by {
      forall i | 0 <= i < |first| ensures first[i] != '&' {
        if i < |key| { assert first[i] == key[i]; }
        else if i > |key| { assert first[i] == value[i - |key| - 1]; }
      }
    }
    KeyValueAt(key, value);
    if rest == [] {
      assert first + rest == first;
      SplitWithout(first, '&');
    } else {
      assert first + rest == first + ['&'] + rest[1..];
      SplitAt(first, '&', rest[1..]);
      var pieces := [first] + Split(rest[1..], '&');
      assert pieces[1..] == Split(rest[1..], '&');
    }
  }

  /** The body a sender lays out: each field as "key=value", joined by '&'. */
  function Encode(fields: seq<Field>): (r: string)
    ensures fields == [] <==> r == []
  {
    if fields == [] then []
    else if |fields| == 1 then fields[0].0 + "=" + fields[0].1
    else fields[0].0 + "=" + fields[0].1 + ("&" + Encode(fields[1..]))
  }

  /** No key holds '&' or '=', and no value holds '&'. */
  predicate Plain(fields: seq<Field>) {
    forall i :: 0 <= i < |fields| ==> '&' !in fields[i].0 && '=' !in fields[i].0 && '&' !in fields[i].1
  }

  /** A backend reads back every field a sender encoded, in order. */
  lemma {:induction false} DecodeEncode(fields: seq<Field>)
    requires fields != [] && Plain(fields)
    ensures Decode(Encode(fields)) == fields
    decreases |fields|
  {
    var (k, v) := fields[0];
    if |fields| == 1 {
      DecodeField(k, v, []);
      assert Encode(fields) == k + "=" + v + [];
    } else {
      var tail := fields[1..];
      assert Plain(tail) by {
        forall i | 0 <= i < |tail| ensures '&' !in tail[i].0 && '=' !in tail[i].0 && '&' !in tail[i].1 {
          assert tail[i] == fields[i + 1];
        }
      }
      DecodeEncode(tail);
      var rest := "&" + Encode(tail);
      DecodeField(k, v, rest);
      assert rest[1..] == Encode(tail);
      assert fields == [(k, v)] + tail;
    }
  }

  /**
   * Encode read from the front, one '&'-separated field at a time after a
   * text `p` already laid out: the step that turns a format string's
   * expansion into Encode's field list.
   */
  lemma EncodeStep(p: string, sepKey: string, fields: seq<Field>)
    requires |fields| >= 2 && sepKey == "&" + fields[0].0 + "="
    ensures p + ("&" + Encode(fields)) == p + sepKey + fields[0].1 + ("&" + Encode(fields[1..]))
  {
    var v, r := fields[0].1, "&" + Encode(fields[1..]);
    assert Encode(fields) == fields[0].0 + "=" + v + r;
    assert "&" + Encode(fields) == sepKey + v + r;
  }

  lemma EncodeLastStep(p: string, sepKey: string, fields: seq<Field>)
    requires |fields| == 1 && sepKey == "&" + fields[0].0 + "="
    ensures p + ("&" + Encode(fields)) == p + sepKey + fields[0].1
  {
  }

  /** Four `EncodeStep`s in one: the next four fields after `p`, then the rest. */
  lemma EncodeFourSteps(p: string, s1: string, s2: string, s3: string, s4: string, fields: seq<Field>)
    requires |fields| >= 5
    requires s1 == "&" + fields[0].0 + "=" && s2 == "&" + fields[1].0 + "="
    requires s3 == "&" + fields[2].0 + "=" && s4 == "&" + fields[3].0 + "="
    ensures p + ("&" + Encode(fields)) ==
      p + s1 + fields[0].1 + s2 + fields[1].1 + s3 + fields[2].1 + s4 + fields[3].1 + ("&" + Encode(fields[4..]))
  {
    var p1 := p + s1 + fields[0].1;
    var p2 := p1 + s2 + fields[1].1;
    var p3 := p2 + s3 + fields[2].1;
    EncodeStep(p, s1, fields);
    EncodeStep(p1, s2, fields[1..]);
    EncodeStep(p2, s3, fields[2..]);
    EncodeStep(p3, s4, fields[3..]);
    assert fields[3..][1..] == fields[4..];
  }

  /** The last three fields after `p`. */
  lemma EncodeLastThree(p: string, s1: string, s2: string, s3: string, fields: seq<Field>)
    requires |fields| == 3
    requires s1 == "&" + fields[0].0 + "=" && s2 == "&" + fields[1].0 + "=" && s3 == "&" + fields[2].0 + "="
    ensures p + ("&" + Encode(fields)) == p + s1 + fields[0].1 + s2 + fields[1].1 + s3 + fields[2].1
  {
    var p1 := p + s1 + fields[0].1;
    EncodeStep(p, s1, fields);
    EncodeStep(p1, s2, fields[1..]);
    EncodeLastStep(p1 + s2 + fields[1].1, s3, fields[2..]);
  }

  /** The last two fields after `p`. */
  lemma EncodeLastTwo(p: string, s1: string, s2: string, fields: seq<Field>)
    requires |fields| == 2
    requires s1 == "&" + fields[0].0 + "=" && s2 == "&" + fields[1].0 + "="
    ensures p + ("&" + Encode(fields)) == p + s1 + fields[0].1 + s2 + fields[1].1
  {
    EncodeStep(p, s1, fields);
    EncodeLastStep(p + s1 + fields[0].1, s2, fields[1..]);
  }
}
